/** What the codec guarantees, for every envelope and every frame. */
module CodecTheorems {
  import opened Prelude
  import opened Json
  import opened Codec

  /** Enough to tell two field names apart. */
  predicate Differ(a: string, b: string)
  {
    |a| != |b| || (|a| > 0 && a[0] != b[0]) || (|a| > 10 && a[10] != b[10]) || (|a| > 1 && a[1] != b[1])
  }

  lemma NamesDistinct(t: MessageType)
    requires t != THello
    ensures Distinct(Names(t))
  {
    var n := Names(t);
    forall i, j | 0 <= i < j < |n| ensures n[i] != n[j] { assert Differ(n[i], n[j]); }
  }

  lemma HelloNamesDistinct()
    ensures Distinct(Names(THello))
  {
    var n := Names(THello);
    forall i, j | 0 <= i < j < |n| ensures n[i] != n[j] { assert Differ(n[i], n[j]); }
  }

  lemma EnvelopeNamesDistinct()
    ensures Distinct(ENVELOPE_NAMES) && Distinct(SESSION_NAMES)
  {
    var n := ENVELOPE_NAMES;
    forall i, j | 0 <= i < j < |n| ensures n[i] != n[j] { assert Differ(n[i], n[j]); }
  }

  // ----- Bodies -----

  lemma SessionRoundTrip(s: HelloSession)
    ensures ReadSession(WriteSession(s)) == Some(s)
  {
    EnvelopeNamesDistinct();
    FieldsRoundTrip(SESSION_NAMES, [Some(Str(s.name)), Some(Str(s.harness))]);
  }

  lemma SessionsRoundTrip(ss: seq<HelloSession>)
    ensures ReadSessions(WriteSessions(ss)) == Some(ss)
  {
    if ss != [] {
      var items := WriteSessions(ss).value.items;
      forall i | 0 <= i < |ss| ensures ReadSession(items[i]) == Some(ss[i]) { SessionRoundTrip(ss[i]); }
      assert ReadSessions(WriteSessions(ss)).value == ss;
    }
  }

  lemma HelloLists(b: Body)
    requires b.Hello?
    ensures var f := Values(b);
            && TextsOrNone(f[7]) == Some(b.harnesses) && TextsOrNone(f[8]) == Some(b.harnessesKnown)
            && TextsOrNone(f[9]) == Some(b.harnessesConfirmed) && TextsOrNone(f[10]) == Some(b.features)
            && ReadSessions(f[11]) == Some(b.helloSessions)
  {
    TextsRoundTrip(b.harnesses);
    TextsRoundTrip(b.harnessesKnown);
    TextsRoundTrip(b.harnessesConfirmed);
    TextsRoundTrip(b.features);
    SessionsRoundTrip(b.helloSessions);
  }

  lemma HelloScalars(b: Body)
    requires b.Hello?
    ensures var f := Values(b);
            && Word(f[0]) == Some(b.protocol) && Word(f[1]) == Some(b.protocolMin) && Word(f[2]) == Some(b.protocolMax)
            && ReadRole(f[3]) == Some(b.role) && Text(f[4]) == Some(b.host)
            && MaybeText(f[5]) == Some(b.tokenId) && MaybeText(f[6]) == Some(b.client)
  {
    RoleRoundTrip(b.role);
  }

  lemma HelloRoundTrip(b: Body)
    requires b.Hello?
    ensures BuildHello(Values(b)) == Some(b)
  {
    HelloScalars(b);
    HelloLists(b);
  }

  lemma RoleRoundTrip(r: Role)
    ensures ReadRole(Some(Str(RoleName(r)))) == Some(r)
  {
    assert "client"[0] != "server"[0];
  }

  /** The bodies that are text and flags throughout. */
  predicate Plain(b: Body)
  {
    !b.Hello? && !b.Query? && !b.QueryOk? && !b.Prompt? && !b.Reply?
  }

  lemma BuildPlain(b: Body)
    requires Plain(b)
    ensures Build(TypeOf(b), Values(b)) == Some(b)
  {
  }

  lemma BuildReply(b: Body)
    requires b.Reply?
    ensures Build(TReply, Values(b)) == Some(b)
  {
    TextsRoundTrip(b.chunks);
  }

  lemma BuildQuery(b: Body)
    requires b.Query?
    ensures Build(TQuery, Values(b)) == Some(b)
  {
    TextsRoundTrip(b.args);
  }

  lemma BuildPrompt(b: Body)
    requires b.Prompt?
    ensures Build(TPrompt, Values(b)) == Some(b) <==> b.meta != Some(Null)
  {
  }

  /** Field by field, a body is rebuilt from its own values, unless it is a prompt with an explicit null. */
  lemma BuildValues(b: Body)
    requires !b.QueryOk?
    ensures Build(TypeOf(b), Values(b)) == Some(b) <==> !(b.Prompt? && b.meta == Some(Null))
  {
    if b.Hello? { HelloRoundTrip(b); }
    else if b.Query? { BuildQuery(b); }
    else if b.Prompt? { BuildPrompt(b); }
    else if b.Reply? { BuildReply(b); }
    else { BuildPlain(b); }
  }

  lemma MakeOne(name: string, v: Json)
    ensures MakeFields([name], [Some(v)]) == map[name := v]
  {
    assert [name][..0] == [] && [Some(v)][..0] == [];
  }

  /** A flattened body comes back unless its open part is not an object, or has a `cmd` of its own. */
  lemma FlattenedRoundTrip(b: Body)
    requires b.QueryOk? && WriteBody(b).Some?
    ensures ReadBody(TQueryOk, WriteBody(b).value) == Some(b) <==> b.rest.Obj? && "cmd" !in b.rest.fields
  {
    var own := MakeFields(Names(TQueryOk), Values(b));
    MakeOne("cmd", Str(b.cmd));
    assert own == map["cmd" := Str(b.cmd)];
    var fields := WriteBody(b).value.fields;
    if b.rest.Obj? {
      var m := b.rest.fields;
      assert fields == own + m;
      if "cmd" !in m {
        assert fields["cmd"] == Str(b.cmd);
        assert fields - {"cmd"} == m;
      } else {
        assert "cmd" !in fields - {"cmd"};
      }
    }
  }

  /** Whatever is read under a type is a body of that type. */
  lemma ReadBodyType(t: MessageType, j: Json)
    requires ReadBody(t, j).Some?
    ensures TypeOf(ReadBody(t, j).value) == t
  {
    if t != TQueryOk { BuildType(t, Fields(j, Names(t)).value); }
  }

  lemma BuildType(t: MessageType, f: seq<Option<Json>>)
    requires |f| == |Names(t)| && t != TQueryOk && Build(t, f).Some?
    ensures TypeOf(Build(t, f).value) == t
  {
    if t == THello {
      assert BuildHello(f).value.Hello?;
    }
  }

  /** What the wire can carry: open parts that survive flattening, and no explicit null for an absent value. */
  predicate Portable(b: Body)
  {
    && (b.QueryOk? ==> b.rest.Obj? && "cmd" !in b.rest.fields)
    && (b.Prompt? ==> b.meta != Some(Null))
  }

  lemma BodyRoundTrip(b: Body)
    requires WriteBody(b).Some?
    ensures ReadBody(TypeOf(b), WriteBody(b).value) == Some(b) <==> Portable(b)
  {
    if b.QueryOk? {
      FlattenedRoundTrip(b);
    } else {
      var t := TypeOf(b);
      if t == THello { HelloNamesDistinct(); } else { NamesDistinct(t); }
      FieldsRoundTrip(Names(t), Values(b));
      BuildValues(b);
    }
  }

  // ----- Envelopes -----

  /** The fields are those of an envelope with this version number, type, addressing and body. */
  predicate Spells(m: map<string, Json>, n: int, t: MessageType, id: string, ts: string, sender: string, body: Json)
  {
    && Get(m, "v") == Some(Int(n)) && Get(m, "type") == Some(Str(AsWire(t))) && Get(m, "id") == Some(Str(id))
    && Get(m, "ts") == Some(Str(ts)) && Get(m, "from") == Some(Str(sender)) && Get(m, "body") == Some(body)
  }

  /** What decoding makes of such fields. */
  function Understood(n: int, t: MessageType, id: string, ts: string, sender: string, body: Json): (r: Decoded)
  {
    if Truncate(n) != 1 then UnsupportedVersion(Truncate(n))
    else
      var b := ReadBody(t, body);
      if b.None? then Malformed else Ok(Envelope(1, t, id, ts, sender, b.value))
  }

  lemma SpeltIsUnderstood(m: map<string, Json>, n: int, t: MessageType, id: string, ts: string, sender: string,
    body: Json)
    requires Spells(m, n, t, id, ts, sender, body) && 0 <= n < TWO_64
    ensures Decode(Some(Obj(m))) == Understood(n, t, id, ts, sender, body)
  {
    WireNames(t, AsWire(t));
  }

  lemma EncodedSpells(e: Envelope)
    requires WriteBody(e.body).Some?
    ensures Encode(e).Some? && Encode(e).value.Obj?
    ensures Spells(Encode(e).value.fields, e.v, e.msgType, e.id, e.ts, e.sender, WriteBody(e.body).value)
  {
    var values := [Some(Int(e.v)), Some(Str(AsWire(e.msgType))), Some(Str(e.id)), Some(Str(e.ts)), Some(Str(e.sender)),
      WriteBody(e.body)];
    EnvelopeNamesDistinct();
    MakeFieldsGet(ENVELOPE_NAMES, values);
    var m := MakeFields(ENVELOPE_NAMES, values);
    assert Get(m, ENVELOPE_NAMES[0]) == values[0] && Get(m, ENVELOPE_NAMES[1]) == values[1] &&
           Get(m, ENVELOPE_NAMES[2]) == values[2];
    assert Get(m, ENVELOPE_NAMES[3]) == values[3] && Get(m, ENVELOPE_NAMES[4]) == values[4] &&
           Get(m, ENVELOPE_NAMES[5]) == values[5];
  }

  /** A written envelope is read back field by field, up to its version and body. */
  lemma DecodeEncoded(e: Envelope)
    requires WriteBody(e.body).Some?
    ensures Encode(e).Some?
    ensures Decode(Encode(e)) == Understood(e.v, e.msgType, e.id, e.ts, e.sender, WriteBody(e.body).value)
  {
    EncodedSpells(e);
    SpeltIsUnderstood(Encode(e).value.fields, e.v, e.msgType, e.id, e.ts, e.sender, WriteBody(e.body).value);
  }

  /**
   The round trip, exactly: decoding the encoding of an envelope gives it back if and only if its
   version is 1, its type is its body's, and its body is one the wire can carry.
   */
  lemma RoundTripIff(e: Envelope)
    ensures Encode(e).Some? && Decode(Encode(e)) == Ok(e) <==>
              e.v == 1 && e.msgType == TypeOf(e.body) && Portable(e.body)
  {
    if WriteBody(e.body).Some? {
      DecodeEncoded(e);
      if e.msgType == TypeOf(e.body) {
        BodyRoundTrip(e.body);
      } else if ReadBody(e.msgType, WriteBody(e.body).value).Some? {
        ReadBodyType(e.msgType, WriteBody(e.body).value);
      }
    }
  }

  // ----- Failure classes -----

  predicate HasType(frame: Option<Json>, s: string)
  {
    frame.Some? && frame.value.Obj? && Get(frame.value.fields, "type") == Some(Str(s))
  }

  /** Every envelope field is there and has its type; the body may be anything. */
  predicate Complete(frame: Option<Json>)
  {
    && frame.Some? && frame.value.Obj?
    && var m := frame.value.fields;
    && AsU64(Get(m, "v")).Some? && Text(Get(m, "id")).Some? && Text(Get(m, "ts")).Some? &&
      Text(Get(m, "from")).Some? && "body" in m
  }

  /**
   The classes of failure, in their order: an unknown type is reported before any other field is looked
   at; a version only once the envelope is complete, and before the body is; a body last.
   */
  lemma DecodeClasses(frame: Option<Json>)
    ensures Decode(frame).UnknownType? <==> exists s :: HasType(frame, s) && forall t :: s != AsWire(t)
    ensures Decode(frame).UnsupportedVersion? <==>
              exists t :: HasType(frame, AsWire(t)) && Complete(frame) &&
                Truncate(AsU64(Get(frame.value.fields, "v")).value) != 1
    ensures Decode(frame).Ok? <==>
              exists t :: HasType(frame, AsWire(t)) && Complete(frame) &&
                Truncate(AsU64(Get(frame.value.fields, "v")).value) == 1
                          && ReadBody(t, frame.value.fields["body"]).Some?
  {
    if frame.Some? && frame.value.Obj? && Text(Get(frame.value.fields, "type")).Some? {
      var s := Text(Get(frame.value.fields, "type")).value;
      assert HasType(frame, s);
      forall t ensures FromWire(s) == Some(t) <==> s == AsWire(t) { WireNames(t, s); }
    }
  }

  /** The version is compared after a cast to 32 bits: an accepted frame's version is 1 modulo 2^32, not always 1. */
  lemma VersionIsTruncated(e: Envelope, k: nat)
    requires e.v == 1 && e.msgType == TypeOf(e.body) && Portable(e.body) && k < TWO_32
    ensures Encode(e).Some?
    ensures Decode(Some(Obj(Encode(e).value.fields["v" := Int(1 + k * TWO_32)]))) == Ok(e)
  {
    var n, body := 1 + k * TWO_32, WriteBody(e.body).value;
    EncodedSpells(e);
    var m := Encode(e).value.fields["v" := Int(n)];
    OtherKeys("v");
    SpeltIsUnderstood(m, n, e.msgType, e.id, e.ts, e.sender, body);
    BodyRoundTrip(e.body);
  }

  lemma OtherKeys(v: string)
    requires v == "v"
    ensures v != "id" && v != "ts" && v != "type" && v != "from" && v != "body"
  {
  }

  // ----- What the reader tolerates -----

  /** A key the type does not know is ignored, wherever the body is not an open one. */
  lemma UnknownKeysIgnored(t: MessageType, fields: map<string, Json>, key: string, value: Json)
    requires t != TQueryOk && key !in Names(t)
    ensures ReadBody(t, Obj(fields[key := value])) == ReadBody(t, Obj(fields))
  {
    var names := Names(t);
    assert forall i | 0 <= i < |names| :: Get(fields[key := value], names[i]) == Get(fields, names[i]);
    assert Fields(Obj(fields[key := value]), names).value == Fields(Obj(fields), names).value;
  }

  /**
   Nothing in a body but an object or an array is ever read; an array is read by position, up to the
   number of fields.
   */
  lemma ArrayBodiesAreRead(t: MessageType, items: seq<Json>)
    requires t != TQueryOk
    ensures |items| > |Names(t)| ==> ReadBody(t, Arr(items)).None?
    ensures |items| <= |Names(t)| ==>
              ReadBody(t, Arr(items)) == ReadBody(t, Obj(MakeFields(Names(t), Fields(Arr(items), Names(t)).value)))
  {
    if |items| <= |Names(t)| {
      if t == THello { HelloNamesDistinct(); } else { NamesDistinct(t); }
      FieldsRoundTrip(Names(t), Fields(Arr(items), Names(t)).value);
    }
  }
}
