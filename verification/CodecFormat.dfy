/** The wire format key by key, as written and as read: no table of names in between. */
module CodecFormat {
  import opened Prelude
  import opened Json
  import opened Codec
  import opened CodecTheorems

  /** The sixteen names of the types. */
  lemma TypeNames(t: MessageType)
    ensures match t
            case TJoin => AsWire(t) == "join"
            case TJoinOk => AsWire(t) == "join_ok"
            case TAuth => AsWire(t) == "auth"
            case THello => AsWire(t) == "hello"
            case TQuery => AsWire(t) == "query"
            case TQueryOk => AsWire(t) == "query_ok"
            case TPrompt => AsWire(t) == "prompt"
            case TReply => AsWire(t) == "reply"
            case TInterrupt => AsWire(t) == "interrupt"
            case TAnswer => AsWire(t) == "answer"
            case TPresence => AsWire(t) == "presence"
            case TSessionBlocked => AsWire(t) == "session_blocked"
            case TPing => AsWire(t) == "ping"
            case TPong => AsWire(t) == "pong"
            case TAck => AsWire(t) == "ack"
            case TError => AsWire(t) == "error"
  {
  }

  // ----- Field types -----

  /** What each type of field accepts, and as what. */
  lemma FieldTypes(v: Json)
    ensures Text(None) == None && Text(Some(v)) == match v case Str(s) => Some(s) case _ => None
    ensures Flag(None) == None && Flag(Some(v)) == match v case Bool(b) => Some(b) case _ => None
    ensures FlagOrFalse(None) == Some(false) && FlagOrFalse(Some(v)) == Flag(Some(v))
    ensures MaybeText(None) == Some(None)
    ensures MaybeText(Some(v)) == match v case Null => Some(None) case Str(s) => Some(Some(s)) case _ => None
    ensures MaybeAny(None) == Some(None) && MaybeAny(Some(v)) == if v == Null then Some(None) else Some(Some(v))
    ensures Items(None) == None && Items(Some(v)) == match v case Arr(items) => Some(items) case _ => None
  {
  }

  /** The ranges of numbers: 32 bits unsigned, 64 bits signed, 64 bits unsigned. */
  lemma NumberRanges(n: int)
    ensures Word(Some(Int(n))) == if 0 <= n <= 4294967295 then Some(n) else None
    ensures MaybeLong(Some(Int(n))) == if -9223372036854775808 <= n <= 9223372036854775807 then Some(Some(n)) else None
    ensures AsU64(Some(Int(n))) == if 0 <= n <= 18446744073709551615 then Some(n) else None
    ensures Word(None) == None && MaybeLong(None) == Some(None) && MaybeLong(Some(Null)) == Some(None) &&
            AsU64(None) == None
    ensures n >= 0 ==> Truncate(n) == n % 4294967296
  {
  }

  /** A list of texts is read item by item, all or nothing; a missing one is empty. */
  lemma TextLists(items: seq<Json>)
    ensures TextsOrNone(None) == Some([])
    ensures TextsOrNone(Some(Arr(items))).Some? <==> forall i | 0 <= i < |items| :: items[i].Str?
    ensures TextsOrNone(Some(Arr(items))).Some? ==>
              |TextsOrNone(Some(Arr(items))).value| == |items| &&
              forall i | 0 <= i < |items| :: items[i] == Str(TextsOrNone(Some(Arr(items))).value[i])
    ensures |TextArray([]).items| == 0
  {
  }

  /** A role is one of two names, or an object with that one name over nothing. */
  lemma Roles(v: Json)
    ensures ReadRole(None) == None
    ensures ReadRole(Some(v)) == Some(Client) <==> v == Str("client") || v == Obj(map["client" := Null])
    ensures ReadRole(Some(v)) == Some(Server) <==> v == Str("server") || v == Obj(map["server" := Null])
    ensures RoleName(Client) == "client" && RoleName(Server) == "server"
  {
    assert "client"[0] != "server"[0];
    assert "client" in map["client" := Null] && "client" !in map["server" := Null];
  }

  // ----- Reading -----

  /** The value under a key must be a text. */
  function At(m: map<string, Json>, key: string): (s: Option<string>)
  {
    if key in m && m[key].Str? then Some(m[key].s) else None
  }

  /** An optional text under a key: absent, null, or a text. */
  function AtMost(m: map<string, Json>, key: string): (s: Option<Option<string>>)
  {
    if key !in m || m[key] == Null then Some(None) else if m[key].Str? then Some(Some(m[key].s)) else None
  }

  /** What is read of each body, by its keys; with one missing or mistyped there is no body. */
  lemma JoinRead(m: map<string, Json>)
    ensures ReadBody(TJoin, Obj(m)) ==
            if At(m, "secret").Some? && At(m, "hostname").Some?
            then Some(Join(At(m, "secret").value, At(m, "hostname").value)) else None
  {
  }

  lemma JoinOkRead(m: map<string, Json>)
    ensures ReadBody(TJoinOk, Obj(m)) ==
            if At(m, "client_id").Some? && At(m, "credential").Some?
            then Some(JoinOk(At(m, "client_id").value, At(m, "credential").value)) else None
  {
  }

  lemma InterruptRead(m: map<string, Json>)
    ensures ReadBody(TInterrupt, Obj(m)) ==
            if At(m, "session").Some? then Some(Interrupt(At(m, "session").value)) else None
  {
  }

  lemma AnswerRead(m: map<string, Json>)
    ensures ReadBody(TAnswer, Obj(m)) ==
            if At(m, "session").Some? && At(m, "choice").Some?
            then Some(Answer(At(m, "session").value, At(m, "choice").value)) else None
  {
  }

  lemma PingRead(m: map<string, Json>)
    ensures ReadBody(TPing, Obj(m)) ==
            if AtMost(m, "hostname").Some? then Some(Ping(AtMost(m, "hostname").value)) else None
  {
  }

  lemma PongRead(m: map<string, Json>)
    ensures ReadBody(TPong, Obj(m)) ==
            if AtMost(m, "hostname").Some? then Some(Pong(AtMost(m, "hostname").value)) else None
  {
  }

  lemma AckRead(m: map<string, Json>)
    ensures ReadBody(TAck, Obj(m)) == if AtMost(m, "of").Some? then Some(Ack(AtMost(m, "of").value)) else None
  {
  }

  lemma ErrorRead(m: map<string, Json>)
    ensures ReadBody(TError, Obj(m)) ==
            if At(m, "code").Some? && AtMost(m, "cmd").Some? && AtMost(m, "message").Some?
            then Some(Error(At(m, "code").value, AtMost(m, "cmd").value, AtMost(m, "message").value)) else None
  {
  }

  lemma AuthRead(m: map<string, Json>)
    ensures ReadBody(TAuth, Obj(m)) == if "credential" in m then Some(Auth(m["credential"])) else None
  {
  }

  lemma PresenceRead(m: map<string, Json>)
    ensures ReadBody(TPresence, Obj(m)) ==
            if "sessions" in m && m["sessions"].Arr? then Some(Presence(m["sessions"].items)) else None
  {
  }

  lemma SessionBlockedRead(m: map<string, Json>)
    ensures ReadBody(TSessionBlocked, Obj(m)) ==
            if At(m, "session").Some? && "blocked" in m && m["blocked"].Bool?
            then Some(SessionBlocked(At(m, "session").value, m["blocked"].b)) else None
  {
  }

  lemma PromptRead(m: map<string, Json>)
    ensures ReadBody(TPrompt, Obj(m)) ==
            if At(m, "session").Some? && At(m, "text").Some?
            then Some(Prompt(At(m, "session").value, At(m, "text").value,
                             if "meta" in m && m["meta"] != Null then Some(m["meta"]) else None)) else None
  {
  }

  lemma QueryRead(m: map<string, Json>)
    ensures ReadBody(TQuery, Obj(m)) ==
            if At(m, "cmd").Some? && TextsOrNone(Get(m, "args")).Some?
            then Some(Query(At(m, "cmd").value, TextsOrNone(Get(m, "args")).value)) else None
  {
  }

  lemma QueryOkRead(m: map<string, Json>)
    ensures ReadBody(TQueryOk, Obj(m)) ==
            if At(m, "cmd").Some? then Some(QueryOk(At(m, "cmd").value, Obj(m - {"cmd"}))) else None
  {
  }

  /** A reply needs a session; everything else in it has a default. */
  lemma ReplyRead(m: map<string, Json>)
    ensures var chunks, done, exit :=
            TextsOrNone(Get(m, "chunks")), FlagOrFalse(Get(m, "done")), MaybeLong(Get(m, "exit"));
            ReadBody(TReply, Obj(m)) ==
            if At(m, "session").Some? && AtMost(m, "text").Some? && chunks.Some? && done.Some? && exit.Some?
            then Some(Reply(At(m, "session").value, AtMost(m, "text").value, chunks.value, done.value, exit.value))
              else None
  {
  }

  /** A greeting needs its three versions, its role and its host name; everything else in it has a default. */
  lemma HelloRead(m: map<string, Json>, b: Body)
    requires ReadBody(THello, Obj(m)) == Some(b)
    ensures b.Hello?
    ensures Word(Get(m, "protocol")) == Some(b.protocol) && Word(Get(m, "protocol_min")) == Some(b.protocolMin)
    ensures Word(Get(m, "protocol_max")) == Some(b.protocolMax) && ReadRole(Get(m, "role")) == Some(b.role)
    ensures At(m, "hostname") == Some(b.host)
    ensures AtMost(m, "token_id") == Some(b.tokenId) && AtMost(m, "client_id") == Some(b.client)
    ensures TextsOrNone(Get(m, "harnesses")) == Some(b.harnesses)
    ensures TextsOrNone(Get(m, "harnesses_known")) == Some(b.harnessesKnown)
    ensures TextsOrNone(Get(m, "harnesses_confirmed")) == Some(b.harnessesConfirmed)
    ensures TextsOrNone(Get(m, "features")) == Some(b.features)
    ensures ReadSessions(Get(m, "sessions")) == Some(b.helloSessions)
  {
  }

  /** And whatever has all that is a greeting. */
  lemma HelloAccepted(m: map<string, Json>)
    requires Word(Get(m, "protocol")).Some? && Word(Get(m, "protocol_min")).Some? && Word(Get(m, "protocol_max")).Some?
    requires ReadRole(Get(m, "role")).Some? && At(m, "hostname").Some?
    requires AtMost(m, "token_id").Some? && AtMost(m, "client_id").Some?
    requires TextsOrNone(Get(m, "harnesses")).Some? && TextsOrNone(Get(m, "harnesses_known")).Some?
    requires TextsOrNone(Get(m, "harnesses_confirmed")).Some? && TextsOrNone(Get(m, "features")).Some?
    requires ReadSessions(Get(m, "sessions")).Some?
    ensures ReadBody(THello, Obj(m)).Some?
  {
  }

  /** A session in a greeting is a name and a harness. */
  lemma SessionRead(m: map<string, Json>)
    ensures ReadSession(Obj(m)) ==
            if At(m, "name").Some? && At(m, "harness").Some?
            then Some(HelloSession(At(m, "name").value, At(m, "harness").value)) else None
    ensures ReadSessions(None) == Some([])
  {
  }

  /** An array body gives its items to the keys in their order. */
  lemma ArraysRead(a: string, b: string)
    ensures ReadBody(TAnswer, Arr([Str(a), Str(b)])) == Some(Answer(a, b))
    ensures ReadBody(TAnswer, Arr([Str(a), Str(b), Null])) == None
    ensures ReadBody(TError, Arr([Str(a), Str(b)])) == Some(Error(a, Some(b), None))
    ensures ReadBody(TAnswer, Null) == None
  {
  }

  // ----- Writing -----

  /** The object has these values under these keys, those without a value left out, and no other key. */
  predicate Spelt(m: map<string, Json>, keys: seq<string>, values: seq<Option<Json>>)
  {
    && |keys| == |values|
    && (forall i | 0 <= i < |keys| :: Get(m, keys[i]) == values[i])
    && forall key <- m :: key in keys
  }

  function MaybeStr(s: Option<string>): (v: Option<Json>)
  {
    match s
    case Some(t) => Some(Str(t))
    case None => None
  }

  /** A list that is left out when empty. */
  function NonEmpty(ss: seq<string>): (v: Option<Json>)
  {
    if |ss| == 0 then None else Some(TextArray(ss))
  }

  /** The body is written as an object with these values under these keys. */
  predicate Written(b: Body, keys: seq<string>, values: seq<Option<Json>>)
  {
    WriteBody(b).Some? && WriteBody(b).value.Obj? && Spelt(WriteBody(b).value.fields, keys, values)
  }

  /** What is written of each body: first the credentials. */
  lemma JoinWritten(s: string, h: string)
    ensures Written(Join(s, h), ["secret", "hostname"],
                    [Some(Str(s)), Some(Str(h))])
  {
    SpeltByTable(Join(s, h));
  }

  lemma JoinOkWritten(c: string, k: string)
    ensures Written(JoinOk(c, k), ["client_id", "credential"],
                    [Some(Str(c)), Some(Str(k))])
  {
    SpeltByTable(JoinOk(c, k));
  }

  lemma AuthWritten(p: Json)
    ensures Written(Auth(p), ["credential"],
                    [Some(p)])
  {
    SpeltByTable(Auth(p));
  }

  /** A prompt, and what the server sends beside it. */
  lemma PromptWritten(s: string, t: string, x: Option<Json>)
    ensures Written(Prompt(s, t, x), ["session", "text", "meta"],
                    [Some(Str(s)), Some(Str(t)), x])
  {
    SpeltByTable(Prompt(s, t, x));
  }

  lemma InterruptWritten(s: string)
    ensures Written(Interrupt(s), ["session"],
                    [Some(Str(s))])
  {
    SpeltByTable(Interrupt(s));
  }

  lemma AnswerWritten(s: string, c: string)
    ensures Written(Answer(s, c), ["session", "choice"],
                    [Some(Str(s)), Some(Str(c))])
  {
    SpeltByTable(Answer(s, c));
  }

  /** A reply: only what there is, and always whether it is final. */
  lemma ReplyWritten(s: string, t: Option<string>, chunks: seq<string>, d: bool, x: Option<I64>)
    ensures Written(Reply(s, t, chunks, d, x), ["session", "text", "chunks", "done", "exit"],
                    [Some(Str(s)), MaybeStr(t), NonEmpty(chunks), Some(Bool(d)),
                     if x.Some? then Some(Int(x.value)) else None])
  {
    SpeltByTable(Reply(s, t, chunks, d, x));
  }

  /** A query, whose arguments are always there, and an error. */
  lemma QueryWritten(c: string, args: seq<string>)
    ensures Written(Query(c, args), ["cmd", "args"],
                    [Some(Str(c)), Some(TextArray(args))])
  {
    SpeltByTable(Query(c, args));
  }

  lemma ErrorWritten(c: string, cmd: Option<string>, x: Option<string>)
    ensures Written(Error(c, cmd, x), ["code", "cmd", "message"],
                    [Some(Str(c)), MaybeStr(cmd), MaybeStr(x)])
  {
    SpeltByTable(Error(c, cmd, x));
  }

  /** The sessions of a client. */
  lemma PresenceWritten(ss: seq<Json>)
    ensures Written(Presence(ss), ["sessions"],
                    [Some(Arr(ss))])
  {
    SpeltByTable(Presence(ss));
  }

  lemma SessionBlockedWritten(s: string, x: bool)
    ensures Written(SessionBlocked(s, x), ["session", "blocked"],
                    [Some(Str(s)), Some(Bool(x))])
  {
    SpeltByTable(SessionBlocked(s, x));
  }

  /** Pings, pongs and acks. */
  lemma PingWritten(h: Option<string>)
    ensures Written(Ping(h), ["hostname"],
                    [MaybeStr(h)])
  {
    SpeltByTable(Ping(h));
  }

  lemma PongWritten(h: Option<string>)
    ensures Written(Pong(h), ["hostname"],
                    [MaybeStr(h)])
  {
    SpeltByTable(Pong(h));
  }

  lemma AckWritten(h: Option<string>)
    ensures Written(Ack(h), ["of"],
                    [MaybeStr(h)])
  {
    SpeltByTable(Ack(h));
  }

  lemma SpeltByTable(b: Body)
    requires !b.QueryOk?
    ensures Written(b, Names(TypeOf(b)), Values(b))
  {
    var t := TypeOf(b);
    if t == THello { HelloNamesDistinct(); } else { NamesDistinct(t); }
    MakeFieldsGet(Names(t), Values(b));
  }

  /** What is written of a greeting. */
  lemma HelloWritten(b: Body)
    requires b.Hello?
    ensures Written(b,
                  ["protocol", "protocol_min", "protocol_max", "role", "hostname", "token_id", "client_id", "harnesses",
                   "harnesses_known", "harnesses_confirmed", "features", "sessions"],
                  [Some(Int(b.protocol)), Some(Int(b.protocolMin)), Some(Int(b.protocolMax)),
                    Some(Str(RoleName(b.role))),
                   Some(Str(b.host)), MaybeStr(b.tokenId), MaybeStr(b.client), NonEmpty(b.harnesses),
                   NonEmpty(b.harnessesKnown), NonEmpty(b.harnessesConfirmed), NonEmpty(b.features),
                   WriteSessions(b.helloSessions)])
  {
    SpeltByTable(b);
  }

  /**
   A flattened body: its fields beside `cmd`, which they override; nothing can be written beside
   anything but an object.
   */
  lemma FlattenedWritten(c: string, m: map<string, Json>)
    ensures WriteBody(QueryOk(c, Obj(m))) == Some(Obj(if "cmd" in m then m else m["cmd" := Str(c)]))
    ensures WriteBody(QueryOk(c, Null)) == Some(Obj(map["cmd" := Str(c)]))
    ensures WriteBody(QueryOk(c, Str(c))) == None && WriteBody(QueryOk(c, Arr([]))) == None
  {
    MakeOne("cmd", Str(c));
    assert map["cmd" := Str(c)] + m == if "cmd" in m then m else m["cmd" := Str(c)];
  }

  /** An envelope is six keys. */
  lemma EnvelopeWritten(e: Envelope)
    requires WriteBody(e.body).Some?
    ensures Encode(e).Some? && Encode(e).value.Obj?
    ensures Spelt(Encode(e).value.fields, ["v", "type", "id", "ts", "from", "body"],
                  [Some(Int(e.v)), Some(Str(AsWire(e.msgType))), Some(Str(e.id)), Some(Str(e.ts)), Some(Str(e.sender)),
                   WriteBody(e.body)])
  {
    EnvelopeNamesDistinct();
    MakeFieldsGet(ENVELOPE_NAMES,
                  [Some(Int(e.v)), Some(Str(AsWire(e.msgType))), Some(Str(e.id)), Some(Str(e.ts)), Some(Str(e.sender)),
                   WriteBody(e.body)]);
  }
}
