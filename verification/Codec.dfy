/** Protocol v1 envelopes and their codec (src/proto/mod.rs:46-356, 391-685), at the level of JSON trees. */
module Codec {
  import opened Prelude
  import opened Json

  datatype MessageType =
    | TJoin | TJoinOk | TAuth | THello | TQuery | TQueryOk | TPrompt | TReply
    | TInterrupt | TAnswer | TPresence | TSessionBlocked | TPing | TPong | TAck | TError

  datatype Role = Client | Server

  datatype HelloSession = HelloSession(name: string, harness: string)

  datatype Body =
    | Join(secret: string, hostname: string)
    | JoinOk(clientId: string, credential: string)
    | Auth(proof: Json)
    | Hello(
        protocol: U32, protocolMin: U32, protocolMax: U32, role: Role, host: string, tokenId: Option<string>,
        client: Option<string>,
        harnesses: seq<string>, harnessesKnown: seq<string>, harnessesConfirmed: seq<string>, features: seq<string>,
        helloSessions: seq<HelloSession>)
    | Query(cmd: string, args: seq<string>)
    | QueryOk(cmd: string, rest: Json)
    | Prompt(session: string, prompt: string, meta: Option<Json>)
    | Reply(session: string, text: Option<string>, chunks: seq<string>, done: bool, exit: Option<I64>)
    | Interrupt(session: string)
    | Answer(session: string, choice: string)
    | Presence(sessions: seq<Json>)
    | SessionBlocked(session: string, blocked: bool)
    | Ping(from: Option<string>)
    | Pong(from: Option<string>)
    | Ack(acked: Option<string>)
    | Error(code: string, errorCmd: Option<string>, message: Option<string>)

  datatype Envelope = Envelope(v: U32, msgType: MessageType, id: string, ts: string, sender: string, body: Body)

  function TypeOf(b: Body): (t: MessageType)
  {
    match b
    case Join(_, _) => TJoin
    case JoinOk(_, _) => TJoinOk
    case Auth(_) => TAuth
    case Hello(_, _, _, _, _, _, _, _, _, _, _, _) => THello
    case Query(_, _) => TQuery
    case QueryOk(_, _) => TQueryOk
    case Prompt(_, _, _) => TPrompt
    case Reply(_, _, _, _, _) => TReply
    case Interrupt(_) => TInterrupt
    case Answer(_, _) => TAnswer
    case Presence(_) => TPresence
    case SessionBlocked(_, _) => TSessionBlocked
    case Ping(_) => TPing
    case Pong(_) => TPong
    case Ack(_) => TAck
    case Error(_, _, _) => TError
  }

  // ----- The names of the types -----

  function AsWire(t: MessageType): (s: string)
  {
    match t
    case TJoin => "join"
    case TJoinOk => "join_ok"
    case TAuth => "auth"
    case THello => "hello"
    case TQuery => "query"
    case TQueryOk => "query_ok"
    case TPrompt => "prompt"
    case TReply => "reply"
    case TInterrupt => "interrupt"
    case TAnswer => "answer"
    case TPresence => "presence"
    case TSessionBlocked => "session_blocked"
    case TPing => "ping"
    case TPong => "pong"
    case TAck => "ack"
    case TError => "error"
  }

  function FromWire(s: string): (t: Option<MessageType>)
  {
    if s == "join" then Some(TJoin)
    else if s == "join_ok" then Some(TJoinOk)
    else if s == "auth" then Some(TAuth)
    else if s == "hello" then Some(THello)
    else if s == "query" then Some(TQuery)
    else if s == "query_ok" then Some(TQueryOk)
    else if s == "prompt" then Some(TPrompt)
    else if s == "reply" then Some(TReply)
    else if s == "interrupt" then Some(TInterrupt)
    else if s == "answer" then Some(TAnswer)
    else if s == "presence" then Some(TPresence)
    else if s == "session_blocked" then Some(TSessionBlocked)
    else if s == "ping" then Some(TPing)
    else if s == "pong" then Some(TPong)
    else if s == "ack" then Some(TAck)
    else if s == "error" then Some(TError)
    else None
  }

  /** Names of equal length differ in their first letter, or else in their second. */
  lemma WireNamesDiffer(t: MessageType, u: MessageType)
    requires t != u
    ensures |AsWire(t)| != |AsWire(u)| || AsWire(t)[0] != AsWire(u)[0] || AsWire(t)[1] != AsWire(u)[1]
  {
  }

  lemma WireNameOf(s: string)
    requires FromWire(s).Some?
    ensures AsWire(FromWire(s).value) == s
  {
  }

  lemma WireNameKnown(t: MessageType)
    ensures FromWire(AsWire(t)).Some?
  {
  }

  /** The vocabulary is a bijection: every type has one name, and every name one type. */
  lemma WireNames(t: MessageType, s: string)
    ensures FromWire(s) == Some(t) <==> s == AsWire(t)
  {
    WireNameKnown(t);
    WireNameOf(AsWire(t));
    if FromWire(AsWire(t)).value != t { WireNamesDiffer(FromWire(AsWire(t)).value, t); }
    if FromWire(s) == Some(t) { WireNameOf(s); }
  }

  // ----- Bodies -----

  function Names(t: MessageType): (names: seq<string>)
  {
    match t
    case TJoin => ["secret", "hostname"]
    case TJoinOk => ["client_id", "credential"]
    case TAuth => ["credential"]
    case THello => ["protocol", "protocol_min", "protocol_max", "role", "hostname", "token_id", "client_id",
                    "harnesses", "harnesses_known", "harnesses_confirmed", "features", "sessions"]
    case TQuery => ["cmd", "args"]
    case TQueryOk => ["cmd"]
    case TPrompt => ["session", "text", "meta"]
    case TReply => ["session", "text", "chunks", "done", "exit"]
    case TInterrupt => ["session"]
    case TAnswer => ["session", "choice"]
    case TPresence => ["sessions"]
    case TSessionBlocked => ["session", "blocked"]
    case TPing => ["hostname"]
    case TPong => ["hostname"]
    case TAck => ["of"]
    case TError => ["code", "cmd", "message"]
  }

  const SESSION_NAMES: seq<string> := ["name", "harness"]
  const ENVELOPE_NAMES: seq<string> := ["v", "type", "id", "ts", "from", "body"]

  function RoleName(r: Role): (s: string)
  {
    if r == Client then "client" else "server"
  }

  function RoleNamed(s: string): (r: Option<Role>)
  {
    if s == "client" then Some(Client) else if s == "server" then Some(Server) else None
  }

  /** A unit variant: its name, or an object of that one key with nothing under it. */
  function ReadRole(v: Option<Json>): (r: Option<Role>)
  {
    if v.None? then None
    else
      match v.value
      case Str(s) => RoleNamed(s)
      case Obj(m) =>
        if m == map["client" := Null] then Some(Client)
        else if m == map["server" := Null] then Some(Server)
        else None
      case _ => None
  }

  function WriteSession(s: HelloSession): (j: Json)
  {
    Obj(MakeFields(SESSION_NAMES, [Some(Str(s.name)), Some(Str(s.harness))]))
  }

  function ReadSession(j: Json): (s: Option<HelloSession>)
  {
    var f := Fields(j, SESSION_NAMES);
    if f.None? || Text(f.value[0]).None? || Text(f.value[1]).None? then None
    else Some(HelloSession(Text(f.value[0]).value, Text(f.value[1]).value))
  }

  function ReadSessions(v: Option<Json>): (r: Option<seq<HelloSession>>)
  {
    if v.None? then Some([])
    else if v.value.Arr? && (forall i | 0 <= i < |v.value.items| :: ReadSession(v.value.items[i]).Some?) then
      Some(seq(|v.value.items|,
               i requires 0 <= i < |v.value.items| && ReadSession(v.value.items[i]).Some? =>
                 ReadSession(v.value.items[i]).value))
    else None
  }

  function WriteSessions(ss: seq<HelloSession>): (v: Option<Json>)
  {
    if ss == [] then None else Some(Arr(seq(|ss|, i requires 0 <= i < |ss| => WriteSession(ss[i]))))
  }

  /** The values of a body's fields, in the order of `Names`; a field that is skipped has none. */
  function Values(b: Body): (values: seq<Option<Json>>)
    ensures |values| == |Names(TypeOf(b))|
  {
    match b
    case Join(s, h) => [Some(Str(s)), Some(Str(h))]
    case JoinOk(c, k) => [Some(Str(c)), Some(Str(k))]
    case Auth(p) => [Some(p)]
    case Hello(p, lo, hi, role, host, tok, cli, hs, hk, hc, fs, ss) =>
      [Some(Int(p)), Some(Int(lo)), Some(Int(hi)), Some(Str(RoleName(role))), Some(Str(host)), PutText(tok),
       PutText(cli),
       PutTexts(hs), PutTexts(hk), PutTexts(hc), PutTexts(fs), WriteSessions(ss)]
    case Query(c, args) => [Some(Str(c)), Some(TextArray(args))]
    case QueryOk(c, _) => [Some(Str(c))]
    case Prompt(s, t, m) => [Some(Str(s)), Some(Str(t)), m]
    case Reply(s, t, ch, d, x) =>
      [Some(Str(s)), PutText(t), PutTexts(ch), Some(Bool(d)), if x.Some? then Some(Int(x.value)) else None]
    case Interrupt(s) => [Some(Str(s))]
    case Answer(s, c) => [Some(Str(s)), Some(Str(c))]
    case Presence(ss) => [Some(Arr(ss))]
    case SessionBlocked(s, b) => [Some(Str(s)), Some(Bool(b))]
    case Ping(h) => [PutText(h)]
    case Pong(h) => [PutText(h)]
    case Ack(o) => [PutText(o)]
    case Error(c, cmd, m) => [Some(Str(c)), PutText(cmd), PutText(m)]
  }

  /**
   The bare object of a body. A `query_ok` body is flattened: an object's fields join `cmd` and, coming
   later, win over it; null adds nothing; anything else cannot be serialized.
   */
  function WriteBody(b: Body): (j: Option<Json>)
  {
    var own := MakeFields(Names(TypeOf(b)), Values(b));
    if b.QueryOk? then
      match b.rest
      case Obj(m) => Some(Obj(own + m))
      case Null => Some(Obj(own))
      case _ => None
    else Some(Obj(own))
  }

  /** The body made of these field values, or nothing if one has the wrong type or is missing. */
  function Build(t: MessageType, f: seq<Option<Json>>): (b: Option<Body>)
    requires |f| == |Names(t)| && t != TQueryOk
  {
    match t
    case TJoin => if Text(f[0]).None? || Text(f[1]).None? then None else Some(Join(Text(f[0]).value, Text(f[1]).value))
    case TJoinOk => if Text(f[0]).None? || Text(f[1]).None? then None
      else Some(JoinOk(Text(f[0]).value, Text(f[1]).value))
    case TAuth => if f[0].None? then None else Some(Auth(f[0].value))
    case THello => BuildHello(f)
    case TQuery => if Text(f[0]).None? || TextsOrNone(f[1]).None? then None
      else Some(Query(Text(f[0]).value, TextsOrNone(f[1]).value))
    case TPrompt =>
      if Text(f[0]).None? || Text(f[1]).None? || MaybeAny(f[2]).None? then None
      else Some(Prompt(Text(f[0]).value, Text(f[1]).value, MaybeAny(f[2]).value))
    case TReply =>
      if Text(f[0]).None? || MaybeText(f[1]).None? || TextsOrNone(f[2]).None? || FlagOrFalse(f[3]).None? ||
        MaybeLong(f[4]).None? then None
      else Some(Reply(Text(f[0]).value, MaybeText(f[1]).value, TextsOrNone(f[2]).value, FlagOrFalse(f[3]).value,
        MaybeLong(f[4]).value))
    case TInterrupt => if Text(f[0]).None? then None else Some(Interrupt(Text(f[0]).value))
    case TAnswer => if Text(f[0]).None? || Text(f[1]).None? then None
      else Some(Answer(Text(f[0]).value, Text(f[1]).value))
    case TPresence => if Items(f[0]).None? then None else Some(Presence(Items(f[0]).value))
    case TSessionBlocked => if Text(f[0]).None? || Flag(f[1]).None? then None
      else Some(SessionBlocked(Text(f[0]).value, Flag(f[1]).value))
    case TPing => if MaybeText(f[0]).None? then None else Some(Ping(MaybeText(f[0]).value))
    case TPong => if MaybeText(f[0]).None? then None else Some(Pong(MaybeText(f[0]).value))
    case TAck => if MaybeText(f[0]).None? then None else Some(Ack(MaybeText(f[0]).value))
    case TError =>
      if Text(f[0]).None? || MaybeText(f[1]).None? || MaybeText(f[2]).None? then None
      else Some(Error(Text(f[0]).value, MaybeText(f[1]).value, MaybeText(f[2]).value))
  }

  function BuildHello(f: seq<Option<Json>>): (b: Option<Body>)
    requires |f| == 12
  {
    if Word(f[0]).None? || Word(f[1]).None? || Word(f[2]).None? || ReadRole(f[3]).None? || Text(f[4]).None?
       || MaybeText(f[5]).None? || MaybeText(f[6]).None? || TextsOrNone(f[7]).None? || TextsOrNone(f[8]).None?
       || TextsOrNone(f[9]).None? || TextsOrNone(f[10]).None? || ReadSessions(f[11]).None?
    then None
    else
      Some(Hello(Word(f[0]).value, Word(f[1]).value, Word(f[2]).value, ReadRole(f[3]).value, Text(f[4]).value,
                 MaybeText(f[5]).value, MaybeText(f[6]).value, TextsOrNone(f[7]).value, TextsOrNone(f[8]).value,
                 TextsOrNone(f[9]).value, TextsOrNone(f[10]).value, ReadSessions(f[11]).value))
  }

  /** `Body::deserialize_value`. The flattened body takes only an object, and keeps all but `cmd`. */
  function ReadBody(t: MessageType, j: Json): (b: Option<Body>)
  {
    if t == TQueryOk then
      if j.Obj? && Text(Get(j.fields, "cmd")).Some?
        then Some(QueryOk(Text(Get(j.fields, "cmd")).value, Obj(j.fields - {"cmd"}))) else None
    else
      var f := Fields(j, Names(t));
      if f.None? then None else Build(t, f.value)
  }

  // ----- Envelopes -----

  function Encode(e: Envelope): (j: Option<Json>)
  {
    var body := WriteBody(e.body);
    if body.None? then None
    else
      Some(Obj(MakeFields(ENVELOPE_NAMES,
                          [Some(Int(e.v)), Some(Str(AsWire(e.msgType))), Some(Str(e.id)), Some(Str(e.ts)),
                            Some(Str(e.sender)), body])))
  }

  datatype Decoded = Ok(envelope: Envelope) | UnsupportedVersion(v: U32) | UnknownType | Malformed

  function AsU64(v: Option<Json>): (n: Option<int>)
  {
    if v.Some? && v.value.Int? && 0 <= v.value.n < TWO_64 then Some(v.value.n) else None
  }

  /** The cast to 32 bits that the version goes through. */
  function Truncate(n: int): (w: U32)
  {
    n % TWO_32
  }

  /** `decode`; the frame is absent when the text was not JSON. */
  function Decode(frame: Option<Json>): (r: Decoded)
  {
    if frame.None? || !frame.value.Obj? then Malformed
    else
      var m := frame.value.fields;
      var name := Text(Get(m, "type"));
      if name.None? then Malformed
      else if FromWire(name.value).None? then UnknownType
      else if AsU64(Get(m, "v")).None? || Text(Get(m, "id")).None? || Text(Get(m, "ts")).None? ||
        Text(Get(m, "from")).None? || "body" !in m
      then Malformed
      else
        var t, w := FromWire(name.value).value, Truncate(AsU64(Get(m, "v")).value);
        if w != 1 then UnsupportedVersion(w)
        else
          var b := ReadBody(t, m["body"]);
          if b.None? then Malformed
          else Ok(Envelope(w, t, Text(Get(m, "id")).value, Text(Get(m, "ts")).value, Text(Get(m, "from")).value,
            b.value))
  }
}
