/**
 The durable talk log (src/wire/talklog.rs): one file of entries per session, loaded, changed and
 rewritten whole under a mutex. A file that is missing or does not parse reads as empty, and so does one
 that could not be read.
 */
module TalkLog {
  import opened Prelude
  import P = PromptLoop

  // ----- File names -----

  predicate Safe(c: char)
  {
    '0' <= c <= '9' || 'A' <= c <= 'Z' || 'a' <= c <= 'z' || c == '-' || c == '_'
  }

  function Stem(name: string): (stem: string)
  {
    seq(|name|, i requires 0 <= i < |name| => if Safe(name[i]) then name[i] else '_')
  }

  function SafeFilename(name: string): (file: string)
  {
    Stem(name) + ".json"
  }

  /** The characters a file name keeps, by their codes: digits, letters, hyphen and underscore. */
  lemma SafeCodes(c: char)
    ensures var k := c as int;
            Safe(c) <==> 48 <= k <= 57 || 65 <= k <= 90 || 97 <= k <= 122 || k == 45 || k == 95
  {
  }

  /** The file name, character by character. */
  lemma FileNameIs(name: string)
    ensures |SafeFilename(name)| == |name| + 5 && SafeFilename(name)[|name|..] == ".json"
    ensures forall i | 0 <= i < |name| :: SafeFilename(name)[i] == if Safe(name[i]) then name[i] else '_'
  {
    forall i | 0 <= i < |name| ensures SafeFilename(name)[i] == if Safe(name[i]) then name[i] else '_' {
      assert SafeFilename(name)[i] == Stem(name)[i];
    }
  }

  /** No session name reaches outside the directory: its file name has no separator in it, and is never `.` or `..`. */
  lemma StaysInDirectory(name: string)
    ensures '/' !in SafeFilename(name) && '\\' !in SafeFilename(name) && '\0' !in SafeFilename(name)
    ensures SafeFilename(name) != "." && SafeFilename(name) != ".." && SafeFilename(name) != ""
    ensures |SafeFilename(name)| == |name| + 5
  {
    forall i | 0 <= i < |SafeFilename(name)| ensures Safe(SafeFilename(name)[i]) || SafeFilename(name)[i] == '.' {
      assert i < |name| ==> SafeFilename(name)[i] == Stem(name)[i];
    }
  }

  lemma StemKept(a: string, b: string)
    ensures SafeFilename(a) == SafeFilename(b) <==> Stem(a) == Stem(b)
  {
    if SafeFilename(a) == SafeFilename(b) {
      assert |Stem(a)| == |Stem(b)|;
      assert Stem(a) == SafeFilename(a)[..|Stem(a)|] == SafeFilename(b)[..|Stem(b)|] == Stem(b);
    }
  }

  /** Exactly when two sessions share a file: same length, and they differ only where both are `_` or unsafe. */
  lemma SharedFileIff(a: string, b: string)
    ensures SafeFilename(a) == SafeFilename(b) <==>
              |a| == |b| &&
              forall i | 0 <= i < |a| ::
                a[i] == b[i] || ((a[i] == '_' || !Safe(a[i])) && (b[i] == '_' || !Safe(b[i])))
  {
    StemKept(a, b);
    if Stem(a) == Stem(b) {
      forall i | 0 <= i < |a| ensures a[i] == b[i] || ((a[i] == '_' || !Safe(a[i])) && (b[i] == '_' || !Safe(b[i]))) {
        assert Stem(a)[i] == Stem(b)[i];
      }
    }
  }

  /** Names written with safe characters alone are told apart. */
  lemma SafeNamesKeepApart(a: string, b: string)
    requires (forall c <- a :: Safe(c)) && (forall c <- b :: Safe(c)) && SafeFilename(a) == SafeFilename(b)
    ensures a == b
  {
    SharedFileIff(a, b);
    assert forall i | 0 <= i < |a| :: a[i] in a && b[i] in b;
  }

  // ----- Entries -----

  datatype TalkReply = TalkReply(text: Option<string>, chunks: seq<string>, done: bool, exit: Option<int>, ts: int)

  datatype TalkEntry = TalkEntry(id: string, session: string, promptText: string, promptTs: int,
    replies: seq<TalkReply>)

  type Files = map<string, seq<TalkEntry>>

  function Loaded(files: Files, file: string): (entries: seq<TalkEntry>)
  {
    if file in files then files[file] else []
  }

  /** Where the first entry of an id is; past the end if there is none. */
  ghost predicate FirstAt(entries: seq<TalkEntry>, id: string, k: nat)
  {
    k <= |entries| && (k < |entries| ==> entries[k].id == id) && forall j | 0 <= j < k :: entries[j].id != id
  }

  function Position(entries: seq<TalkEntry>, id: string): (k: nat)
    ensures FirstAt(entries, id, k)
  {
    if entries == [] || entries[0].id == id then 0
    else
      assert forall j | 0 <= j < |entries| - 1 :: entries[1..][j] == entries[j + 1];
      1 + Position(entries[1..], id)
  }

  lemma PositionUnique(entries: seq<TalkEntry>, id: string, k: nat)
    requires FirstAt(entries, id, k)
    ensures k == Position(entries, id)
  {
  }

  function Record(r: P.ReplyBody, ts: int): (rec: TalkReply)
  {
    TalkReply(r.text, r.chunks, r.done, r.exit, ts)
  }

  /**
   What the disk does for one append: whether the file could be read and parsed, and whether its rewrite
   succeeded.
   */
  datatype Disk = Disk(loads: bool, saves: bool)

  const WORKS: Disk := Disk(true, true)

  datatype Op =
    | Prompted(id: string, session: string, text: string, ts: int, disk: Disk)
    | Replied(id: string, body: P.ReplyBody, ts: int, disk: Disk)

  function FileOf(op: Op): (file: string)
  {
    SafeFilename(if op.Prompted? then op.session else op.body.session)
  }

  /** `load`: a failed read is taken for an empty file. */
  function Seen(files: Files, op: Op): (entries: seq<TalkEntry>)
  {
    if op.disk.loads then Loaded(files, FileOf(op)) else []
  }

  /** The file's entries once an append is in. */
  function Appended(entries: seq<TalkEntry>, op: Op): (entries': seq<TalkEntry>)
  {
    match op
    case Prompted(id, session, text, ts, _) => entries + [TalkEntry(id, session, text, ts, [])]
    case Replied(id, body, ts, _) =>
      var k := Position(entries, id);
      if k == |entries| then entries
      else entries[k := entries[k].(replies := entries[k].replies + [Record(body, ts)])]
  }

  function Apply(files: Files, op: Op): (files': Files)
  {
    var was := Seen(files, op);
    if !op.disk.saves || (op.Replied? && Position(was, op.id) == |was|) then files
    else files[FileOf(op) := Appended(was, op)]
  }

  class Log {
    var files: Files

    constructor ()
      ensures files == map[]
    {
      files := map[];
    }

    method Load(session: string, disk: Disk) returns (entries: seq<TalkEntry>)
      ensures entries == if disk.loads then Loaded(files, SafeFilename(session)) else []
    {
      entries := [];
      if disk.loads && SafeFilename(session) in files {
        entries := files[SafeFilename(session)];
      }
    }

    /** What is on file for a session; `FilesAreIndependent` and `EntryIsHistory` say what that is. */
    method Read(session: string, disk: Disk) returns (entries: seq<TalkEntry>)
      ensures entries == if disk.loads then Loaded(files, SafeFilename(session)) else []
    {
      entries := Load(session, disk);
    }

    method RecordPrompt(id: string, session: string, text: string, now: int, disk: Disk)
      modifies this
      ensures files == Apply(old(files), Prompted(id, session, text, now, disk))
    {
      var entries := Load(session, disk);
      entries := entries + [TalkEntry(id, session, text, now, [])];
      if disk.saves {
        files := files[SafeFilename(session) := entries];
      }
    }

    method RecordReply(id: string, body: P.ReplyBody, now: int, disk: Disk)
      modifies this
      ensures files == Apply(old(files), Replied(id, body, now, disk))
    {
      var entries := Load(body.session, disk);
      var k := FindEntry(entries, id);
      if k == |entries| {
        return;
      }
      var e := entries[k];
      entries := entries[k := e.(replies := e.replies + [Record(body, now)])];
      if disk.saves {
        files := files[SafeFilename(body.session) := entries];
      }
    }
  }

  /** The search for the entry a reply belongs to. */
  method FindEntry(entries: seq<TalkEntry>, id: string) returns (k: nat)
    ensures FirstAt(entries, id, k)
    ensures k == Position(entries, id)
  {
    k := 0;
    while k < |entries| && entries[k].id != id
      invariant k <= |entries|
      invariant forall j | 0 <= j < k :: entries[j].id != id
    {
      k := k + 1;
    }
    PositionUnique(entries, id, k);
  }

  // ----- What a whole history leaves in the log -----

  function After(files: Files, ops: seq<Op>): (files': Files)
  {
    if ops == [] then files else Apply(After(files, ops[..|ops| - 1]), ops[|ops| - 1])
  }

  /** What `read` shows of an id: the first entry recorded under it in a file. */
  function Lookup(files: Files, file: string, id: string): (e: Option<TalkEntry>)
  {
    var entries := Loaded(files, file);
    var k := Position(entries, id);
    if k < |entries| then Some(entries[k]) else None
  }

  predicate Opens(op: Op, file: string, id: string)
  {
    op.Prompted? && op.disk.saves && op.id == id && FileOf(op) == file
  }

  predicate Extends(op: Op, file: string, id: string)
  {
    op.Replied? && op.disk == WORKS && op.id == id && FileOf(op) == file
  }

  /** A prompt that could not read the file, and rewrote it: what was in it is gone. */
  predicate Wipes(op: Op, file: string)
  {
    op.Prompted? && !op.disk.loads && op.disk.saves && FileOf(op) == file
  }

  /** What one append makes of an id's entry in a file. */
  function Next(e: Option<TalkEntry>, op: Op, file: string, id: string): (e': Option<TalkEntry>)
  {
    if e.None? || Wipes(op, file) then
      if Opens(op, file, id) then Some(TalkEntry(id, op.session, op.text, op.ts, [])) else None
    else if Extends(op, file, id) then Some(e.value.(replies := e.value.replies + [Record(op.body, op.ts)]))
    else e
  }

  /** One append, seen from one id in one file. */
  lemma ApplyLookup(files: Files, op: Op, file: string, id: string)
    ensures Lookup(Apply(files, op), file, id) == Next(Lookup(files, file, id), op, file, id)
  {
    var was, now := Seen(files, op), Loaded(Apply(files, op), file);
    var k := Position(was, id);
    if FileOf(op) == file && op.disk.saves && (op.disk.loads || op.Prompted?) {
      assert now == Appended(was, op);
      PositionUnique(now, id, if k < |was| || !op.Prompted? || op.id == id then k else k + 1);
    } else {
      assert now == Loaded(files, file);
    }
  }

  /** The replies to an id that went into a file, in order. */
  function Heard(ops: seq<Op>, file: string, id: string): (replies: seq<TalkReply>)
  {
    if ops == [] then [] else
      var op := ops[|ops| - 1];
      Heard(ops[..|ops| - 1], file, id) + (if Extends(op, file, id) then [Record(op.body, op.ts)] else [])
  }

  /** An id never prompted in a file has no entry there, however many replies name it. */
  lemma {:induction false} StrayRepliesAreDropped(files: Files, ops: seq<Op>, file: string, id: string)
    requires Lookup(files, file, id).None? && forall op <- ops :: !Opens(op, file, id)
    ensures Lookup(After(files, ops), file, id).None?
  {
    if ops != [] {
      StrayRepliesAreDropped(files, ops[..|ops| - 1], file, id);
      ApplyLookup(After(files, ops[..|ops| - 1]), ops[|ops| - 1], file, id);
    }
  }

  lemma HeardStep(ops: seq<Op>, k: nat, n: nat, file: string, id: string)
    requires k <= n < |ops|
    ensures Heard(ops[k..n + 1], file, id) ==
            if Extends(ops[n], file, id) then Heard(ops[k..n], file, id) + [Record(ops[n].body, ops[n].ts)]
            else Heard(ops[k..n], file, id)
  {
    var since := ops[k..n + 1];
    assert since[..|since| - 1] == ops[k..n] && since[|since| - 1] == ops[n];
  }

  /** The file was wiped by one of the appends from `k` up to `n`. */
  predicate WipedSince(ops: seq<Op>, k: nat, n: nat, file: string)
    requires n <= |ops|
  {
    exists i :: k <= i < n && Wipes(ops[i], file)
  }

  lemma AfterStep(files: Files, ops: seq<Op>, n: nat)
    requires n < |ops|
    ensures After(files, ops[..n + 1]) == Apply(After(files, ops[..n]), ops[n])
  {
    assert ops[..n + 1][..n] == ops[..n];
  }

  /** What the entry of the prompt at `k` is to be by `n`. */
  function Told(ops: seq<Op>, k: nat, n: nat, file: string): (e: Option<TalkEntry>)
    requires k < n <= |ops| && ops[k].Prompted?
  {
    var op := ops[k];
    if WipedSince(ops, k + 1, n, file) then None
    else Some(TalkEntry(op.id, op.session, op.text, op.ts, Heard(ops[k + 1..n], file, op.id)))
  }

  lemma ToldNext(ops: seq<Op>, k: nat, n: nat, file: string, id: string)
    requires k < n < |ops| && Opens(ops[k], file, id) && !Opens(ops[n], file, id)
    ensures Told(ops, k, n + 1, file) == Next(Told(ops, k, n, file), ops[n], file, id)
  {
    HeardStep(ops, k + 1, n, file, id);
    WipedStep(ops, k + 1, n, file);
  }

  lemma WipedStep(ops: seq<Op>, k: nat, n: nat, file: string)
    requires k <= n < |ops|
    ensures WipedSince(ops, k, n + 1, file) <==> WipedSince(ops, k, n, file) || Wipes(ops[n], file)
  {
  }

  lemma LookupStep(files: Files, ops: seq<Op>, n: nat, file: string, id: string)
    requires n < |ops|
    ensures Lookup(After(files, ops[..n + 1]), file, id) == Next(Lookup(After(files, ops[..n]), file, id), ops[n],
            file, id)
  {
    AfterStep(files, ops, n);
    ApplyLookup(After(files, ops[..n]), ops[n], file, id);
  }

  ghost predicate ToldBy(files: Files, ops: seq<Op>, k: nat, n: nat, file: string, id: string)
    requires k < n <= |ops| && ops[k].Prompted?
  {
    Lookup(After(files, ops[..n]), file, id) == Told(ops, k, n, file)
  }

  lemma ToldStep(files: Files, ops: seq<Op>, k: nat, n: nat, file: string, id: string)
    requires k < n < |ops| && Opens(ops[k], file, id) && !Opens(ops[n], file, id) && ToldBy(files, ops, k, n, file, id)
    ensures ToldBy(files, ops, k, n + 1, file, id)
  {
    LookupStep(files, ops, n, file, id);
    ToldNext(ops, k, n, file, id);
  }

  lemma ToldFirst(files: Files, ops: seq<Op>, k: nat, file: string, id: string)
    requires k < |ops| && Opens(ops[k], file, id) && Lookup(files, file, id).None?
    requires forall i | 0 <= i < k :: !Opens(ops[i], file, id)
    ensures ToldBy(files, ops, k, k + 1, file, id)
  {
    StrayRepliesAreDropped(files, ops[..k], file, id);
    LookupStep(files, ops, k, file, id);
    assert ops[k + 1..k + 1] == [];
  }

  lemma {:induction false} ToldOn(files: Files, ops: seq<Op>, k: nat, m: nat, n: nat, file: string, id: string)
    requires k < m <= n <= |ops| && Opens(ops[k], file, id) && ToldBy(files, ops, k, m, file, id)
    requires forall i | k < i < |ops| :: !Opens(ops[i], file, id)
    ensures ToldBy(files, ops, k, n, file, id)
    decreases n - m
  {
    if m < n {
      ToldStep(files, ops, k, m, file, id);
      ToldOn(files, ops, k, m + 1, n, file, id);
    }
  }

  lemma ToldToTheEnd(files: Files, ops: seq<Op>, k: nat, file: string, id: string)
    requires k < |ops| && Opens(ops[k], file, id) && Lookup(files, file, id).None?
    requires forall i | 0 <= i < |ops| && i != k :: !Opens(ops[i], file, id)
    ensures ToldBy(files, ops, k, |ops|, file, id)
  {
    ToldFirst(files, ops, k, file, id);
    ToldOn(files, ops, k, k + 1, |ops|, file, id);
  }

  lemma ToldOfAll(files: Files, ops: seq<Op>, k: nat, file: string, id: string)
    requires k < |ops| && Opens(ops[k], file, id) && ToldBy(files, ops, k, |ops|, file, id)
    ensures Lookup(After(files, ops), file, id) ==
            if WipedSince(ops, k + 1, |ops|, file) then None
            else Some(TalkEntry(id, ops[k].session, ops[k].text, ops[k].ts, Heard(ops[k + 1..], file, id)))
  {
    assert ops[..|ops|] == ops;
    assert ops[k + 1..|ops|] == ops[k + 1..];
  }

  /**
   Whatever else is appended, to this file or another: the entry of a prompt that was saved is there
   exactly if no later prompt wiped the file, and then it holds exactly the replies to its id that were
   loaded and saved in that file since, in order.
   */
  lemma EntryIsHistory(files: Files, ops: seq<Op>, k: nat, file: string, id: string)
    requires k < |ops| && Opens(ops[k], file, id) && Lookup(files, file, id).None?
    requires forall i | 0 <= i < |ops| && i != k :: !Opens(ops[i], file, id)
    ensures Lookup(After(files, ops), file, id) ==
            if WipedSince(ops, k + 1, |ops|, file) then None
            else Some(TalkEntry(id, ops[k].session, ops[k].text, ops[k].ts, Heard(ops[k + 1..], file, id)))
  {
    ToldToTheEnd(files, ops, k, file, id);
    ToldOfAll(files, ops, k, file, id);
  }

  /** What a prompt and one reply to it leave in an empty log, field by field. */
  lemma OneExchange(
    id: string, session: string, text: string, asked: int, body: P.ReplyBody, told: int)
    requires SafeFilename(body.session) == SafeFilename(session)
    ensures var ops := [Prompted(id, session, text, asked, WORKS), Replied(id, body, told, WORKS)];
            Loaded(After(map[], ops), SafeFilename(session)) ==
            [TalkEntry(id, session, text, asked, [TalkReply(body.text, body.chunks, body.done, body.exit, told)])]
  {
    var ops := [Prompted(id, session, text, asked, WORKS), Replied(id, body, told, WORKS)];
    assert ops[..0] == [] && ops[..2] == ops;
    AfterStep(map[], ops, 0);
    AfterStep(map[], ops, 1);
    var e := TalkEntry(id, session, text, asked, []);
    assert [] + [e] == [e];
    assert Loaded(After(map[], ops[..1]), SafeFilename(session)) == [e];
    PositionUnique([e], id, 0);
    assert [] + [Record(body, told)] == [Record(body, told)];
  }

  /** Two prompts of one session; the second cannot read the file, and can write it: the first is gone. */
  lemma FailedReadErases(first: Op, second: Op)
    requires first.Prompted? && second.Prompted? && FileOf(first) == FileOf(second) && first.id != second.id
    requires first.disk == WORKS && second.disk == Disk(false, true)
    ensures Lookup(After(map[], [first]), FileOf(first), first.id).Some?
    ensures Lookup(After(map[], [first, second]), FileOf(first), first.id).None?
    ensures Lookup(After(map[], [first, second]), FileOf(first), second.id).Some?
  {
    var file := FileOf(first);
    assert [first][..0] == [] && [first, second][..1] == [first];
    ApplyLookup(map[], first, file, first.id);
    ApplyLookup(After(map[], [first]), second, file, first.id);
    ApplyLookup(After(map[], [first]), second, file, second.id);
  }

  /** The appends that went into one file. */
  function Own(ops: seq<Op>, file: string): (own: seq<Op>)
  {
    if ops == [] then [] else
      var op := ops[|ops| - 1];
      Own(ops[..|ops| - 1], file) + (if op.disk.saves && FileOf(op) == file then [op] else [])
  }

  /** An append shows in its own file alone, and there by what the file had. */
  lemma ApplyLoaded(files: Files, op: Op, file: string)
    ensures Loaded(Apply(files, op), file) ==
            if op.disk.saves && FileOf(op) == file && (op.Prompted? || op.disk.loads)
            then Appended(if op.disk.loads then Loaded(files, file) else [], op) else Loaded(files, file)
  {
  }

  lemma AfterSnoc(files: Files, ops: seq<Op>, op: Op)
    ensures After(files, ops + [op]) == Apply(After(files, ops), op)
  {
    assert (ops + [op])[..|ops|] == ops;
  }

  lemma OwnLast(ops: seq<Op>, file: string)
    requires ops != []
    ensures var own, op := Own(ops[..|ops| - 1], file), ops[|ops| - 1];
            Own(ops, file) == if op.disk.saves && FileOf(op) == file then own + [op] else own
  {
  }

  lemma IndependentStep(a: Files, b: Files, op: Op, file: string)
    requires Loaded(a, file) == Loaded(b, file)
    ensures Loaded(Apply(a, op), file) ==
            if op.disk.saves && FileOf(op) == file then Loaded(Apply(b, op), file) else Loaded(b, file)
  {
  }

  /**
   What `read` finds for a session is settled by the appends saved to its own file, in their order, and by
   what each could read: failed saves leave no trace, and no append to another file shows.
   */
  lemma {:induction false} FilesAreIndependent(files: Files, ops: seq<Op>, file: string)
    ensures Loaded(After(files, ops), file) == Loaded(After(files, Own(ops, file)), file)
  {
    if ops != [] {
      var front, op := ops[..|ops| - 1], ops[|ops| - 1];
      FilesAreIndependent(files, front, file);
      IndependentStep(After(files, front), After(files, Own(front, file)), op, file);
      AfterSnoc(files, Own(front, file), op);
      OwnLast(ops, file);
    }
  }

  /** A prompt as it was recorded, without its replies. */
  function Header(e: TalkEntry): (h: TalkEntry)
  {
    e.(replies := [])
  }

  function Headers(entries: seq<TalkEntry>): (hs: seq<TalkEntry>)
  {
    seq(|entries|, i requires 0 <= i < |entries| => Header(entries[i]))
  }

  /** The prompts that were saved to a file, as they were recorded. */
  function Asked(ops: seq<Op>, file: string): (hs: seq<TalkEntry>)
  {
    if ops == [] then [] else Asked(ops[..|ops| - 1], file) + AskedBy(ops[|ops| - 1], file)
  }

  function AskedBy(op: Op, file: string): (hs: seq<TalkEntry>)
  {
    if op.Prompted? && op.disk.saves && FileOf(op) == file then [TalkEntry(op.id, op.session, op.text, op.ts, [])]
    else []
  }

  lemma ApplyHeaders(files: Files, op: Op, file: string)
    ensures Headers(Loaded(Apply(files, op), file)) ==
            (if Wipes(op, file) then [] else Headers(Loaded(files, file))) + AskedBy(op, file)
  {
    ApplyLoaded(files, op, file);
  }

  /** A wipe that there was something to lose to. */
  predicate Erases(files: Files, op: Op, file: string)
  {
    Wipes(op, file) && Loaded(files, file) != []
  }

  ghost predicate Kept(files: Files, ops: seq<Op>, n: nat, file: string)
    requires n <= |ops|
  {
    Headers(Loaded(After(files, ops[..n]), file)) == Headers(Loaded(files, file)) + Asked(ops[..n], file)
  }

  /** How many exchanges a file lacks. */
  function Missing(files: Files, ops: seq<Op>, n: nat, file: string): (m: int)
    requires n <= |ops|
  {
    |Loaded(files, file)| + |Asked(ops[..n], file)| - |Loaded(After(files, ops[..n]), file)|
  }

  lemma KeptStep(files: Files, ops: seq<Op>, n: nat, file: string)
    requires n < |ops|
    ensures Asked(ops[..n + 1], file) == Asked(ops[..n], file) + AskedBy(ops[n], file)
    ensures Headers(Loaded(After(files, ops[..n + 1]), file)) ==
            (if Wipes(ops[n], file) then [] else Headers(Loaded(After(files, ops[..n]), file))) + AskedBy(ops[n], file)
  {
    assert ops[..n + 1][..n] == ops[..n];
    AfterStep(files, ops, n);
    ApplyHeaders(After(files, ops[..n]), ops[n], file);
  }

  lemma MissingStep(files: Files, ops: seq<Op>, n: nat, file: string)
    requires n < |ops|
    ensures Missing(files, ops, n + 1, file) ==
            Missing(files, ops, n, file) + if Wipes(ops[n], file) then |Loaded(After(files, ops[..n]), file)| else 0
  {
    KeptStep(files, ops, n, file);
    assert |Headers(Loaded(After(files, ops[..n + 1]), file))| == |Loaded(After(files, ops[..n + 1]), file)|;
    assert |Headers(Loaded(After(files, ops[..n]), file))| == |Loaded(After(files, ops[..n]), file)|;
  }

  lemma Joined(had: seq<TalkEntry>, asked: seq<TalkEntry>, news: seq<TalkEntry>)
    ensures (had + asked) + news == had + (asked + news)
  {
  }

  lemma KeptNext(files: Files, ops: seq<Op>, n: nat, file: string)
    requires n < |ops| && Kept(files, ops, n, file) && !Erases(After(files, ops[..n]), ops[n], file)
    ensures Kept(files, ops, n + 1, file)
  {
    KeptStep(files, ops, n, file);
    assert Wipes(ops[n], file) ==> Headers(Loaded(After(files, ops[..n]), file)) == [];
    Joined(Headers(Loaded(files, file)), Asked(ops[..n], file), AskedBy(ops[n], file));
  }

  lemma {:induction false} KeptOn(files: Files, ops: seq<Op>, m: nat, n: nat, file: string)
    requires m <= n <= |ops| && Kept(files, ops, m, file)
    requires forall k: nat | k < n :: !Erases(After(files, ops[..k]), ops[k], file)
    ensures Kept(files, ops, n, file)
    decreases n - m
  {
    if m < n {
      KeptNext(files, ops, m, file);
      KeptOn(files, ops, m + 1, n, file);
    }
  }

  lemma {:induction false} MissingGrows(files: Files, ops: seq<Op>, k: nat, n: nat, file: string)
    requires k <= n <= |ops|
    ensures Missing(files, ops, k, file) <= Missing(files, ops, n, file)
    decreases n - k
  {
    if k < n {
      MissingStep(files, ops, k, file);
      MissingGrows(files, ops, k + 1, n, file);
    }
  }

  /** Once something is erased, the file is short of it for good. */
  lemma ErasedForGood(files: Files, ops: seq<Op>, k: nat, file: string)
    requires k < |ops| && Erases(After(files, ops[..k]), ops[k], file)
    ensures Missing(files, ops, |ops|, file) > 0
  {
    assert ops[..0] == [];
    MissingStep(files, ops, k, file);
    MissingGrows(files, ops, 0, k, file);
    MissingGrows(files, ops, k + 1, |ops|, file);
  }

  /**
   A file lists what it had and then its saved prompts, oldest first, none lost, reordered or rewritten,
   exactly if no prompt that could not read it rewrote it while there was something in it.
   */
  lemma PromptsAreKept(files: Files, ops: seq<Op>, file: string)
    ensures Headers(Loaded(After(files, ops), file)) == Headers(Loaded(files, file)) + Asked(ops, file) <==>
              forall k: nat | k < |ops| :: !Erases(After(files, ops[..k]), ops[k], file)
  {
    assert ops[..|ops|] == ops;
    if k: nat :| k < |ops| && Erases(After(files, ops[..k]), ops[k], file) {
      ErasedForGood(files, ops, k, file);
      assert |Headers(Loaded(After(files, ops), file))| < |Headers(Loaded(files, file)) + Asked(ops, file)|;
    } else {
      assert ops[..0] == [] && Headers(Loaded(files, file)) + [] == Headers(Loaded(files, file));
      KeptOn(files, ops, 0, |ops|, file);
    }
  }
}
