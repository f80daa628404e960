/**
 A run in which a `say` and its log entry disagree though every reply is saved, names the prompt's session
 and comes on its token: two connections record their replies in one order and resolve them in the other.
 */
module SayLogOverlap {
  import opened Prelude
  import opened RegistryTable
  import opened RegistryCalls
  import opened SayLog
  import opened Exchange
  import R = RegistryProtocol
  import P = PromptLoop
  import T = TalkLog

  /** A final reply, and one that is not. */
  ghost function Last(): (r: P.ReplyBody)
  {
    P.ReplyBody("s", Some("a"), [], true, None)
  }

  ghost function Partial(): (r: P.ReplyBody)
  {
    P.ReplyBody("s", Some("b"), [], false, None)
  }

  /** The prompt's call as it moves. */
  ghost function Saying(p: Phase, events: seq<P.Event>, read: nat, pieces: seq<string>): (call: Call)
  {
    Begun(Prompt, "t", "p", "s", 0).(phase := p, events := events, read := read, pieces := pieces)
  }

  ghost function Waits(events: seq<P.Event>, read: nat, pieces: seq<string>): (call: Call)
  {
    Saying(Awaiting(1, 1), events, read, pieces)
  }

  ghost function Filing(): (pending: map<Slot, Waiter>)
  {
    map[Slot(Prompt, "p") := Waiter(7, "s")]
  }

  /** Two connections of token `t`, of which the second has displaced the first. */
  ghost function Registry(pending: map<Slot, Waiter>, senders: int, queue: seq<R.OutFrame>, calls: map<CallId, Call>,
    log: seq<Logged>): (s: R.State)
  {
    R.State(
      map["t" := Entry(1, "host", "cli", pending)], map[0 := Entry(0, "host", "cli", map[])],
      map[0 := R.Conn("t", R.Running, [], 1), 1 := R.Conn("t", R.Running, queue, senders)], calls, log)
  }

  ghost function Files(replies: seq<T.TalkReply>): (files: T.Files)
  {
    map[T.SafeFilename("s") := [T.TalkEntry("p", "s", "hi", 0, replies)]]
  }

  /** The server while the prompt waits. */
  ghost function Waiting(call: Call, log: seq<Logged>, replies: seq<T.TalkReply>, hand: map<ConnId, Frame>): (s: Server)
  {
    Server(Registry(Filing(), 2, [], map[7 := call], log), Files(replies), hand)
  }

  ghost predicate Leads(s: Server, step: Step, s': Server)
  {
    Enabled(s, step) && s' == Apply(s, step)
  }

  /** What is recorded is saved, and names the prompt's session. */
  predicate Fine(step: Step)
  {
    step.Note? ==> step.disk == T.WORKS && step.body.session == "s"
  }

  /** A run that asks at its third step, records nothing but fine replies, and has come to `last`. */
  ghost predicate Going(states: seq<Server>, steps: seq<Step>, last: Server)
  {
    && IsRun(states, steps) && states[|steps|] == last
    && forall i | 0 <= i < |steps| :: Fine(steps[i]) && (i == 2 ==> steps[i] == Ask(7, "t", "p", "s", "hi", 0, T.WORKS))
  }

  lemma Extend(states: seq<Server>, steps: seq<Step>, last: Server, step: Step, s: Server)
    returns (states': seq<Server>, steps': seq<Step>)
    requires Going(states, steps, last) && Leads(last, step, s) && Fine(step)
    requires |steps| == 2 ==> step == Ask(7, "t", "p", "s", "hi", 0, T.WORKS)
    ensures Going(states', steps', s) && |steps'| == |steps| + 1
  {
    states', steps' := states + [s], steps + [step];
    forall i | 0 <= i < |steps'| ensures Leads(states'[i], steps'[i], states'[i + 1]) {
      assert i < |steps| ==> states'[i] == states[i] && steps'[i] == steps[i] && states'[i + 1] == states[i + 1];
    }
  }

  // ----- The steps -----

  /** A step of the registry that hands on no reply is a step of the server. */
  lemma Lifted(s: R.State, a: R.Action, s': R.State, files: T.Files)
    requires R.Enabled(s, a) && R.Apply(s, a) == s' && !a.Handle? && !a.Begin?
    ensures Leads(Server(s, files, map[]), Other(a), Server(s', files, map[]))
  {
  }

  lemma Connecting(s0: Server, s1: Server, s2: Server)
    requires s0 == Server(R.Initial(), map[], map[])
    requires s1 == s0.(reg := R.Apply(R.Initial(), R.Connect(0, "t", "cli", "host")))
    requires s2 == s0.(reg := Registry(map[], 1, [], map[], []))
    ensures Leads(s0, Other(R.Connect(0, "t", "cli", "host")), s1)
    ensures Leads(s1, Other(R.Connect(1, "t", "cli", "host")), s2)
  {
    var reg := R.Apply(s1.reg, R.Connect(1, "t", "cli", "host"));
    assert reg.entries == s2.reg.entries && reg.displaced == s2.reg.displaced && reg.conns == s2.reg.conns;
  }

  lemma Asking(s2: Server, s3: Server)
    requires s2 == Server(Registry(map[], 1, [], map[], []), map[], map[])
    requires s3 == Server(Registry(map[], 1, [], map[7 := Saying(Started, [], 0, [])], []), Files([]), map[])
    ensures Leads(s2, Ask(7, "t", "p", "s", "hi", 0, T.WORKS), s3)
  {
    var s := Apply(s2, Ask(7, "t", "p", "s", "hi", 0, T.WORKS));
    assert [] + [T.TalkEntry("p", "s", "hi", 0, [])] == [T.TalkEntry("p", "s", "hi", 0, [])];
    assert s.files == Files([]);
    assert s.reg.calls == s3.reg.calls;
  }

  lemma LookingUp(s: R.State, s': R.State)
    requires s == Registry(map[], 1, [], map[7 := Saying(Started, [], 0, [])], [])
    requires s' == Registry(map[], 2, [], map[7 := Saying(Looked(1), [], 0, [])], [])
    ensures R.Enabled(s, R.Advance(7, Lookup)) && R.Apply(s, R.Advance(7, Lookup)) == s'
  {
    var t := R.Apply(s, R.Advance(7, Lookup));
    assert t.calls == s'.calls && t.conns == s'.conns;
  }

  lemma FilingIt(s: R.State, s': R.State)
    requires s == Registry(map[], 2, [], map[7 := Saying(Looked(1), [], 0, [])], [])
    requires s' == Registry(Filing(), 2, [], map[7 := Saying(Filed(1, 1), [], 0, [])], [])
    ensures R.Enabled(s, R.Advance(7, File)) && R.Apply(s, R.Advance(7, File)) == s'
  {
    var t := R.Apply(s, R.Advance(7, File));
    assert t.calls == s'.calls;
    assert t.entries["t"].pending == Filing();
    assert t.entries == s'.entries;
  }

  lemma SendingIt(s: R.State, s': R.State, queue: seq<R.OutFrame>)
    requires queue == [R.Request(Prompt, "p", "s")]
    requires s == Registry(Filing(), 2, [], map[7 := Saying(Filed(1, 1), [], 0, [])], [])
    requires s' == Registry(Filing(), 2, queue, map[7 := Waits([], 0, [])], [])
    ensures R.Enabled(s, R.Advance(7, Send)) && R.Apply(s, R.Advance(7, Send)) == s'
  {
    var t := R.Apply(s, R.Advance(7, Send));
    assert [] + queue == queue;
    assert t.calls == s'.calls && t.conns == s'.conns;
  }

  lemma PumpingIt(s: R.State, s': R.State, queue: seq<R.OutFrame>)
    requires queue == [R.Request(Prompt, "p", "s")]
    requires s == Registry(Filing(), 2, queue, map[7 := Waits([], 0, [])], [])
    requires s' == Registry(Filing(), 2, [], map[7 := Waits([], 0, [])], [])
    ensures R.Enabled(s, R.Pump(1)) && R.Apply(s, R.Pump(1)) == s'
  {
    assert queue[1..] == [];
    assert R.Apply(s, R.Pump(1)).conns == s'.conns;
  }

  lemma Noting(c: ConnId, r: P.ReplyBody, replies: seq<T.TalkReply>, hand: map<ConnId, Frame>)
    requires (c == 0 || c == 1) && c !in hand && r.session == "s"
    ensures Leads(Waiting(Waits([], 0, []), [], replies, hand), Note(c, "p", r, 0, T.WORKS),
                  Waiting(Waits([], 0, []), [], replies + [T.Record(r, 0)], hand[c := Reply("p", r)]))
  {
    var op := T.Replied("p", r, 0, T.WORKS);
    var entries := [T.TalkEntry("p", "s", "hi", 0, replies)];
    T.PositionUnique(entries, "p", 0);
    assert T.Loaded(Files(replies), T.SafeFilename("s")) == entries;
    assert T.Appended(entries, op) == [T.TalkEntry("p", "s", "hi", 0, replies + [T.Record(r, 0)])];
    assert T.Apply(Files(replies), op) == Files(replies + [T.Record(r, 0)]);
  }

  /** The registry while the prompt listens. */
  ghost function Listened(call: Call, log: seq<Logged>): (s: R.State)
  {
    Registry(Filing(), 2, [], map[7 := call], log)
  }

  lemma Resolving(c: ConnId, r: P.ReplyBody, events: seq<P.Event>, log: seq<Logged>, log': seq<Logged>)
    requires (c == 0 || c == 1) && log' == log + [Logged("t", Reply("p", r))]
    ensures R.Enabled(Listened(Waits(events, 0, []), log), R.Handle(c, Reply("p", r), Prompt))
    ensures R.Apply(Listened(Waits(events, 0, []), log), R.Handle(c, Reply("p", r), Prompt)) ==
            Listened(Waits(events + [P.Reply(r)], 0, []), log')
  {
    var s := R.Apply(Listened(Waits(events, 0, []), log), R.Handle(c, Reply("p", r), Prompt));
    assert s.calls == map[7 := Waits(events + [P.Reply(r)], 0, [])];
  }

  lemma HandingOn(
    c: ConnId, r: P.ReplyBody, events: seq<P.Event>, log: seq<Logged>, replies: seq<T.TalkReply>,
    hand: map<ConnId, Frame>)
    requires (c == 0 || c == 1) && c in hand && hand[c] == Reply("p", r)
    ensures Leads(Waiting(Waits(events, 0, []), log, replies, hand), Other(R.Handle(c, Reply("p", r), Prompt)),
                  Waiting(Waits(events + [P.Reply(r)], 0, []), log + [Logged("t", Reply("p", r))], replies, hand - {c}))
  {
    Resolving(c, r, events, log, log + [Logged("t", Reply("p", r))]);
  }

  lemma Listening(events: seq<P.Event>, log: seq<Logged>)
    requires events == [P.Reply(Partial()), P.Reply(Last())]
    ensures R.Enabled(Listened(Waits(events, 0, []), log), R.Advance(7, Listen))
    ensures R.Apply(Listened(Waits(events, 0, []), log), R.Advance(7, Listen)) == Listened(Waits(events, 1, ["b"]), log)
  {
    assert [] + P.Pieces(Partial()) == ["b"];
    var s := R.Apply(Listened(Waits(events, 0, []), log), R.Advance(7, Listen));
    assert s.calls == map[7 := Waits(events, 1, ["b"])];
  }

  lemma Spelling()
    ensures Concat(["b"] + P.Pieces(Last())) == "ba"
  {
    assert ["b"] + P.Pieces(Last()) == ["b", "a"];
    assert ["b", "a"][..1] == ["b"] && ["b"][..0] == [];
  }

  lemma Concluding(events: seq<P.Event>, log: seq<Logged>, done: Call)
    requires events == [P.Reply(Partial()), P.Reply(Last())]
    requires done == Saying(Forgetting(1, Report(Done("ba", None))), events, 2, ["b"])
    ensures R.Enabled(Listened(Waits(events, 1, ["b"]), log), R.Advance(7, Listen))
    ensures R.Apply(Listened(Waits(events, 1, ["b"]), log), R.Advance(7, Listen)) == Listened(done, log)
  {
    Spelling();
    var s := R.Apply(Listened(Waits(events, 1, ["b"]), log), R.Advance(7, Listen));
    assert s.calls == map[7 := done];
  }

  lemma WaiterForgotten(t: Table)
    requires t == map["t" := Entry(1, "host", "cli", Filing())]
    ensures Forgotten(t, "t", Slot(Prompt, "p")) == map["t" := Entry(1, "host", "cli", map[])]
  {
    assert Filing() - {Slot(Prompt, "p")} == map[];
  }

  lemma Returning(events: seq<P.Event>, log: seq<Logged>, o: Outcome, done: Call, s': R.State)
    requires done == Saying(Forgetting(1, Report(o)), events, 2, ["b"])
    requires s' == Registry(map[], 1, [], map[7 := Saying(Finished(o), events, 2, ["b"])], log)
    ensures R.Enabled(Listened(done, log), R.Advance(7, Forget))
    ensures R.Apply(Listened(done, log), R.Advance(7, Forget)) == s'
  {
    var s := R.Apply(Listened(done, log), R.Advance(7, Forget));
    WaiterForgotten(map["t" := Entry(1, "host", "cli", Filing())]);
    assert s.calls == s'.calls && s.conns == s'.conns;
  }

  // ----- The run -----

  lemma Opening(s3: Server) returns (states: seq<Server>, steps: seq<Step>)
    requires s3 == Server(Registry(map[], 1, [], map[7 := Saying(Started, [], 0, [])], []), Files([]), map[])
    ensures Going(states, steps, s3) && |steps| == 3
  {
    var s0 := Server(R.Initial(), map[], map[]);
    var s1 := s0.(reg := R.Apply(R.Initial(), R.Connect(0, "t", "cli", "host")));
    var s2 := s0.(reg := Registry(map[], 1, [], map[], []));
    Connecting(s0, s1, s2);
    Asking(s2, s3);
    states, steps := Extend([s0], [], s0, Other(R.Connect(0, "t", "cli", "host")), s1);
    states, steps := Extend(states, steps, s1, Other(R.Connect(1, "t", "cli", "host")), s2);
    states, steps := Extend(states, steps, s2, Ask(7, "t", "p", "s", "hi", 0, T.WORKS), s3);
  }

  lemma Filings(s5: Server) returns (states: seq<Server>, steps: seq<Step>)
    requires s5 == Server(Registry(Filing(), 2, [], map[7 := Saying(Filed(1, 1), [], 0, [])], []), Files([]), map[])
    ensures Going(states, steps, s5) && |steps| == 5
  {
    var r3 := Registry(map[], 1, [], map[7 := Saying(Started, [], 0, [])], []);
    var r4 := Registry(map[], 2, [], map[7 := Saying(Looked(1), [], 0, [])], []);
    LookingUp(r3, r4);
    Lifted(r3, R.Advance(7, Lookup), r4, Files([]));
    FilingIt(r4, s5.reg);
    Lifted(r4, R.Advance(7, File), s5.reg, Files([]));
    var s3, s4 := Server(r3, Files([]), map[]), Server(r4, Files([]), map[]);
    states, steps := Opening(s3);
    states, steps := Extend(states, steps, s3, Other(R.Advance(7, Lookup)), s4);
    states, steps := Extend(states, steps, s4, Other(R.Advance(7, File)), s5);
  }

  lemma Sending(waiting: Server) returns (states: seq<Server>, steps: seq<Step>)
    requires waiting == Waiting(Waits([], 0, []), [], [], map[])
    ensures Going(states, steps, waiting) && |steps| == 7
  {
    var queue := [R.Request(Prompt, "p", "s")];
    var r5 := Registry(Filing(), 2, [], map[7 := Saying(Filed(1, 1), [], 0, [])], []);
    var r6 := Registry(Filing(), 2, queue, map[7 := Waits([], 0, [])], []);
    SendingIt(r5, r6, queue);
    Lifted(r5, R.Advance(7, Send), r6, Files([]));
    PumpingIt(r6, waiting.reg, queue);
    Lifted(r6, R.Pump(1), waiting.reg, Files([]));
    var s5, s6 := Server(r5, Files([]), map[]), Server(r6, Files([]), map[]);
    states, steps := Filings(s5);
    states, steps := Extend(states, steps, s5, Other(R.Advance(7, Send)), s6);
    states, steps := Extend(states, steps, s6, Other(R.Pump(1)), waiting);
  }

  /** The replies as they are recorded: the final one first. */
  ghost function Recorded(): (replies: seq<T.TalkReply>)
  {
    [T.Record(Last(), 0), T.Record(Partial(), 0)]
  }

  ghost function First(): (hand: map<ConnId, Frame>)
  {
    map[0 := Reply("p", Last())]
  }

  ghost function Both(): (hand: map<ConnId, Frame>)
  {
    map[0 := Reply("p", Last()), 1 := Reply("p", Partial())]
  }

  lemma NotingBoth(noted: Server) returns (states: seq<Server>, steps: seq<Step>)
    requires noted == Waiting(Waits([], 0, []), [], Recorded(), Both())
    ensures Going(states, steps, noted) && |steps| == 9
  {
    var one := [T.Record(Last(), 0)];
    Noting(0, Last(), [], map[]);
    Noting(1, Partial(), one, First());
    assert [] + one == one && one + [T.Record(Partial(), 0)] == Recorded();
    assert map[][0 := Reply("p", Last())] == First() && First()[1 := Reply("p", Partial())] == Both();
    var waiting, half := Waiting(Waits([], 0, []), [], [], map[]), Waiting(Waits([], 0, []), [], one, First());
    states, steps := Sending(waiting);
    states, steps := Extend(states, steps, waiting, Note(0, "p", Last(), 0, T.WORKS), half);
    states, steps := Extend(states, steps, half, Note(1, "p", Partial(), 0, T.WORKS), noted);
  }

  lemma Overlapping(events: seq<P.Event>, log: seq<Logged>, heard: Server)
    returns (states: seq<Server>, steps: seq<Step>)
    requires events == [P.Reply(Partial()), P.Reply(Last())]
    requires log == [Logged("t", Reply("p", Partial())), Logged("t", Reply("p", Last()))]
    requires heard == Waiting(Waits(events, 0, []), log, Recorded(), map[])
    ensures Going(states, steps, heard) && |steps| == 11
  {
    var e1, l1 := [P.Reply(Partial())], [Logged("t", Reply("p", Partial()))];
    HandingOn(1, Partial(), [], [], Recorded(), Both());
    HandingOn(0, Last(), e1, l1, Recorded(), First());
    assert [] + e1 == e1 && e1 + [P.Reply(Last())] == events;
    assert [] + l1 == l1 && l1 + [Logged("t", Reply("p", Last()))] == log;
    assert Both() - {1} == First() && First() - {0} == map[];
    var noted, half := Waiting(Waits([], 0, []), [], Recorded(), Both()),
      Waiting(Waits(e1, 0, []), l1, Recorded(), First());
    states, steps := NotingBoth(noted);
    states, steps := Extend(states, steps, noted, Other(R.Handle(1, Reply("p", Partial()), Prompt)), half);
    states, steps := Extend(states, steps, half, Other(R.Handle(0, Reply("p", Last()), Prompt)), heard);
  }

  /** The log's first final reply is its very first. */
  lemma LogTellsLess(e: T.TalkEntry)
    requires e.replies == [T.Record(Last(), 0), T.Record(Partial(), 0)]
    ensures !Tells(e, "ba", None)
  {
    var said := Said(e.replies);
    assert FirstDone(said, 1);
    assert P.Transcript(said[..1]) == "a" by {
      assert said[..1][..0] == [] && said[..1][0] == Told(T.Record(Last(), 0));
      assert P.Words(said[0]) == "a" && "" + "a" == "a";
    }
    forall j: nat | FirstDone(said, j) ensures P.Transcript(said[..j]) != "ba" { FirstDoneUnique(said, 1, j); }
  }

  /**
   The whole run: the older connection records a final reply, the newer one a partial one, and the newer
   resolves first. `say` returns both, and the entry, which has both, ends its exchange after the first.
   */
  lemma OverlapDisagrees() returns (states: seq<Server>, steps: seq<Step>, e: T.TalkEntry)
    ensures IsRun(states, steps) && |steps| == 14 && steps[2] == Ask(7, "t", "p", "s", "hi", 0, T.WORKS)
    ensures forall i | 0 <= i < |steps| && steps[i].Note? :: steps[i].disk == T.WORKS && steps[i].body.session == "s"
    ensures SaidOk(states[14], steps[2], "ba", None)
    ensures T.Lookup(states[14].files, T.SafeFilename("s"), "p") == Some(e) && !Tells(e, "ba", None)
  {
    var last;
    states, steps, last := Finishing();
    e := T.TalkEntry("p", "s", "hi", 0, Recorded());
    T.PositionUnique([e], "p", 0);
    LogTellsLess(e);
  }

  lemma Finishing() returns (states: seq<Server>, steps: seq<Step>, last: Server)
    ensures Going(states, steps, last) && |steps| == 14 && last.files == Files(Recorded())
    ensures 7 in last.reg.calls && last.reg.calls[7].phase == Finished(Done("ba", None))
  {
    var events := [P.Reply(Partial()), P.Reply(Last())];
    var log, o := [Logged("t", Reply("p", Partial())), Logged("t", Reply("p", Last()))], Done("ba", None);
    var r0, r1 := Listened(Waits(events, 0, []), log), Listened(Waits(events, 1, ["b"]), log);
    var done := Saying(Forgetting(1, Report(o)), events, 2, ["b"]);
    var r2, r3 := Listened(done, log), Registry(map[], 1, [], map[7 := Saying(Finished(o), events, 2, ["b"])], log);
    Listening(events, log);
    Lifted(r0, R.Advance(7, Listen), r1, Files(Recorded()));
    Concluding(events, log, done);
    Lifted(r1, R.Advance(7, Listen), r2, Files(Recorded()));
    Returning(events, log, o, done, r3);
    Lifted(r2, R.Advance(7, Forget), r3, Files(Recorded()));
    var heard, half := Server(r0, Files(Recorded()), map[]), Server(r1, Files(Recorded()), map[]);
    var ended := Server(r2, Files(Recorded()), map[]);
    last := Server(r3, Files(Recorded()), map[]);
    states, steps := Overlapping(events, log, heard);
    states, steps := Extend(states, steps, heard, Other(R.Advance(7, Listen)), half);
    states, steps := Extend(states, steps, half, Other(R.Advance(7, Listen)), ended);
    states, steps := Extend(states, steps, ended, Other(R.Advance(7, Forget)), last);
  }
}
