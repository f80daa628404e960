/** A run in which `say` returns a text that its log entry does not have: the reply names another session. */
module SayLogGap {
  import opened Prelude
  import opened RegistryTable
  import opened RegistryCalls
  import opened SayLog
  import R = RegistryProtocol
  import P = PromptLoop
  import T = TalkLog

  /** One connection of token `t`, and one prompt `p` for session `s` on it. */
  ghost function Stage(call: Call, pending: map<Slot, Waiter>, senders: int, queue: seq<R.OutFrame>, log: seq<Logged>,
    hand: map<ConnId, Frame>): (s: Server)
  {
    Server(
      R.State(map["t" := Entry(0, "host", "cli", pending)], map[], map[0 := R.Conn("t", R.Running, queue, senders)],
        map[7 := call], log),
      map[T.SafeFilename("s") := [T.TalkEntry("p", "s", "hi", 0, [])]], hand)
  }

  /** The prompt's call as it moves, with nothing in its queue. */
  ghost function Saying(p: Phase): (call: Call)
  {
    Begun(Prompt, "t", "p", "s", 0).(phase := p)
  }

  ghost function Filing(): (pending: map<Slot, Waiter>)
  {
    map[Slot(Prompt, "p") := Waiter(7, "s")]
  }

  /** A final reply to the prompt that names another session. */
  ghost function Elsewhere(): (r: P.ReplyBody)
  {
    P.ReplyBody("u", Some("ok"), [], true, None)
  }

  ghost predicate Leads(s: Server, step: Step, s': Server)
  {
    Enabled(s, step) && s' == Apply(s, step)
  }

  lemma Asking(s0: Server, s1: Server)
    requires s0 == Server(R.Initial(), map[], map[])
    requires s1.reg == R.Apply(R.Initial(), R.Connect(0, "t", "cli", "host")) && s1.files == map[] && s1.hand == map[]
    ensures Leads(s0, Other(R.Connect(0, "t", "cli", "host")), s1)
    ensures Leads(s1, Ask(7, "t", "p", "s", "hi", 0, T.WORKS), Stage(Saying(Started), map[], 1, [], [], map[]))
  {
    var s2 := Apply(s1, Ask(7, "t", "p", "s", "hi", 0, T.WORKS));
    assert [] + [T.TalkEntry("p", "s", "hi", 0, [])] == [T.TalkEntry("p", "s", "hi", 0, [])];
    assert s2.reg.calls == map[7 := Saying(Started)];
  }

  lemma LookingUp()
    ensures Leads(Stage(Saying(Started), map[], 1, [], [], map[]), Other(R.Advance(7, Lookup)),
                  Stage(Saying(Looked(0)), map[], 2, [], [], map[]))
  {
    var s := Apply(Stage(Saying(Started), map[], 1, [], [], map[]), Other(R.Advance(7, Lookup)));
    assert s.reg.calls == map[7 := Saying(Looked(0))] && s.reg.conns == map[0 := R.Conn("t", R.Running, [], 2)];
  }

  lemma FilingIt()
    ensures Leads(Stage(Saying(Looked(0)), map[], 2, [], [], map[]), Other(R.Advance(7, File)),
                  Stage(Saying(Filed(0, 0)), Filing(), 2, [], [], map[]))
  {
    var s := Apply(Stage(Saying(Looked(0)), map[], 2, [], [], map[]), Other(R.Advance(7, File)));
    assert s.reg.calls == map[7 := Saying(Filed(0, 0))];
    assert s.reg.entries["t"].pending == Filing();
    assert s.reg.entries == map["t" := Entry(0, "host", "cli", Filing())];
  }

  lemma SendingIt(queue: seq<R.OutFrame>)
    requires queue == [R.Request(Prompt, "p", "s")]
    ensures Leads(Stage(Saying(Filed(0, 0)), Filing(), 2, [], [], map[]), Other(R.Advance(7, Send)),
                  Stage(Saying(Awaiting(0, 0)), Filing(), 2, queue, [], map[]))
  {
    var s := Apply(Stage(Saying(Filed(0, 0)), Filing(), 2, [], [], map[]), Other(R.Advance(7, Send)));
    assert s.reg.calls == map[7 := Saying(Awaiting(0, 0))];
    assert [] + queue == queue;
    assert s.reg.conns == map[0 := R.Conn("t", R.Running, queue, 2)];
  }

  lemma Pumping(queue: seq<R.OutFrame>)
    requires queue == [R.Request(Prompt, "p", "s")]
    ensures Leads(Stage(Saying(Awaiting(0, 0)), Filing(), 2, queue, [], map[]), Other(R.Pump(0)),
                  Stage(Saying(Awaiting(0, 0)), Filing(), 2, [], [], map[]))
  {
    var s := Apply(Stage(Saying(Awaiting(0, 0)), Filing(), 2, queue, [], map[]), Other(R.Pump(0)));
    assert queue[1..] == [];
    assert s.reg.conns == map[0 := R.Conn("t", R.Running, [], 2)];
  }

  lemma NotingElsewhere()
    ensures Leads(Stage(Saying(Awaiting(0, 0)), Filing(), 2, [], [], map[]), Note(0, "p", Elsewhere(), 0, T.WORKS),
                  Stage(Saying(Awaiting(0, 0)), Filing(), 2, [], [], map[0 := Reply("p", Elsewhere())]))
    ensures T.SafeFilename("u") != T.SafeFilename("s")
  {
    T.SharedFileIff("u", "s");
    assert "u"[0] != "s"[0] && T.Safe("u"[0]);
    var s := Stage(Saying(Awaiting(0, 0)), Filing(), 2, [], [], map[]);
    assert T.Loaded(s.files, T.SafeFilename("u")) == [];
    assert T.Apply(s.files, T.Replied("p", Elsewhere(), 0, T.WORKS)) == s.files;
  }

  ghost function Reached(p: Phase, read: nat): (call: Call)
  {
    Saying(p).(events := [P.Reply(Elsewhere())], read := read)
  }

  lemma HandingOn(log: seq<Logged>)
    requires log == [Logged("t", Reply("p", Elsewhere()))]
    ensures Leads(Stage(Saying(Awaiting(0, 0)), Filing(), 2, [], [], map[0 := Reply("p", Elsewhere())]),
                  Other(R.Handle(0, Reply("p", Elsewhere()), Prompt)),
                  Stage(Reached(Awaiting(0, 0), 0), Filing(), 2, [], log, map[]))
  {
    var s := Stage(Saying(Awaiting(0, 0)), Filing(), 2, [], [], map[0 := Reply("p", Elsewhere())]);
    var s' := Apply(s, Other(R.Handle(0, Reply("p", Elsewhere()), Prompt)));
    assert [] + [P.Reply(Elsewhere())] == [P.Reply(Elsewhere())] && [] + log == log;
    assert s'.reg.calls == map[7 := Reached(Awaiting(0, 0), 0)];
    assert s'.hand == map[];
  }

  lemma Listening(log: seq<Logged>)
    ensures Leads(Stage(Reached(Awaiting(0, 0), 0), Filing(), 2, [], log, map[]), Other(R.Advance(7, Listen)),
                  Stage(Reached(Forgetting(0, Report(Done("ok", None))), 1), Filing(), 2, [], log, map[]))
  {
    assert [] + P.Pieces(Elsewhere()) == ["ok"] && Concat(["ok"]) == "ok" by {
      assert ["ok"][..0] == [] && Concat([]) == "";
    }
    var s := Apply(Stage(Reached(Awaiting(0, 0), 0), Filing(), 2, [], log, map[]), Other(R.Advance(7, Listen)));
    assert s.reg.calls == map[7 := Reached(Forgetting(0, Report(Done("ok", None))), 1)];
  }

  lemma Returning(log: seq<Logged>, o: Outcome)
    ensures Leads(Stage(Reached(Forgetting(0, Report(o)), 1), Filing(), 2, [], log, map[]), Other(R.Advance(7, Forget)),
                  Stage(Reached(Finished(o), 1), map[], 1, [], log, map[]))
  {
    var s := Apply(Stage(Reached(Forgetting(0, Report(o)), 1), Filing(), 2, [], log, map[]),
      Other(R.Advance(7, Forget)));
    assert s.reg.calls == map[7 := Reached(Finished(o), 1)];
    assert s.reg.entries["t"].pending == map[];
    assert s.reg.entries == map["t" := Entry(0, "host", "cli", map[])];
    assert s.reg.conns == map[0 := R.Conn("t", R.Running, [], 1)];
  }

  /** A run of the server in which the hypotheses on prompt `p` hold. */
  ghost predicate Proper(states: seq<Server>, steps: seq<Step>, last: Server)
  {
    IsRun(states, steps) && AllOrderly(states, steps, |steps|, "p") && states[|steps|] == last
  }

  lemma Extend(states: seq<Server>, steps: seq<Step>, last: Server, step: Step, s: Server)
    returns (states': seq<Server>, steps': seq<Step>)
    requires Proper(states, steps, last) && Leads(last, step, s) && Orderly(last, step, "p")
    ensures Proper(states', steps', s) && steps' == steps + [step]
  {
    states', steps' := states + [s], steps + [step];
    forall i | 0 <= i < |steps'| ensures Leads(states'[i], steps'[i], states'[i + 1]) &&
      Orderly(states'[i], steps'[i], "p") {
      assert i < |steps| ==> states'[i] == states[i] && steps'[i] == steps[i] && states'[i + 1] == states[i + 1];
    }
  }

  lemma Opening() returns (states: seq<Server>, steps: seq<Step>)
    ensures Proper(states, steps, Stage(Saying(Filed(0, 0)), Filing(), 2, [], [], map[]))
    ensures |steps| == 4 && steps[1] == Ask(7, "t", "p", "s", "hi", 0, T.WORKS)
  {
    var s0 := Server(R.Initial(), map[], map[]);
    var s1 := s0.(reg := R.Apply(R.Initial(), R.Connect(0, "t", "cli", "host")));
    var started, looked := Stage(Saying(Started), map[], 1, [], [], map[]),
      Stage(Saying(Looked(0)), map[], 2, [], [], map[]);
    Asking(s0, s1);
    LookingUp();
    FilingIt();
    states, steps := Extend([s0], [], s0, Other(R.Connect(0, "t", "cli", "host")), s1);
    states, steps := Extend(states, steps, s1, Ask(7, "t", "p", "s", "hi", 0, T.WORKS), started);
    states, steps := Extend(states, steps, started, Other(R.Advance(7, Lookup)), looked);
    states, steps := Extend(states, steps, looked, Other(R.Advance(7, File)),
      Stage(Saying(Filed(0, 0)), Filing(), 2, [], [], map[]));
  }

  lemma Sending(waiting: Server) returns (states: seq<Server>, steps: seq<Step>)
    requires waiting == Stage(Saying(Awaiting(0, 0)), Filing(), 2, [], [], map[])
    ensures Proper(states, steps, waiting)
    ensures |steps| == 6 && steps[1] == Ask(7, "t", "p", "s", "hi", 0, T.WORKS)
  {
    var queue := [R.Request(Prompt, "p", "s")];
    var asked, sent := Stage(Saying(Filed(0, 0)), Filing(), 2, [], [], map[]),
      Stage(Saying(Awaiting(0, 0)), Filing(), 2, queue, [], map[]);
    SendingIt(queue);
    Pumping(queue);
    states, steps := Opening();
    states, steps := Extend(states, steps, asked, Other(R.Advance(7, Send)), sent);
    states, steps := Extend(states, steps, sent, Other(R.Pump(0)), waiting);
  }

  lemma Answering(log: seq<Logged>) returns (states: seq<Server>, steps: seq<Step>)
    requires log == [Logged("t", Reply("p", Elsewhere()))]
    ensures Proper(states, steps, Stage(Reached(Awaiting(0, 0), 0), Filing(), 2, [], log, map[]))
    ensures |steps| == 8 && steps[1] == Ask(7, "t", "p", "s", "hi", 0, T.WORKS)
  {
    var waiting := Stage(Saying(Awaiting(0, 0)), Filing(), 2, [], [], map[]);
    var holding := Stage(Saying(Awaiting(0, 0)), Filing(), 2, [], [], map[0 := Reply("p", Elsewhere())]);
    states, steps := Sending(waiting);
    NotingElsewhere();
    assert Sendable(waiting, "p", "t") by { assert 7 in waiting.reg.calls; }
    states, steps := Extend(states, steps, waiting, Note(0, "p", Elsewhere(), 0, T.WORKS), holding);
    HandingOn(log);
    states, steps := Extend(states, steps, holding, Other(R.Handle(0, Reply("p", Elsewhere()), Prompt)),
                            Stage(Reached(Awaiting(0, 0), 0), Filing(), 2, [], log, map[]));
  }

  /**
   The whole run: every hypothesis on saves, order and connection holds, `say` returns "ok", and its
   log entry has no reply at all.
   */
  lemma ReturnedButNotLogged() returns (states: seq<Server>, steps: seq<Step>)
    ensures IsRun(states, steps) && |steps| == 10 && steps[1] == Ask(7, "t", "p", "s", "hi", 0, T.WORKS)
    ensures AllOrderly(states, steps, 10, "p") && SaidOk(states[10], steps[1], "ok", None)
    ensures T.Lookup(states[10].files, T.SafeFilename("s"), "p") == Some(T.TalkEntry("p", "s", "hi", 0, []))
  {
    var log, o := [Logged("t", Reply("p", Elsewhere()))], Report(Done("ok", None));
    var told, ending := Stage(Reached(Awaiting(0, 0), 0), Filing(), 2, [], log, map[]),
      Stage(Reached(Forgetting(0, o), 1), Filing(), 2, [], log, map[]);
    Listening(log);
    Returning(log, o.outcome);
    states, steps := Answering(log);
    states, steps := Extend(states, steps, told, Other(R.Advance(7, Listen)), ending);
    states, steps := Extend(states, steps, ending, Other(R.Advance(7, Forget)),
      Stage(Reached(Finished(o.outcome), 1), map[], 1, [], log, map[]));
  }
}
