/** Runs of the registry that its documentation would lead one not to expect. */
module RegistryWitnesses {
  import opened Prelude
  import opened RegistryTable
  import opened RegistryCalls
  import opened RegistryProtocol
  import opened RegistryInvariants
  import P = PromptLoop

  ghost predicate Leads(s: State, a: Action, s': State)
  {
    Enabled(s, a) && s' == Apply(s, a)
  }

  /** A run goes on by one step. */
  lemma Extend(states: seq<State>, actions: seq<Action>, a: Action, s: State)
    returns (states': seq<State>, actions': seq<Action>)
    requires IsRun(states, actions) && Leads(states[|actions|], a, s)
    ensures states' == states + [s] && actions' == actions + [a] && IsRun(states', actions') && states'[|actions'|] == s
  {
    states', actions' := states + [s], actions + [a];
  }

  /** The registry with one connection of token `t`. */
  ghost function Alone(senders: int, calls: map<CallId, Call>): (s: State)
  {
    State(map["t" := Entry(0, "host", "cli", map[])], map[], map[0 := Conn("t", Running, [], senders)], calls, [])
  }

  /** The registry once a second connection of token `t` has displaced the first, and the notice is out. */
  ghost function Replaced(
    queue: seq<OutFrame>, task: Task, senders: int, calls: map<CallId, Call>, e: map<Slot, Waiter>): (s: State)
  {
    State(map["t" := Entry(1, "host", "cli", e)], map[],
      map[0 := Conn("t", task, queue, senders), 1 := Conn("t", Running, [], 1)], calls, [])
  }

  lemma Reconnecting(senders: int, calls: map<CallId, Call>) returns (mid: State)
    ensures Leads(Alone(senders, calls), Connect(1, "t", "cli", "host"), mid)
    ensures Leads(mid, Release(0), Replaced([Superseded], Running, senders - 1, calls, map[]))
  {
    mid := Apply(Alone(senders, calls), Connect(1, "t", "cli", "host"));
    var s := Apply(mid, Release(0));
    assert s.displaced == map[];
    assert [] + [Superseded] == [Superseded];
    assert s.conns[0] == Conn("t", Running, [Superseded], senders - 1);
    assert s.conns == map[0 := Conn("t", Running, [Superseded], senders - 1), 1 := Conn("t", Running, [], 1)];
    assert s.entries == map["t" := Entry(1, "host", "cli", map[])];
  }

  lemma Pumping(f: OutFrame, rest: seq<OutFrame>, senders: int, calls: map<CallId, Call>, e: map<Slot, Waiter>)
    ensures Leads(Replaced([f] + rest, Running, senders, calls, e), Pump(0), Replaced(rest, Running, senders, calls, e))
  {
    var s := Apply(Replaced([f] + rest, Running, senders, calls, e), Pump(0));
    assert s.conns == map[0 := Conn("t", Running, rest, senders), 1 := Conn("t", Running, [], 1)];
  }

  lemma Superseding() returns (states: seq<State>, actions: seq<Action>)
    ensures IsRun(states, actions) && states[|actions|] == Replaced([], Running, 0, map[], map[])
    ensures actions == [Connect(0, "t", "cli", "host"), Connect(1, "t", "cli", "host"), Release(0), Pump(0)]
  {
    var mid := Reconnecting(1, map[]);
    Pumping(Superseded, [], 0, map[], map[]);
    assert [Superseded] + [] == [Superseded];
    states, actions := Extend([Initial()], [], Connect(0, "t", "cli", "host"), Alone(1, map[]));
    states, actions := Extend(states, actions, Connect(1, "t", "cli", "host"), mid);
    states, actions := Extend(states, actions, Release(0), Replaced([Superseded], Running, 0, map[], map[]));
    states, actions := Extend(states, actions, Pump(0), Replaced([], Running, 0, map[], map[]));
  }

  lemma Leaving(drained: State) returns (left: State, cleaned: State)
    requires drained == Replaced([], Running, 0, map[], map[])
    ensures Leads(drained, Closed(0), left) && Leads(left, Cleanup(0), cleaned)
    ensures TaskIs(cleaned, 1, Running) && cleaned.conns[1].token == "t" && "t" !in cleaned.entries
  {
    left := Apply(drained, Closed(0));
    cleaned := Apply(left, Cleanup(0));
  }

  /**
   A run in which the newest connection is alive and unregistered: the task it superseded reads its
   notice, sees its channel closed, and its cleanup removes the successor's entry.
   */
  lemma NewestConnectionCanBeUnregistered() returns (states: seq<State>, actions: seq<Action>)
    ensures IsRun(states, actions) && |actions| == 6
    ensures TaskIs(states[6], 1, Running) && states[6].conns[1].token == "t"
    ensures forall i | 0 <= i < |actions| :: !actions[i].Revoke? && actions[i] != Break(1) && actions[i] != Cleanup(1)
    ensures "t" !in states[6].entries
  {
    states, actions := Superseding();
    var left, cleaned := Leaving(states[4]);
    states, actions := Extend(states, actions, Closed(0), left);
    states, actions := Extend(states, actions, Cleanup(0), cleaned);
  }

  /** The call of the run below, at each of its phases. */
  ghost function Asking(p: Phase): (calls: map<CallId, Call>)
  {
    map[5 := Begun(Query, "t", "q", "", 0).(phase := p)]
  }

  lemma AskingOld()
    ensures Leads(Alone(1, map[]), Begin(5, Query, "t", "q", ""), Alone(1, Asking(Started)))
    ensures Leads(Alone(1, Asking(Started)), Advance(5, Lookup), Alone(2, Asking(Looked(0))))
  {
    var s := Apply(Alone(1, map[]), Begin(5, Query, "t", "q", ""));
    assert s.calls == Asking(Started);
    var s' := Apply(Alone(1, Asking(Started)), Advance(5, Lookup));
    assert s'.calls == Asking(Looked(0));
    assert s'.conns == map[0 := Conn("t", Running, [], 2)];
  }

  lemma FilingNew(filed: map<Slot, Waiter>)
    requires filed == map[Slot(Query, "q") := Waiter(5, "")]
    ensures Leads(Replaced([Superseded], Running, 1, Asking(Looked(0)), map[]), Advance(5, File),
                  Replaced([Superseded], Running, 1, Asking(Filed(0, 1)), filed))
  {
    var s := Apply(Replaced([Superseded], Running, 1, Asking(Looked(0)), map[]), Advance(5, File));
    assert s.calls == Asking(Filed(0, 1));
    assert s.entries == map["t" := Entry(1, "host", "cli", filed)];
  }

  lemma SendingOld(filed: map<Slot, Waiter>)
    ensures Leads(Replaced([Superseded], Running, 1, Asking(Filed(0, 1)), filed), Advance(5, Send),
                  Replaced([Superseded, Request(Query, "q", "")], Running, 1, Asking(Awaiting(0, 1)), filed))
  {
    var s := Apply(Replaced([Superseded], Running, 1, Asking(Filed(0, 1)), filed), Advance(5, Send));
    assert s.calls == Asking(Awaiting(0, 1));
    assert [Superseded] + [Request(Query, "q", "")] == [Superseded, Request(Query, "q", "")];
    assert s.conns[0] == Conn("t", Running, [Superseded, Request(Query, "q", "")], 1);
    assert s.conns == map[0 := Conn("t", Running, [Superseded, Request(Query, "q", "")], 1),
                          1 := Conn("t", Running, [], 1)];
  }

  lemma AskedThenReplaced() returns (states: seq<State>, actions: seq<Action>)
    ensures IsRun(states, actions)
    ensures states[|actions|] == Replaced([Superseded], Running, 1, Asking(Looked(0)), map[])
  {
    AskingOld();
    var mid := Reconnecting(2, Asking(Looked(0)));
    states, actions := Extend([Initial()], [], Connect(0, "t", "cli", "host"), Alone(1, map[]));
    states, actions := Extend(states, actions, Begin(5, Query, "t", "q", ""), Alone(1, Asking(Started)));
    states, actions := Extend(states, actions, Advance(5, Lookup), Alone(2, Asking(Looked(0))));
    states, actions := Extend(states, actions, Connect(1, "t", "cli", "host"), mid);
    states, actions :=
      Extend(states, actions, Release(0), Replaced([Superseded], Running, 1, Asking(Looked(0)), map[]));
  }

  /**
   A run in which a superseded connection has read its notice and still has an open channel: a call
   cloned the old sender, filed its waiter with the new entry, and waits there for an answer to a
   frame that went to the old connection.
   */
  lemma SupersededConnectionCanStayOpen() returns (states: seq<State>, actions: seq<Action>)
    ensures IsRun(states, actions)
    ensures var s := states[|actions|];
            && TaskIs(s, 0, Running) && 0 !in s.displaced && !RegisteredConn(s, 0) && s.conns[0].queue == []
            && RegisteredConn(s, 1) && !Enabled(s, Closed(0)) && s.calls == Asking(Awaiting(0, 1))
  {
    var filed, request := map[Slot(Query, "q") := Waiter(5, "")], Request(Query, "q", "");
    var waiting := Asking(Awaiting(0, 1));
    FilingNew(filed);
    SendingOld(filed);
    Pumping(Superseded, [request], 1, waiting, filed);
    Pumping(request, [], 1, waiting, filed);
    assert [Superseded] + [request] == [Superseded, request] && [request] + [] == [request];
    states, actions := AskedThenReplaced();
    states, actions :=
      Extend(states, actions, Advance(5, File), Replaced([Superseded], Running, 1, Asking(Filed(0, 1)), filed));
    states, actions :=
      Extend(states, actions, Advance(5, Send), Replaced([Superseded, request], Running, 1, waiting, filed));
    states, actions := Extend(states, actions, Pump(0), Replaced([request], Running, 1, waiting, filed));
    states, actions := Extend(states, actions, Pump(0), Replaced([], Running, 1, waiting, filed));
  }

  // ----- An end that arrives before the frame is out -----

  /** One connection of token `t`, and one prompt `p` on it. */
  ghost function Lone(entries: Table, task: Task, senders: int, call: Call, log: seq<Logged>): (s: State)
  {
    State(entries, map[], map[0 := Conn("t", task, [], senders)], map[5 := call], log)
  }

  ghost function Prompting(p: Phase, events: seq<P.Event>): (call: Call)
  {
    Begun(Prompt, "t", "p", "s", 0).(phase := p, events := events)
  }

  /** The table with `t` registered. */
  ghost function Only(pending: map<Slot, Waiter>): (t: Table)
  {
    map["t" := Entry(0, "host", "cli", pending)]
  }

  lemma PromptStarts()
    ensures Leads(Alone(1, map[]), Begin(5, Prompt, "t", "p", "s"),
            Lone(Only(map[]), Running, 1, Prompting(Started, []), []))
    ensures Leads(Lone(Only(map[]), Running, 1, Prompting(Started, []), []), Advance(5, Lookup),
                  Lone(Only(map[]), Running, 2, Prompting(Looked(0), []), []))
  {
    var a := Apply(Alone(1, map[]), Begin(5, Prompt, "t", "p", "s"));
    assert a.calls == map[5 := Prompting(Started, [])];
    var b := Apply(Lone(Only(map[]), Running, 1, Prompting(Started, []), []), Advance(5, Lookup));
    assert b.calls == map[5 := Prompting(Looked(0), [])];
    assert b.conns == map[0 := Conn("t", Running, [], 2)];
  }

  lemma PromptFiles(filed: map<Slot, Waiter>)
    requires filed == map[Slot(Prompt, "p") := Waiter(5, "s")]
    ensures Leads(Lone(Only(map[]), Running, 2, Prompting(Looked(0), []), []), Advance(5, File),
                  Lone(Only(filed), Running, 2, Prompting(Filed(0, 0), []), []))
  {
    var s := Apply(Lone(Only(map[]), Running, 2, Prompting(Looked(0), []), []), Advance(5, File));
    assert s.calls == map[5 := Prompting(Filed(0, 0), [])];
    assert s.entries == Only(filed);
  }

  /** The same with an interrupt `i` of the prompt's session beside it. */
  ghost function Pair(
    entries: Table, task: Task, queue: seq<OutFrame>, senders: int, prompt: Call, interrupt: Call,
      log: seq<Logged>): (s: State)
  {
    State(entries, map[], map[0 := Conn("t", task, queue, senders)], map[5 := prompt, 6 := interrupt], log)
  }

  ghost function Interrupting(p: Phase, inbox: Option<Frame>): (call: Call)
  {
    Begun(Interrupt, "t", "i", "s", 0).(phase := p, inbox := inbox)
  }

  ghost function FiledPrompt(events: seq<P.Event>): (call: Call)
  {
    Prompting(Filed(0, 0), events)
  }

  ghost function One(): (pending: map<Slot, Waiter>)
  {
    map[Slot(Prompt, "p") := Waiter(5, "s")]
  }

  ghost function Two(): (pending: map<Slot, Waiter>)
  {
    map[Slot(Prompt, "p") := Waiter(5, "s"), Slot(Interrupt, "i") := Waiter(6, "s")]
  }

  lemma InterruptStarts()
    ensures Leads(Lone(Only(One()), Running, 2, FiledPrompt([]), []), Begin(6, Interrupt, "t", "i", "s"),
                  Pair(Only(One()), Running, [], 2, FiledPrompt([]), Interrupting(Started, None), []))
  {
    var s := Apply(Lone(Only(One()), Running, 2, FiledPrompt([]), []), Begin(6, Interrupt, "t", "i", "s"));
    assert s.calls == map[5 := FiledPrompt([]), 6 := Interrupting(Started, None)];
  }

  lemma InterruptLooks()
    ensures Leads(Pair(Only(One()), Running, [], 2, FiledPrompt([]), Interrupting(Started, None), []),
            Advance(6, Lookup),
                  Pair(Only(One()), Running, [], 3, FiledPrompt([]), Interrupting(Looked(0), None), []))
  {
    var s := Apply(Pair(Only(One()), Running, [], 2, FiledPrompt([]), Interrupting(Started, None), []),
      Advance(6, Lookup));
    assert s.calls == map[5 := FiledPrompt([]), 6 := Interrupting(Looked(0), None)];
    assert s.conns == map[0 := Conn("t", Running, [], 3)];
  }

  lemma InterruptFiles()
    ensures Leads(Pair(Only(One()), Running, [], 3, FiledPrompt([]), Interrupting(Looked(0), None), []),
            Advance(6, File),
                  Pair(Only(Two()), Running, [], 3, FiledPrompt([]), Interrupting(Filed(0, 0), None), []))
  {
    var s := Apply(Pair(Only(One()), Running, [], 3, FiledPrompt([]), Interrupting(Looked(0), None), []),
      Advance(6, File));
    assert s.calls == map[5 := FiledPrompt([]), 6 := Interrupting(Filed(0, 0), None)];
    assert s.entries["t"].pending == Two();
    assert s.entries == Only(Two());
  }

  lemma InterruptSends(queue: seq<OutFrame>)
    requires queue == [Request(Interrupt, "i", "s")]
    ensures Leads(Pair(Only(Two()), Running, [], 3, FiledPrompt([]), Interrupting(Filed(0, 0), None), []),
            Advance(6, Send),
                  Pair(Only(Two()), Running, queue, 3, FiledPrompt([]), Interrupting(Awaiting(0, 0), None), []))
  {
    var s := Apply(Pair(Only(Two()), Running, [], 3, FiledPrompt([]), Interrupting(Filed(0, 0), None), []),
      Advance(6, Send));
    assert [] + queue == queue;
    assert s.calls == map[5 := FiledPrompt([]), 6 := Interrupting(Awaiting(0, 0), None)];
    assert s.conns == map[0 := Conn("t", Running, queue, 3)];
  }

  lemma InterruptGoesOut(queue: seq<OutFrame>)
    requires queue == [Request(Interrupt, "i", "s")]
    ensures Leads(Pair(Only(Two()), Running, queue, 3, FiledPrompt([]), Interrupting(Awaiting(0, 0), None), []),
            Pump(0),
                  Pair(Only(Two()), Running, [], 3, FiledPrompt([]), Interrupting(Awaiting(0, 0), None), []))
  {
    var s := Apply(Pair(Only(Two()), Running, queue, 3, FiledPrompt([]), Interrupting(Awaiting(0, 0), None), []),
      Pump(0));
    assert queue[1..] == [];
    assert s.conns == map[0 := Conn("t", Running, [], 3)];
  }

  lemma InterruptAcked(log: seq<Logged>)
    requires log == [Logged("t", Ack("i"))]
    ensures Leads(Pair(Only(Two()), Running, [], 3, FiledPrompt([]), Interrupting(Awaiting(0, 0), None), []),
                  Handle(0, Ack("i"), Interrupt),
                  Pair(Only(One()), Running, [], 3, FiledPrompt([]), Interrupting(Awaiting(0, 0), Some(Ack("i"))), log))
  {
    var s := Apply(Pair(Only(Two()), Running, [], 3, FiledPrompt([]), Interrupting(Awaiting(0, 0), None), []),
                   Handle(0, Ack("i"), Interrupt));
    assert [] + log == log;
    assert s.calls == map[5 := FiledPrompt([]), 6 := Interrupting(Awaiting(0, 0), Some(Ack("i")))];
    assert s.entries["t"].pending == One();
    assert s.entries == Only(One());
  }

  lemma InterruptHears(log: seq<Logged>)
    ensures Leads(Pair(Only(One()), Running, [], 3, FiledPrompt([]), Interrupting(Awaiting(0, 0), Some(Ack("i"))), log),
                  Advance(6, Receive),
                  Pair(Only(One()), Running, [], 3, FiledPrompt([]), Interrupting(Waking(0), Some(Ack("i"))), log))
  {
    var s := Apply(Pair(Only(One()), Running, [], 3, FiledPrompt([]), Interrupting(Awaiting(0, 0), Some(Ack("i"))),
      log),
                   Advance(6, Receive));
    assert s.calls == map[5 := FiledPrompt([]), 6 := Interrupting(Waking(0), Some(Ack("i")))];
  }

  lemma InterruptWakes(log: seq<Logged>)
    ensures Leads(Pair(Only(One()), Running, [], 3, FiledPrompt([]), Interrupting(Waking(0), Some(Ack("i"))), log),
                  Advance(6, Wake),
                  Pair(Only(One()), Running, [], 2, FiledPrompt([P.Cancelled]),
                    Interrupting(Finished(Acked), Some(Ack("i"))), log))
  {
    var s := Pair(Only(One()), Running, [], 3, FiledPrompt([]), Interrupting(Waking(0), Some(Ack("i"))), log);
    var s' := Apply(s, Advance(6, Wake));
    assert One()[Slot(Prompt, "p")] == Waiter(5, "s");
    assert Waiting(s.entries, "t", "s") == {5};
    assert [] + [P.Cancelled] == [P.Cancelled];
    assert s'.calls == map[5 := FiledPrompt([P.Cancelled]), 6 := Interrupting(Finished(Acked), Some(Ack("i")))];
    assert s'.conns == map[0 := Conn("t", Running, [], 2)];
  }

  lemma ConnectionBreaks(prompt: Call, interrupt: Call, log: seq<Logged>)
    ensures Leads(Pair(Only(One()), Running, [], 2, prompt, interrupt, log), Break(0),
                  Pair(Only(One()), Exiting, [], 2, prompt, interrupt, log))
    ensures Leads(Pair(map[], Removed, [], 1, prompt, interrupt, log), EndTask(0),
                  Pair(map[], Ended, [], 1, prompt, interrupt, log))
  {
    var a := Apply(Pair(Only(One()), Running, [], 2, prompt, interrupt, log), Break(0));
    assert a.conns == map[0 := Conn("t", Exiting, [], 2)];
    var b := Apply(Pair(map[], Removed, [], 1, prompt, interrupt, log), EndTask(0));
    assert b.conns == map[0 := Conn("t", Ended, [], 1)];
  }

  lemma ConnectionCleansUp(prompt: Call, interrupt: Call, log: seq<Logged>)
    ensures Leads(Pair(Only(One()), Exiting, [], 2, prompt, interrupt, log), Cleanup(0),
                  Pair(map[], Removed, [], 1, prompt, interrupt, log))
  {
    var s := Apply(Pair(Only(One()), Exiting, [], 2, prompt, interrupt, log), Cleanup(0));
    assert s.conns == map[0 := Conn("t", Removed, [], 1)];
    assert s.entries == map[];
  }

  lemma PromptGivesUp(events: seq<P.Event>, interrupt: Call, log: seq<Logged>)
    ensures Leads(Pair(map[], Ended, [], 1, FiledPrompt(events), interrupt, log), Advance(5, Send),
                  Pair(map[], Ended, [], 1, Prompting(Forgetting(0, Report(Disconnected)), events), interrupt, log))
  {
    var s := Apply(Pair(map[], Ended, [], 1, FiledPrompt(events), interrupt, log), Advance(5, Send));
    assert s.calls == map[5 := Prompting(Forgetting(0, Report(Disconnected)), events), 6 := interrupt];
  }

  lemma PromptReturns(events: seq<P.Event>, interrupt: Call, log: seq<Logged>)
    ensures Leads(Pair(map[], Ended, [], 1, Prompting(Forgetting(0, Report(Disconnected)), events), interrupt, log),
                  Advance(5, Forget),
                  Pair(map[], Ended, [], 0, Prompting(Finished(Disconnected), events), interrupt, log))
  {
    var s := Apply(Pair(map[], Ended, [], 1, Prompting(Forgetting(0, Report(Disconnected)), events), interrupt, log),
                   Advance(5, Forget));
    assert s.calls == map[5 := Prompting(Finished(Disconnected), events), 6 := interrupt];
    assert s.conns == map[0 := Conn("t", Ended, [], 0)];
  }

  lemma PromptFiled(s: State) returns (states: seq<State>, actions: seq<Action>)
    requires s == Lone(Only(One()), Running, 2, FiledPrompt([]), [])
    ensures IsRun(states, actions) && |actions| == 4 && states[4] == s
  {
    PromptStarts();
    PromptFiles(One());
    states, actions := Extend([Initial()], [], Connect(0, "t", "cli", "host"), Alone(1, map[]));
    states, actions := Extend(states, actions, Begin(5, Prompt, "t", "p", "s"),
                              Lone(Only(map[]), Running, 1, Prompting(Started, []), []));
    states, actions := Extend(states, actions, Advance(5, Lookup),
                              Lone(Only(map[]), Running, 2, Prompting(Looked(0), []), []));
    states, actions := Extend(states, actions, Advance(5, File), s);
  }

  lemma InterruptSent(s: State) returns (states: seq<State>, actions: seq<Action>)
    requires s == Pair(Only(Two()), Running, [], 3, FiledPrompt([]), Interrupting(Awaiting(0, 0), None), [])
    ensures IsRun(states, actions) && |actions| == 9 && states[9] == s
  {
    var queue, prompt := [Request(Interrupt, "i", "s")], FiledPrompt([]);
    InterruptStarts();
    InterruptLooks();
    InterruptFiles();
    InterruptSends(queue);
    InterruptGoesOut(queue);
    states, actions := PromptFiled(Lone(Only(One()), Running, 2, prompt, []));
    states, actions := Extend(states, actions, Begin(6, Interrupt, "t", "i", "s"),
                              Pair(Only(One()), Running, [], 2, prompt, Interrupting(Started, None), []));
    states, actions := Extend(states, actions, Advance(6, Lookup),
                              Pair(Only(One()), Running, [], 3, prompt, Interrupting(Looked(0), None), []));
    states, actions := Extend(states, actions, Advance(6, File),
                              Pair(Only(Two()), Running, [], 3, prompt, Interrupting(Filed(0, 0), None), []));
    states, actions := Extend(states, actions, Advance(6, Send),
                              Pair(Only(Two()), Running, queue, 3, prompt, Interrupting(Awaiting(0, 0), None), []));
    states, actions := Extend(states, actions, Pump(0), s);
  }

  lemma PromptCancelled(log: seq<Logged>, s: State) returns (states: seq<State>, actions: seq<Action>)
    requires log == [Logged("t", Ack("i"))]
    requires s == Pair(Only(One()), Running, [], 2, FiledPrompt([P.Cancelled]),
                       Interrupting(Finished(Acked), Some(Ack("i"))), log)
    ensures IsRun(states, actions) && |actions| == 12 && states[12] == s
  {
    InterruptAcked(log);
    InterruptHears(log);
    InterruptWakes(log);
    states, actions :=
      InterruptSent(Pair(Only(Two()), Running, [], 3, FiledPrompt([]), Interrupting(Awaiting(0, 0), None), []));
    states, actions :=
      Extend(states, actions, Handle(0, Ack("i"), Interrupt),
             Pair(Only(One()), Running, [], 3, FiledPrompt([]), Interrupting(Awaiting(0, 0), Some(Ack("i"))), log));
    states, actions :=
      Extend(states, actions, Advance(6, Receive),
             Pair(Only(One()), Running, [], 3, FiledPrompt([]), Interrupting(Waking(0), Some(Ack("i"))), log));
    states, actions := Extend(states, actions, Advance(6, Wake), s);
  }

  lemma PromptStranded(log: seq<Logged>, interrupt: Call, s: State) returns (states: seq<State>, actions: seq<Action>)
    requires log == [Logged("t", Ack("i"))] && interrupt == Interrupting(Finished(Acked), Some(Ack("i")))
    requires s == Pair(map[], Ended, [], 1, FiledPrompt([P.Cancelled]), interrupt, log)
    ensures IsRun(states, actions) && |actions| == 15 && states[15] == s
    ensures states[12] == Pair(Only(One()), Running, [], 2, FiledPrompt([P.Cancelled]), interrupt, log)
  {
    var prompt := FiledPrompt([P.Cancelled]);
    ConnectionBreaks(prompt, interrupt, log);
    ConnectionCleansUp(prompt, interrupt, log);
    states, actions := PromptCancelled(log, Pair(Only(One()), Running, [], 2, prompt, interrupt, log));
    states, actions := Extend(states, actions, Break(0), Pair(Only(One()), Exiting, [], 2, prompt, interrupt, log));
    states, actions := Extend(states, actions, Cleanup(0), Pair(map[], Removed, [], 1, prompt, interrupt, log));
    states, actions := Extend(states, actions, EndTask(0), s);
  }

  /**
   A run in which a cancellation is in the prompt's queue, and the prompt reports a disconnect: an interrupt
   of its session was acked between the filing of the prompt's waiter and the sending of its frame, and the
   connection ended before that frame could go out.
   */
  lemma QueuedEndCanBeLost() returns (states: seq<State>, actions: seq<Action>)
    ensures IsRun(states, actions) && |actions| == 17
    ensures 5 in states[12].calls && states[12].calls[5].phase.Filed? && states[12].calls[5].events == [P.Cancelled]
    ensures 6 in states[12].calls && states[12].calls[6].phase == Finished(Acked)
    ensures 5 in states[17].calls && states[17].calls[5].phase == Finished(Disconnected)
  {
    var log, events, interrupt := [Logged("t", Ack("i"))], [P.Cancelled], Interrupting(Finished(Acked), Some(Ack("i")));
    PromptGivesUp(events, interrupt, log);
    PromptReturns(events, interrupt, log);
    states, actions := PromptStranded(log, interrupt, Pair(map[], Ended, [], 1, FiledPrompt(events), interrupt, log));
    states, actions :=
      Extend(states, actions, Advance(5, Send),
             Pair(map[], Ended, [], 1, Prompting(Forgetting(0, Report(Disconnected)), events), interrupt, log));
    states, actions := Extend(states, actions, Advance(5, Forget),
                              Pair(map[], Ended, [], 0, Prompting(Finished(Disconnected), events), interrupt, log));
  }
}
