/** What the registry guarantees over whole runs, and what it does not. */
module RegistryTheorems {
  import opened Prelude
  import opened RegistryTable
  import opened RegistryCalls
  import opened RegistryProtocol
  import opened RegistryInvariants
  import P = PromptLoop

  // ----- One id, one waiter -----

  /** An id is pending in at most one of the five maps of at most one entry. */
  lemma PendingOnce(states: seq<State>, actions: seq<Action>, n: nat, t: TokenId, u: TokenId, slot: Slot, kind: Kind)
    requires IsRun(states, actions) && n < |states|
    requires Find(states[n].entries, t, slot).Some? && Find(states[n].entries, u, Slot(kind, slot.id)).Some?
    ensures t == u && kind == slot.kind
  {
    InvRun(states, actions, n);
    assert WaiterOk(states[n], t, slot);
    assert WaiterOk(states[n], u, Slot(kind, slot.id));
  }

  /** A call keeps its identity through the rest of the run. */
  lemma {:induction false} CallPersists(states: seq<State>, actions: seq<Action>, m: nat, n: nat, h: CallId)
    requires IsRun(states, actions) && m <= n < |states| && h in states[m].calls
    ensures h in states[n].calls && SameCall(states[m].calls[h], states[n].calls[h])
  {
    if m < n {
      CallPersists(states, actions, m, n - 1, h);
      CallsStep(states[n - 1], actions[n - 1]);
      assert SameCall(states[n - 1].calls[h], states[n].calls[h]);
    }
  }

  /**
   Whenever two frames of a run carry the same id and both find a waiter, they find the same call in
   the same map: offering an `error` to three maps, or an `ack` to two, wakes at most one call.
   */
  lemma FanOutReachesOneCall(
    states: seq<State>, actions: seq<Action>, m: nat, n: nat, t: TokenId, u: TokenId, slot: Slot, kind: Kind)
    requires IsRun(states, actions) && m <= n < |states|
    requires Find(states[m].entries, t, slot).Some? && Find(states[n].entries, u, Slot(kind, slot.id)).Some?
    ensures t == u && kind == slot.kind
    ensures Find(states[m].entries, t, slot) == Find(states[n].entries, u, Slot(kind, slot.id))
  {
    InvRun(states, actions, m);
    InvRun(states, actions, n);
    assert WaiterOk(states[m], t, slot);
    assert WaiterOk(states[n], u, Slot(kind, slot.id));
    CallPersists(states, actions, m, n, states[m].entries[t].pending[slot].call);
  }

  // ----- One outcome, and nothing left behind -----

  lemma {:induction false} OutcomeIsFinal(states: seq<State>, actions: seq<Action>, m: nat, n: nat, h: CallId)
    requires IsRun(states, actions) && m <= n < |states|
    requires h in states[m].calls && states[m].calls[h].phase.Finished?
    ensures h in states[n].calls && states[n].calls[h].phase == states[m].calls[h].phase
  {
    if m < n {
      OutcomeIsFinal(states, actions, m, n - 1, h);
      FinishedStays(states[n - 1], actions[n - 1], h);
    }
  }

  /** Once a call has returned, its id is in no pending map of any registered entry. */
  lemma NothingLeftPending(states: seq<State>, actions: seq<Action>, n: nat, h: CallId, t: TokenId, slot: Slot)
    requires IsRun(states, actions) && n < |states|
    requires h in states[n].calls && states[n].calls[h].phase.Finished?
    requires Find(states[n].entries, t, slot).Some?
    ensures slot.id != states[n].calls[h].id
  {
    InvRun(states, actions, n);
    assert WaiterOk(states[n], t, slot);
  }

  // ----- Every call gets somewhere -----

  /** Own steps still to come, events apart. */
  function StepsLeft(p: Phase): (n: nat)
  {
    match p
    case Started => 6
    case Looked(_) => 5
    case Filed(_, _) => 4
    case Awaiting(_, _) => 3
    case Forgetting(_, _) => 2
    case Waking(_) => 1
    case Checking(_) => 1
    case Finished(_) => 0
  }

  lemma SomethingToDo(log: seq<Logged>, call: Call, v: View) returns (todo: Todo)
    requires CallOk(log, call) && !call.phase.Finished?
    ensures CanDo(call, v, todo)
  {
    match call.phase {
      case Started => todo := Lookup;
      case Looked(_) => todo := File;
      case Filed(_, _) => todo := Send;
      case Awaiting(_, _) =>
        todo := if call.inbox.Some? then Receive else if call.read < |call.events| then Listen
                else if SenderAlive(call, v) then Timeout else Hangup;
      case Forgetting(_, _) => todo := Forget;
      case Waking(_) => todo := Wake;
      case Checking(_) => todo := Recheck;
    }
  }

  /** No call is ever stuck: until it has returned there is a step it can take. */
  lemma NeverStuck(states: seq<State>, actions: seq<Action>, n: nat, h: CallId) returns (todo: Todo)
    requires IsRun(states, actions) && n < |states| && Unfinished(states[n], h)
    ensures Enabled(states[n], Advance(h, todo))
  {
    InvRun(states, actions, n);
    assert CallOk(states[n].log, states[n].calls[h]);
    todo := SomethingToDo(states[n].log, states[n].calls[h], ViewOf(states[n], states[n].calls[h]));
  }

  /** A step either brings the call one phase closer to returning, or reads an event of its queue. */
  lemma DoCounts(log: seq<Logged>, call: Call, v: View, todo: Todo)
    requires CallOk(log, call) && CanDo(call, v, todo)
    ensures var call' := Do(call, v, todo).call;
            StepsLeft(call'.phase) + 1 + call.read <= StepsLeft(call.phase) + call'.read
  {
  }

  /** How often the call itself has stepped. */
  function Turns(actions: seq<Action>, h: CallId): (n: nat)
  {
    if actions == [] then 0 else
      Turns(actions[..|actions| - 1], h) +
      (if actions[|actions| - 1].Advance? && actions[|actions| - 1].h == h then 1 else 0)
  }

  predicate InBudget(s: State, h: CallId, turns: nat)
  {
    h in s.calls ==> turns + StepsLeft(s.calls[h].phase) <= 6 + s.calls[h].read
  }

  lemma TurnCounted(s: State, a: Action, h: CallId, turns: nat)
    requires CallsOk(s) && Enabled(s, a) && h in s.calls && InBudget(s, h, turns)
    ensures h in Apply(s, a).calls && InBudget(Apply(s, a), h, turns + if a.Advance? && a.h == h then 1 else 0)
  {
    if a.Advance? && a.h == h {
      assert CallOk(s.log, s.calls[h]);
      DoCounts(s.log, s.calls[h], ViewOf(s, s.calls[h]), a.todo);
      assert Apply(s, a).calls[h] == Do(s.calls[h], ViewOf(s, s.calls[h]), a.todo).call;
    } else {
      Bystander(s, a, h);
    }
  }

  lemma BornUnturned(s: State, a: Action, h: CallId)
    requires Enabled(s, a) && h !in s.calls
    ensures InBudget(Apply(s, a), h, 0) && !(a.Advance? && a.h == h)
  {
    if a.Advance? { OthersKept(s, a.h, a.todo); }
  }

  lemma TurnAt(states: seq<State>, actions: seq<Action>, n: nat, h: CallId)
    requires IsRun(states, actions) && n < |actions| && InBudget(states[n], h, Turns(actions[..n], h))
    requires h !in states[n].calls ==> Turns(actions[..n], h) == 0
    ensures InBudget(states[n + 1], h, Turns(actions[..n + 1], h))
    ensures h !in states[n + 1].calls ==> Turns(actions[..n + 1], h) == 0
  {
    assert actions[..n + 1][..n] == actions[..n];
    if h in states[n].calls {
      InvRun(states, actions, n);
      TurnCounted(states[n], actions[n], h, Turns(actions[..n], h));
    } else {
      BornUnturned(states[n], actions[n], h);
    }
  }

  lemma {:induction false} StaysInBudget(states: seq<State>, actions: seq<Action>, n: nat, h: CallId)
    requires IsRun(states, actions) && n < |states|
    ensures InBudget(states[n], h, Turns(actions[..n], h))
    ensures h !in states[n].calls ==> Turns(actions[..n], h) == 0
  {
    if n > 0 {
      StaysInBudget(states, actions, n - 1, h);
      TurnAt(states, actions, n - 1, h);
    }
  }

  /**
   A call takes at most six steps of its own, and one more for each event of its queue that it reads.
   As it is never stuck, it returns as soon as it has had its turns and its queue is quiet.
   */
  lemma TurnsAreBounded(states: seq<State>, actions: seq<Action>, n: nat, h: CallId)
    requires IsRun(states, actions) && n < |states| && h in states[n].calls
    ensures Turns(actions[..n], h) + StepsLeft(states[n].calls[h].phase) <= 6 + |states[n].calls[h].events|
  {
    StaysInBudget(states, actions, n, h);
    InvRun(states, actions, n);
    assert CallOk(states[n].log, states[n].calls[h]);
  }

  // ----- What success rests on -----

  /** A reported success was answered: a matching frame was handled on the call's token after its waiter was filed. */
  lemma SuccessWasAnswered(states: seq<State>, actions: seq<Action>, n: nat, h: CallId)
    requires IsRun(states, actions) && n < |states|
    requires h in states[n].calls && states[n].calls[h].phase.Finished? && states[n].calls[h].kind != Prompt
    ensures var call, log := states[n].calls[h], states[n].log;
            match call.phase.outcome
            case Connected => call.kind == Ping && Heard(log, call, Pong(call.id))
            case Answered(b) => call.kind == Query && Heard(log, call, QueryOk(call.id, b))
            case Failed(x) => (call.kind == Query || call.kind == Answer) && Heard(log, call, Error(call.id, x))
            case Acked => TwoState(call.kind) && Heard(log, call, Ack(call.id))
            case TimedOut => TwoState(call.kind)
            case Disconnected => true
            case Done(_, _) => false
            case Cancelled => false
  {
    InvRun(states, actions, n);
    assert CallOk(states[n].log, states[n].calls[h]);
  }

  /**
   A prompt that did not end in a disconnect stopped at the first terminal event of its queue, with
   the text of every reply up to there, and each of those replies was sent by its client to its id.
   */
  lemma PromptToldTheTruth(states: seq<State>, actions: seq<Action>, n: nat, h: CallId)
    requires IsRun(states, actions) && n < |states|
    requires h in states[n].calls && states[n].calls[h].phase.Finished? && states[n].calls[h].kind == Prompt
    requires states[n].calls[h].phase.outcome != Disconnected
    ensures var call, log := states[n].calls[h], states[n].log;
            exists k: nat ::
              && P.EndsAt(call.events, k)
              && (forall e <- call.events[..k + 1] :: EventHeard(log, call, e))
              && match call.events[k]
                 case Reply(r) => call.phase.outcome == Done(P.Transcript(P.Replies(call.events[..k + 1])), r.exit)
                 case Err(x) => call.phase.outcome == Failed(x)
                 case Cancelled => call.phase.outcome == Cancelled
  {
    InvRun(states, actions, n);
    var call := states[n].calls[h];
    assert CallOk(states[n].log, call);
    var k: nat := call.read - 1;
    assert P.EndsAt(call.events, k);
    assert forall e <- call.events[..k + 1] :: e in call.events;
  }

  /** An end of the exchange is in the prompt's queue. */
  predicate HasEnd(call: Call)
  {
    call.kind == Prompt && exists e <- call.events :: P.Terminal(e)
  }

  /** The exchange has ended in the queue, and the call listens, or has been told an end. */
  predicate Settled(call: Call)
  {
    HasEnd(call) &&
    match call.phase
    case Awaiting(_, _) => true
    case Forgetting(_, Report(o)) => o != Disconnected
    case Finished(o) => o != Disconnected
    case _ => false
  }

  /** The call has decided on a disconnect: it will not look at its queue again. */
  predicate GaveUp(call: Call)
  {
    call.kind == Prompt &&
    match call.phase
    case Forgetting(_, Report(o)) => o == Disconnected
    case Finished(o) => o == Disconnected
    case _ => false
  }

  lemma EndPhases(log: seq<Logged>, call: Call)
    requires CallOk(log, call) && HasEnd(call)
    ensures Settled(call) || GaveUp(call) || call.phase.Filed?
  {
  }

  lemma SettledDo(log: seq<Logged>, call: Call, v: View, todo: Todo)
    requires CallOk(log, call) && Settled(call) && CanDo(call, v, todo)
    ensures Settled(Do(call, v, todo).call)
  {
    DoKeepsEvents(call, v, todo);
    var e :| e in call.events && P.Terminal(e);
    assert Idle(call) ==> e in call.events[..call.read];
    assert todo != Hangup && todo != Timeout;
    if todo == Listen {
      P.AbsorbJudges(call.events, call.read, call.pieces);
    }
    assert e in Do(call, v, todo).call.events;
  }

  /** A step that is not the call's own leaves it where it is, and at most queues events for it. */
  lemma Bystander(s: State, a: Action, h: CallId)
    requires Enabled(s, a) && h in s.calls && !(a.Advance? && a.h == h)
    ensures h in Apply(s, a).calls
    ensures Apply(s, a).calls[h].phase == s.calls[h].phase && Apply(s, a).calls[h].kind == s.calls[h].kind
    ensures s.calls[h].events <= Apply(s, a).calls[h].events && Apply(s, a).calls[h].read == s.calls[h].read
  {
    if a.Advance? {
      OthersKept(s, a.h, a.todo);
    } else if a.Handle? {
      HandleKeepsCalls(s, a.c, a.frame, a.kind);
    } else {
      assert Apply(s, a).calls[h] == s.calls[h];
    }
  }

  /** An end in the queue stays there. */
  lemma EndStays(s: State, a: Action, h: CallId)
    requires Enabled(s, a) && h in s.calls && HasEnd(s.calls[h]) && !(a.Advance? && a.h == h)
    ensures h in Apply(s, a).calls && HasEnd(Apply(s, a).calls[h]) && Apply(s, a).calls[h].phase == s.calls[h].phase
  {
    Bystander(s, a, h);
    var e :| e in s.calls[h].events && P.Terminal(e);
    assert e in Apply(s, a).calls[h].events;
  }

  lemma SettledStep(s: State, a: Action, h: CallId)
    requires CallsOk(s) && Enabled(s, a) && h in s.calls && Settled(s.calls[h])
    ensures h in Apply(s, a).calls && Settled(Apply(s, a).calls[h])
  {
    if a.Advance? && a.h == h {
      assert CallOk(s.log, s.calls[h]);
      SettledDo(s.log, s.calls[h], ViewOf(s, s.calls[h]), a.todo);
      assert Apply(s, a).calls[h] == Do(s.calls[h], ViewOf(s, s.calls[h]), a.todo).call;
    } else {
      EndStays(s, a, h);
    }
  }

  lemma SettledAt(states: seq<State>, actions: seq<Action>, n: nat, h: CallId)
    requires IsRun(states, actions) && n < |actions| && h in states[n].calls && Settled(states[n].calls[h])
    ensures h in states[n + 1].calls && Settled(states[n + 1].calls[h])
  {
    InvRun(states, actions, n);
    SettledStep(states[n], actions[n], h);
  }

  /**
   An end that is in the queue while the call listens is never lost: whatever happens to the entry, the
   connection or the timer afterwards, the call does not report a disconnect.
   */
  lemma {:induction false} SettledForGood(states: seq<State>, actions: seq<Action>, m: nat, n: nat, h: CallId)
    requires IsRun(states, actions) && m <= n < |states|
    requires h in states[m].calls && Settled(states[m].calls[h])
    ensures h in states[n].calls && Settled(states[n].calls[h])
  {
    if m < n {
      SettledForGood(states, actions, m, n - 1, h);
      SettledAt(states, actions, n - 1, h);
    }
  }

  lemma GaveUpDo(call: Call, v: View, todo: Todo)
    requires GaveUp(call) && CanDo(call, v, todo)
    ensures GaveUp(Do(call, v, todo).call)
  {
  }

  lemma GaveUpAt(states: seq<State>, actions: seq<Action>, n: nat, h: CallId)
    requires IsRun(states, actions) && n < |actions| && h in states[n].calls && GaveUp(states[n].calls[h])
    ensures h in states[n + 1].calls && GaveUp(states[n + 1].calls[h])
  {
    var s, a := states[n], actions[n];
    if a.Advance? && a.h == h {
      GaveUpDo(s.calls[h], ViewOf(s, s.calls[h]), a.todo);
      assert Apply(s, a).calls[h] == Do(s.calls[h], ViewOf(s, s.calls[h]), a.todo).call;
    } else {
      Bystander(s, a, h);
    }
  }

  lemma {:induction false} GaveUpForGood(states: seq<State>, actions: seq<Action>, m: nat, n: nat, h: CallId)
    requires IsRun(states, actions) && m <= n < |states| && h in states[m].calls && GaveUp(states[m].calls[h])
    ensures h in states[n].calls && GaveUp(states[n].calls[h])
  {
    if m < n {
      GaveUpForGood(states, actions, m, n - 1, h);
      GaveUpAt(states, actions, n - 1, h);
    }
  }

  /** The frame of call `h` goes out at step `k`, and finds that the connection's task has ended. */
  predicate SendFails(states: seq<State>, actions: seq<Action>, k: nat, h: CallId)
  {
    && k < |actions| && k < |states| && actions[k] == Advance(h, Send)
    && h in states[k].calls && states[k].calls[h].phase.Filed?
    && TaskIs(states[k], states[k].calls[h].phase.conn, Ended)
  }

  /** What becomes of an end that arrived between the filing of the waiter and the sending of the frame. */
  lemma FiledEndStep(s: State, a: Action, h: CallId)
    requires HeldOk(s) && Enabled(s, a) && h in s.calls && HasEnd(s.calls[h]) && s.calls[h].phase.Filed?
    ensures h in Apply(s, a).calls
    ensures var call' := Apply(s, a).calls[h];
            if a != Advance(h, Send) then HasEnd(call') && call'.phase == s.calls[h].phase
            else if TaskIs(s, s.calls[h].phase.conn, Ended) then GaveUp(call') && HasEnd(call')
            else Settled(call')
  {
    if a.Advance? && a.h == h {
      assert CloneOk(s.conns, s.calls[h]);
      assert Apply(s, a).calls[h] == Do(s.calls[h], ViewOf(s, s.calls[h]), a.todo).call;
    } else {
      EndStays(s, a, h);
    }
  }

  lemma FiledEndAt(states: seq<State>, actions: seq<Action>, n: nat, h: CallId)
    requires IsRun(states, actions) && n < |actions|
    requires h in states[n].calls && HasEnd(states[n].calls[h]) && states[n].calls[h].phase.Filed?
    ensures h in states[n + 1].calls && HasEnd(states[n + 1].calls[h])
    ensures SendFails(states, actions, n, h) ==> GaveUp(states[n + 1].calls[h])
    ensures !SendFails(states, actions, n, h) ==> !GaveUp(states[n + 1].calls[h])
  {
    InvRun(states, actions, n);
    FiledEndStep(states[n], actions[n], h);
  }

  /** A settled call has sent its frame. */
  lemma {:induction false} SettledHasSent(states: seq<State>, actions: seq<Action>, m: nat, n: nat, h: CallId)
    requires IsRun(states, actions) && m <= n < |states| && h in states[m].calls && Settled(states[m].calls[h])
    ensures forall k: nat | m <= k < n :: !SendFails(states, actions, k, h)
  {
    forall k: nat | m <= k < n ensures !SendFails(states, actions, k, h) {
      SettledForGood(states, actions, m, k, h);
    }
  }

  lemma EndCases(states: seq<State>, actions: seq<Action>, m: nat, h: CallId)
    requires IsRun(states, actions) && m < |states| && h in states[m].calls && HasEnd(states[m].calls[h])
    ensures Settled(states[m].calls[h]) || GaveUp(states[m].calls[h]) || states[m].calls[h].phase.Filed?
  {
    InvRun(states, actions, m);
    EndPhases(states[m].log, states[m].calls[h]);
  }

  /**
   Exactly when a final reply, an error or a cancellation that reached the queue is lost to a
   disconnect: when the call had given up by then, or when its frame is still to be sent and the send
   finds the connection's task ended. Otherwise it is delivered, whatever happens to the entry, the
   connection or the timer.
   */
  lemma {:induction false} QueuedEndIsDelivered(states: seq<State>, actions: seq<Action>, m: nat, n: nat, h: CallId)
    requires IsRun(states, actions) && m <= n < |states|
    requires h in states[m].calls && HasEnd(states[m].calls[h])
    requires h in states[n].calls && states[n].calls[h].phase.Finished?
    ensures states[n].calls[h].phase == Finished(Disconnected) <==>
              GaveUp(states[m].calls[h]) || exists k: nat :: m <= k < n && SendFails(states, actions, k, h)
    decreases n - m
  {
    EndCases(states, actions, m, h);
    if GaveUp(states[m].calls[h]) {
      GaveUpForGood(states, actions, m, n, h);
    } else if Settled(states[m].calls[h]) {
      SettledForGood(states, actions, m, n, h);
      SettledHasSent(states, actions, m, n, h);
    } else {
      FiledEndAt(states, actions, m, h);
      QueuedEndIsDelivered(states, actions, m + 1, n, h);
    }
  }

  // ----- Lost or late -----

  predicate Unfinished(s: State, h: CallId)
  {
    h in s.calls && !s.calls[h].phase.Finished?
  }

  /**
   What a call that is about to report a disconnect sees. Before its waiter is filed, and at the check
   after a timeout: no entry for its token. While it waits: its entry absent or replaced. After a
   failed send: the connection's task ended.
   */
  predicate Lost(s: State, call: Call)
  {
    match call.phase
    case Started => call.token !in s.entries
    case Looked(_) => call.token !in s.entries
    case Awaiting(_, entry) => call.token !in s.entries || s.entries[call.token].conn != entry
    case Forgetting(conn, _) => TaskIs(s, conn, Ended)
    case Checking(_) => call.token !in s.entries
    case _ => false
  }

  /** What a call that is about to report a timeout sees: it has come to its check, and its token is registered. */
  predicate Late(s: State, call: Call)
  {
    call.phase.Checking? && call.token in s.entries
  }

  lemma HangupMeansLost(s: State, h: CallId)
    requires AllFiled(s) && Enabled(s, Advance(h, Hangup))
    ensures Lost(s, s.calls[h])
  {
    assert FiledOk(s, h);
  }

  /** Where an interrupt's or an answer's report of failure comes from. */
  lemma DoReports(call: Call, v: View, todo: Todo)
    requires CanDo(call, v, todo) && TwoState(call.kind)
    ensures var p := Do(call, v, todo).call.phase;
            && (p == Finished(Disconnected) ==>
                  || todo == Hangup || call.phase.Forgetting?
                  || (v.current.None? && (call.phase.Started? || call.phase.Looked? || call.phase.Checking?)))
            && (p == Finished(TimedOut) ==> (call.phase.Checking? && v.current.Some?) || call.phase.Forgetting?)
            && (call.phase.Forgetting? ==>
                  p.Checking? || (call.phase.next.Report? && p == Finished(call.phase.next.outcome)))
            && (call.phase.Checking? ==> p == Finished(if v.current.Some? then TimedOut else Disconnected))
  {
    assert call.phase.Awaiting? && call.inbox.Some? ==> DoReceive(call).call.phase != Finished(TimedOut);
  }

  /** The step that makes an interrupt or answer return tells what it saw. */
  ghost predicate Reported(s: State, s': State, h: CallId)
  {
    && h in s.calls && h in s'.calls
    && (s'.calls[h].phase == Finished(Disconnected) ==> Lost(s, s.calls[h]))
    && (s'.calls[h].phase == Finished(TimedOut) ==> Late(s, s.calls[h]))
  }

  lemma ReportedOwn(s: State, h: CallId, todo: Todo)
    requires AllFiled(s) && HeldOk(s) && Enabled(s, Advance(h, todo)) && TwoState(s.calls[h].kind)
    ensures Reported(s, DoAdvance(s, h, todo), h)
  {
    assert CloneOk(s.conns, s.calls[h]);
    DoReports(s.calls[h], ViewOf(s, s.calls[h]), todo);
    if todo == Hangup { HangupMeansLost(s, h); }
  }

  lemma ReportedOther(s: State, a: Action, h: CallId)
    requires Enabled(s, a) && Unfinished(s, h) && !(a.Advance? && a.h == h)
    ensures Reported(s, Apply(s, a), h)
  {
    Bystander(s, a, h);
  }

  /** The same, for the step of a run that starts in state `n`. */
  lemma ReportedAt(states: seq<State>, actions: seq<Action>, n: nat, h: CallId)
    requires IsRun(states, actions) && n < |actions| && Unfinished(states[n], h) && TwoState(states[n].calls[h].kind)
    ensures Reported(states[n], states[n + 1], h)
  {
    var a := actions[n];
    if a.Advance? && a.h == h {
      InvRun(states, actions, n);
      ReportedOwn(states[n], h, a.todo);
    } else {
      ReportedOther(states[n], a, h);
    }
  }

  /** A call does not come into being finished. */
  lemma BornUnfinished(s: State, a: Action, h: CallId)
    requires Enabled(s, a) && h !in s.calls && h in Apply(s, a).calls
    ensures !Apply(s, a).calls[h].phase.Finished?
  {
    if a.Advance? { OthersKept(s, a.h, a.todo); }
  }

  /** Step `k` is the one at which the call returns. */
  predicate ReturnsAt(states: seq<State>, k: nat, h: CallId)
  {
    k + 1 < |states| && Unfinished(states[k], h) && h in states[k + 1].calls && states[k + 1].calls[h].phase.Finished?
  }

  /** A call that has returned did so at some step. */
  lemma {:induction false} ReturnedAt(states: seq<State>, actions: seq<Action>, n: nat, h: CallId) returns (k: nat)
    requires IsRun(states, actions) && n < |states| && h in states[n].calls && states[n].calls[h].phase.Finished?
    ensures k < n && ReturnsAt(states, k, h) && states[k + 1].calls[h].phase == states[n].calls[h].phase
  {
    k := n - 1;
    if h !in states[k].calls {
      BornUnfinished(states[k], actions[k], h);
    } else if states[k].calls[h].phase.Finished? {
      FinishedStays(states[k], actions[k], h);
      k := ReturnedAt(states, actions, n - 1, h);
    }
  }

  /**
   What the report of an interrupt or answer rests on, at the very step that made it. A disconnect: the
   entry absent or replaced, or the task ended, as the phase has it. A timeout: the check found the
   token registered. And a call that comes to its check reports the one or the other accordingly.
   */
  lemma LostOrLate(states: seq<State>, actions: seq<Action>, n: nat, h: CallId) returns (k: nat)
    requires IsRun(states, actions) && n < |states| && h in states[n].calls && TwoState(states[n].calls[h].kind)
    requires states[n].calls[h].phase.Finished?
    ensures k < n && ReturnsAt(states, k, h) && states[k + 1].calls[h].phase == states[n].calls[h].phase
    ensures states[n].calls[h].phase == Finished(Disconnected) ==> Lost(states[k], states[k].calls[h])
    ensures states[n].calls[h].phase == Finished(TimedOut) <==> Late(states[k], states[k].calls[h])
  {
    k := ReturnedAt(states, actions, n, h);
    CallPersists(states, actions, k, n, h);
    ReportedAt(states, actions, k, h);
    CheckDecides(states, actions, k, h);
  }

  /** The step at which a call leaves its check is decided by that check. */
  lemma CheckDecides(states: seq<State>, actions: seq<Action>, k: nat, h: CallId)
    requires IsRun(states, actions) && k < |actions| && ReturnsAt(states, k, h) && TwoState(states[k].calls[h].kind)
    ensures states[k].calls[h].phase.Checking? ==>
              states[k + 1].calls[h].phase == Finished(if states[k].calls[h].token in states[k].entries then TimedOut
                else Disconnected)
  {
    var s, a := states[k], actions[k];
    if a.Advance? && a.h == h {
      DoReports(s.calls[h], ViewOf(s, s.calls[h]), a.todo);
      assert Apply(s, a).calls[h] == Do(s.calls[h], ViewOf(s, s.calls[h]), a.todo).call;
    } else {
      Bystander(s, a, h);
    }
  }

  // ----- Interrupts stay within their session -----

  /** At step `k` interrupt `i`, acked by the client, wakes prompt `h`, whose waiter is filed. */
  ghost predicate Wakes(states: seq<State>, actions: seq<Action>, k: nat, i: CallId, h: CallId)
  {
    && k < |actions| && k < |states| && actions[k] == Advance(i, Wake)
    && h in states[k].calls && i in states[k].calls
    && var prompt, interrupt := states[k].calls[h], states[k].calls[i];
       && prompt.kind == Prompt && interrupt.kind == Interrupt
       && interrupt.token == prompt.token && interrupt.session == prompt.session
       && Find(states[k].entries, prompt.token, SlotOf(prompt)) == Some(Waiter(h, prompt.session))
       && Heard(states[k].log, interrupt, Ack(interrupt.id))
  }

  lemma WakesAt(states: seq<State>, actions: seq<Action>, k: nat, h: CallId)
    requires IsRun(states, actions) && k < |actions| && h in states[k + 1].calls
    requires P.Cancelled in states[k + 1].calls[h].events
    ensures h in states[k].calls
    ensures P.Cancelled in states[k].calls[h].events || exists i :: Wakes(states, actions, k, i, h)
  {
    InvRun(states, actions, k);
    CancelledFrom(states[k], actions[k], h);
    if P.Cancelled !in states[k].calls[h].events {
      WokenBy(states[k], actions[k].h, h);
      assert Wakes(states, actions, k, actions[k].h, h);
    }
  }

  /** A waiting prompt's waiter is where it filed it. */
  lemma WaitingFiled(s: State, token: TokenId, session: string, h: CallId)
    requires PendingOk(s) && h in Waiting(s.entries, token, session)
    ensures h in s.calls && s.calls[h].kind == Prompt && s.calls[h].token == token && s.calls[h].session == session
    ensures Find(s.entries, token, SlotOf(s.calls[h])) == Some(Waiter(h, session))
  {
    var slot :| slot in s.entries[token].pending && slot.kind == Prompt && s.entries[token].pending[slot].call == h
                && s.entries[token].pending[slot].session == session;
    assert WaiterOk(s, token, slot);
  }

  lemma WokenBy(s: State, i: CallId, h: CallId)
    requires PendingOk(s) && CallsOk(s) && Enabled(s, Advance(i, Wake))
    requires h in Waiting(s.entries, s.calls[i].token, s.calls[i].session)
    ensures h in s.calls && s.calls[h].kind == Prompt && s.calls[i].kind == Interrupt
    ensures s.calls[h].token == s.calls[i].token && s.calls[h].session == s.calls[i].session
    ensures Find(s.entries, s.calls[h].token, SlotOf(s.calls[h])) == Some(Waiter(h, s.calls[h].session))
    ensures Heard(s.log, s.calls[i], Ack(s.calls[i].id))
  {
    WaitingFiled(s, s.calls[i].token, s.calls[i].session, h);
    assert CallOk(s.log, s.calls[i]);
  }

  lemma {:induction false} CancelledWasWoken(states: seq<State>, actions: seq<Action>, n: nat, h: CallId)
    returns (i: CallId, k: nat)
    requires IsRun(states, actions) && n < |states| && h in states[n].calls && P.Cancelled in states[n].calls[h].events
    ensures k < n && Wakes(states, actions, k, i, h)
  {
    k := n - 1;
    WakesAt(states, actions, k, h);
    if P.Cancelled in states[k].calls[h].events {
      i, k := CancelledWasWoken(states, actions, n - 1, h);
    } else {
      i :| Wakes(states, actions, k, i, h);
    }
  }

  /**
   A prompt ends cancelled only if an interrupt of the same session on the same token, which the client
   acked, woke it while its waiter was filed; and that interrupt reported success.
   */
  lemma CancelledByItsSession(states: seq<State>, actions: seq<Action>, n: nat, h: CallId) returns (i: CallId, k: nat)
    requires IsRun(states, actions) && n < |states| && h in states[n].calls
    requires states[n].calls[h].phase == Finished(Cancelled)
    ensures k < n && Wakes(states, actions, k, i, h)
    ensures i in states[n].calls && states[n].calls[i].phase == Finished(Acked)
  {
    InvRun(states, actions, n);
    assert CallOk(states[n].log, states[n].calls[h]);
    i, k := CancelledWasWoken(states, actions, n, h);
    assert states[k + 1] == DoAdvance(states[k], i, Wake);
    assert states[k + 1].calls[i].phase == Finished(Acked);
    OutcomeIsFinal(states, actions, k + 1, n, i);
  }

  /** The prompt's waiter is filed in its token's entry, for this session of this token. */
  predicate WaitsFor(s: State, g: CallId, token: TokenId, session: string)
    requires g in s.calls
  {
    && s.calls[g].kind == Prompt && s.calls[g].token == token && s.calls[g].session == session
    && token in s.entries && Slot(Prompt, s.calls[g].id) in s.entries[token].pending
    && s.entries[token].pending[Slot(Prompt, s.calls[g].id)].call == g
  }

  lemma WaitsForExactly(s: State, g: CallId, token: TokenId, session: string)
    requires PendingOk(s) && g in s.calls
    ensures g in Waiting(s.entries, token, session) <==> WaitsFor(s, g, token, session)
  {
    assert WaitsFor(s, g, token, session) ==> WaiterOk(s, token, Slot(Prompt, s.calls[g].id));
    if g in Waiting(s.entries, token, session) { WaitingFiled(s, token, session, g); }
  }

  /**
   An acked interrupt adds one event, a cancellation, to each prompt that waits for its session on its token,
   and none to any other call.
   */
  lemma InterruptIsolation(states: seq<State>, actions: seq<Action>, n: nat, i: CallId, g: CallId)
    requires IsRun(states, actions) && n < |actions| && actions[n] == Advance(i, Wake) && g in states[n].calls
    ensures var s, s' := states[n], states[n + 1];
            && i in s.calls && g in s'.calls
            && s'.calls[g].events ==
               if WaitsFor(s, g, s.calls[i].token, s.calls[i].session) then s.calls[g].events + [P.Cancelled]
               else s.calls[g].events
  {
    InvRun(states, actions, n);
    var s := states[n];
    OthersKept(s, i, Wake);
    DoKeepsEvents(s.calls[i], ViewOf(s, s.calls[i]), Wake);
    assert CallOk(s.log, s.calls[i]);
    WaitsForExactly(s, g, s.calls[i].token, s.calls[i].session);
  }

  // ----- Frames -----

  /** Which calls a frame is offered to, by its type. */
  lemma FramesOffered(s: State, c: ConnId, f: Frame, kind: Kind)
    ensures Enabled(s, Handle(c, f, kind)) <==>
              c in s.conns && s.conns[c].task == Running &&
              match f
              case Pong(_) => kind == Ping
              case QueryOk(_, _) => kind == Query
              case Error(_, _) => kind == Query || kind == Prompt || kind == Answer
              case Reply(_, _) => kind == Prompt
              case Ack(_) => kind == Interrupt || kind == Answer
  {
  }

  /** The call's waiter is filed, under its kind and id, in the entry of its token. */
  predicate Expects(s: State, h: CallId)
    requires h in s.calls
  {
    var call := s.calls[h];
    call.token in s.entries && Slot(call.kind, call.id) in s.entries[call.token].pending &&
    s.entries[call.token].pending[Slot(call.kind, call.id)].call == h
  }

  lemma FrameReaches(s: State, c: ConnId, f: Frame, kind: Kind, h: CallId)
    requires IdsDistinct(s) && PendingOk(s) && Enabled(s, Handle(c, f, kind)) && h in s.calls
    ensures h in DoHandle(s, c, f, kind).calls
    ensures DoHandle(s, c, f, kind).log == s.log + [Logged(s.conns[c].token, f)]
    ensures var call, call' := s.calls[h], DoHandle(s, c, f, kind).calls[h];
            if s.conns[c].token == call.token && f.id == call.id && kind == call.kind && Expects(s, h) then
              match f
              case Reply(_, r) => call' == call.(events := call.events + [P.Reply(r)])
              case Error(_, x) =>
                call' == if kind == Prompt then call.(events := call.events + [P.Err(x)]) else call.(inbox := Some(f))
              case _ => call' == call.(inbox := Some(f))
            else call' == call
  {
    var token, slot := s.conns[c].token, Slot(kind, f.id);
    if Find(s.entries, token, slot).Some? {
      assert WaiterOk(s, token, slot);
    }
  }

  /**
   A frame reaches a call exactly if it comes on a connection of the call's token, carries its id, is offered
   to its kind, and finds its waiter filed: then a reply or an error joins a prompt's queue, and any answer
   fills a one-shot channel. No other call notices.
   */
  lemma FrameReachesItsCall(
    states: seq<State>, actions: seq<Action>, n: nat, c: ConnId, f: Frame, kind: Kind, h: CallId)
    requires IsRun(states, actions) && n < |actions| && actions[n] == Handle(c, f, kind) && h in states[n].calls
    ensures c in states[n].conns && h in states[n + 1].calls
    ensures states[n + 1].log == states[n].log + [Logged(states[n].conns[c].token, f)]
    ensures var call, call' := states[n].calls[h], states[n + 1].calls[h];
            if states[n].conns[c].token == call.token && f.id == call.id && kind == call.kind &&
              Expects(states[n], h) then
              match f
              case Reply(_, r) => call' == call.(events := call.events + [P.Reply(r)])
              case Error(_, x) =>
                call' == if kind == Prompt then call.(events := call.events + [P.Err(x)]) else call.(inbox := Some(f))
              case _ => call' == call.(inbox := Some(f))
            else call' == call
  {
    HandledAt(states, actions, n, c, f, kind);
    FrameReaches(states[n], c, f, kind, h);
  }

  lemma HandledAt(states: seq<State>, actions: seq<Action>, n: nat, c: ConnId, f: Frame, kind: Kind)
    requires IsRun(states, actions) && n < |actions| && actions[n] == Handle(c, f, kind)
    ensures IdsDistinct(states[n]) && PendingOk(states[n]) && Enabled(states[n], Handle(c, f, kind))
    ensures states[n + 1] == DoHandle(states[n], c, f, kind)
  {
    InvRun(states, actions, n);
  }

  /** A greeting sets the hostname of the entry of its connection's token, if there is one, and nothing else. */
  lemma GreetingNamesItsEntry(states: seq<State>, actions: seq<Action>, n: nat, c: ConnId, hostname: string, t: TokenId)
    requires IsRun(states, actions) && n < |actions| && actions[n] == Rename(c, hostname)
    ensures c in states[n].conns && (t in states[n + 1].entries <==> t in states[n].entries)
    ensures t in states[n].entries ==>
              states[n + 1].entries[t] ==
              if t == states[n].conns[c].token then states[n].entries[t].(hostname := hostname)
                else states[n].entries[t]
    ensures states[n + 1].calls == states[n].calls && states[n + 1].conns == states[n].conns
  {
  }

  /**
   A call files its waiter in the entry registered at that moment, and counts as heard what is handled
   from then on.
   */
  lemma FilingCounts(states: seq<State>, actions: seq<Action>, n: nat, h: CallId)
    requires IsRun(states, actions) && n < |actions| && actions[n] == Advance(h, File)
    ensures h in states[n].calls && h in states[n + 1].calls && states[n].calls[h].phase.Looked?
    ensures var call, call', t := states[n].calls[h], states[n + 1].calls[h], states[n].entries;
            if call.token in t then
              && call'.phase == Filed(call.phase.conn, t[call.token].conn) && call'.since == |states[n].log|
              && Expects(states[n + 1], h)
            else call'.phase == Finished(Disconnected)
  {
    assert states[n + 1] == DoAdvance(states[n], h, File);
  }

  /** A send puts the call's request behind whatever the connection it looked up is still to write. */
  lemma RequestGoesOut(states: seq<State>, actions: seq<Action>, n: nat, h: CallId)
    requires IsRun(states, actions) && n < |actions| && actions[n] == Advance(h, Send)
    ensures h in states[n].calls && states[n].calls[h].phase.Filed? && h in states[n + 1].calls
    ensures var call, c := states[n].calls[h], states[n].calls[h].phase.conn;
            && c in states[n].conns && c in states[n + 1].conns
            && (TaskIs(states[n], c, Ended) ==>
                  states[n + 1].conns == states[n].conns &&
                  states[n + 1].calls[h].phase == Forgetting(c, Report(Disconnected)))
            && (!TaskIs(states[n], c, Ended) ==>
                  && states[n + 1].conns[c].queue ==
                     states[n].conns[c].queue + [Request(call.kind, call.id, call.session)]
                  && states[n + 1].calls[h].phase == Awaiting(c, call.phase.entry))
  {
    InvRun(states, actions, n);
    assert CloneOk(states[n].conns, states[n].calls[h]);
    assert states[n + 1] == DoAdvance(states[n], h, Send);
  }

  // ----- Senders and tasks -----

  /** Live senders are one for the connection's own entry, plus one for each call that cloned it. */
  lemma SenderAccounting(states: seq<State>, actions: seq<Action>, n: nat, c: ConnId)
    requires IsRun(states, actions) && n < |states| && c in states[n].conns
    ensures states[n].conns[c].senders ==
            (if RegisteredConn(states[n], c) || c in states[n].displaced then 1 else 0) + |Holders(states[n].calls, c)|
  {
    InvRun(states, actions, n);
  }

  /**
   A drained session loop sees its channel closed exactly when its entry is gone and no call in
   flight holds a clone: displacing the entry alone does not close it.
   */
  lemma ClosedExactlyWhenUnreferenced(states: seq<State>, actions: seq<Action>, n: nat, c: ConnId)
    requires IsRun(states, actions) && n < |states| && TaskIs(states[n], c, Running) && states[n].conns[c].queue == []
    ensures Enabled(states[n], Closed(c)) <==>
            !RegisteredConn(states[n], c) && c !in states[n].displaced && forall h <- states[n].calls ::
              !Holds(states[n].calls[h], c)
  {
    SenderAccounting(states, actions, n, c);
    if forall h <- states[n].calls :: !Holds(states[n].calls[h], c) {
      assert Holders(states[n].calls, c) == {};
    } else {
      var h :| h in states[n].calls && Holds(states[n].calls[h], c);
      assert h in Holders(states[n].calls, c);
    }
  }

  /** No registered entry outlives its own task's cleanup. */
  lemma NoEntryOutlivesItsTask(states: seq<State>, actions: seq<Action>, n: nat, t: TokenId)
    requires IsRun(states, actions) && n < |states| && t in states[n].entries
    ensures TaskIs(states[n], states[n].entries[t].conn, Running) ||
            TaskIs(states[n], states[n].entries[t].conn, Exiting)
  {
    InvRun(states, actions, n);
    assert OwnerOk(states[n], t);
  }

  // ----- Who stays registered -----

  /** The step takes the token's entry away from whoever has it: a revoke, a newcomer, or anybody's cleanup. */
  predicate Unseats(s: State, a: Action, t: TokenId)
  {
    || a == Revoke(t)
    || (a.Connect? && a.token == t)
    || (a.Cleanup? && a.c in s.conns && s.conns[a.c].token == t)
  }

  /** A known connection of `t` is registered after a step exactly if it was, and the step does not unseat it. */
  lemma SeatStep(s: State, a: Action, c: ConnId, t: TokenId)
    requires TableOk(s) && Enabled(s, a) && c in s.conns && s.conns[c].token == t
    ensures c in Apply(s, a).conns && Apply(s, a).conns[c].token == t
    ensures RegisteredConn(Apply(s, a), c) <==> RegisteredConn(s, c) && !Unseats(s, a, t)
  {
    if OnCall(a) { CallsKeepShape(s, a); } else { SeatTask(s, a, c, t); }
  }

  lemma SeatTask(s: State, a: Action, c: ConnId, t: TokenId)
    requires TableOk(s) && Enabled(s, a) && !OnCall(a) && c in s.conns && s.conns[c].token == t
    ensures c in Apply(s, a).conns && Apply(s, a).conns[c].token == t
    ensures RegisteredConn(Apply(s, a), c) <==> RegisteredConn(s, c) && !Unseats(s, a, t)
  {
  }

  lemma SeatAt(states: seq<State>, actions: seq<Action>, n: nat, c: ConnId, t: TokenId)
    requires IsRun(states, actions) && n < |actions| && c in states[n].conns && states[n].conns[c].token == t
    ensures c in states[n + 1].conns && states[n + 1].conns[c].token == t
    ensures RegisteredConn(states[n + 1], c) <==> RegisteredConn(states[n], c) && !Unseats(states[n], actions[n], t)
  {
    InvRun(states, actions, n);
    SeatStep(states[n], actions[n], c, t);
  }

  /** Nothing from step `m` up to `n` unseats the token. */
  predicate Undisturbed(states: seq<State>, actions: seq<Action>, m: nat, n: nat, t: TokenId)
    requires n <= |actions| && n <= |states|
  {
    forall i | m <= i < n :: !Unseats(states[i], actions[i], t)
  }

  lemma {:induction false} SeatOver(states: seq<State>, actions: seq<Action>, m: nat, n: nat, c: ConnId, t: TokenId)
    requires IsRun(states, actions) && m <= n < |states| && c in states[m].conns && states[m].conns[c].token == t
    ensures c in states[n].conns && states[n].conns[c].token == t
    ensures RegisteredConn(states[n], c) <==> RegisteredConn(states[m], c) && Undisturbed(states, actions, m, n, t)
    decreases n - m
  {
    if m < n {
      SeatAt(states, actions, m, c, t);
      SeatOver(states, actions, m + 1, n, c, t);
      assert Undisturbed(states, actions, m, n, t) <==>
             !Unseats(states[m], actions[m], t) && Undisturbed(states, actions, m + 1, n, t);
    }
  }

  /**
   A connection is registered, from the moment it is, exactly as long as its token is not revoked, no
   other connection of the token is made, and no connection of the token cleans up, not even one that it
   superseded. So being the newest and alive is not enough.
   */
  lemma RegisteredUntilUnseated(states: seq<State>, actions: seq<Action>, k: nat, n: nat)
    requires IsRun(states, actions) && k < n < |states| && actions[k].Connect?
    ensures RegisteredConn(states[n], actions[k].c) <==> Undisturbed(states, actions, k + 1, n, actions[k].token)
  {
    var c, t := actions[k].c, actions[k].token;
    assert states[k + 1] == DoConnect(states[k], c, t, actions[k].clientId, actions[k].hostname);
    assert RegisteredConn(states[k + 1], c);
    SeatOver(states, actions, k + 1, n, c, t);
  }

  /** A token is registered exactly if some connection of it was made and has not been unseated since. */
  lemma {:induction false} RegisteredIffSeated(states: seq<State>, actions: seq<Action>, n: nat, t: TokenId)
    requires IsRun(states, actions) && n < |states|
    ensures t in states[n].entries <==>
              exists k: nat :: k < n && Seats(states, actions, k, n, t)
  {
    InvRun(states, actions, n);
    if t in states[n].entries {
      assert OwnerOk(states[n], t);
      var c := states[n].entries[t].conn;
      var k := ConnectedAt(states, actions, n, c);
      RegisteredUntilUnseated(states, actions, k, n);
      TokenKept(states, actions, k, n);
      assert Seats(states, actions, k, n, t);
    } else {
      forall k: nat | k < n ensures !Seats(states, actions, k, n, t) {
        if Seats(states, actions, k, n,
          t) { RegisteredUntilUnseated(states, actions, k, n); TokenKept(states, actions, k, n); }
      }
    }
  }

  /** Step `k` connects the token, and nothing unseats it up to `n`. */
  predicate Seats(states: seq<State>, actions: seq<Action>, k: nat, n: nat, t: TokenId)
    requires n <= |actions| && n <= |states|
  {
    k < n && actions[k].Connect? && actions[k].token == t && Undisturbed(states, actions, k + 1, n, t)
  }

  lemma TokenKept(states: seq<State>, actions: seq<Action>, k: nat, n: nat)
    requires IsRun(states, actions) && k < n < |states| && actions[k].Connect?
    ensures actions[k].c in states[n].conns && states[n].conns[actions[k].c].token == actions[k].token
  {
    var c, t := actions[k].c, actions[k].token;
    assert states[k + 1] == DoConnect(states[k], c, t, actions[k].clientId, actions[k].hostname);
    SeatOver(states, actions, k + 1, n, c, t);
  }

  lemma ConnsFrom(s: State, a: Action, c: ConnId)
    requires Enabled(s, a) && c in Apply(s, a).conns
    ensures c in s.conns || (a.Connect? && a.c == c)
  {
    if OnCall(a) { CallsKeepShape(s, a); }
  }

  /** A known connection was made at some step. */
  lemma {:induction false} ConnectedAt(states: seq<State>, actions: seq<Action>, n: nat, c: ConnId) returns (k: nat)
    requires IsRun(states, actions) && n < |states| && c in states[n].conns
    ensures k < n && actions[k].Connect? && actions[k].c == c
  {
    k := n - 1;
    ConnsFrom(states[k], actions[k], c);
    if c in states[k].conns {
      k := ConnectedAt(states, actions, n - 1, c);
    }
  }
}
