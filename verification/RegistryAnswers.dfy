/** What a one-shot call (ping, query, interrupt, answer) makes of the answer it receives, over whole runs. */
module RegistryAnswers {
  import opened Prelude
  import opened RegistryTable
  import opened RegistryCalls
  import opened RegistryProtocol
  import opened RegistryInvariants
  import opened RegistryTheorems

  /** The outcome each frame calls for. */
  predicate Matches(f: Frame, o: Outcome)
  {
    match f
    case Pong(_) => o == Connected
    case QueryOk(_, b) => o == Answered(b)
    case Error(_, x) => o == Failed(x)
    case Ack(_) => o == Acked
    case Reply(_, _) => false
  }

  predicate HasAnswer(call: Call)
  {
    call.kind != Prompt && call.inbox.Some?
  }

  /** The call has its answer, and is about to report it or has. */
  predicate Reporting(call: Call)
  {
    HasAnswer(call) &&
    match call.phase
    case Awaiting(_, _) => true
    case Waking(_) => call.inbox.value.Ack?
    case Finished(o) => Matches(call.inbox.value, o)
    case _ => false
  }

  /** The call has given up: it will not look at its channel again. */
  predicate TooLate(call: Call)
  {
    call.kind != Prompt &&
    match call.phase
    case Forgetting(_, Report(o)) => o == Disconnected
    case Forgetting(_, Check) => true
    case Checking(_) => true
    case Finished(o) => o == Disconnected || o == TimedOut
    case _ => false
  }

  /** Past its waiting, a call is doing one or the other. */
  predicate Decided(call: Call)
  {
    call.kind != Prompt &&
    (call.phase.Forgetting? || call.phase.Waking? || call.phase.Checking? || call.phase.Finished?) ==>
      Reporting(call) || TooLate(call)
  }

  lemma ReportingDo(log: seq<Logged>, call: Call, v: View, todo: Todo)
    requires CallOk(log, call) && Reporting(call) && CanDo(call, v, todo)
    ensures Reporting(Do(call, v, todo).call) && Do(call, v, todo).call.inbox == call.inbox
  {
  }

  lemma TooLateDo(call: Call, v: View, todo: Todo)
    requires TooLate(call) && CanDo(call, v, todo)
    ensures TooLate(Do(call, v, todo).call)
  {
  }

  lemma DecidedDo(log: seq<Logged>, call: Call, v: View, todo: Todo)
    requires CallOk(log, call) && Decided(call) && CanDo(call, v, todo)
    ensures Decided(Do(call, v, todo).call)
  {
    if call.kind == Prompt {
    } else if Reporting(call) {
      ReportingDo(log, call, v, todo);
    } else if TooLate(call) {
      TooLateDo(call, v, todo);
    } else {
      WaitingDo(call, v, todo);
    }
  }

  lemma WaitingDo(call: Call, v: View, todo: Todo)
    requires call.kind != Prompt && !Reporting(call) && !TooLate(call) && CanDo(call, v, todo) && Decided(call)
    ensures Decided(Do(call, v, todo).call)
  {
  }

  /** A step that is not the call's own may answer it, if it is still unresolved, and does nothing else to it. */
  lemma Answering(s: State, a: Action, h: CallId)
    requires PendingOk(s) && Enabled(s, a) && h in s.calls && !(a.Advance? && a.h == h)
    ensures h in Apply(s, a).calls
    ensures var call, call' := s.calls[h], Apply(s, a).calls[h];
            && call'.phase == call.phase && call'.kind == call.kind
            && (call'.inbox == call.inbox ||
                (call.inbox.None? && (call.phase.Filed? || call.phase.Awaiting? || call.phase.Forgetting?)))
  {
    match a {
      case Advance(g, todo) => OthersKept(s, g, todo);
      case Handle(c, f, kind) => AnsweredByFrame(s, c, f, kind, h);
      case _ => assert Apply(s, a).calls[h] == s.calls[h];
    }
  }

  lemma AnsweredByFrame(s: State, c: ConnId, f: Frame, kind: Kind, h: CallId)
    requires PendingOk(s) && c in s.conns && h in s.calls
    ensures h in DoHandle(s, c, f, kind).calls
    ensures var call, call' := s.calls[h], DoHandle(s, c, f, kind).calls[h];
            && call'.phase == call.phase && call'.kind == call.kind
            && (call'.inbox == call.inbox ||
                (call.inbox.None? && (call.phase.Filed? || call.phase.Awaiting? || call.phase.Forgetting?)))
  {
    var token, slot := s.conns[c].token, Slot(kind, f.id);
    if Find(s.entries, token, slot).Some? { assert WaiterOk(s, token, slot); }
  }

  ghost predicate AllDecided(s: State)
  {
    forall h <- s.calls :: Decided(s.calls[h])
  }

  lemma DecidedStep(s: State, a: Action, h: CallId)
    requires PendingOk(s) && CallsOk(s) && AllDecided(s) && Enabled(s, a) && h in Apply(s, a).calls
    ensures Decided(Apply(s, a).calls[h])
  {
    if a.Advance? && a.h == h {
      assert CallOk(s.log, s.calls[h]) && Decided(s.calls[h]);
      DecidedDo(s.log, s.calls[h], ViewOf(s, s.calls[h]), a.todo);
      assert Apply(s, a).calls[h] == Do(s.calls[h], ViewOf(s, s.calls[h]), a.todo).call;
    } else if h in s.calls {
      assert Decided(s.calls[h]);
      Answering(s, a, h);
    } else {
      BornUnturned(s, a, h);
    }
  }

  lemma {:induction false} DecidedRun(states: seq<State>, actions: seq<Action>, n: nat)
    requires IsRun(states, actions) && n < |states|
    ensures AllDecided(states[n])
  {
    if n > 0 {
      DecidedRun(states, actions, n - 1);
      InvRun(states, actions, n - 1);
      forall h <- states[n].calls ensures Decided(states[n].calls[h]) {
        DecidedStep(states[n - 1], actions[n - 1], h);
      }
    }
  }

  // ----- From an answer in hand to the outcome -----

  lemma AnswerCases(states: seq<State>, actions: seq<Action>, n: nat, h: CallId)
    requires IsRun(states, actions) && n < |states| && h in states[n].calls && HasAnswer(states[n].calls[h])
    ensures Reporting(states[n].calls[h]) || TooLate(states[n].calls[h]) || states[n].calls[h].phase.Filed?
  {
    DecidedRun(states, actions, n);
    InvRun(states, actions, n);
    assert Decided(states[n].calls[h]) && CallOk(states[n].log, states[n].calls[h]);
  }

  lemma AnswerStaysStep(s: State, a: Action, h: CallId)
    requires PendingOk(s) && CallsOk(s) && Enabled(s, a) && h in s.calls && HasAnswer(s.calls[h])
    ensures h in Apply(s, a).calls && HasAnswer(Apply(s, a).calls[h]) && Apply(s, a).calls[h].inbox == s.calls[h].inbox
    ensures Reporting(s.calls[h]) ==> Reporting(Apply(s, a).calls[h])
    ensures TooLate(s.calls[h]) ==> TooLate(Apply(s, a).calls[h])
  {
    if a.Advance? && a.h == h {
      assert CallOk(s.log, s.calls[h]);
      OwnStepKeepsAnswer(s, h, a.todo);
    } else {
      Answering(s, a, h);
    }
  }

  lemma AnswerStays(states: seq<State>, actions: seq<Action>, n: nat, h: CallId)
    requires IsRun(states, actions) && n < |actions| && h in states[n].calls && HasAnswer(states[n].calls[h])
    ensures h in states[n + 1].calls && HasAnswer(states[n + 1].calls[h])
    ensures states[n + 1].calls[h].inbox == states[n].calls[h].inbox
    ensures Reporting(states[n].calls[h]) ==> Reporting(states[n + 1].calls[h])
    ensures TooLate(states[n].calls[h]) ==> TooLate(states[n + 1].calls[h])
  {
    InvRun(states, actions, n);
    AnswerStaysStep(states[n], actions[n], h);
  }

  lemma OwnStepKeepsAnswer(s: State, h: CallId, todo: Todo)
    requires h in s.calls && HasAnswer(s.calls[h]) && CallOk(s.log, s.calls[h]) && Enabled(s, Advance(h, todo))
    ensures h in DoAdvance(s, h, todo).calls && HasAnswer(DoAdvance(s, h, todo).calls[h])
    ensures DoAdvance(s, h, todo).calls[h].inbox == s.calls[h].inbox
    ensures Reporting(s.calls[h]) ==> Reporting(DoAdvance(s, h, todo).calls[h])
    ensures TooLate(s.calls[h]) ==> TooLate(DoAdvance(s, h, todo).calls[h])
  {
    var call, v := s.calls[h], ViewOf(s, s.calls[h]);
    DoSameCall(call, v, todo);
    DoKeepsInbox(call, v, todo);
    if Reporting(call) { ReportingDo(s.log, call, v, todo); }
    if TooLate(call) { TooLateDo(call, v, todo); }
    assert DoAdvance(s, h, todo).calls[h] == Do(call, v, todo).call;
  }

  lemma DoKeepsInbox(call: Call, v: View, todo: Todo)
    requires CanDo(call, v, todo)
    ensures Do(call, v, todo).call.inbox == call.inbox
  {
  }

  /** What becomes of an answer that came between the filing of the waiter and the sending of the frame. */
  lemma FiledAnswerStep(s: State, a: Action, h: CallId)
    requires PendingOk(s) && HeldOk(s) && Enabled(s, a)
    requires h in s.calls && HasAnswer(s.calls[h]) && s.calls[h].phase.Filed?
    ensures h in Apply(s, a).calls
    ensures a == Advance(h, Send) && TaskIs(s, s.calls[h].phase.conn, Ended) ==> TooLate(Apply(s, a).calls[h])
    ensures !(a == Advance(h, Send) && TaskIs(s, s.calls[h].phase.conn, Ended)) ==>
              Reporting(Apply(s, a).calls[h]) || Apply(s, a).calls[h].phase.Filed?
  {
    if a.Advance? && a.h == h {
      assert CloneOk(s.conns, s.calls[h]);
      SendDecides(s, h);
    } else {
      Answering(s, a, h);
    }
  }

  lemma FiledAnswerAt(states: seq<State>, actions: seq<Action>, n: nat, h: CallId)
    requires IsRun(states, actions) && n < |actions|
    requires h in states[n].calls && HasAnswer(states[n].calls[h]) && states[n].calls[h].phase.Filed?
    ensures h in states[n + 1].calls
    ensures SendFails(states, actions, n, h) ==> TooLate(states[n + 1].calls[h])
    ensures !SendFails(states, actions, n, h) ==>
              Reporting(states[n + 1].calls[h]) || states[n + 1].calls[h].phase.Filed?
  {
    InvRun(states, actions, n);
    FiledAnswerStep(states[n], actions[n], h);
  }

  lemma SendDecides(s: State, h: CallId)
    requires h in s.calls && HasAnswer(s.calls[h]) && s.calls[h].phase.Filed? && s.calls[h].phase.conn in s.conns
    ensures Enabled(s, Advance(h, Send)) && h in DoAdvance(s, h, Send).calls
    ensures if TaskIs(s, s.calls[h].phase.conn, Ended) then TooLate(DoAdvance(s, h, Send).calls[h])
            else Reporting(DoAdvance(s, h, Send).calls[h])
  {
    assert DoAdvance(s, h, Send).calls[h] == Do(s.calls[h], ViewOf(s, s.calls[h]), Send).call;
  }

  lemma {:induction false} ReportingOn(states: seq<State>, actions: seq<Action>, m: nat, n: nat, h: CallId)
    requires IsRun(states, actions) && m <= n < |states| && h in states[m].calls && Reporting(states[m].calls[h])
    ensures h in states[n].calls && Reporting(states[n].calls[h]) &&
            states[n].calls[h].inbox == states[m].calls[h].inbox
    ensures forall k: nat | m <= k < n :: !SendFails(states, actions, k, h)
    decreases n - m
  {
    if m < n {
      AnswerStays(states, actions, m, h);
      ReportingOn(states, actions, m + 1, n, h);
    }
  }

  lemma {:induction false} TooLateOn(states: seq<State>, actions: seq<Action>, m: nat, n: nat, h: CallId)
    requires IsRun(states, actions) && m <= n < |states|
    requires h in states[m].calls && HasAnswer(states[m].calls[h]) && TooLate(states[m].calls[h])
    ensures h in states[n].calls && TooLate(states[n].calls[h])
    decreases n - m
  {
    if m < n {
      AnswerStays(states, actions, m, h);
      TooLateOn(states, actions, m + 1, n, h);
    }
  }

  /**
   Exactly when an answer that reached a one-shot call is the one it reports: a pong as connected, a query's
   answer as itself, an error as that failure, an ack as acked. It is so unless the call had given up by then,
   or its frame was still to be sent and the send found the connection's task ended; whatever else happens to
   the entry, the connection or the timer. Otherwise the call reports a disconnect or a timeout.
   */
  lemma {:induction false} AnswerIsReported(states: seq<State>, actions: seq<Action>, m: nat, n: nat, h: CallId)
    requires IsRun(states, actions) && m <= n < |states| && h in states[m].calls && HasAnswer(states[m].calls[h])
    requires h in states[n].calls && states[n].calls[h].phase.Finished?
    ensures var f, o := states[m].calls[h].inbox.value, states[n].calls[h].phase.outcome;
            && (Matches(f, o) <==>
                  !TooLate(states[m].calls[h]) && forall k: nat | m <= k < n :: !SendFails(states, actions, k, h))
            && (Matches(f, o) || o == Disconnected || o == TimedOut)
    decreases n - m
  {
    AnswerCases(states, actions, m, h);
    if TooLate(states[m].calls[h]) {
      TooLateOn(states, actions, m, n, h);
    } else if Reporting(states[m].calls[h]) {
      ReportingOn(states, actions, m, n, h);
    } else {
      AnswerStays(states, actions, m, h);
      FiledAnswerAt(states, actions, m, h);
      AnswerIsReported(states, actions, m + 1, n, h);
    }
  }

  /** A call in state `m` waits, and its answer is there. */
  predicate AnsweredInTime(states: seq<State>, m: nat, h: CallId)
  {
    m < |states| && h in states[m].calls && states[m].calls[h].phase.Awaiting? && HasAnswer(states[m].calls[h])
  }

  /** A ping or query returns anything but a disconnect only out of its channel. */
  lemma OnlyByReceiving(s: State, a: Action, h: CallId)
    requires Enabled(s, a) && Unfinished(s, h) && (s.calls[h].kind == Ping || s.calls[h].kind == Query)
    requires Decided(s.calls[h]) && h in Apply(s, a).calls && Apply(s, a).calls[h].phase.Finished?
    requires Apply(s, a).calls[h].phase.outcome != Disconnected && CallOk(s.log, s.calls[h])
    ensures s.calls[h].phase.Awaiting? && HasAnswer(s.calls[h])
  {
    if a.Advance? && a.h == h {
      assert Apply(s, a).calls[h] == Do(s.calls[h], ViewOf(s, s.calls[h]), a.todo).call;
    } else {
      Bystander(s, a, h);
    }
  }

  /** A ping or a query reports a disconnect if and only if no answer reached it while it waited. */
  lemma DisconnectedIffUnanswered(states: seq<State>, actions: seq<Action>, n: nat, h: CallId)
    requires IsRun(states, actions) && n < |states| && h in states[n].calls && states[n].calls[h].phase.Finished?
    requires states[n].calls[h].kind == Ping || states[n].calls[h].kind == Query
    ensures states[n].calls[h].phase.outcome == Disconnected <==>
              forall m: nat | m < n :: !AnsweredInTime(states, m, h)
  {
    if m: nat :| m < n && AnsweredInTime(states, m, h) {
      AnswerIsReported(states, actions, m, n, h);
      ReportingOn(states, actions, m, n, h);
    } else if states[n].calls[h].phase.outcome != Disconnected {
      var k := ReturnedAt(states, actions, n, h);
      CallPersists(states, actions, k, n, h);
      DecidedRun(states, actions, k);
      InvRun(states, actions, k);
      assert Decided(states[k].calls[h]) && CallOk(states[k].log, states[k].calls[h]);
      OnlyByReceiving(states[k], actions[k], h);
      assert AnsweredInTime(states, k, h);
    }
  }

  /** An interrupt reports success only by waking the prompts of its session first. */
  lemma AckedInterruptWoke(states: seq<State>, actions: seq<Action>, n: nat, h: CallId) returns (k: nat)
    requires IsRun(states, actions) && n < |states| && h in states[n].calls
    requires states[n].calls[h].kind == Interrupt && states[n].calls[h].phase == Finished(Acked)
    ensures k < n && actions[k] == Advance(h, Wake)
  {
    k := ReturnedAt(states, actions, n, h);
    CallPersists(states, actions, k, n, h);
    DecidedRun(states, actions, k);
    InvRun(states, actions, k);
    assert Decided(states[k].calls[h]) && CallOk(states[k].log, states[k].calls[h]);
    AckedByWaking(states[k], actions[k], h);
  }

  lemma AckedByWaking(s: State, a: Action, h: CallId)
    requires Enabled(s, a) && Unfinished(s, h) && s.calls[h].kind == Interrupt && Decided(s.calls[h])
    requires CallOk(s.log, s.calls[h]) && h in Apply(s, a).calls && Apply(s, a).calls[h].phase == Finished(Acked)
    ensures a == Advance(h, Wake)
  {
    if a.Advance? && a.h == h {
      assert Apply(s, a).calls[h] == Do(s.calls[h], ViewOf(s, s.calls[h]), a.todo).call;
    } else {
      Bystander(s, a, h);
    }
  }

  // ----- When a waiting call sees its channel closed -----

  /** The entry that took a waiting call's waiter is of its token, and has the waiter as long as it is not dropped. */
  ghost predicate StrayOk(s: State, h: CallId)
    requires h in s.calls
  {
    var call := s.calls[h];
    Lodged(call) ==>
      && call.phase.entry in s.conns && s.conns[call.phase.entry].token == call.token
      && (call.inbox.None? && call.phase.entry in s.displaced ==> SlotOf(call) in s.displaced[call.phase.entry].pending)
  }

  ghost predicate AllStray(s: State)
  {
    forall h <- s.calls :: StrayOk(s, h)
  }

  lemma StrayOther(s: State, s': State, g: CallId)
    requires g in s.calls && StrayOk(s, g) && g in s'.calls && SameCall(s.calls[g], s'.calls[g])
    requires s'.calls[g].phase == s.calls[g].phase && (s'.calls[g].inbox.None? ==> s.calls[g].inbox.None?)
    requires s'.displaced == s.displaced
    requires forall c <- s.conns :: c in s'.conns && s'.conns[c].token == s.conns[c].token
    ensures StrayOk(s', g)
  {
  }

  lemma StrayOwn(s: State, h: CallId, todo: Todo)
    requires TableOk(s) && h in s.calls && StrayOk(s, h) && Enabled(s, Advance(h, todo))
    ensures h in DoAdvance(s, h, todo).calls && StrayOk(DoAdvance(s, h, todo), h)
  {
    var s', call, v := DoAdvance(s, h, todo), s.calls[h], ViewOf(s, s.calls[h]);
    DoLodged(call, v, todo);
    DoSameCall(call, v, todo);
    ConnsOnward(s, Advance(h, todo));
    assert call.token in s.entries ==> OwnerOk(s, call.token);
    assert s'.calls[h] == Do(call, v, todo).call;
  }

  lemma StrayConnect(s: State, c: ConnId, token: TokenId, clientId: string, hostname: string, g: CallId)
    requires TableOk(s) && g in s.calls && StrayOk(s, g) && FiledOk(s, g) && c !in s.conns
    ensures StrayOk(DoConnect(s, c, token, clientId, hostname), g)
  {
    assert token in s.entries ==> OwnerOk(s, token);
  }

  lemma StrayStep(s: State, a: Action, g: CallId)
    requires Inv(s) && AllStray(s) && Enabled(s, a) && g in Apply(s, a).calls
    ensures StrayOk(Apply(s, a), g)
  {
    if g !in s.calls {
      BornUnturned(s, a, g);
    } else if a.Advance? && a.h == g {
      assert StrayOk(s, g);
      StrayOwn(s, g, a.todo);
    } else if a.Connect? {
      assert StrayOk(s, g) && FiledOk(s, g);
      StrayConnect(s, a.c, a.token, a.clientId, a.hostname, g);
    } else {
      assert StrayOk(s, g);
      StrayAside(s, a, g);
    }
  }

  lemma StrayAside(s: State, a: Action, g: CallId)
    requires Inv(s) && Enabled(s, a) && !a.Connect? && !(a.Advance? && a.h == g)
    requires g in s.calls && StrayOk(s, g) && g in Apply(s, a).calls
    ensures StrayOk(Apply(s, a), g)
  {
    Answering(s, a, g);
    CallsStep(s, a);
    ConnsOnward(s, a);
    StrayBystander(s, a, g);
  }

  lemma StrayBystander(s: State, a: Action, g: CallId)
    requires Enabled(s, a) && !a.Connect? && g in s.calls && StrayOk(s, g) && g in Apply(s, a).calls
    requires SameCall(s.calls[g], Apply(s, a).calls[g]) && Apply(s, a).calls[g].phase == s.calls[g].phase
    requires Apply(s, a).calls[g].inbox.None? ==> s.calls[g].inbox.None?
    requires forall c <- s.conns :: c in Apply(s, a).conns && Apply(s, a).conns[c].token == s.conns[c].token
    ensures StrayOk(Apply(s, a), g)
  {
    if !a.Release? {
      DisplacedSame(s, a);
      StrayOther(s, Apply(s, a), g);
    }
  }

  lemma DisplacedSame(s: State, a: Action)
    requires Enabled(s, a) && !a.Connect? && !a.Release?
    ensures Apply(s, a).displaced == s.displaced
  {
  }

  lemma {:induction false} StrayRun(states: seq<State>, actions: seq<Action>, n: nat)
    requires IsRun(states, actions) && n < |states|
    ensures AllStray(states[n])
  {
    if n > 0 {
      StrayRun(states, actions, n - 1);
      InvRun(states, actions, n - 1);
      forall g <- states[n].calls ensures StrayOk(states[n], g) { StrayStep(states[n - 1], actions[n - 1], g); }
    }
  }

  /** The sender half of a waiting call exists exactly while its entry does. */
  lemma SenderIsTheEntrys(s: State, h: CallId)
    requires h in s.calls && StrayOk(s, h) && FiledOk(s, h) && s.calls[h].phase.Awaiting? && s.calls[h].inbox.None?
    ensures SenderAlive(s.calls[h], ViewOf(s, s.calls[h])) <==>
              RegisteredConn(s, s.calls[h].phase.entry) || s.calls[h].phase.entry in s.displaced
  {
  }

  lemma WaitEnds(s: State, h: CallId)
    requires h in s.calls && s.calls[h].phase.Awaiting? && Idle(s.calls[h])
    ensures Enabled(s, Advance(h, Hangup)) <==> !SenderAlive(s.calls[h], ViewOf(s, s.calls[h]))
    ensures Enabled(s, Advance(h, Timeout)) <==> SenderAlive(s.calls[h], ViewOf(s, s.calls[h]))
  {
  }

  lemma WaitEndsByItsEntry(s: State, h: CallId)
    requires h in s.calls && s.calls[h].phase.Awaiting? && Idle(s.calls[h]) && StrayOk(s, h) && FiledOk(s, h)
    ensures var entry := s.calls[h].phase.entry;
            && (Enabled(s, Advance(h, Hangup)) <==> !RegisteredConn(s, entry) && entry !in s.displaced)
            && (Enabled(s, Advance(h, Timeout)) <==> RegisteredConn(s, entry) || entry in s.displaced)
  {
    WaitEnds(s, h);
    SenderIsTheEntrys(s, h);
  }

  /**
   A waiting call with nothing to receive sees its channel closed exactly when the entry that took its
   waiter is registered no more and has been dropped; as long as it is not, only the timer can end the wait.
   */
  lemma HangupIff(states: seq<State>, actions: seq<Action>, n: nat, h: CallId)
    requires IsRun(states, actions) && n < |states| && h in states[n].calls
    requires states[n].calls[h].phase.Awaiting? && Idle(states[n].calls[h])
    ensures var s, entry := states[n], states[n].calls[h].phase.entry;
            && (Enabled(s, Advance(h, Hangup)) <==> !RegisteredConn(s, entry) && entry !in s.displaced)
            && (Enabled(s, Advance(h, Timeout)) <==> RegisteredConn(s, entry) || entry in s.displaced)
  {
    StrayRun(states, actions, n);
    InvRun(states, actions, n);
    WaitEndsByItsEntry(states[n], h);
  }
}
