/** What every step of the registry protocol keeps, in every interleaving. */
module RegistryInvariants {
  import opened Prelude
  import opened RegistryTable
  import opened RegistryCalls
  import opened RegistryProtocol
  import P = PromptLoop

  // ----- The table and the connections -----

  ghost predicate OwnerOk(s: State, t: TokenId)
    requires t in s.entries
  {
    var c := s.entries[t].conn;
    c in s.conns && s.conns[c].token == t && (s.conns[c].task == Running || s.conns[c].task == Exiting)
  }

  /**
   A registered entry belongs to a connection of that token whose task has not cleaned up; a
   displaced one belongs to a connection that is registered no more.
   */
  ghost predicate TableOk(s: State)
  {
    && (forall t <- s.entries :: OwnerOk(s, t))
    && (forall c <- s.displaced ::
          c in s.conns && s.displaced[c].conn == c &&
          (s.conns[c].token in s.entries ==> s.entries[s.conns[c].token].conn != c))
  }

  /** Nothing that `TableOk` speaks of has changed. */
  ghost predicate SameShape(s: State, s': State)
  {
    && s'.displaced == s.displaced
    && s'.entries.Keys == s.entries.Keys
    && (forall t <- s.entries :: s'.entries[t].conn == s.entries[t].conn)
    && s'.conns.Keys == s.conns.Keys
    && (forall c <- s.conns :: s'.conns[c].token == s.conns[c].token && s'.conns[c].task == s.conns[c].task)
  }

  /** The steps that move calls, frames and names, but no entry and no task. */
  predicate OnCall(a: Action)
  {
    a.Pump? || a.Rename? || a.Handle? || a.Begin? || a.Advance?
  }

  lemma OpsKeepShape(s: State, h: CallId, call: Call, t: TableOp, op: ChannelOp, s': State)
    requires s'.displaced == s.displaced
    requires s'.entries == TableAfter(s.entries, h, call, t) && s'.conns == ConnsAfter(s.conns, call, op)
    ensures SameShape(s, s')
  {
  }

  lemma CallsKeepShape(s: State, a: Action)
    requires Enabled(s, a) && OnCall(a)
    ensures SameShape(s, Apply(s, a))
  {
    if a.Advance? {
      var e := Do(s.calls[a.h], ViewOf(s, s.calls[a.h]), a.todo);
      OpsKeepShape(s, a.h, s.calls[a.h], e.table, e.channel, Apply(s, a));
    }
  }

  lemma ShapeKeepsTable(s: State, s': State)
    requires TableOk(s) && SameShape(s, s')
    ensures TableOk(s')
  {
    forall t <- s'.entries ensures OwnerOk(s', t) { assert OwnerOk(s, t); }
  }

  lemma ConnectKeepsTable(s: State, c: ConnId, token: TokenId, clientId: string, hostname: string)
    requires TableOk(s) && c !in s.conns
    ensures TableOk(DoConnect(s, c, token, clientId, hostname))
  {
    var s' := DoConnect(s, c, token, clientId, hostname);
    forall t <- s'.entries ensures OwnerOk(s', t) {
      assert t in s.entries ==> OwnerOk(s, t);
    }
    assert token in s.entries ==> OwnerOk(s, token);
  }

  lemma TasksKeepTable(s: State, a: Action)
    requires TableOk(s) && Enabled(s, a) && !OnCall(a) && !a.Connect?
    ensures TableOk(Apply(s, a))
  {
    var s' := Apply(s, a);
    forall t <- s'.entries ensures OwnerOk(s', t) {
      assert OwnerOk(s, t);
    }
  }

  lemma TableStep(s: State, a: Action)
    requires TableOk(s) && Enabled(s, a)
    ensures TableOk(Apply(s, a))
  {
    if OnCall(a) {
      CallsKeepShape(s, a);
      ShapeKeepsTable(s, Apply(s, a));
    } else if a.Connect? {
      ConnectKeepsTable(s, a.c, a.token, a.clientId, a.hostname);
    } else {
      TasksKeepTable(s, a);
    }
  }

  // ----- Correlation ids and waiters -----

  ghost predicate IdsDistinct(s: State)
  {
    forall g, h | g in s.calls && h in s.calls && g != h :: s.calls[g].id != s.calls[h].id
  }

  /** Calls only ever accumulate, and what they are about stays. */
  ghost predicate CallsGrow(s: State, s': State)
  {
    forall h <- s.calls :: h in s'.calls && SameCall(s.calls[h], s'.calls[h])
  }

  /** All the calls but `h` are as they were, except that prompts may have been told of a cancellation. */
  lemma OthersKept(s: State, h: CallId, todo: Todo)
    requires Enabled(s, Advance(h, todo))
    ensures var s' := DoAdvance(s, h, todo);
            && s'.calls.Keys == s.calls.Keys
            && (forall g <- s.calls | g != h ::
                  s'.calls[g] == if todo == Wake && g in Waiting(s.entries, s.calls[h].token, s.calls[h].session)
                                 then s.calls[g].(events := s.calls[g].events + [P.Cancelled]) else s.calls[g])
  {
  }

  lemma DoSameCall(call: Call, v: View, todo: Todo)
    requires CanDo(call, v, todo)
    ensures SameCall(call, Do(call, v, todo).call)
  {
  }

  lemma CallsStep(s: State, a: Action)
    requires Enabled(s, a)
    ensures CallsGrow(s, Apply(s, a))
    ensures !a.Begin? ==> Apply(s, a).calls.Keys == s.calls.Keys
  {
    if a.Advance? {
      OthersKept(s, a.h, a.todo);
      DoSameCall(s.calls[a.h], ViewOf(s, s.calls[a.h]), a.todo);
    }
  }

  lemma IdsStep(s: State, a: Action)
    requires IdsDistinct(s) && Enabled(s, a)
    ensures IdsDistinct(Apply(s, a))
  {
    CallsStep(s, a);
    var s' := Apply(s, a);
    forall g, h | g in s'.calls && h in s'.calls && g != h ensures s'.calls[g].id != s'.calls[h].id {
      assert g in s.calls ==> SameCall(s.calls[g], s'.calls[g]);
      assert h in s.calls ==> SameCall(s.calls[h], s'.calls[h]);
    }
  }

  /** A waiter in a live entry belongs to the one call of that kind, id, token and session, still unresolved. */
  ghost predicate WaiterOk(s: State, t: TokenId, slot: Slot)
    requires t in s.entries && slot in s.entries[t].pending
  {
    var w := s.entries[t].pending[slot];
    && w.call in s.calls
    && SlotOf(s.calls[w.call]) == slot && s.calls[w.call].token == t && s.calls[w.call].session == w.session
    && Unresolved(s.calls[w.call], s.entries[t].conn)
  }

  ghost predicate PendingOk(s: State)
  {
    forall t, slot | t in s.entries && slot in s.entries[t].pending :: WaiterOk(s, t, slot)
  }

  /** The waiter of a call that is as it was, in an entry that has it as it had it. */
  lemma WaiterKept(s: State, s': State, t: TokenId, slot: Slot)
    requires t in s.entries && slot in s.entries[t].pending && WaiterOk(s, t, slot)
    requires t in s'.entries && slot in s'.entries[t].pending && s'.entries[t].conn == s.entries[t].conn
    requires s'.entries[t].pending[slot] == s.entries[t].pending[slot]
    requires var g := s.entries[t].pending[slot].call;
             && g in s'.calls && SameCall(s.calls[g], s'.calls[g])
             && s'.calls[g].inbox == s.calls[g].inbox && s'.calls[g].phase == s.calls[g].phase
    ensures WaiterOk(s', t, slot)
  {
  }

  /** What an operation on one call's slot leaves of the table. */
  lemma TableOpKeeps(t: Table, h: CallId, call: Call, op: TableOp, token: TokenId, slot: Slot)
    requires var t' := TableAfter(t, h, call, op); token in t' && slot in t'[token].pending
    ensures token in t && TableAfter(t, h, call, op)[token].conn == t[token].conn
    ensures !(token == call.token && slot == SlotOf(call)) ==>
              slot in t[token].pending && TableAfter(t, h, call, op)[token].pending[slot] == t[token].pending[slot]
    ensures token == call.token && slot == SlotOf(call) ==>
              if op.FileWaiter? then TableAfter(t, h, call, op)[token].pending[slot] == Waiter(h, call.session)
              else op.KeepTable? && slot in t[token].pending
  {
  }

  /** One call moves on, and its waiter is kept, filed or forgotten accordingly. */
  lemma PendingOps(s: State, s': State, h: CallId, op: TableOp)
    requires PendingOk(s) && IdsDistinct(s) && h in s.calls
    requires s'.entries == TableAfter(s.entries, h, s.calls[h], op)
    requires s'.calls.Keys == s.calls.Keys && SameCall(s.calls[h], s'.calls[h])
    requires forall g <- s.calls | g != h ::
               && SameCall(s.calls[g], s'.calls[g])
               && s'.calls[g].inbox == s.calls[g].inbox && s'.calls[g].phase == s.calls[g].phase
    requires s.calls[h].token in s.entries &&
             (op.FileWaiter? || (op.KeepTable? && SlotOf(s.calls[h]) in s.entries[s.calls[h].token].pending)) ==>
               Unresolved(s'.calls[h], s.entries[s.calls[h].token].conn)
    ensures PendingOk(s')
  {
    var token, own := s.calls[h].token, SlotOf(s.calls[h]);
    forall t, slot | t in s'.entries && slot in s'.entries[t].pending ensures WaiterOk(s', t, slot) {
      TableOpKeeps(s.entries, h, s.calls[h], op, t, slot);
      assert slot in s.entries[t].pending ==> WaiterOk(s, t, slot);
      if !(t == token && slot == own) {
        WaiterKept(s, s', t, slot);
      }
    }
  }

  lemma PendingAdvance(s: State, h: CallId, todo: Todo)
    requires PendingOk(s) && IdsDistinct(s) && Enabled(s, Advance(h, todo)) && Unheard(s.calls[h])
    ensures PendingOk(DoAdvance(s, h, todo))
  {
    var call := s.calls[h];
    var v := ViewOf(s, call);
    OthersKept(s, h, todo);
    if v.filed {
      assert WaiterOk(s, call.token, SlotOf(call));
      assert s.entries[call.token].pending[SlotOf(call)].call == h;
    }
    DoKeepsWaiter(call, v, todo);
    PendingOps(s, DoAdvance(s, h, todo), h, Do(call, v, todo).table);
  }

  lemma PendingHandle(s: State, c: ConnId, f: Frame, kind: Kind)
    requires PendingOk(s) && IdsDistinct(s) && Enabled(s, Handle(c, f, kind))
    ensures PendingOk(DoHandle(s, c, f, kind))
  {
    var s', token, slot := DoHandle(s, c, f, kind), s.conns[c].token, Slot(kind, f.id);
    var w := Find(s.entries, token, slot);
    if w.Some? {
      assert WaiterOk(s, token, slot);
      PendingOps(s, s', w.value.call, if kind == Prompt then KeepTable else ForgetWaiter);
    } else {
      forall t, slot | t in s'.entries && slot in s'.entries[t].pending ensures WaiterOk(s', t, slot) {
        assert WaiterOk(s, t, slot);
      }
    }
  }

  lemma PendingTask(s: State, a: Action)
    requires PendingOk(s) && Enabled(s, a) && !a.Advance? && !a.Handle? && !a.Begin?
    ensures PendingOk(Apply(s, a))
  {
    var s' := Apply(s, a);
    forall t, slot | t in s'.entries && slot in s'.entries[t].pending ensures WaiterOk(s', t, slot) {
      assert WaiterOk(s, t, slot);
    }
  }

  lemma PendingBegin(s: State, h: CallId, kind: Kind, token: TokenId, id: Id, session: string)
    requires PendingOk(s) && Enabled(s, Begin(h, kind, token, id, session))
    ensures PendingOk(Apply(s, Begin(h, kind, token, id, session)))
  {
    forall t, slot | t in s.entries && slot in s.entries[t].pending
      ensures WaiterOk(Apply(s, Begin(h, kind, token, id, session)), t, slot)
    {
      assert WaiterOk(s, t, slot);
    }
  }

  lemma PendingStep(s: State, a: Action)
    requires PendingOk(s) && IdsDistinct(s) && CallsOk(s) && Enabled(s, a)
    ensures PendingOk(Apply(s, a))
  {
    match a {
      case Advance(h, todo) =>
        assert CallOk(s.log, s.calls[h]);
        PendingAdvance(s, h, todo);
      case Handle(c, f, kind) => PendingHandle(s, c, f, kind);
      case Begin(h, kind, token, id, session) => PendingBegin(s, h, kind, token, id, session);
      case _ => PendingTask(s, a);
    }
  }

  // ----- What the calls have heard -----

  ghost predicate CallsOk(s: State)
  {
    forall h <- s.calls :: CallOk(s.log, s.calls[h])
  }

  /** The prompts an interrupt wakes are prompts of its session on its token, and still unresolved. */
  lemma WaitingArePrompts(s: State, token: TokenId, session: string, g: CallId)
    requires PendingOk(s) && g in Waiting(s.entries, token, session)
    ensures g in s.calls && s.calls[g].kind == Prompt && s.calls[g].token == token && s.calls[g].session == session
    ensures Unresolved(s.calls[g], s.entries[token].conn)
  {
    var slot :| slot in s.entries[token].pending && slot.kind == Prompt && s.entries[token].pending[slot].call == g
                && s.entries[token].pending[slot].session == session;
    assert WaiterOk(s, token, slot);
  }

  lemma CallsAdvance(s: State, h: CallId, todo: Todo)
    requires PendingOk(s) && CallsOk(s) && Enabled(s, Advance(h, todo))
    ensures CallsOk(DoAdvance(s, h, todo))
  {
    var s', call := DoAdvance(s, h, todo), s.calls[h];
    OthersKept(s, h, todo);
    DoKeepsCall(s.log, call, ViewOf(s, call), todo);
    forall g <- s'.calls ensures CallOk(s'.log, s'.calls[g]) {
      if g != h && todo == Wake && g in Waiting(s.entries, call.token, call.session) {
        WaitingArePrompts(s, call.token, call.session, g);
        QueueGrows(s.log, s.calls[g], P.Cancelled);
      }
    }
  }

  lemma CallsHandle(s: State, c: ConnId, f: Frame, kind: Kind)
    requires PendingOk(s) && CallsOk(s) && Enabled(s, Handle(c, f, kind))
    ensures CallsOk(DoHandle(s, c, f, kind))
  {
    var s', token, slot := DoHandle(s, c, f, kind), s.conns[c].token, Slot(kind, f.id);
    forall g <- s'.calls ensures CallOk(s'.log, s'.calls[g]) {
      LogGrows(s.log, Logged(token, f), s.calls[g]);
      var w := Find(s.entries, token, slot);
      if w.Some? && w.value.call == g {
        assert WaiterOk(s, token, slot);
        DeliveredKeepsCall(s.log, s.calls[g], f, s.entries[token].conn);
      }
    }
  }

  lemma HeardStep(s: State, a: Action)
    requires PendingOk(s) && CallsOk(s) && Enabled(s, a)
    ensures CallsOk(Apply(s, a))
  {
    match a {
      case Advance(h, todo) => CallsAdvance(s, h, todo);
      case Handle(c, f, kind) => CallsHandle(s, c, f, kind);
      case Begin(h, kind, token, id, session) => BegunOk(s.log, kind, token, id, session);
      case _ =>
    }
  }

  // ----- Cancellation -----

  /** A call that has returned is never touched again, but for events nobody will read. */
  lemma FinishedStays(s: State, a: Action, h: CallId)
    requires Enabled(s, a) && h in s.calls && s.calls[h].phase.Finished?
    ensures h in Apply(s, a).calls && Apply(s, a).calls[h].phase == s.calls[h].phase
  {
    if a.Advance? {
      OthersKept(s, a.h, a.todo);
      if a.h == h { FinishedForGood(s.calls[h], ViewOf(s, s.calls[h]), a.todo); }
    }
  }

  /** No step but an acked interrupt's puts a cancellation on a queue. */
  lemma CancelledFrom(s: State, a: Action, h: CallId)
    requires PendingOk(s) && Enabled(s, a) && h in Apply(s, a).calls && P.Cancelled in Apply(s, a).calls[h].events
    ensures h in s.calls
    ensures P.Cancelled in s.calls[h].events ||
            (a.Advance? && a.todo == Wake && h in Waiting(s.entries, s.calls[a.h].token, s.calls[a.h].session))
  {
    if a.Advance? {
      OthersKept(s, a.h, a.todo);
      DoKeepsEvents(s.calls[a.h], ViewOf(s, s.calls[a.h]), a.todo);
    }
  }

  lemma DoKeepsEvents(call: Call, v: View, todo: Todo)
    requires CanDo(call, v, todo)
    ensures Do(call, v, todo).call.events == call.events
  {
  }

  // ----- Senders -----

  ghost function Holders(calls: map<CallId, Call>, c: ConnId): (hs: set<CallId>)
  {
    set h | h in calls && Holds(calls[h], c)
  }

  predicate RegisteredConn(s: State, c: ConnId)
  {
    c in s.conns && s.conns[c].token in s.entries && s.entries[s.conns[c].token].conn == c
  }

  /** The sender an entry owns, while the entry is registered or not yet dropped. */
  function OwnSender(s: State, c: ConnId): (n: int)
  {
    if RegisteredConn(s, c) || c in s.displaced then 1 else 0
  }

  ghost predicate SendersOk(s: State)
  {
    forall c <- s.conns :: s.conns[c].senders == OwnSender(s, c) + |Holders(s.calls, c)|
  }

  /** One call changing moves the number of holders by as much as that call's own clone. */
  lemma HoldersMove(calls: map<CallId, Call>, calls': map<CallId, Call>, h: CallId, c: ConnId)
    requires calls.Keys == calls'.Keys && h in calls
    requires forall g <- calls | g != h :: calls'[g].phase == calls[g].phase
    ensures |Holders(calls', c)| == |Holders(calls, c)| + Clones(calls'[h], c) - Clones(calls[h], c)
  {
    var rest := set g | g in calls && g != h && Holds(calls[g], c);
    assert Holders(calls, c) == if Holds(calls[h], c) then rest + {h} else rest;
    assert Holders(calls', c) == if Holds(calls'[h], c) then rest + {h} else rest;
  }

  /** A step that changes no call's phase changes no holder. */
  lemma HoldersStay(calls: map<CallId, Call>, calls': map<CallId, Call>, c: ConnId)
    requires calls.Keys <= calls'.Keys
    requires forall g <- calls :: calls'[g].phase == calls[g].phase
    requires forall g <- calls' | g !in calls :: calls'[g].phase == Started
    ensures Holders(calls', c) == Holders(calls, c)
  {
  }

  /** The channel operation of a call's step moves the count as the step moves the call's own clone. */
  lemma SendersMove(s: State, s': State, h: CallId, op: ChannelOp, c: ConnId)
    requires SendersOk(s) && SameShape(s, s') && h in s.calls && c in s.conns
    requires s'.conns == ConnsAfter(s.conns, s.calls[h], op) && s'.calls.Keys == s.calls.Keys
    requires forall g <- s.calls | g != h :: s'.calls[g].phase == s.calls[g].phase
    requires Clones(s'.calls[h], c) == Clones(s.calls[h], c) + Delta(op, c)
    ensures s'.conns[c].senders == OwnSender(s', c) + |Holders(s'.calls, c)|
  {
    HoldersMove(s.calls, s'.calls, h, c);
    ChannelDelta(s.conns, s.calls[h], op, c);
  }

  lemma SendersAdvance(s: State, h: CallId, todo: Todo)
    requires TableOk(s) && SendersOk(s) && Enabled(s, Advance(h, todo))
    ensures SendersOk(DoAdvance(s, h, todo))
  {
    var s', call := DoAdvance(s, h, todo), s.calls[h];
    var v := ViewOf(s, call);
    OthersKept(s, h, todo);
    CallsKeepShape(s, Advance(h, todo));
    forall c <- s'.conns ensures s'.conns[c].senders == OwnSender(s', c) + |Holders(s'.calls, c)| {
      DoKeepsClones(call, v, todo, c);
      SendersMove(s, s', h, Do(call, v, todo).channel, c);
    }
  }

  lemma ChannelDelta(conns: map<ConnId, Conn>, call: Call, op: ChannelOp, c: ConnId)
    requires c in conns
    ensures ConnsAfter(conns, call, op)[c].senders == conns[c].senders + Delta(op, c)
  {
  }

  /** Steps of tasks change no call's phase, keep every connection, and never revive an ended one. */
  lemma TasksKeepCalls(s: State, a: Action)
    requires Enabled(s, a) && !a.Advance?
    ensures var s' := Apply(s, a);
            && s.calls.Keys <= s'.calls.Keys
            && (forall g <- s.calls :: s'.calls[g].phase == s.calls[g].phase && s'.calls[g].kind == s.calls[g].kind)
            && (forall g <- s'.calls | g !in s.calls :: s'.calls[g].phase == Started)
  {
    if a.Handle? {
      HandleKeepsCalls(s, a.c, a.frame, a.kind);
    } else {
      assert a.Begin? || Apply(s, a).calls == s.calls;
    }
  }

  lemma HandleKeepsCalls(s: State, c: ConnId, f: Frame, kind: Kind)
    requires c in s.conns
    ensures var s' := DoHandle(s, c, f, kind);
            && s'.calls.Keys == s.calls.Keys
            && (forall g <- s.calls :: s'.calls[g].phase == s.calls[g].phase && s'.calls[g].kind == s.calls[g].kind
                                       && s'.calls[g].read == s.calls[g].read &&
                                         s.calls[g].events <= s'.calls[g].events)
  {
  }

  lemma ConnsOnward(s: State, a: Action)
    requires Enabled(s, a)
    ensures var s' := Apply(s, a);
            forall c <- s.conns :: c in s'.conns && s'.conns[c].token == s.conns[c].token &&
              (s.conns[c].task == Ended ==> s'.conns[c].task == Ended)
  {
    if OnCall(a) { CallsKeepShape(s, a); }
  }

  /** A task's step moves the count of a channel exactly as it moves the ownership of its entry. */
  ghost predicate Balanced(s: State, s': State, c: ConnId)
  {
    && c in s.conns && c in s'.conns
    && s'.conns[c].senders - s.conns[c].senders == OwnSender(s', c) - OwnSender(s, c)
  }

  lemma BalancedUnregister(s: State, token: TokenId, c: ConnId)
    requires TableEntries(s) && c in s.conns
    ensures Balanced(s, Unregister(s, token), c)
  {
    if token in s.entries { assert OwnerIs(s, token); }
    if RegisteredConn(s, c) { assert OwnerIs(s, s.conns[c].token); }
  }

  /** The part of `TableOk` that holds even while a task is between leaving and removing. */
  ghost predicate TableEntries(s: State)
  {
    && (forall t <- s.entries :: OwnerIs(s, t))
    && (forall c <- s.displaced :: !RegisteredConn(s, c))
  }

  ghost predicate OwnerIs(s: State, t: TokenId)
    requires t in s.entries
  {
    s.entries[t].conn in s.conns && s.conns[s.entries[t].conn].token == t
  }

  lemma BalancedConnect(s: State, c': ConnId, token: TokenId, clientId: string, hostname: string, c: ConnId)
    requires TableOk(s) && c in s.conns && c' !in s.conns
    ensures Balanced(s, DoConnect(s, c', token, clientId, hostname), c)
  {
    if token in s.entries { assert OwnerOk(s, token); }
  }

  lemma BalancedCleanup(s: State, d: ConnId, c: ConnId)
    requires TableEntries(s) && d in s.conns && c in s.conns
    ensures Balanced(s, Unregister(s.(conns := SetTask(s.conns, d, Removed)), s.conns[d].token), c)
  {
    var mid := s.(conns := SetTask(s.conns, d, Removed));
    forall t <- mid.entries ensures OwnerIs(mid, t) { assert OwnerIs(s, t); }
    BalancedUnregister(mid, s.conns[d].token, c);
  }

  lemma BalancedRelease(s: State, d: ConnId, c: ConnId)
    requires TableEntries(s) && d in s.displaced && c in s.conns
    ensures Balanced(s, DoRelease(s, d), c)
  {
  }

  lemma TableEntriesOk(s: State)
    requires TableOk(s)
    ensures TableEntries(s)
  {
    forall t <- s.entries ensures OwnerIs(s, t) { assert OwnerOk(s, t); }
  }

  lemma BalancedTask(s: State, a: Action, c: ConnId)
    requires TableOk(s) && Enabled(s, a) && !a.Advance? && c in s.conns
    ensures Balanced(s, Apply(s, a), c)
  {
    TableEntriesOk(s);
    match a {
      case Connect(c', token, clientId, hostname) => BalancedConnect(s, c', token, clientId, hostname, c);
      case Revoke(token) => BalancedUnregister(s, token, c);
      case Cleanup(d) => BalancedCleanup(s, d, c);
      case Release(d) => BalancedRelease(s, d, c);
      case Handle(_, _, _) => CallsKeepShape(s, a);
      case _ =>
    }
  }

  lemma SendersTask(s: State, a: Action)
    requires TableOk(s) && SendersOk(s) && HeldOk(s) && Enabled(s, a) && !a.Advance?
    ensures SendersOk(Apply(s, a))
  {
    var s' := Apply(s, a);
    TasksKeepCalls(s, a);
    forall c <- s'.conns ensures s'.conns[c].senders == OwnSender(s', c) + |Holders(s'.calls, c)| {
      HoldersStay(s.calls, s'.calls, c);
      if c in s.conns {
        BalancedTask(s, a, c);
      } else {
        assert Holders(s.calls, c) == {};
      }
    }
  }

  lemma SendersStep(s: State, a: Action)
    requires TableOk(s) && SendersOk(s) && HeldOk(s) && Enabled(s, a)
    ensures SendersOk(Apply(s, a))
  {
    if a.Advance? { SendersAdvance(s, a.h, a.todo); } else { SendersTask(s, a); }
  }

  // ----- Clones point at real connections, and a failed send at an ended one -----

  /** The call has filed its waiter and knows of no answer yet. */
  predicate Lodged(call: Call)
  {
    call.phase.Filed? || call.phase.Awaiting?
  }

  /** The call's clone is of a known connection; if it gave up without a check, that one has ended. */
  ghost predicate CloneOk(conns: map<ConnId, Conn>, call: Call)
  {
    !call.phase.Started? && !call.phase.Finished? ==>
      && call.phase.conn in conns
      && (Lodged(call) ==> call.phase.entry in conns)
      && (TwoState(call.kind) && call.phase.Forgetting? && call.phase.next.Report? ==>
            conns[call.phase.conn].task == Ended && call.phase.next == Report(Disconnected))
  }

  ghost predicate HeldOk(s: State)
  {
    forall h <- s.calls :: CloneOk(s.conns, s.calls[h])
  }

  lemma DoKeepsClone(s: State, h: CallId, todo: Todo)
    requires TableOk(s) && HeldOk(s) && Enabled(s, Advance(h, todo))
    ensures CloneOk(s.conns, Do(s.calls[h], ViewOf(s, s.calls[h]), todo).call)
  {
    var call := s.calls[h];
    assert CloneOk(s.conns, call);
    assert call.token in s.entries ==> OwnerOk(s, call.token);
  }

  lemma HeldStep(s: State, a: Action)
    requires TableOk(s) && HeldOk(s) && Enabled(s, a)
    ensures HeldOk(Apply(s, a))
  {
    var s' := Apply(s, a);
    ConnsOnward(s, a);
    if a.Advance? {
      OthersKept(s, a.h, a.todo);
      DoKeepsClone(s, a.h, a.todo);
    } else {
      TasksKeepCalls(s, a);
    }
    forall h <- s'.calls ensures CloneOk(s'.conns, s'.calls[h]) {
      assert h in s.calls ==> CloneOk(s.conns, s.calls[h]);
    }
  }

  // ----- A waiter stays in its entry until it is answered -----

  ghost predicate FiledOk(s: State, h: CallId)
    requires h in s.calls
  {
    var call := s.calls[h];
    Lodged(call) && call.inbox.None? && call.token in s.entries && s.entries[call.token].conn == call.phase.entry ==>
      SlotOf(call) in s.entries[call.token].pending && s.entries[call.token].pending[SlotOf(call)].call == h
  }

  ghost predicate AllFiled(s: State)
  {
    forall h <- s.calls :: FiledOk(s, h)
  }

  lemma FiledOther(s: State, s': State, h: CallId, op: TableOp, g: CallId)
    requires h in s.calls && g in s.calls && s.calls[g].id != s.calls[h].id && FiledOk(s, g)
    requires g in s'.calls && SameCall(s.calls[g], s'.calls[g])
    requires s'.calls[g].phase == s.calls[g].phase && s'.calls[g].inbox == s.calls[g].inbox
    requires s'.entries == TableAfter(s.entries, h, s.calls[h], op)
    ensures FiledOk(s', g)
  {
  }

  lemma FiledOwn(s: State, s': State, h: CallId, e: Effect)
    requires h in s.calls && FiledOk(s, h) && SameCall(s.calls[h], e.call)
    requires h in s'.calls && s'.calls[h] == e.call && s'.entries == TableAfter(s.entries, h, s.calls[h], e.table)
    requires Lodged(e.call) ==>
               || e.table.FileWaiter?
               || (e.table.KeepTable? && Lodged(s.calls[h]) && e.call.phase.entry == s.calls[h].phase.entry &&
                 e.call.inbox == s.calls[h].inbox)
    ensures FiledOk(s', h)
  {
  }

  lemma FiledAdvance(s: State, h: CallId, todo: Todo, g: CallId)
    requires AllFiled(s) && IdsDistinct(s) && Enabled(s, Advance(h, todo)) && g in s.calls
    ensures g in DoAdvance(s, h, todo).calls && FiledOk(DoAdvance(s, h, todo), g)
  {
    var s', call := DoAdvance(s, h, todo), s.calls[h];
    var e := Do(call, ViewOf(s, call), todo);
    assert FiledOk(s, g);
    if g == h {
      DoLodged(call, ViewOf(s, call), todo);
      DoSameCall(call, ViewOf(s, call), todo);
      FiledOwn(s, s', h, e);
    } else {
      OthersKept(s, h, todo);
      FiledOther(s, s', h, e.table, g);
    }
  }

  /** A call files its waiter when it becomes lodged, and keeps it as long as it stays so. */
  lemma DoLodged(call: Call, v: View, todo: Todo)
    requires CanDo(call, v, todo)
    ensures var e := Do(call, v, todo);
            Lodged(e.call) ==>
              || (e.table.FileWaiter? && v.current == Some(e.call.phase.entry))
              || (e.table.KeepTable? && Lodged(call) && e.call.phase.entry == call.phase.entry &&
                e.call.inbox == call.inbox)
  {
  }

  /** The call the frame reaches: a prompt's waiter stays, and any other call has its answer. */
  lemma FiledReached(s: State, s': State, g: CallId, f: Frame)
    requires g in s.calls && FiledOk(s, g) && g in s'.calls && s'.calls[g] == Delivered(s.calls[g], f)
    requires s.calls[g].kind == Prompt ==> s'.entries == s.entries
    ensures FiledOk(s', g)
  {
  }

  lemma FiledHandle(s: State, c: ConnId, f: Frame, kind: Kind, g: CallId)
    requires AllFiled(s) && IdsDistinct(s) && PendingOk(s) && Enabled(s, Handle(c, f, kind)) && g in s.calls
    ensures g in DoHandle(s, c, f, kind).calls && FiledOk(DoHandle(s, c, f, kind), g)
  {
    assert FiledOk(s, g);
    var s', token, slot := DoHandle(s, c, f, kind), s.conns[c].token, Slot(kind, f.id);
    var w := Find(s.entries, token, slot);
    if w.Some? {
      assert WaiterOk(s, token, slot);
      var h := w.value.call;
      if g == h {
        FiledReached(s, s', g, f);
      } else {
        FiledOther(s, s', h, if kind == Prompt then KeepTable else ForgetWaiter, g);
      }
    }
  }

  lemma FiledStep(s: State, a: Action)
    requires AllFiled(s) && IdsDistinct(s) && PendingOk(s) && HeldOk(s) && Enabled(s, a)
    ensures AllFiled(Apply(s, a))
  {
    var s' := Apply(s, a);
    forall g <- s'.calls ensures FiledOk(s', g) {
      match a {
        case Advance(h, todo) => FiledAdvance(s, h, todo, g);
        case Handle(c, f, kind) => FiledHandle(s, c, f, kind, g);
        case Begin(_, _, _, _, _) => assert g in s.calls ==> FiledOk(s, g);
        case _ =>
          assert FiledOk(s, g) && CloneOk(s.conns, s.calls[g]);
      }
    }
  }

  // ----- All together -----

  ghost predicate Inv(s: State)
  {
    TableOk(s) && IdsDistinct(s) && PendingOk(s) && CallsOk(s) && SendersOk(s) && HeldOk(s) && AllFiled(s)
  }

  lemma InvStep(s: State, a: Action)
    requires Inv(s) && Enabled(s, a)
    ensures Inv(Apply(s, a))
  {
    TableStep(s, a);
    IdsStep(s, a);
    PendingStep(s, a);
    HeardStep(s, a);
    SendersStep(s, a);
    HeldStep(s, a);
    FiledStep(s, a);
  }

  /** The invariant holds in every state of every run. */
  lemma {:induction false} InvRun(states: seq<State>, actions: seq<Action>, n: nat)
    requires IsRun(states, actions) && n < |states|
    ensures Inv(states[n])
  {
    if n > 0 {
      InvRun(states, actions, n - 1);
      InvStep(states[n - 1], actions[n - 1]);
    }
  }
}
