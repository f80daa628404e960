/**
 One correlated call of the registry (`ping`, `query`, `prompt`, `interrupt`, `answer`:
 src/wire/registry.rs:348-414, 490-569, 610-737, 789-899, 947-1054), cut at its critical sections
 and await points. What a step does depends only on the call and on its view of the shared state.
 */
module RegistryCalls {
  import opened Prelude
  import opened RegistryTable
  import P = PromptLoop

  /** The inbound frames that answer a call; an `ack` is known by the id it is `of`. */
  datatype Frame =
    | Pong(id: Id)
    | QueryOk(id: Id, body: string)
    | Error(id: Id, error: string)
    | Reply(id: Id, reply: P.ReplyBody)
    | Ack(id: Id)

  /** The kinds of call a frame is offered to by `handle_frame` (src/wire/connection.rs:533-684). */
  function Targets(f: Frame): (kinds: set<Kind>)
  {
    match f
    case Pong(_) => {Ping}
    case QueryOk(_, _) => {Query}
    case Error(_, _) => {Query, Prompt, Answer}
    case Reply(_, _) => {Prompt}
    case Ack(_) => {Interrupt, Answer}
  }

  datatype Outcome =
    | Connected
    | Answered(body: string)
    | Failed(error: string)
    | Done(text: string, exit: Option<int>)
    | Cancelled
    | Acked
    | TimedOut
    | Disconnected

  datatype Next = Report(outcome: Outcome) | Check

  /**
   Where a call stands. `conn` is the connection whose outbound sender it cloned; `entry` is the
   connection whose entry took its waiter, which need not be the same one.
   */
  datatype Phase =
    | Started
    | Looked(conn: ConnId)
    | Filed(conn: ConnId, entry: ConnId)
    | Awaiting(conn: ConnId, entry: ConnId)
    | Forgetting(conn: ConnId, next: Next)
    | Waking(conn: ConnId)
    | Checking(conn: ConnId)
    | Finished(outcome: Outcome)

  /** `inbox` is the one-shot channel; `events`, `read` and `pieces` are a prompt's queue and progress. */
  datatype Call = Call(
    kind: Kind, token: TokenId, id: Id, session: string, phase: Phase,
    inbox: Option<Frame>, events: seq<P.Event>, read: nat, pieces: seq<string>, since: nat)

  /** The kinds whose failure is told apart: lost connection or late acknowledgement. */
  predicate TwoState(kind: Kind)
  {
    kind == Interrupt || kind == Answer
  }

  predicate Holds(call: Call, c: ConnId)
  {
    !call.phase.Started? && !call.phase.Finished? && call.phase.conn == c
  }

  function SlotOf(call: Call): (slot: Slot)
  {
    Slot(call.kind, call.id)
  }

  /**
   What a call sees of the shared state: the connection registered for its token; whether its own
   waiter is in that entry, or in a displaced one still to be dropped; whether its outbound channel
   has a receiver; and how many frames have been handled.
   */
  datatype View = View(current: Option<ConnId>, filed: bool, stray: bool, listening: bool, now: nat)

  datatype Todo = Lookup | File | Send | Receive | Listen | Hangup | Timeout | Forget | Wake | Recheck

  datatype TableOp = KeepTable | FileWaiter | ForgetWaiter

  datatype ChannelOp = KeepChannel | Clone(c: ConnId) | Push(c: ConnId) | DropClone(c: ConnId)

  datatype Effect = Effect(call: Call, table: TableOp, channel: ChannelOp)

  /** Nothing is ready to be received. */
  predicate Idle(call: Call)
  {
    call.inbox.None? && call.read == |call.events|
  }

  /** The sender half of the call's channel exists somewhere. */
  predicate SenderAlive(call: Call, v: View)
    requires call.phase.Awaiting?
  {
    v.stray || (v.filed && v.current == Some(call.phase.entry))
  }

  /** A timeout reports only when nothing can be received, and a lost sender is seen before it. */
  predicate CanDo(call: Call, v: View, todo: Todo)
  {
    match todo
    case Lookup => call.phase.Started?
    case File => call.phase.Looked?
    case Send => call.phase.Filed?
    case Receive => call.phase.Awaiting? && call.inbox.Some?
    case Listen => call.phase.Awaiting? && call.kind == Prompt && call.read < |call.events|
    case Hangup => call.phase.Awaiting? && Idle(call) && !SenderAlive(call, v)
    case Timeout => call.phase.Awaiting? && Idle(call) && SenderAlive(call, v)
    case Forget => call.phase.Forgetting?
    case Wake => call.phase.Waking?
    case Recheck => call.phase.Checking?
  }

  /** The call returns, and its clone of the outbound sender is dropped. */
  function Finish(call: Call, o: Outcome, table: TableOp): (e: Effect)
    requires !call.phase.Started? && !call.phase.Finished?
  {
    Effect(call.(phase := Finished(o)), table, DropClone(call.phase.conn))
  }

  function Become(call: Call, p: Phase): (e: Effect)
  {
    Effect(call.(phase := p), KeepTable, KeepChannel)
  }

  function Do(call: Call, v: View, todo: Todo): (e: Effect)
    requires CanDo(call, v, todo)
  {
    match todo
    case Lookup =>
      if v.current.None? then Become(call, Finished(Disconnected))
      else Effect(call.(phase := Looked(v.current.value)), KeepTable, Clone(v.current.value))
    case File =>
      if v.current.None? then Finish(call, Disconnected, KeepTable)
      else Effect(call.(phase := Filed(call.phase.conn, v.current.value), since := v.now), FileWaiter, KeepChannel)
    case Send =>
      if v.listening then
        Effect(call.(phase := Awaiting(call.phase.conn, call.phase.entry)), KeepTable, Push(call.phase.conn))
      else Become(call, Forgetting(call.phase.conn, Report(Disconnected)))
    case Receive => DoReceive(call)
    case Listen => DoListen(call)
    case Hangup =>
      if TwoState(call.kind) then Finish(call, Disconnected, KeepTable)
      else Become(call, Forgetting(call.phase.conn, Report(Disconnected)))
    case Timeout =>
      Become(call, Forgetting(call.phase.conn, if TwoState(call.kind) then Check else Report(Disconnected)))
    case Forget =>
      (match call.phase.next
       case Report(o) => Finish(call, o, ForgetWaiter)
       case Check => Become(call, Checking(call.phase.conn)).(table := ForgetWaiter))
    case Wake => Finish(call, Acked, KeepTable)
    case Recheck => Finish(call, if v.current.Some? then TimedOut else Disconnected, KeepTable)
  }

  /** A one-shot reply has arrived. An acked interrupt has prompts to wake before it returns. */
  function DoReceive(call: Call): (e: Effect)
    requires call.phase.Awaiting? && call.inbox.Some?
  {
    match call.inbox.value
    case Pong(_) => Finish(call, Connected, KeepTable)
    case QueryOk(_, b) => Finish(call, Answered(b), KeepTable)
    case Error(_, x) => Finish(call, Failed(x), KeepTable)
    case Ack(_) => if call.kind == Interrupt then Become(call, Waking(call.phase.conn))
      else Finish(call, Acked, KeepTable)
    case Reply(_, _) => Become(call, call.phase)
  }

  function ToOutcome(o: P.Outcome): (o': Outcome)
  {
    match o
    case Done(t, x) => Done(t, x)
    case Failed(e) => Failed(e)
    case Interrupted => Cancelled
    case Disconnected => Disconnected
  }

  /** One turn of the prompt loop. */
  function DoListen(call: Call): (e: Effect)
    requires call.phase.Awaiting? && call.read < |call.events|
  {
    match P.Absorb(call.pieces, call.events[call.read])
    case Listening(p) => Effect(call.(read := call.read + 1, pieces := p), KeepTable, KeepChannel)
    case Stopped(o) =>
      Effect(call.(read := call.read + 1, phase := Forgetting(call.phase.conn, Report(ToOutcome(o)))), KeepTable,
        KeepChannel)
  }

  /** A frame reaches the call: into a prompt's queue, or into the one-shot channel. */
  function Delivered(call: Call, f: Frame): (call': Call)
  {
    if call.kind != Prompt then call.(inbox := Some(f))
    else if f.Reply? then call.(events := call.events + [P.Reply(f.reply)])
    else if f.Error? then call.(events := call.events + [P.Err(f.error)])
    else call
  }

  function Begun(kind: Kind, token: TokenId, id: Id, session: string, now: nat): (call: Call)
  {
    Call(kind, token, id, session, Started, None, [], 0, [], now)
  }

  // ----- What one call's steps keep -----

  /** The part of a call that never changes. */
  predicate SameCall(a: Call, b: Call)
  {
    a.kind == b.kind && a.token == b.token && a.id == b.id && a.session == b.session
  }

  /** The call may still have a waiter in the entry of connection `e`. */
  predicate Unresolved(call: Call, e: ConnId)
  {
    && call.inbox.None?
    && match call.phase
       case Filed(_, x) => x == e
       case Awaiting(_, x) => x == e
       case Forgetting(_, _) => true
       case _ => false
  }

  predicate Early(call: Call)
  {
    call.phase.Started? || call.phase.Looked?
  }

  /** Nothing can have been delivered before the waiter was filed. */
  predicate Unheard(call: Call)
  {
    Early(call) ==> call.inbox.None? && call.events == [] && call.read == 0 && call.pieces == []
  }

  /** A call that has left its waiting states has no waiter in the current entry. */
  lemma DoKeepsWaiter(call: Call, v: View, todo: Todo)
    requires CanDo(call, v, todo) && Unheard(call)
    requires v.filed ==> v.current.Some? && Unresolved(call, v.current.value)
    ensures var e := Do(call, v, todo);
            && SameCall(call, e.call) && Unheard(e.call)
            && (e.table.FileWaiter? ==> v.current.Some? && Unresolved(e.call, v.current.value))
            && (e.table.KeepTable? && v.filed ==> Unresolved(e.call, v.current.value))
  {
  }

  function Clones(call: Call, c: ConnId): (n: int)
  {
    if Holds(call, c) then 1 else 0
  }

  function Delta(op: ChannelOp, c: ConnId): (n: int)
  {
    if op == Clone(c) then 1 else if op == DropClone(c) then -1 else 0
  }

  /** Senders are cloned and dropped exactly as the call comes to hold one and ceases to. */
  lemma DoKeepsClones(call: Call, v: View, todo: Todo, c: ConnId)
    requires CanDo(call, v, todo)
    ensures Clones(Do(call, v, todo).call, c) == Clones(call, c) + Delta(Do(call, v, todo).channel, c)
  {
  }

  /** A call that has returned does nothing more: its outcome is the one outcome it ever has. */
  lemma FinishedForGood(call: Call, v: View, todo: Todo)
    requires call.phase.Finished?
    ensures !CanDo(call, v, todo)
  {
  }

  // ----- What an outcome rests on -----

  datatype Logged = Logged(token: TokenId, frame: Frame)

  /** `f` was handled on a connection of the call's token after its waiter was filed. */
  ghost predicate Heard(log: seq<Logged>, call: Call, f: Frame)
  {
    exists j | call.since <= j < |log| :: log[j] == Logged(call.token, f)
  }

  ghost predicate EventHeard(log: seq<Logged>, call: Call, e: P.Event)
  {
    match e
    case Reply(r) => Heard(log, call, Reply(call.id, r))
    case Err(x) => Heard(log, call, Error(call.id, x))
    case Cancelled => true
  }

  /** The prompt stopped at the last event it read, with the verdict of its queue. */
  ghost predicate StoppedWith(call: Call, o: Outcome)
  {
    && 0 < call.read <= |call.events|
    && P.EndsAt(call.events, call.read - 1)
    && o == ToOutcome(P.Judgement(call.events, call.read - 1))
  }

  ghost predicate Justified(log: seq<Logged>, call: Call, o: Outcome)
  {
    if o == Disconnected then call.kind == Prompt ==> call.read <= |call.events| && P.Quiet(call.events[..call.read])
    else if call.kind == Prompt then StoppedWith(call, o)
    else
      match o
      case Connected => call.kind == Ping && Heard(log, call, Pong(call.id))
      case Answered(b) => call.kind == Query && Heard(log, call, QueryOk(call.id, b))
      case Failed(x) => (call.kind == Query || call.kind == Answer) && Heard(log, call, Error(call.id, x))
      case Acked => TwoState(call.kind) && Heard(log, call, Ack(call.id))
      case TimedOut => TwoState(call.kind)
      case _ => false
  }

  /** Everything a call has received was sent to it, and whatever it decided follows from that. */
  ghost predicate CallOk(log: seq<Logged>, call: Call)
  {
    && Unheard(call)
    && call.since <= |log|
    && call.read <= |call.events|
    && (call.inbox.Some? ==>
          call.kind != Prompt && call.inbox.value.id == call.id && call.kind in Targets(call.inbox.value) &&
          Heard(log, call, call.inbox.value))
    && (call.events != [] ==> call.kind == Prompt)
    && (forall e <- call.events :: EventHeard(log, call, e))
    && PhaseOk(log, call)
  }

  ghost predicate PhaseOk(log: seq<Logged>, call: Call)
    requires call.read <= |call.events|
  {
    match call.phase
    case Forgetting(_, Report(o)) => Justified(log, call, o)
    case Forgetting(_, Check) => TwoState(call.kind)
    case Checking(_) => TwoState(call.kind)
    case Waking(_) => call.kind == Interrupt && Heard(log, call, Ack(call.id))
    case Finished(o) => Justified(log, call, o)
    case _ =>
      call.kind == Prompt ==>
        P.Quiet(call.events[..call.read]) && Concat(call.pieces) == P.Transcript(P.Replies(call.events[..call.read]))
  }

  lemma BegunOk(log: seq<Logged>, kind: Kind, token: TokenId, id: Id, session: string)
    ensures CallOk(log, Begun(kind, token, id, session, |log|))
  {
  }

  lemma DoKeepsCall(log: seq<Logged>, call: Call, v: View, todo: Todo)
    requires CallOk(log, call) && CanDo(call, v, todo) && v.now == |log|
    ensures CallOk(log, Do(call, v, todo).call)
  {
    match todo {
      case Listen => ListenKeepsCall(log, call);
      case Receive => ReceiveKeepsCall(log, call);
      case File => FileKeepsCall(log, call, v);
      case _ => MoveKeepsCall(log, call, v, todo);
    }
  }

  lemma FileKeepsCall(log: seq<Logged>, call: Call, v: View)
    requires CallOk(log, call) && CanDo(call, v, File) && v.now == |log|
    ensures CallOk(log, Do(call, v, File).call)
  {
  }

  /** A call that changes its phase alone, to one its queue bears out, is still in order. */
  lemma PhaseMoves(log: seq<Logged>, call: Call, phase: Phase)
    requires CallOk(log, call) && !phase.Started? && !phase.Looked? && PhaseOk(log, call.(phase := phase))
    ensures CallOk(log, call.(phase := phase))
  {
    var call' := call.(phase := phase);
    forall f | Heard(log, call, f) ensures Heard(log, call', f) { }
    forall x <- call.events ensures EventHeard(log, call', x) { assert EventHeard(log, call, x); }
  }

  lemma GivingUp(log: seq<Logged>, call: Call, phase: Phase)
    requires CallOk(log, call) && call.phase.Awaiting? && Idle(call)
    requires match phase
             case Finished(o) => o == Disconnected && TwoState(call.kind)
             case Forgetting(_, next) => next == (if TwoState(call.kind) then Check else Report(Disconnected))
                                         || next == Report(Disconnected)
             case _ => false
    ensures CallOk(log, call.(phase := phase))
  {
    assert call.events[..call.read] == call.events;
    PhaseMoves(log, call, phase);
  }

  lemma MoveKeepsCall(log: seq<Logged>, call: Call, v: View, todo: Todo)
    requires CallOk(log, call) && CanDo(call, v, todo) && todo != Listen && todo != Receive && todo != File
    ensures CallOk(log, Do(call, v, todo).call)
  {
    var phase := Do(call, v, todo).call.phase;
    assert Do(call, v, todo).call == call.(phase := phase);
    if todo == Hangup || todo == Timeout {
      GivingUp(log, call, phase);
    } else if todo == Lookup {
      LookupKeepsCall(log, call, v);
    } else {
      forall f | Heard(log, call, f) ensures Heard(log, call.(phase := phase), f) { }
      PhaseMoves(log, call, phase);
    }
  }

  lemma LookupKeepsCall(log: seq<Logged>, call: Call, v: View)
    requires CallOk(log, call) && CanDo(call, v, Lookup)
    ensures CallOk(log, Do(call, v, Lookup).call)
  {
  }

  lemma ReceiveKeepsCall(log: seq<Logged>, call: Call)
    requires CallOk(log, call) && call.phase.Awaiting? && call.inbox.Some?
    ensures CallOk(log, DoReceive(call).call)
  {
    var e := DoReceive(call);
    forall f | Heard(log, call, f) ensures Heard(log, e.call, f) { }
    assert Heard(log, e.call, call.inbox.value);
  }

  lemma ListenKeepsCall(log: seq<Logged>, call: Call)
    requires CallOk(log, call) && call.phase.Awaiting? && call.kind == Prompt && call.read < |call.events|
    ensures CallOk(log, DoListen(call).call)
  {
    var e := DoListen(call);
    P.AbsorbJudges(call.events, call.read, call.pieces);
    forall x <- e.call.events ensures EventHeard(log, e.call, x) { assert EventHeard(log, call, x); }
    if P.Terminal(call.events[call.read]) {
      assert P.EndsAt(call.events, call.read);
      P.VerdictUnique(call.events, P.Judgement(call.events, call.read),
        P.Absorb(call.pieces, call.events[call.read]).outcome);
    }
  }

  /** What was heard stays heard. */
  lemma LogGrows(log: seq<Logged>, l: Logged, call: Call)
    requires CallOk(log, call)
    ensures CallOk(log + [l], call)
  {
    forall f | Heard(log, call, f) ensures Heard(log + [l], call, f) {
      var j :| call.since <= j < |log| && log[j] == Logged(call.token, f);
      assert (log + [l])[j] == Logged(call.token, f);
    }
    forall e <- call.events ensures EventHeard(log + [l], call, e) { assert EventHeard(log, call, e); }
  }

  /** Whatever a prompt has read, and stopped at, is untouched by events queued behind it. */
  lemma QueueGrows(log: seq<Logged>, call: Call, e: P.Event)
    requires CallOk(log, call) && call.kind == Prompt && !Early(call) && EventHeard(log, call, e)
    ensures CallOk(log, call.(events := call.events + [e]))
  {
    var call' := call.(events := call.events + [e]);
    assert call'.events[..call.read] == call.events[..call.read];
    assert call.read > 0 ==> call'.events[..call.read - 1] == call.events[..call.read - 1];
    forall f | Heard(log, call, f) ensures Heard(log, call', f) { }
    forall x <- call'.events ensures EventHeard(log, call', x) { assert EventHeard(log, call, x); }
  }

  lemma DeliveredKeepsCall(log: seq<Logged>, call: Call, f: Frame, e: ConnId)
    requires CallOk(log, call) && call.kind in Targets(f) && f.id == call.id && Unresolved(call, e)
    ensures CallOk(log + [Logged(call.token, f)], Delivered(call, f))
  {
    var log' := log + [Logged(call.token, f)];
    LogGrows(log, Logged(call.token, f), call);
    assert log'[|log|] == Logged(call.token, f);
    assert Heard(log', call, f);
    if call.kind == Prompt {
      QueueGrows(log', call, if f.Reply? then P.Reply(f.reply) else P.Err(f.error));
    } else {
      var call' := Delivered(call, f);
      forall g | Heard(log', call, g) ensures Heard(log', call', g) { }
    }
  }
}
