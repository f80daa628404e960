/**
 The registry as a transition system: unboundedly many connection tasks and calls, stepped at the
 boundaries of the mutex critical sections (src/wire/registry.rs, src/wire/connection.rs:294-391).

 A connection has an identity of its own, distinct from its token: a reconnect makes a new one.
 Every call looks its target up in one step and files its waiter in another, so the entry may be
 replaced in between. Timeouts may fire at any moment at which nothing is ready to be received.
 */
module RegistryProtocol {
  import opened Prelude
  import opened RegistryTable
  import opened RegistryCalls
  import P = PromptLoop

  /** `Exiting` has left the session loop; `Removed` has cleaned up; `Ended` has dropped its receiver. */
  datatype Task = Running | Exiting | Removed | Ended

  datatype OutFrame = Superseded | Request(kind: Kind, id: Id, session: string)

  /** `senders` counts the live senders of the outbound channel. */
  datatype Conn = Conn(token: TokenId, task: Task, queue: seq<OutFrame>, senders: int)

  /** `displaced` holds entries taken out of the table by a reconnect but not yet dropped. */
  datatype State = State(
    entries: Table, displaced: map<ConnId, Entry>, conns: map<ConnId, Conn>, calls: map<CallId, Call>, log: seq<Logged>)

  function Initial(): (s: State)
  {
    State(map[], map[], map[], map[], [])
  }

  datatype Action =
    | Connect(c: ConnId, token: TokenId, clientId: string, hostname: string)
    | Release(c: ConnId)
    | Pump(c: ConnId)
    | Break(c: ConnId)
    | Closed(c: ConnId)
    | Cleanup(c: ConnId)
    | EndTask(c: ConnId)
    | Revoke(token: TokenId)
    | Rename(c: ConnId, hostname: string)
    | Handle(c: ConnId, frame: Frame, kind: Kind)
    | Begin(h: CallId, kind: Kind, token: TokenId, id: Id, session: string)
    | Advance(h: CallId, todo: Todo)

  predicate TaskIs(s: State, c: ConnId, t: Task)
  {
    c in s.conns && s.conns[c].task == t
  }

  function ViewOf(s: State, call: Call): (v: View)
  {
    var current := if call.token in s.entries then Some(s.entries[call.token].conn) else None;
    View(
      current,
      call.token in s.entries && SlotOf(call) in s.entries[call.token].pending,
      call.phase.Awaiting? && call.phase.entry in s.displaced && SlotOf(call) in s.displaced[call.phase.entry].pending,
      call.phase.Filed? && call.phase.conn in s.conns && s.conns[call.phase.conn].task != Ended,
      |s.log|)
  }

  /**
   A connection's task may leave its loop at any time; it leaves because of a closed outbound channel
   only when the queue is drained and no sender is left. A new call has an id no earlier call had.
   */
  predicate Enabled(s: State, a: Action)
  {
    match a
    case Connect(c, _, _, _) => c !in s.conns
    case Release(c) => c in s.displaced
    case Pump(c) => TaskIs(s, c, Running) && s.conns[c].queue != []
    case Break(c) => TaskIs(s, c, Running)
    case Closed(c) => TaskIs(s, c, Running) && s.conns[c].queue == [] && s.conns[c].senders == 0
    case Cleanup(c) => TaskIs(s, c, Exiting)
    case EndTask(c) => TaskIs(s, c, Removed)
    case Revoke(_) => true
    case Rename(c, _) => TaskIs(s, c, Running)
    case Handle(c, f, kind) => TaskIs(s, c, Running) && kind in Targets(f)
    case Begin(h, _, _, id, _) => h !in s.calls && forall g <- s.calls :: s.calls[g].id != id
    case Advance(h, todo) => h in s.calls && CanDo(s.calls[h], ViewOf(s, s.calls[h]), todo)
  }

  function AddSenders(conns: map<ConnId, Conn>, c: ConnId, n: int): (conns': map<ConnId, Conn>)
  {
    if c in conns then conns[c := conns[c].(senders := conns[c].senders + n)] else conns
  }

  function Enqueue(conns: map<ConnId, Conn>, c: ConnId, f: OutFrame): (conns': map<ConnId, Conn>)
  {
    if c in conns then conns[c := conns[c].(queue := conns[c].queue + [f])] else conns
  }

  function SetTask(conns: map<ConnId, Conn>, c: ConnId, t: Task): (conns': map<ConnId, Conn>)
    requires c in conns
  {
    conns[c := conns[c].(task := t)]
  }

  /** `Registry::insert`: the new entry replaces whatever the token had. */
  function DoConnect(s: State, c: ConnId, token: TokenId, clientId: string, hostname: string): (s': State)
  {
    s.(entries := Inserted(s.entries, token, c, clientId, hostname),
       displaced := if token in s.entries then s.displaced[s.entries[token].conn := s.entries[token]] else s.displaced,
       conns := s.conns[c := Conn(token, Running, [], 1)])
  }

  /** The displaced entry is sent its notice, which fails silently if nobody listens, and dropped. */
  function DoRelease(s: State, c: ConnId): (s': State)
  {
    var told := if c in s.conns && s.conns[c].task != Ended then Enqueue(s.conns, c, Superseded) else s.conns;
    s.(displaced := s.displaced - {c}, conns := AddSenders(told, c, -1))
  }

  /** `Registry::remove`: the entry goes, whichever connection it belongs to, and its sender with it. */
  function Unregister(s: State, token: TokenId): (s': State)
  {
    if token in s.entries then
      s.(entries := Without(s.entries, token), conns := AddSenders(s.conns, s.entries[token].conn, -1))
    else s
  }

  function DoHandle(s: State, c: ConnId, f: Frame, kind: Kind): (s': State)
    requires c in s.conns
  {
    var token, slot := s.conns[c].token, Slot(kind, f.id);
    var heard := s.(log := s.log + [Logged(token, f)]);
    var w := Find(s.entries, token, slot);
    if w.None? || w.value.call !in s.calls then heard
    else
      heard.(entries := if kind == Prompt then s.entries else Forgotten(s.entries, token, slot),
             calls := s.calls[w.value.call := Delivered(s.calls[w.value.call], f)])
  }

  function TableAfter(t: Table, h: CallId, call: Call, op: TableOp): (t': Table)
  {
    match op
    case KeepTable => t
    case FileWaiter => Registered(t, call.token, SlotOf(call), Waiter(h, call.session))
    case ForgetWaiter => Forgotten(t, call.token, SlotOf(call))
  }

  function ConnsAfter(conns: map<ConnId, Conn>, call: Call, op: ChannelOp): (conns': map<ConnId, Conn>)
  {
    match op
    case KeepChannel => conns
    case Clone(c) => AddSenders(conns, c, 1)
    case Push(c) => Enqueue(conns, c, Request(call.kind, call.id, call.session))
    case DropClone(c) => AddSenders(conns, c, -1)
  }

  /** `cancel_pending_prompts_for_session`. */
  function Woken(calls: map<CallId, Call>, who: set<CallId>): (calls': map<CallId, Call>)
  {
    map g | g in calls :: if g in who then calls[g].(events := calls[g].events + [P.Cancelled]) else calls[g]
  }

  function DoAdvance(s: State, h: CallId, todo: Todo): (s': State)
    requires h in s.calls && CanDo(s.calls[h], ViewOf(s, s.calls[h]), todo)
  {
    var call := s.calls[h];
    var e := Do(call, ViewOf(s, call), todo);
    var others := if todo == Wake then Woken(s.calls, Waiting(s.entries, call.token, call.session)) else s.calls;
    State(TableAfter(s.entries, h, call, e.table), s.displaced, ConnsAfter(s.conns, call, e.channel),
      others[h := e.call], s.log)
  }

  function Apply(s: State, a: Action): (s': State)
    requires Enabled(s, a)
  {
    match a
    case Connect(c, token, clientId, hostname) => DoConnect(s, c, token, clientId, hostname)
    case Release(c) => DoRelease(s, c)
    case Pump(c) => s.(conns := s.conns[c := s.conns[c].(queue := s.conns[c].queue[1..])])
    case Break(c) => s.(conns := SetTask(s.conns, c, Exiting))
    case Closed(c) => s.(conns := SetTask(s.conns, c, Exiting))
    case Cleanup(c) => Unregister(s.(conns := SetTask(s.conns, c, Removed)), s.conns[c].token)
    case EndTask(c) => s.(conns := SetTask(s.conns, c, Ended))
    case Revoke(token) => Unregister(s, token)
    case Rename(c, hostname) => s.(entries := Renamed(s.entries, s.conns[c].token, hostname))
    case Handle(c, f, kind) => DoHandle(s, c, f, kind)
    case Begin(h, kind, token, id, session) => s.(calls := s.calls[h := Begun(kind, token, id, session, |s.log|)])
    case Advance(h, todo) => DoAdvance(s, h, todo)
  }

  /** `states` is what the system goes through, from an empty registry, under `actions`. */
  ghost predicate IsRun(states: seq<State>, actions: seq<Action>)
  {
    && |states| == |actions| + 1
    && states[0] == Initial()
    && forall i | 0 <= i < |actions| :: Enabled(states[i], actions[i]) && states[i + 1] == Apply(states[i], actions[i])
  }
}
