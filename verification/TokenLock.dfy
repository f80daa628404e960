/**
 Many processes at one token store (src/token/mod.rs:365-416): each takes an exclusive lock on a
 sibling file, loads the records, works on its own copy, saves, and lets go, each as a step of its
 own. `list` and `ping` read the file at any time and without the lock.
 */
module TokenLock {
  import opened Prelude
  import opened TokenStore
  import opened TokenRuns

  type Pid = nat

  /** What a process inside the critical section has done so far. */
  datatype Stage =
    | Locked(op: Op)
    | Loaded(op: Op, copy: Records)
    | Worked(op: Op, copy: Records, reply: Reply)
    | Answered(reply: Reply)

  /** `turns` and `replies` record the operations as they complete, `queue` as they take the lock. */
  datatype Shared = Shared(
    file: Records, holder: Option<Pid>, procs: map<Pid, Stage>, turns: seq<Turn>, replies: seq<Reply>, queue: seq<Op>)

  function Start(): (s: Shared)
  {
    Shared([], None, map[], [], [], [])
  }

  datatype Step =
    | Lock(p: Pid, op: Op)
    | Load(p: Pid)
    | LoadFails(p: Pid)
    | Work(p: Pid)
    | Save(p: Pid)
    | SaveFails(p: Pid)
    | Unlock(p: Pid)

  /** The lock is granted only when free, and blocks otherwise; nothing else asks who holds it. */
  predicate Enabled(s: Shared, a: Step)
  {
    match a
    case Lock(p, _) => s.holder.None? && p !in s.procs
    case Load(p) => p in s.procs && s.procs[p].Locked?
    case LoadFails(p) => p in s.procs && s.procs[p].Locked?
    case Work(p) => p in s.procs && s.procs[p].Loaded?
    case Save(p) => p in s.procs && s.procs[p].Worked? && !s.procs[p].reply.Refused?
    case SaveFails(p) => p in s.procs && s.procs[p].Worked? && !s.procs[p].reply.Refused?
    case Unlock(p) => p in s.procs && (s.procs[p].Answered? || (s.procs[p].Worked? && s.procs[p].reply.Refused?))
  }

  function Complete(s: Shared, p: Pid, t: Turn, reply: Reply): (s': Shared)
  {
    s.(procs := s.procs[p := Answered(reply)], turns := s.turns + [t], replies := s.replies + [reply])
  }

  /** An operation that refuses saves nothing: its turn completes as it lets go. */
  function Apply(mac: Mac, s: Shared, a: Step): (s': Shared)
    requires Enabled(s, a)
  {
    match a
    case Lock(p, op) => s.(holder := Some(p), procs := s.procs[p := Locked(op)], queue := s.queue + [op])
    case Load(p) => s.(procs := s.procs[p := Loaded(s.procs[p].op, s.file)])
    case LoadFails(p) => Complete(s, p, Turn(s.procs[p].op, true), Refused(Io))
    case Work(p) =>
      var (records, reply) := Execute(mac, s.procs[p].copy, s.procs[p].op);
      s.(procs := s.procs[p := Worked(s.procs[p].op, records, reply)])
    case Save(p) => Complete(s, p, Turn(s.procs[p].op, false), s.procs[p].reply).(file := s.procs[p].copy)
    case SaveFails(p) => Complete(s, p, Turn(s.procs[p].op, true), Refused(Io))
    case Unlock(p) =>
      var done := if s.procs[p].Answered? then s else Complete(s, p, Turn(s.procs[p].op, false), s.procs[p].reply);
      done.(holder := None, procs := done.procs - {p})
  }

  ghost predicate IsRun(mac: Mac, states: seq<Shared>, steps: seq<Step>)
  {
    && |states| == |steps| + 1
    && states[0] == Start()
    && forall i | 0 <= i < |steps| :: Enabled(states[i], steps[i]) && states[i + 1] == Apply(mac, states[i], steps[i])
  }

  // ----- One at a time -----

  /** What the process inside has in hand, against the file as it is and the last answer on record. */
  predicate StageOk(mac: Mac, file: Records, replies: seq<Reply>, g: Stage)
  {
    match g
    case Locked(_) => true
    case Loaded(_, copy) => copy == file
    case Worked(op, copy, reply) => (copy, reply) == Execute(mac, file, op)
    case Answered(reply) => replies != [] && reply == replies[|replies| - 1]
  }

  /** The operations that took the lock are those completed, and the one inside if it is not done. */
  predicate QueueOk(s: Shared)
  {
    var done := seq(|s.turns|, i requires 0 <= i < |s.turns| => s.turns[i].op);
    s.queue == done + (match s.holder
                       case Some(p) => if p in s.procs && !s.procs[p].Answered? then [s.procs[p].op] else []
                       case None => [])
  }

  ghost predicate Serial(mac: Mac, s: Shared)
  {
    && s.procs.Keys == (if s.holder.Some? then {s.holder.value} else {})
    && (forall p <- s.procs :: StageOk(mac, s.file, s.replies, s.procs[p]))
    && QueueOk(s)
    && s.file == After(mac, s.turns)
    && |s.replies| == |s.turns|
    && (forall i | 0 <= i < |s.turns| :: s.replies[i] == Answer(mac, s.turns, i))
  }

  /** A refusal changes nothing. */
  lemma RefusalKeeps(mac: Mac, records: Records, op: Op)
    requires Execute(mac, records, op).1.Refused?
    ensures Execute(mac, records, op).0 == records
  {
  }

  lemma CompleteKeeps(mac: Mac, turns: seq<Turn>, replies: seq<Reply>, t: Turn)
    requires |replies| == |turns| && forall i | 0 <= i < |turns| :: replies[i] == Answer(mac, turns, i)
    ensures var turns', replies' := turns + [t], replies + [Take(mac, After(mac, turns), t).1];
            && After(mac, turns') == Take(mac, After(mac, turns), t).0
            && forall i | 0 <= i < |turns'| :: replies'[i] == Answer(mac, turns', i)
  {
    var turns', replies' := turns + [t], replies + [Take(mac, After(mac, turns), t).1];
    assert turns'[..|turns|] == turns;
    forall i | 0 <= i < |turns'| ensures replies'[i] == Answer(mac, turns', i) {
      assert i < |turns| ==> turns'[..i] == turns[..i];
    }
  }

  lemma QueueComplete(s: Shared, p: Pid, t: Turn, reply: Reply)
    requires QueueOk(s) && s.holder == Some(p) && p in s.procs && !s.procs[p].Answered? && t.op == s.procs[p].op
    ensures QueueOk(Complete(s, p, t, reply))
  {
    var done := seq(|s.turns|, i requires 0 <= i < |s.turns| => s.turns[i].op);
    var s' := Complete(s, p, t, reply);
    var done' := seq(|s'.turns|, i requires 0 <= i < |s'.turns| => s'.turns[i].op);
    assert done' == done + [t.op];
  }

  lemma SerialComplete(mac: Mac, s: Shared, p: Pid, t: Turn, file: Records, reply: Reply)
    requires Serial(mac, s) && p in s.procs && !s.procs[p].Answered? && t.op == s.procs[p].op
    requires (file, reply) == Take(mac, s.file, t)
    ensures Serial(mac, Complete(s, p, t, reply).(file := file))
  {
    CompleteKeeps(mac, s.turns, s.replies, t);
    QueueComplete(s, p, t, reply);
  }

  lemma SerialStep(mac: Mac, s: Shared, a: Step)
    requires Serial(mac, s) && Enabled(s, a)
    ensures Serial(mac, Apply(mac, s, a))
  {
    match a {
      case Lock(p, op) =>
      case Load(p) =>
      case LoadFails(p) => SerialComplete(mac, s, p, Turn(s.procs[p].op, true), s.file, Refused(Io));
      case Work(p) => assert StageOk(mac, s.file, s.replies, s.procs[p]);
      case Save(p) =>
        assert StageOk(mac, s.file, s.replies, s.procs[p]);
        SerialComplete(mac, s, p, Turn(s.procs[p].op, false), s.procs[p].copy, s.procs[p].reply);
      case SaveFails(p) => SerialComplete(mac, s, p, Turn(s.procs[p].op, true), s.file, Refused(Io));
      case Unlock(p) =>
        if s.procs[p].Worked? {
          assert StageOk(mac, s.file, s.replies, s.procs[p]);
          RefusalKeeps(mac, s.file, s.procs[p].op);
          SerialComplete(mac, s, p, Turn(s.procs[p].op, false), s.file, s.procs[p].reply);
        }
    }
  }

  /**
   Whatever the interleaving, the file is at every moment the result of running the completed
   operations one by one, every process was told what that sequential run tells it, and the order is
   that in which the lock was taken. A reader without the lock therefore sees a state of that run.
   */
  lemma {:induction false} Serializable(mac: Mac, states: seq<Shared>, steps: seq<Step>, n: nat)
    requires IsRun(mac, states, steps) && n < |states|
    ensures Serial(mac, states[n])
  {
    if n > 0 {
      Serializable(mac, states, steps, n - 1);
      SerialStep(mac, states[n - 1], steps[n - 1]);
    }
  }

  /** What the process inside can do next, and that it comes out: load, work, save or give up, and unlock. */
  lemma Progress(mac: Mac, states: seq<Shared>, steps: seq<Step>, n: nat, p: Pid)
    requires IsRun(mac, states, steps) && n < |states| && p in states[n].procs
    ensures match states[n].procs[p]
            case Locked(_) => Enabled(states[n], Load(p)) && Apply(mac, states[n], Load(p)).procs[p].Loaded?
            case Loaded(_, _) => Enabled(states[n], Work(p)) && Apply(mac, states[n], Work(p)).procs[p].Worked?
            case Worked(_, _, reply) =>
              if reply.Refused? then Enabled(states[n], Unlock(p))
              else Enabled(states[n], Save(p)) && Apply(mac, states[n], Save(p)).procs[p] == Answered(reply)
            case Answered(_) => Enabled(states[n], Unlock(p))
    ensures Enabled(states[n], Unlock(p)) ==>
              Apply(mac, states[n], Unlock(p)).holder == None && p !in Apply(mac, states[n], Unlock(p)).procs
  {
  }

  /** The lock is there for the next process exactly when nobody is inside. */
  lemma LockFreeWhenEmpty(mac: Mac, states: seq<Shared>, steps: seq<Step>, n: nat, p: Pid, op: Op)
    requires IsRun(mac, states, steps) && n < |states|
    ensures Enabled(states[n], Lock(p, op)) <==> states[n].procs == map[]
  {
    Serializable(mac, states, steps, n);
  }

  /** How many processes were told their mint succeeded. */
  function MintsTold(replies: seq<Reply>): (n: nat)
  {
    if replies == [] then 0 else MintsTold(replies[..|replies| - 1]) + (if replies[|replies| - 1].Minted? then 1 else 0)
  }

  lemma {:induction false} MintsCounted(mac: Mac, turns: seq<Turn>, replies: seq<Reply>, n: nat)
    requires n <= |turns| == |replies| && forall i | 0 <= i < |turns| :: replies[i] == Answer(mac, turns, i)
    ensures MintCount(mac, turns, n) == MintsTold(replies[..n])
  {
    if n > 0 {
      MintsCounted(mac, turns, replies, n - 1);
      assert replies[..n][..n - 1] == replies[..n - 1];
    }
  }

  /** No mint is lost: there are as many records on file as mints were told they succeeded. */
  lemma NoMintLost(mac: Mac, states: seq<Shared>, steps: seq<Step>, n: nat)
    requires IsRun(mac, states, steps) && n < |states|
    ensures |states[n].file| == MintsTold(states[n].replies)
  {
    Serializable(mac, states, steps, n);
    var turns, replies := states[n].turns, states[n].replies;
    OneRecordPerMint(mac, turns, |turns|);
    MintsCounted(mac, turns, replies, |turns|);
    assert turns[..|turns|] == turns && replies[..|turns|] == replies;
  }

  /** Any number of processes may race to redeem a token: at most one of them is told it succeeded. */
  lemma OneRedeemWins(mac: Mac, states: seq<Shared>, steps: seq<Step>, n: nat, i: nat, j: nat)
    requires IsRun(mac, states, steps) && n < |states|
    requires i < |states[n].turns| && j < |states[n].turns| && i < |states[n].replies| && j < |states[n].replies|
    requires states[n].turns[i].op.Redeem? && states[n].turns[j].op.Redeem?
    requires states[n].turns[i].op.tokenId == states[n].turns[j].op.tokenId
    requires states[n].replies[i].Redeemed? && states[n].replies[j].Redeemed?
    ensures i == j
  {
    Serializable(mac, states, steps, n);
    RedeemedOnce(mac, states[n].turns, i, j, states[n].turns[i].op.tokenId);
  }
}
