/**
 The cap on unauthenticated connections: `accept_loop` takes a permit for each accepted socket, and
 `handle_connection` gives it back when `auth` succeeds or when it returns, whichever comes first
 (src/wire/mod.rs:264-290, src/wire/connection.rs:159-291). Tasks step in any order.
 */
module Admission {
  type ConnId = nat

  /** What the wait for the first frame came to. */
  datatype First = NoFrame | TooLate | Undecodable | Join | Auth(isString: bool) | AnotherType

  datatype Exit =
    | Refused | LockedOut | HandshakeFailed | NothingSent | TimedOut | BadFrame | JoinAnswered | NotAuth | BadCredential
    | AuthFailed | HelloFailed | SessionEnded

  datatype Stage =
    | Accepted | Handshaking | Reading | Joining | Verifying | Verified | Live
    | Gone(exit: Exit)

  /** The counting semaphore `unauth_slots`: its free slots, and the connections whose task owns a permit. */
  datatype Pool = Pool(available: int, permits: set<ConnId>)

  function Full(cap: nat): (p: Pool)
  {
    Pool(cap, {})
  }

  function Grant(p: Pool, c: ConnId): (p': Pool)
  {
    if p.available > 0 then Pool(p.available - 1, p.permits + {c}) else p
  }

  /** The permit is handed back, if the task still owns it. */
  function GiveBack(p: Pool, c: ConnId): (p': Pool)
  {
    if c in p.permits then Pool(p.available + 1, p.permits - {c}) else p
  }

  /** The semaphore as an object, and the two that use it. */
  class Slots {
    var available: nat
    var owners: set<ConnId>

    ghost function Value(): (p: Pool)
      reads this
    {
      Pool(available, owners)
    }

    constructor (cap: nat)
      ensures Value() == Full(cap)
    {
      available, owners := cap, {};
    }

    method TryAcquire(c: ConnId) returns (granted: bool)
      requires c !in owners
      modifies this
      ensures granted <==> old(available) > 0
      ensures Value() == Grant(old(Value()), c)
      ensures available + |owners| == old(available) + |old(owners)|
    {
      granted := available > 0;
      if granted {
        available, owners := available - 1, owners + {c};
      }
    }

    /** Dropping a permit: nothing happens if it is gone already. */
    method Drop(c: ConnId)
      modifies this
      ensures Value() == GiveBack(old(Value()), c)
      ensures available + |owners| == old(available) + |old(owners)|
    {
      if c in owners {
        available, owners := available + 1, owners - {c};
      }
    }

    /**
     `handle_connection` from beginning to end, with what it meets on the way as parameters. However
     it returns, its one permit is back; and it is a session only after a verified `auth`.
     */
    method HandleConnection(c: ConnId, locked: bool, handshake: bool, first: First, verified: bool, hello: bool)
      returns (exit: Exit)
      requires c in owners
      modifies this
      ensures Value() == GiveBack(old(Value()), c) && available == old(available) + 1
      ensures exit == SessionEnded || exit == HelloFailed <==> !locked && handshake && first == Auth(true) && verified
      ensures exit == SessionEnded ==> hello
      ensures exit != Refused
    {
      exit := HandleFirst(c, locked, handshake, first, verified);
      if exit == SessionEnded && !hello {
        exit := HelloFailed;
      }
      Drop(c);
    }

    /** The part before the session: a permit dropped here was dropped because `auth` succeeded. */
    method HandleFirst(c: ConnId, locked: bool, handshake: bool, first: First, verified: bool) returns (exit: Exit)
      requires c in owners
      modifies this
      ensures exit != Refused && exit != HelloFailed
      ensures locked ==> exit == LockedOut
      ensures !locked && !handshake ==> exit == HandshakeFailed
      ensures !locked && handshake ==>
                match first
                case NoFrame => exit == NothingSent
                case TooLate => exit == TimedOut
                case Undecodable => exit == BadFrame
                case Join => exit == JoinAnswered
                case AnotherType => exit == NotAuth
                case Auth(isString) => if !isString then exit == BadCredential else !verified ==> exit == AuthFailed
      ensures exit == SessionEnded <==> !locked && handshake && first == Auth(true) && verified
      ensures Value() == if exit == SessionEnded then GiveBack(old(Value()), c) else old(Value())
    {
      if locked {
        return LockedOut;
      }
      if !handshake {
        return HandshakeFailed;
      }
      match first {
        case NoFrame => return NothingSent;
        case TooLate => return TimedOut;
        case Undecodable => return BadFrame;
        case Join => return JoinAnswered;
        case AnotherType => return NotAuth;
        case Auth(isString) =>
          if !isString {
            return BadCredential;
          }
      }
      if !verified {
        return AuthFailed;
      }
      Drop(c);
      return SessionEnded;
    }
  }

  datatype State = State(pool: Pool, stages: map<ConnId, Stage>)

  datatype Step =
    | Accept(c: ConnId)
    | CheckLockout(c: ConnId, locked: bool)
    | Handshake(c: ConnId, ok: bool)
    | ReadFirst(c: ConnId, first: First)
    | AnswerJoin(c: ConnId)
    | Verify(c: ConnId, ok: bool)
    | DropPermit(c: ConnId)
    | Leave(c: ConnId, hello: bool)

  predicate At(s: State, c: ConnId, stage: Stage)
  {
    c in s.stages && s.stages[c] == stage
  }

  predicate Enabled(s: State, step: Step)
  {
    match step
    case Accept(c) => c !in s.stages
    case CheckLockout(c, _) => At(s, c, Accepted)
    case Handshake(c, _) => At(s, c, Handshaking)
    case ReadFirst(c, _) => At(s, c, Reading)
    case AnswerJoin(c) => At(s, c, Joining)
    case Verify(c, _) => At(s, c, Verifying)
    case DropPermit(c) => At(s, c, Verified)
    case Leave(c, _) => At(s, c, Live)
  }

  function Go(s: State, c: ConnId, stage: Stage): (s': State)
  {
    s.(stages := s.stages[c := stage])
  }

  /** The task drops its permit, if it still owns it, and is in this stage. */
  function Settle(s: State, c: ConnId, stage: Stage): (s': State)
  {
    Go(s.(pool := GiveBack(s.pool, c)), c, stage)
  }

  /** The task returns: whatever it still owns is dropped. */
  function Return(s: State, c: ConnId, exit: Exit): (s': State)
  {
    Settle(s, c, Gone(exit))
  }

  function AfterFirst(s: State, c: ConnId, first: First): (s': State)
  {
    match first
    case NoFrame => Return(s, c, NothingSent)
    case TooLate => Return(s, c, TimedOut)
    case Undecodable => Return(s, c, BadFrame)
    case Join => Go(s, c, Joining)
    case Auth(isString) => if isString then Go(s, c, Verifying) else Return(s, c, BadCredential)
    case AnotherType => Return(s, c, NotAuth)
  }

  function Apply(s: State, step: Step): (s': State)
    requires Enabled(s, step)
  {
    match step
    case Accept(c) =>
      Go(s.(pool := Grant(s.pool, c)), c, if s.pool.available > 0 then Accepted else Gone(Refused))
    case CheckLockout(c, locked) => if locked then Return(s, c, LockedOut) else Go(s, c, Handshaking)
    case Handshake(c, ok) => if ok then Go(s, c, Reading) else Return(s, c, HandshakeFailed)
    case ReadFirst(c, first) => AfterFirst(s, c, first)
    case AnswerJoin(c) => Return(s, c, JoinAnswered)
    case Verify(c, ok) => if ok then Go(s, c, Verified) else Return(s, c, AuthFailed)
    case DropPermit(c) => Settle(s, c, Live)
    case Leave(c, hello) => Return(s, c, if hello then SessionEnded else HelloFailed)
  }

  ghost predicate IsRun(cap: nat, states: seq<State>, steps: seq<Step>)
  {
    && |states| == |steps| + 1
    && states[0] == State(Full(cap), map[])
    && forall i | 0 <= i < |steps| :: Enabled(states[i], steps[i]) && states[i + 1] == Apply(states[i], steps[i])
  }

  /** Accepted, and neither authenticated nor gone. */
  predicate Unauthenticated(s: State, c: ConnId)
  {
    c in s.stages && !s.stages[c].Live? && !s.stages[c].Gone?
  }

  ghost predicate Inv(cap: nat, s: State)
  {
    && s.pool.available >= 0
    && s.pool.available + |s.pool.permits| == cap
    && forall c :: c in s.pool.permits <==> Unauthenticated(s, c)
  }

  /** A task that gives back what it owns and settles in a stage without a permit keeps the books. */
  lemma InvGiveBack(cap: nat, s: State, c: ConnId, stage: Stage)
    requires Inv(cap, s) && (stage.Live? || stage.Gone?)
    ensures Inv(cap, Settle(s, c, stage))
  {
    var s' := Settle(s, c, stage);
    assert s'.pool.permits == s.pool.permits - {c};
    assert forall d | d != c :: Unauthenticated(s', d) <==> Unauthenticated(s, d);
  }

  /** So does one that moves on with its permit. */
  lemma InvGo(cap: nat, s: State, c: ConnId, stage: Stage)
    requires Inv(cap, s) && Unauthenticated(s, c) && !stage.Live? && !stage.Gone?
    ensures Inv(cap, Go(s, c, stage))
  {
    var s' := Go(s, c, stage);
    assert forall d | d != c :: Unauthenticated(s', d) <==> Unauthenticated(s, d);
  }

  lemma InvAccept(cap: nat, s: State, c: ConnId)
    requires Inv(cap, s) && c !in s.stages
    ensures Inv(cap, Apply(s, Accept(c)))
  {
    var s' := Apply(s, Accept(c));
    assert c !in s.pool.permits;
    assert forall d | d != c :: Unauthenticated(s', d) <==> Unauthenticated(s, d);
  }

  /** Every step but an accept is one of the two. */
  lemma StepShape(s: State, step: Step)
    requires Enabled(s, step) && !step.Accept?
    ensures var c, s' := step.c, Apply(s, step);
            && c in s'.stages
            && if s'.stages[c].Live? || s'.stages[c].Gone? then s' == Settle(s, c, s'.stages[c])
               else Unauthenticated(s, c) && s' == Go(s, c, s'.stages[c])
  {
  }

  lemma InvStep(cap: nat, s: State, step: Step)
    requires Inv(cap, s) && Enabled(s, step)
    ensures Inv(cap, Apply(s, step))
  {
    if step.Accept? {
      InvAccept(cap, s, step.c);
    } else {
      StepShape(s, step);
      var stage := Apply(s, step).stages[step.c];
      if stage.Live? || stage.Gone? {
        InvGiveBack(cap, s, step.c, stage);
      } else {
        InvGo(cap, s, step.c, stage);
      }
    }
  }

  lemma {:induction false} InvRun(cap: nat, states: seq<State>, steps: seq<Step>, n: nat)
    requires IsRun(cap, states, steps) && n < |states|
    ensures Inv(cap, states[n])
  {
    if n > 0 {
      InvRun(cap, states, steps, n - 1);
      InvStep(cap, states[n - 1], steps[n - 1]);
    }
  }

  /** Free slots and permits in hand always add up to the cap. */
  lemma PermitsConserved(cap: nat, states: seq<State>, steps: seq<Step>, n: nat)
    requires IsRun(cap, states, steps) && n < |states|
    ensures 0 <= states[n].pool.available && states[n].pool.available + |states[n].pool.permits| == cap
  {
    InvRun(cap, states, steps, n);
  }

  /** A permit is held exactly from the accept until `auth` succeeds or the task ends, by whichever exit. */
  lemma HeldUntilAuthenticated(cap: nat, states: seq<State>, steps: seq<Step>, n: nat, c: ConnId)
    requires IsRun(cap, states, steps) && n < |states|
    ensures c in states[n].pool.permits <==> Unauthenticated(states[n], c)
  {
    InvRun(cap, states, steps, n);
  }

  ghost function Newcomers(s: State): (cs: set<ConnId>)
  {
    set c | c in s.stages && Unauthenticated(s, c)
  }

  /**
   Unauthenticated connections never exceed the cap, and a socket is turned away exactly when they
   have reached it: live sessions take up no room.
   */
  lemma CapHolds(cap: nat, states: seq<State>, steps: seq<Step>, n: nat, c: ConnId)
    requires IsRun(cap, states, steps) && n < |states|
    ensures |Newcomers(states[n])| <= cap
    ensures c !in states[n].stages ==>
              (Apply(states[n], Accept(c)).stages[c] == Gone(Refused) <==> |Newcomers(states[n])| == cap)
  {
    InvRun(cap, states, steps, n);
    assert Newcomers(states[n]) == states[n].pool.permits;
  }

  lemma StageStep(s: State, step: Step, c: ConnId)
    requires Enabled(s, step) && c in s.stages
    ensures c in Apply(s, step).stages
    ensures !Unauthenticated(s, c) ==> !Unauthenticated(Apply(s, step), c)
    ensures At(Apply(s, step), c, Live) ==> At(s, c, Live) || (step == DropPermit(c) && At(s, c, Verified))
    ensures At(Apply(s, step), c, Verified) ==> At(s, c, Verified) || step == Verify(c, true)
  {
  }

  lemma StageAt(cap: nat, states: seq<State>, steps: seq<Step>, n: nat, c: ConnId)
    requires IsRun(cap, states, steps) && n < |steps| && c in states[n].stages && !Unauthenticated(states[n], c)
    ensures c in states[n + 1].stages && !Unauthenticated(states[n + 1], c)
  {
    StageStep(states[n], steps[n], c);
  }

  lemma {:induction false} SettledForGood(cap: nat, states: seq<State>, steps: seq<Step>, m: nat, n: nat, c: ConnId)
    requires IsRun(cap, states, steps) && m <= n < |states| && c in states[m].stages && !Unauthenticated(states[m], c)
    ensures c in states[n].stages && !Unauthenticated(states[n], c)
    decreases n - m
  {
    if m < n {
      StageAt(cap, states, steps, m, c);
      SettledForGood(cap, states, steps, m + 1, n, c);
    }
  }

  /** A permit given back is never taken again by the same connection. */
  lemma GivenBackForGood(cap: nat, states: seq<State>, steps: seq<Step>, m: nat, n: nat, c: ConnId)
    requires IsRun(cap, states, steps) && m <= n < |states| && c in states[m].stages && c !in states[m].pool.permits
    ensures c in states[n].stages && c !in states[n].pool.permits
  {
    HeldUntilAuthenticated(cap, states, steps, m, c);
    HeldUntilAuthenticated(cap, states, steps, n, c);
    SettledForGood(cap, states, steps, m, n, c);
  }

  /** A session is live, or about to be, only if its own credential was verified earlier in the run. */
  lemma {:induction false} LiveWasVerified(cap: nat, states: seq<State>, steps: seq<Step>, n: nat, c: ConnId)
    requires IsRun(cap, states, steps) && n < |states| && (At(states[n], c, Live) || At(states[n], c, Verified))
    ensures exists k: nat :: k < n && steps[k] == Verify(c, true)
  {
    if c in states[n - 1].stages {
      StageStep(states[n - 1], steps[n - 1], c);
      if steps[n - 1] != Verify(c, true) {
        LiveWasVerified(cap, states, steps, n - 1, c);
      }
    }
  }

  // ----- Why a connection is gone -----

  /** What has to happen for each exit. */
  predicate Causes(s: State, step: Step, c: ConnId, e: Exit)
  {
    match e
    case Refused => step == Accept(c) && s.pool.available <= 0
    case LockedOut => step == CheckLockout(c, true)
    case HandshakeFailed => step == Handshake(c, false)
    case NothingSent => step == ReadFirst(c, NoFrame)
    case TimedOut => step == ReadFirst(c, TooLate)
    case BadFrame => step == ReadFirst(c, Undecodable)
    case JoinAnswered => step == AnswerJoin(c)
    case NotAuth => step == ReadFirst(c, AnotherType)
    case BadCredential => step == ReadFirst(c, Auth(false))
    case AuthFailed => step == Verify(c, false)
    case HelloFailed => step == Leave(c, false)
    case SessionEnded => step == Leave(c, true)
  }

  lemma GoneStep(s: State, step: Step, c: ConnId, e: Exit)
    requires Enabled(s, step)
    ensures At(Apply(s, step), c, Gone(e)) <==> At(s, c, Gone(e)) || Causes(s, step, c, e)
  {
  }

  lemma GoneAt(cap: nat, states: seq<State>, steps: seq<Step>, n: nat, c: ConnId, e: Exit)
    requires IsRun(cap, states, steps) && n < |steps|
    ensures At(states[n + 1], c, Gone(e)) <==> At(states[n], c, Gone(e)) || Causes(states[n], steps[n], c, e)
  {
    GoneStep(states[n], steps[n], c, e);
  }

  /**
   Over every run, each way out has its one cause: a socket turned away at the cap, an address locked out, a
   handshake or first frame that failed, a join that was answered, a credential that was refused, a greeting
   that could not be sent, or a session that ended.
   */
  lemma {:induction false} GoneForItsReason(cap: nat, states: seq<State>, steps: seq<Step>, n: nat, c: ConnId, e: Exit)
    requires IsRun(cap, states, steps) && n < |states|
    ensures At(states[n], c, Gone(e)) <==> exists k: nat :: k < n && Causes(states[k], steps[k], c, e)
  {
    if n > 0 {
      GoneForItsReason(cap, states, steps, n - 1, c, e);
      GoneAt(cap, states, steps, n - 1, c, e);
    }
  }

  /** The way in: where each step that goes well leads. */
  lemma WayIn(s: State, step: Step)
    requires Enabled(s, step)
    ensures match step
            case Accept(c) => s.pool.available > 0 ==> At(Apply(s, step), c, Accepted)
            case CheckLockout(c, locked) => !locked ==> At(Apply(s, step), c, Handshaking)
            case Handshake(c, ok) => ok ==> At(Apply(s, step), c, Reading)
            case ReadFirst(c, first) =>
              && (first == Join ==> At(Apply(s, step), c, Joining))
              && (first == Auth(true) ==> At(Apply(s, step), c, Verifying))
            case Verify(c, ok) => ok ==> At(Apply(s, step), c, Verified)
            case DropPermit(c) => At(Apply(s, step), c, Live)
            case _ => true
  {
  }

  /** An address that is locked out gets no further: its connection is gone, and never verifies anything. */
  lemma LockedOutGetsNowhere(cap: nat, states: seq<State>, steps: seq<Step>, k: nat, n: nat, c: ConnId)
    requires IsRun(cap, states, steps) && k < n < |states| && steps[k] == CheckLockout(c, true)
    ensures At(states[n], c, Gone(LockedOut)) && c !in states[n].pool.permits
  {
    assert Causes(states[k], steps[k], c, LockedOut);
    GoneForItsReason(cap, states, steps, n, c, LockedOut);
    HeldUntilAuthenticated(cap, states, steps, n, c);
  }

  // ----- The way in, in order -----

  /** The one step that brings a connection to a stage, and the stage it must come from. */
  predicate Enters(s: State, step: Step, c: ConnId, stage: Stage)
  {
    match stage
    case Accepted => step == Accept(c)
    case Handshaking => step == CheckLockout(c, false) && At(s, c, Accepted)
    case Reading => step == Handshake(c, true) && At(s, c, Handshaking)
    case Joining => step == ReadFirst(c, Join) && At(s, c, Reading)
    case Verifying => step == ReadFirst(c, Auth(true)) && At(s, c, Reading)
    case Verified => step == Verify(c, true) && At(s, c, Verifying)
    case Live => step == DropPermit(c) && At(s, c, Verified)
    case Gone(_) => false
  }

  lemma EntersStep(s: State, step: Step, c: ConnId, stage: Stage)
    requires Enabled(s, step) && At(Apply(s, step), c, stage) && !stage.Gone?
    ensures At(s, c, stage) || Enters(s, step, c, stage)
  {
  }

  lemma {:induction false} EnteredAt(cap: nat, states: seq<State>, steps: seq<Step>, n: nat, c: ConnId, stage: Stage)
    returns (k: nat)
    requires IsRun(cap, states, steps) && n < |states| && At(states[n], c, stage) && !stage.Gone?
    ensures k < n && Enters(states[k], steps[k], c, stage)
  {
    k := n - 1;
    EntersStep(states[k], steps[k], c, stage);
    if At(states[k], c, stage) {
      k := EnteredAt(cap, states, steps, n - 1, c, stage);
    }
  }

  /**
   A live session has been accepted, found not locked out, upgraded, asked for `auth`, verified, and
   released its permit, in that order.
   */
  lemma LiveCameThrough(cap: nat, states: seq<State>, steps: seq<Step>, n: nat, c: ConnId) returns (at: seq<nat>)
    requires IsRun(cap, states, steps) && n < |states| && At(states[n], c, Live)
    ensures |at| == 6 && at[0] < at[1] < at[2] < at[3] < at[4] < at[5] < n
    ensures steps[at[0]] == Accept(c) && steps[at[1]] == CheckLockout(c, false) && steps[at[2]] == Handshake(c, true)
    ensures steps[at[3]] == ReadFirst(c, Auth(true)) && steps[at[4]] == Verify(c, true) && steps[at[5]] == DropPermit(c)
  {
    var dropped := EnteredAt(cap, states, steps, n, c, Live);
    var verified := EnteredAt(cap, states, steps, dropped, c, Verified);
    var read := EnteredAt(cap, states, steps, verified, c, Verifying);
    var upgraded := EnteredAt(cap, states, steps, read, c, Reading);
    var checked := EnteredAt(cap, states, steps, upgraded, c, Handshaking);
    var accepted := EnteredAt(cap, states, steps, checked, c, Accepted);
    at := [accepted, checked, upgraded, read, verified, dropped];
  }

  /** A join is answered only after it was read, by a connection that came the same way. */
  lemma JoinCameThrough(cap: nat, states: seq<State>, steps: seq<Step>, n: nat, c: ConnId) returns (at: seq<nat>)
    requires IsRun(cap, states, steps) && n < |steps| && steps[n] == AnswerJoin(c)
    ensures |at| == 4 && at[0] < at[1] < at[2] < at[3] < n
    ensures steps[at[0]] == Accept(c) && steps[at[1]] == CheckLockout(c, false) && steps[at[2]] == Handshake(c, true)
    ensures steps[at[3]] == ReadFirst(c, Join)
  {
    var read := EnteredAt(cap, states, steps, n, c, Joining);
    var upgraded := EnteredAt(cap, states, steps, read, c, Reading);
    var checked := EnteredAt(cap, states, steps, upgraded, c, Handshaking);
    var accepted := EnteredAt(cap, states, steps, checked, c, Accepted);
    at := [accepted, checked, upgraded, read];
  }
}
