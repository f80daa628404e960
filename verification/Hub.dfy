/**
 The token store, the registry and the roster stepped together, as connection tasks and the control channel
 drive them (src/wire/connection.rs:250-394, src/wire/control.rs:573-582).

 A task verifies its credential, and registers later; a certain close marks the token's rows after the
 cleanup; a revoke removes the token's entry, and marks its rows after that. The state carries the history
 of each part.
 */
module Hub {
  import opened Prelude
  import opened RegistryTable
  import opened RegistryTheorems
  import R = RegistryProtocol
  import I = RegistryInvariants
  import O = Roster
  import B = RosterRuns
  import S = TokenStore
  import T = TokenRuns

  datatype Server = Server(
    regs: seq<R.State>, acts: seq<R.Action>, board: seq<B.Stamped>, turns: seq<T.Turn>, logins: map<ConnId, nat>)

  /** `Store` is any process at the token store; `Present` is what a client's frames do to the roster. */
  datatype Step =
    | Store(turn: T.Turn)
    | Login(c: ConnId, verify: S.Op)
    | Registry(a: R.Action)
    | Present(c: ConnId, op: O.Op, now: nat)
    | Sweep(now: nat)
    | CertainClose(c: ConnId, now: nat)
    | RevokeMark(t: TokenId, now: nat)

  function Initial(): (s: Server)
  {
    Server([R.Initial()], [], [], [], map[])
  }

  /** The registry as it is. */
  function Current(s: Server): (r: R.State)
    requires |s.regs| == |s.acts| + 1
  {
    s.regs[|s.acts|]
  }

  predicate OwnFrame(op: O.Op, t: TokenId)
  {
    match op
    case Advertise(_, _, tokenId, _, _, _) => tokenId == t
    case Touch(tokenId) => tokenId == t
    case SetBlocked(_, _) => true
    case _ => false
  }

  /** A connection registers under the token it verified, and speaks for no other. */
  predicate Enabled(mac: S.Mac, s: Server, step: Step)
  {
    && |s.regs| == |s.acts| + 1
    && match step
       case Store(_) => true
       case Login(c, op) =>
         c !in s.logins && op.Verify? && S.Execute(mac, T.After(mac, s.turns), op).1.Verified?
       case Registry(a) =>
         && R.Enabled(Current(s), a)
         && (a.Connect? ==>
               && a.c in s.logins && s.logins[a.c] < |s.turns|
               && s.turns[s.logins[a.c]].op.tokenId == a.token)
       case Present(c, op, _) => R.TaskIs(Current(s), c, R.Running) && OwnFrame(op, Current(s).conns[c].token)
       case Sweep(_) => true
       case CertainClose(c, _) => R.TaskIs(Current(s), c, R.Removed)
       case RevokeMark(t, _) => R.Revoke(t) in s.acts
  }

  function Apply(mac: S.Mac, s: Server, step: Step): (s': Server)
    requires Enabled(mac, s, step)
  {
    match step
    case Store(turn) => s.(turns := s.turns + [turn])
    case Login(c, op) => s.(turns := s.turns + [T.Turn(op, false)], logins := s.logins[c := |s.turns|])
    case Registry(a) => s.(regs := s.regs + [R.Apply(Current(s), a)], acts := s.acts + [a])
    case Present(_, op, now) => s.(board := s.board + [B.At(op, now)])
    case Sweep(now) => s.(board := s.board + [B.At(O.Prune, now)])
    case CertainClose(c, now) => s.(board := s.board + [B.At(O.MarkGone(Current(s).conns[c].token), now)])
    case RevokeMark(t, now) => s.(board := s.board + [B.At(O.MarkGone(t), now)])
  }

  ghost predicate IsRun(mac: S.Mac, states: seq<Server>, steps: seq<Step>)
  {
    && |states| == |steps| + 1
    && states[0] == Initial()
    && forall i | 0 <= i < |steps| ::
         Enabled(mac, states[i], steps[i]) && states[i + 1] == Apply(mac, states[i], steps[i])
  }

  // ----- What every step keeps -----

  /** A connection of the token has cleaned up, or the token was revoked. */
  ghost predicate Cause(regs: seq<R.State>, acts: seq<R.Action>, t: TokenId)
  {
    exists i :: 0 <= i < |acts| && i < |regs| && Ends(regs[i], acts[i], t)
  }

  predicate Ends(s: R.State, a: R.Action, t: TokenId)
  {
    a == R.Revoke(t) || (a.Cleanup? && a.c in s.conns && s.conns[a.c].token == t)
  }

  /** A login is a turn at the store that succeeded. */
  ghost predicate LoginOk(mac: S.Mac, s: Server, c: ConnId)
    requires c in s.logins
  {
    s.logins[c] < |s.turns| && T.VerifiedAt(mac, s.turns, s.logins[c], s.turns[s.logins[c]].op.tokenId)
  }

  ghost predicate ConnectOk(s: Server, k: nat)
    requires k < |s.acts|
  {
    s.acts[k].Connect? ==>
      && s.acts[k].c in s.logins && s.logins[s.acts[k].c] < |s.turns|
      && s.turns[s.logins[s.acts[k].c]].op.tokenId == s.acts[k].token
  }

  /** A task that is past its cleanup has cleaned up. */
  ghost predicate CleanedOk(s: Server)
    requires |s.regs| == |s.acts| + 1
  {
    forall c | c in Current(s).conns &&
      (Current(s).conns[c].task == R.Removed || Current(s).conns[c].task == R.Ended) ::
      Cause(s.regs, s.acts, Current(s).conns[c].token)
  }

  ghost predicate MarksOk(s: Server)
  {
    forall b <- s.board | b.op.MarkGone? :: Cause(s.regs, s.acts, b.op.tokenId)
  }

  ghost predicate HubOk(mac: S.Mac, s: Server)
  {
    && R.IsRun(s.regs, s.acts)
    && (forall c <- s.logins :: LoginOk(mac, s, c))
    && (forall k: nat | k < |s.acts| :: ConnectOk(s, k))
    && CleanedOk(s) && MarksOk(s)
  }

  lemma CauseGrows(regs: seq<R.State>, acts: seq<R.Action>, r: R.State, a: R.Action, t: TokenId)
    requires |regs| == |acts| + 1
    ensures Cause(regs, acts, t) || Ends(regs[|acts|], a, t) ==> Cause(regs + [r], acts + [a], t)
  {
    if Cause(regs, acts, t) {
      var i :| 0 <= i < |acts| && i < |regs| && Ends(regs[i], acts[i], t);
      assert Ends((regs + [r])[i], (acts + [a])[i], t);
    } else if Ends(regs[|acts|], a, t) {
      assert Ends((regs + [r])[|acts|], (acts + [a])[|acts|], t);
    }
  }

  lemma TurnsKeepLogins(mac: S.Mac, s: Server, turn: T.Turn, c: ConnId)
    requires c in s.logins && LoginOk(mac, s, c)
    ensures LoginOk(mac, s.(turns := s.turns + [turn]), c)
  {
    var l := s.logins[c];
    assert (s.turns + [turn])[..l] == s.turns[..l];
  }

  lemma LoginCounts(mac: S.Mac, s: Server, c: ConnId, op: S.Op)
    requires Enabled(mac, s, Login(c, op))
    ensures LoginOk(mac, Apply(mac, s, Login(c, op)), c)
  {
    var s' := Apply(mac, s, Login(c, op));
    assert s'.turns[..|s.turns|] == s.turns;
  }

  /** What the registry has been through bears out what it is, whatever the store and the roster do. */
  lemma CleanedSame(s: Server, s': Server)
    requires |s.regs| == |s.acts| + 1 && CleanedOk(s) && s'.regs == s.regs && s'.acts == s.acts
    ensures CleanedOk(s')
  {
    assert Current(s') == Current(s);
  }

  lemma HubStore(mac: S.Mac, s: Server, step: Step)
    requires HubOk(mac, s) && Enabled(mac, s, step) && (step.Store? || step.Login?)
    ensures HubOk(mac, Apply(mac, s, step))
  {
    var s' := Apply(mac, s, step);
    CleanedSame(s, s');
    forall c <- s'.logins ensures LoginOk(mac, s', c) {
      if c in s.logins {
        TurnsKeepLogins(mac, s, s'.turns[|s.turns|], c);
      } else {
        LoginCounts(mac, s, c, step.verify);
      }
    }
    forall k: nat | k < |s'.acts| ensures ConnectOk(s', k) { assert ConnectOk(s, k); }
  }

  lemma HubBoard(mac: S.Mac, s: Server, step: Step)
    requires HubOk(mac, s) && Enabled(mac, s, step) &&
             (step.Present? || step.Sweep? || step.CertainClose? || step.RevokeMark?)
    ensures HubOk(mac, Apply(mac, s, step))
  {
    var s' := Apply(mac, s, step);
    CleanedSame(s, s');
    forall c <- s'.logins ensures LoginOk(mac, s', c) { assert LoginOk(mac, s, c); }
    forall k: nat | k < |s'.acts| ensures ConnectOk(s', k) { assert ConnectOk(s, k); }
    if step.RevokeMark? {
      var i :| 0 <= i < |s.acts| && s.acts[i] == R.Revoke(step.t);
      assert Ends(s.regs[i], s.acts[i], step.t);
    }
  }

  /** A task that comes to be past its cleanup does so by cleaning up. */
  lemma RemovedByCleanup(s: R.State, a: R.Action, c: ConnId)
    requires R.Enabled(s, a) && c in R.Apply(s, a).conns
    requires R.Apply(s, a).conns[c].task == R.Removed || R.Apply(s, a).conns[c].task == R.Ended
    ensures c in s.conns && s.conns[c].token == R.Apply(s, a).conns[c].token
    ensures s.conns[c].task == R.Removed || s.conns[c].task == R.Ended || a == R.Cleanup(c)
  {
    if I.OnCall(a) { I.CallsKeepShape(s, a); }
  }

  lemma CleanedStep(s: Server, a: R.Action, s': Server)
    requires |s.regs| == |s.acts| + 1 && CleanedOk(s) && R.Enabled(Current(s), a)
    requires s'.regs == s.regs + [R.Apply(Current(s), a)] && s'.acts == s.acts + [a]
    ensures CleanedOk(s')
  {
    var now := R.Apply(Current(s), a);
    assert Current(s') == now;
    forall c | c in now.conns && (now.conns[c].task == R.Removed || now.conns[c].task == R.Ended)
      ensures Cause(s'.regs, s'.acts, now.conns[c].token)
    {
      RemovedByCleanup(Current(s), a, c);
      CauseGrows(s.regs, s.acts, now, a, now.conns[c].token);
    }
  }

  lemma RunGrows(regs: seq<R.State>, acts: seq<R.Action>, a: R.Action)
    requires R.IsRun(regs, acts) && R.Enabled(regs[|acts|], a)
    ensures R.IsRun(regs + [R.Apply(regs[|acts|], a)], acts + [a])
  {
  }

  lemma HubRegistry(mac: S.Mac, s: Server, a: R.Action)
    requires HubOk(mac, s) && Enabled(mac, s, Registry(a))
    ensures HubOk(mac, Apply(mac, s, Registry(a)))
  {
    var s' := Apply(mac, s, Registry(a));
    RunGrows(s.regs, s.acts, a);
    CleanedStep(s, a, s');
    forall c <- s'.logins ensures LoginOk(mac, s', c) { assert LoginOk(mac, s, c); }
    forall k: nat | k < |s'.acts| ensures ConnectOk(s', k) { assert k < |s.acts| ==> ConnectOk(s, k); }
    forall b <- s'.board | b.op.MarkGone? ensures Cause(s'.regs, s'.acts, b.op.tokenId) {
      CauseGrows(s.regs, s.acts, R.Apply(Current(s), a), a, b.op.tokenId);
    }
  }

  lemma {:induction false} HubRun(mac: S.Mac, states: seq<Server>, steps: seq<Step>, n: nat)
    requires IsRun(mac, states, steps) && n < |states|
    ensures HubOk(mac, states[n])
  {
    if n > 0 {
      HubRun(mac, states, steps, n - 1);
      HubAt(mac, states[n - 1], steps[n - 1], states[n]);
    }
  }

  lemma HubAt(mac: S.Mac, s: Server, step: Step, s': Server)
    requires HubOk(mac, s) && Enabled(mac, s, step) && s' == Apply(mac, s, step)
    ensures HubOk(mac, s')
  {
    match step {
      case Store(_) => HubStore(mac, s, step);
      case Login(_, _) => HubStore(mac, s, step);
      case Registry(a) => HubRegistry(mac, s, a);
      case _ => HubBoard(mac, s, step);
    }
  }

  // ----- Revocation -----

  predicate Connects(a: R.Action, t: TokenId)
  {
    a.Connect? && a.token == t
  }

  /** After a revoke, the token is registered again exactly if a connection of it is made after. */
  lemma RevokedUntilConnected(regs: seq<R.State>, acts: seq<R.Action>, r: nat, t: TokenId)
    requires R.IsRun(regs, acts) && r < |acts| && acts[r] == R.Revoke(t)
    ensures (forall n | r < n < |regs| :: t !in regs[n].entries) <==> forall k | r < k < |acts| :: !Connects(acts[k], t)
  {
    if k :| r < k < |acts| && Connects(acts[k], t) {
      assert regs[k + 1] == R.DoConnect(regs[k], acts[k].c, t, acts[k].clientId, acts[k].hostname);
      assert t in regs[k + 1].entries;
    } else {
      forall n | r < n < |regs| ensures t !in regs[n].entries {
        RegisteredIffSeated(regs, acts, n, t);
        assert Unseats(regs[r], acts[r], t);
      }
    }
  }

  /**
   Exactly when a delete and a revoke of a token leave no session of it: no connection of the token is
   registered from the revoke on if and only if none registers after it; and any that does, has verified
   its credential before the delete.
   */
  lemma DeletedAndRevoked(mac: S.Mac, states: seq<Server>, steps: seq<Step>, n: nat, d: nat, r: nat, t: TokenId)
    requires IsRun(mac, states, steps) && n < |states|
    requires T.DeletedAt(mac, states[n].turns, d, t) && r < |states[n].acts| && states[n].acts[r] == R.Revoke(t)
    ensures var regs, acts := states[n].regs, states[n].acts;
            (forall m | r < m < |regs| :: t !in regs[m].entries) <==> forall k | r < k < |acts| :: !Connects(acts[k], t)
    ensures forall k | 0 <= k < |states[n].acts| && Connects(states[n].acts[k], t) ::
              states[n].acts[k].c in states[n].logins && states[n].logins[states[n].acts[k].c] < d
  {
    HubRun(mac, states, steps, n);
    var s := states[n];
    RevokedUntilConnected(s.regs, s.acts, r, t);
    forall k | 0 <= k < |s.acts| && Connects(s.acts[k], t) ensures s.acts[k].c in s.logins &&
      s.logins[s.acts[k].c] < d {
      assert ConnectOk(s, k);
      LoginBeforeDelete(mac, s, s.acts[k].c, d, t);
    }
  }

  lemma LoginBeforeDelete(mac: S.Mac, s: Server, c: ConnId, d: nat, t: TokenId)
    requires c in s.logins && LoginOk(mac, s, c) && s.turns[s.logins[c]].op.tokenId == t
    requires T.DeletedAt(mac, s.turns, d, t)
    ensures s.logins[c] < d
  {
    if d < s.logins[c] { T.DeletedForGood(mac, s.turns, d, s.logins[c], t); }
  }

  // ----- Routing -----

  /** A `say` for `name` at this clock reaches connection `c` of token `t`. */
  predicate Reaches(cfg: O.Config, s: Server, name: O.Name, now: nat, c: ConnId, t: TokenId)
    requires |s.regs| == |s.acts| + 1
  {
    O.Resolve(cfg, B.After(cfg, s.board), name, now) == Some(t) && I.RegisteredConn(Current(s), c)
  }

  /**
   Exactly when a session whose client keeps beating is reached on the connection made at step `k`: when
   nothing has unseated that connection, and no close or revoke has marked the token's rows since the name
   was last advertised. Neither follows from the connection being alive and the newest; and every mark has
   its cause in a cleanup of some connection of the token, or a revoke.
   */
  lemma ReachedIff(
    mac: S.Mac, cfg: O.Config, states: seq<Server>, steps: seq<Step>, n: nat, k: nat, i: nat, name: O.Name, now: nat)
    requires IsRun(mac, states, steps) && n < |states| && k < |states[n].acts| && states[n].acts[k].Connect?
    requires var board, t := states[n].board, states[n].acts[k].token;
             && i <= |board| && name in B.After(cfg, board[..i])
             && B.Beats(B.After(cfg, board[..i]), name, t, B.After(cfg, board[..i])[name].lastSeen)
             && B.KeepsBeating(cfg, board, i, |board|, name, t)
             && B.WithinBeat(cfg, B.LastBeat(cfg, board, i, |board|, name, t), now)
    ensures |states[n].regs| == |states[n].acts| + 1
    ensures var s, c, t := states[n], states[n].acts[k].c, states[n].acts[k].token;
            && (Reaches(cfg, s, name, now, c, t) <==>
                  && Undisturbed(s.regs, s.acts, k + 1, |s.acts|, t)
                  && !B.MarkedSince(cfg, s.board, i, |s.board|, name, t))
            && (B.MarkedSince(cfg, s.board, i, |s.board|, name, t) ==> Cause(s.regs, s.acts, t))
  {
    HubRun(mac, states, steps, n);
    var s, t := states[n], states[n].acts[k].token;
    assert s.board[..|s.board|] == s.board;
    B.BeatingResolvesIff(cfg, s.board, i, |s.board|, name, t, now);
    RegisteredUntilUnseated(s.regs, s.acts, k, |s.acts|);
    if B.MarkedSince(cfg, s.board, i, |s.board|, name, t) {
      var m := MarkedAt(cfg, s.board, i, |s.board|, name, t);
      assert s.board[m] in s.board;
    }
  }

  lemma {:induction false} MarkedAt(cfg: O.Config, board: seq<B.Stamped>, i: nat, n: nat, name: O.Name, t: TokenId)
    returns (m: nat)
    requires i <= n <= |board| && name in B.After(cfg, board[..i]) && B.MarkedSince(cfg, board, i, n, name, t)
    ensures m < n && board[m].op == O.MarkGone(t)
  {
    if board[n - 1].op == O.MarkGone(t) {
      m := n - 1;
    } else {
      m := MarkedAt(cfg, board, i, n - 1, name, t);
    }
  }
}
