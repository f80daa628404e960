/**
 Two runs of the server: a session of a token that is deleted and revoked, and a live session that
 cannot be reached.
 */
module HubGap {
  import opened Prelude
  import opened Hex
  import opened RegistryTable
  import opened Hub
  import R = RegistryProtocol
  import I = RegistryInvariants
  import O = Roster
  import B = RosterRuns
  import S = TokenStore
  import T = TokenRuns

  // ----- The token's turns -----

  ghost function Pepper(): (p: seq<Byte>)
  {
    [1]
  }

  ghost function Mint(): (op: S.Op)
  {
    S.Mint(Pepper(), "t", "x", None, 0, 10)
  }

  ghost function Redeem(): (op: S.Op)
  {
    S.Redeem(Pepper(), "t", "x", "m", 1, "cli", "k")
  }

  ghost function Verify(): (op: S.Op)
  {
    S.Verify(Pepper(), "t", "k", 2)
  }

  ghost function Delete(): (op: S.Op)
  {
    S.Delete("t", 3)
  }

  ghost function Fresh(mac: S.Mac): (r: S.TokenRecord)
  {
    S.TokenRecord("t", S.HashSecret(mac, Pepper(), "x"), S.Unused, None, None, None, None, 0, Some(10), None)
  }

  ghost function Bound(mac: S.Mac, lastSeen: Option<int>): (r: S.TokenRecord)
  {
    Fresh(mac).(state := S.Bound, machine := Some("m"), clientId := Some("cli"),
                credentialHash := Some(S.HashSecret(mac, Pepper(), "k")), lastSeen := lastSeen)
  }

  lemma Minting(mac: S.Mac)
    ensures S.Execute(mac, [], Mint()) == ([Fresh(mac)], S.Minted("t", 10))
  {
    assert [] + [S.NewRecord(mac, Mint())] == [Fresh(mac)];
  }

  lemma Redeeming(mac: S.Mac)
    ensures S.Execute(mac, [Fresh(mac)], Redeem()) == ([Bound(mac, None)], S.Redeemed("cli", "k"))
  {
    S.VerifyMatches(mac, Pepper(), "x", Pepper(), "x");
    assert [Fresh(mac)][0 := Bound(mac, None)] == [Bound(mac, None)];
  }

  lemma Verifying(mac: S.Mac, lastSeen: Option<int>)
    ensures S.Execute(mac, [Bound(mac, lastSeen)], Verify()) == ([Bound(mac, Some(2))], S.Verified("cli", "m"))
  {
    S.VerifyMatches(mac, Pepper(), "k", Pepper(), "k");
    assert [Bound(mac, lastSeen)][0 := Bound(mac, Some(2))] == [Bound(mac, Some(2))];
  }

  lemma Deleting(mac: S.Mac)
    ensures S.Execute(mac, [Bound(mac, Some(2))], Delete()).1.Deleted?
  {
  }

  /** Minted, redeemed, and verified once. */
  ghost function Enrolled(): (turns: seq<T.Turn>)
  {
    [T.Turn(Mint(), false), T.Turn(Redeem(), false), T.Turn(Verify(), false)]
  }

  lemma EnrolledTurns(mac: S.Mac)
    ensures T.After(mac, Enrolled()[..2]) == [Bound(mac, None)] && T.After(mac, Enrolled()) == [Bound(mac, Some(2))]
  {
    var turns := Enrolled();
    Minting(mac);
    Redeeming(mac);
    Verifying(mac, None);
    assert turns[..0] == [] && turns[..3] == turns;
    T.AfterStep(mac, turns, 0);
    T.AfterStep(mac, turns, 1);
    T.AfterStep(mac, turns, 2);
  }

  // ----- Runs -----

  ghost predicate Leads(mac: S.Mac, s: Server, step: Step, s': Server)
  {
    Enabled(mac, s, step) && s' == Apply(mac, s, step)
  }

  lemma Extend(mac: S.Mac, states: seq<Server>, steps: seq<Step>, step: Step, s: Server)
    returns (states': seq<Server>, steps': seq<Step>)
    requires IsRun(mac, states, steps) && Leads(mac, states[|steps|], step, s)
    ensures IsRun(mac, states', steps') && |steps'| == |steps| + 1 && states'[|steps'|] == s
  {
    states', steps' := states + [s], steps + [step];
    forall i | 0 <= i < |steps'| ensures Leads(mac, states'[i], steps'[i], states'[i + 1]) {
      assert i < |steps| ==> states'[i] == states[i] && steps'[i] == steps[i] && states'[i + 1] == states[i + 1];
    }
  }

  /** Connection 0 has verified its credential, and done no more. */
  ghost function LoggedIn(): (s: Server)
  {
    Server([R.Initial()], [], [], Enrolled(), map[0 := 2])
  }

  lemma LoggingIn(mac: S.Mac) returns (states: seq<Server>, steps: seq<Step>)
    ensures IsRun(mac, states, steps) && states[|steps|] == LoggedIn()
  {
    var turns := Enrolled();
    EnrolledTurns(mac);
    Verifying(mac, None);
    assert [] + [turns[0]] == turns[..1] && turns[..1] + [turns[1]] == turns[..2] && turns[..2] + [turns[2]] == turns;
    var s1, s2 := Initial().(turns := turns[..1]), Initial().(turns := turns[..2]);
    states, steps := Extend(mac, [Initial()], [], Store(turns[0]), s1);
    states, steps := Extend(mac, states, steps, Store(turns[1]), s2);
    states, steps := Extend(mac, states, steps, Login(0, Verify()), LoggedIn());
  }

  // ----- A session of a dead token -----

  lemma DeleteAnswered(mac: S.Mac, turns: seq<T.Turn>)
    requires turns == Enrolled() + [T.Turn(Delete(), false)]
    ensures T.DeletedAt(mac, turns, 3, "t")
  {
    EnrolledTurns(mac);
    Deleting(mac);
    assert turns[..3] == Enrolled();
  }

  /**
   The token is deleted and revoked between a connection's verification and its registration: the session
   of the dead token is registered, and runs.
   */
  lemma DeadTokenRegistered(mac: S.Mac) returns (states: seq<Server>, steps: seq<Step>)
    ensures IsRun(mac, states, steps)
    ensures var s := states[|steps|];
            && T.DeletedAt(mac, s.turns, 3, "t") && |s.acts| == 2 && s.acts[0] == R.Revoke("t")
            && |s.regs| == 3 && "t" in Current(s).entries && R.TaskIs(Current(s), 0, R.Running)
  {
    var turns, a := Enrolled() + [T.Turn(Delete(), false)], R.Connect(0, "t", "cli", "m");
    DeleteAnswered(mac, turns);
    var s1 := LoggedIn().(turns := turns);
    var s2 := s1.(regs := [R.Initial(), R.Initial()], acts := [R.Revoke("t")]);
    assert [R.Initial()] + [R.Initial()] == [R.Initial(), R.Initial()] && [] + [R.Revoke("t")] == [R.Revoke("t")];
    assert turns[2] == T.Turn(Verify(), false);
    states, steps := LoggingIn(mac);
    states, steps := Extend(mac, states, steps, Store(T.Turn(Delete(), false)), s1);
    states, steps := Extend(mac, states, steps, Registry(R.Revoke("t")), s2);
    states, steps := Extend(mac, states, steps, Registry(a), Apply(mac, s2, Registry(a)));
  }

  // ----- A live session that cannot be reached -----

  ghost function First(): (a: R.Action)
  {
    R.Connect(0, "t", "cli", "m")
  }

  ghost function Second(): (a: R.Action)
  {
    R.Connect(1, "t", "cli", "m")
  }

  /** The registry once connection 0 has come and cleaned up. */
  ghost function Left(): (r: R.State)
  {
    R.State(map[], map[], map[0 := R.Conn("t", R.Removed, [], 0)], map[], [])
  }

  lemma ComingAndGoing() returns (regs: seq<R.State>)
    ensures |regs| == 4 && regs[0] == R.Initial() && regs[3] == Left()
    ensures R.Enabled(regs[0], First()) && regs[1] == R.Apply(regs[0], First())
    ensures R.Enabled(regs[1], R.Break(0)) && regs[2] == R.Apply(regs[1], R.Break(0))
    ensures R.Enabled(regs[2], R.Cleanup(0)) && regs[3] == R.Apply(regs[2], R.Cleanup(0))
  {
    var r1 := R.Apply(R.Initial(), First());
    var r2 := R.Apply(r1, R.Break(0));
    var r3 := R.Apply(r2, R.Cleanup(0));
    assert r3.conns == map[0 := R.Conn("t", R.Removed, [], 0)];
    assert r3.entries == map[];
    regs := [R.Initial(), r1, r2, r3];
  }

  /** Connection 0 has come and cleaned up, and is about to mark its rows. */
  ghost function Leaving(regs: seq<R.State>): (s: Server)
    requires |regs| == 4
  {
    LoggedIn().(regs := regs, acts := [First(), R.Break(0), R.Cleanup(0)])
  }

  lemma LeavingRun(mac: S.Mac, regs: seq<R.State>) returns (states: seq<Server>, steps: seq<Step>)
    requires |regs| == 4 && regs[0] == R.Initial()
    requires R.Enabled(regs[0], First()) && regs[1] == R.Apply(regs[0], First())
    requires R.Enabled(regs[1], R.Break(0)) && regs[2] == R.Apply(regs[1], R.Break(0))
    requires R.Enabled(regs[2], R.Cleanup(0)) && regs[3] == R.Apply(regs[2], R.Cleanup(0))
    ensures IsRun(mac, states, steps) && states[|steps|] == Leaving(regs)
  {
    var acts := [First(), R.Break(0), R.Cleanup(0)];
    var s1, s2 := LoggedIn().(regs := regs[..2], acts := acts[..1]), LoggedIn().(regs := regs[..3], acts := acts[..2]);
    assert Enrolled()[2].op.tokenId == "t";
    assert [R.Initial()] + [regs[1]] == regs[..2] && regs[..2] + [regs[2]] == regs[..3] &&
           regs[..3] + [regs[3]] == regs;
    assert [] + [First()] == acts[..1] && acts[..1] + [acts[1]] == acts[..2] && acts[..2] + [acts[2]] == acts;
    states, steps := LoggingIn(mac);
    states, steps := Extend(mac, states, steps, Registry(First()), s1);
    states, steps := Extend(mac, states, steps, Registry(R.Break(0)), s2);
    states, steps := Extend(mac, states, steps, Registry(R.Cleanup(0)), Leaving(regs));
  }

  /** The board: connection 1 advertises, and then connection 0's close marks the row. */
  ghost function Board(): (board: seq<B.Stamped>)
  {
    [B.At(O.Advertise("alpha", "h", "t", "cli", None, None), 5), B.At(O.MarkGone("t"), 5)]
  }

  lemma BoardMarked(cfg: O.Config, now: nat)
    ensures O.Resolve(cfg, B.After(cfg, Board()), "alpha", now) == None
  {
    assert Board()[..0] == [] && Board()[..2] == Board();
    B.AfterStep(cfg, Board(), 0);
    B.AfterStep(cfg, Board(), 1);
  }

  /** The registry once connection 1 is in: alone, and alive. */
  lemma SecondIn(r: R.State)
    requires r == R.Apply(Left(), Second())
    ensures R.TaskIs(r, 1, R.Running) && r.conns[1].token == "t" && I.RegisteredConn(r, 1)
    ensures R.TaskIs(r, 0, R.Removed) && r.conns[0].token == "t"
  {
  }

  /**
   A connection cleans up; its successor registers and advertises; then the first one's close marks the
   token's rows. The successor is the newest, alive and registered, and its session resolves to nobody at
   any clock, whatever its beats.
   */
  lemma MarkedByPredecessor(mac: S.Mac, cfg: O.Config) returns (states: seq<Server>, steps: seq<Step>)
    ensures IsRun(mac, states, steps)
    ensures var s := states[|steps|];
            && |s.regs| == |s.acts| + 1 && R.TaskIs(Current(s), 1, R.Running) && I.RegisteredConn(Current(s), 1)
            && s.board == Board() && forall now :: O.Resolve(cfg, B.After(cfg, s.board), "alpha", now) == None
  {
    var regs := ComingAndGoing();
    var s2;
    states, steps, s2 := SecondThere(mac, regs);
    var s3, s4 := Marking(mac, s2);
    states, steps := Extend(mac, states, steps, Present(1, Board()[0].op, 5), s3);
    states, steps := Extend(mac, states, steps, CertainClose(0, 5), s4);
    forall now: nat ensures O.Resolve(cfg, B.After(cfg, s4.board), "alpha", now) == None { BoardMarked(cfg, now); }
  }

  lemma SecondThere(mac: S.Mac, regs: seq<R.State>) returns (states: seq<Server>, steps: seq<Step>, s2: Server)
    requires |regs| == 4 && regs[0] == R.Initial() && regs[3] == Left()
    requires R.Enabled(regs[0], First()) && regs[1] == R.Apply(regs[0], First())
    requires R.Enabled(regs[1], R.Break(0)) && regs[2] == R.Apply(regs[1], R.Break(0))
    requires R.Enabled(regs[2], R.Cleanup(0)) && regs[3] == R.Apply(regs[2], R.Cleanup(0))
    ensures IsRun(mac, states, steps) && states[|steps|] == s2
    ensures |s2.regs| == 5 && s2.regs[4] == R.Apply(Left(), Second()) && |s2.acts| == 4 && s2.board == []
  {
    var s1;
    s1, s2 := SecondLogin(mac, regs);
    states, steps := LeavingRun(mac, regs);
    states, steps := Extend(mac, states, steps, Login(1, Verify()), s1);
    states, steps := Extend(mac, states, steps, Registry(Second()), s2);
  }

  lemma Marking(mac: S.Mac, s2: Server) returns (s3: Server, s4: Server)
    requires |s2.regs| == 5 && s2.regs[4] == R.Apply(Left(), Second()) && |s2.acts| == 4 && s2.board == []
    ensures Leads(mac, s2, Present(1, Board()[0].op, 5), s3) && Leads(mac, s3, CertainClose(0, 5), s4)
    ensures |s4.regs| == 5 && |s4.acts| == 4 && s4.board == Board()
    ensures R.TaskIs(Current(s4), 1, R.Running) && I.RegisteredConn(Current(s4), 1)
  {
    SecondIn(s2.regs[4]);
    s3, s4 := s2.(board := Board()[..1]), s2.(board := Board());
    assert [] + [Board()[0]] == Board()[..1] && Board()[..1] + [Board()[1]] == Board();
    assert Current(s2) == s2.regs[4] && Current(s3) == s2.regs[4] && Current(s4) == s2.regs[4];
  }

  lemma SecondLogin(mac: S.Mac, regs: seq<R.State>) returns (s1: Server, s2: Server)
    requires |regs| == 4 && regs[3] == Left()
    ensures Leads(mac, Leaving(regs), Login(1, Verify()), s1) && Leads(mac, s1, Registry(Second()), s2)
    ensures |s2.regs| == 5 && s2.regs[4] == R.Apply(Left(), Second()) && |s2.acts| == 4 && s2.board == []
  {
    var turn := T.Turn(Verify(), false);
    EnrolledTurns(mac);
    Verifying(mac, Some(2));
    s1 := Leaving(regs).(turns := Enrolled() + [turn], logins := map[0 := 2, 1 := 3]);
    assert Leaving(regs).logins[1 := 3] == map[0 := 2, 1 := 3];
    assert s1.turns[3] == turn;
    s2 := Apply(mac, s1, Registry(Second()));
  }
}
