/** What the roster guarantees over whole runs of operations, each carrying the clock it read. */
module RosterRuns {
  import opened Prelude
  import opened Roster

  datatype Stamped = At(op: Op, now: nat)

  /** The table after the operations, from an empty roster. */
  function After(cfg: Config, ops: seq<Stamped>): (t: Table)
  {
    if ops == [] then map[] else Apply(cfg, After(cfg, ops[..|ops| - 1]), ops[|ops| - 1].op, ops[|ops| - 1].now)
  }

  lemma AfterStep(cfg: Config, ops: seq<Stamped>, i: nat)
    requires i < |ops|
    ensures After(cfg, ops[..i + 1]) == Apply(cfg, After(cfg, ops[..i]), ops[i].op, ops[i].now)
  {
    assert ops[..i + 1][..i] == ops[..i];
  }

  /** An advertisement of this name went through at step `i`. */
  predicate Takes(cfg: Config, ops: seq<Stamped>, i: nat, name: Name)
  {
    && i < |ops| && ops[i].op.Advertise? && ops[i].op.name == name
    && Conflict(cfg, After(cfg, ops[..i]), name, ops[i].op.tokenId, ops[i].now).None?
  }

  /** What one operation can do to one row. */
  lemma RowStep(cfg: Config, t: Table, op: Op, now: nat, name: Name)
    ensures var t' := Apply(cfg, t, op, now);
            && (op.Advertise? && op.name == name && Conflict(cfg, t, name, op.tokenId, now).None? ==>
                  name in t' && t'[name].tokenId == op.tokenId && t'[name].lastSeen == now && !t'[name].goneNow)
            && (!(op.Advertise? && op.name == name && Conflict(cfg, t, name, op.tokenId, now).None?) ==>
                  && (name in t' ==>
                        && name in t && t'[name].tokenId == t[name].tokenId
                        && t'[name].goneNow == (t[name].goneNow || op == MarkGone(t[name].tokenId))
                        && t'[name].lastSeen == (if op == Touch(t[name].tokenId) then now else t[name].lastSeen))
                  && (name in t && name !in t' ==> op.Prune? && Elapsed(now, t[name].lastSeen) >= cfg.pruneAfter))
  {
  }

  // ----- Who owns a name -----

  /** The token of the last advertisement of the name that went through. */
  function LastAdvertiser(cfg: Config, ops: seq<Stamped>, n: nat, name: Name): (tokenId: Option<string>)
    requires n <= |ops|
  {
    if n == 0 then None
    else if Takes(cfg, ops, n - 1, name) then Some(ops[n - 1].op.tokenId)
    else LastAdvertiser(cfg, ops, n - 1, name)
  }

  /** A row, and hence a resolved session, always names the last successful advertiser. */
  lemma {:induction false} RowNamesLastAdvertiser(cfg: Config, ops: seq<Stamped>, n: nat, name: Name, now: nat)
    requires n <= |ops| && name in After(cfg, ops[..n])
    ensures LastAdvertiser(cfg, ops, n, name) == Some(After(cfg, ops[..n])[name].tokenId)
    ensures Resolve(cfg, After(cfg, ops[..n]), name, now).Some? ==>
              Resolve(cfg, After(cfg, ops[..n]), name, now) == LastAdvertiser(cfg, ops, n, name)
  {
    AfterStep(cfg, ops, n - 1);
    RowStep(cfg, After(cfg, ops[..n - 1]), ops[n - 1].op, ops[n - 1].now, name);
    if !Takes(cfg, ops, n - 1, name) {
      RowNamesLastAdvertiser(cfg, ops, n - 1, name, now);
    }
  }

  /** At step `k` the name is held by `owner`, and its row is gone by the clock that step reads. */
  predicate GoneAtStep(cfg: Config, ops: seq<Stamped>, k: nat, name: Name, owner: string)
  {
    k < |ops| && var t := After(cfg, ops[..k]);
    name in t && t[name].tokenId == owner && StateAt(cfg, t[name], ops[k].now) == Gone
  }

  /**
   A name changes hands only over a gone row: if it is `owner`'s after `i` operations and somebody
   else's after `j`, then at some step in between the owner's row was there and gone.
   */
  lemma {:induction false} NameChangesHandsWhenGone(cfg: Config, ops: seq<Stamped>, i: nat, j: nat, name: Name,
    owner: string)
    requires cfg.pruneAfter >= cfg.goneAfter && i <= j <= |ops|
    requires Owns(cfg, ops, i, name, owner)
    ensures Owns(cfg, ops, j, name, owner) || exists k: nat :: i <= k < j && GoneAtStep(cfg, ops, k, name, owner)
  {
    if i < j {
      NameChangesHandsWhenGone(cfg, ops, i, j - 1, name, owner);
      if Owns(cfg, ops, j - 1, name, owner) { LosesNameGone(cfg, ops, j - 1, j, name, owner); }
    }
  }

  predicate Owns(cfg: Config, ops: seq<Stamped>, n: nat, name: Name, owner: string)
    requires n <= |ops|
  {
    name in After(cfg, ops[..n]) && After(cfg, ops[..n])[name].tokenId == owner
  }

  /** The step at which a name stops being the owner's finds its row gone. */
  lemma LosesNameGone(cfg: Config, ops: seq<Stamped>, n: nat, next: nat, name: Name, owner: string)
    requires cfg.pruneAfter >= cfg.goneAfter && n < next == n + 1 <= |ops| && Owns(cfg, ops, n, name, owner)
    ensures Owns(cfg, ops, next, name, owner) || GoneAtStep(cfg, ops, n, name, owner)
  {
    AfterStep(cfg, ops, n);
    RowStep(cfg, After(cfg, ops[..n]), ops[n].op, ops[n].now, name);
  }

  /**
   Under a prune threshold shorter than the gone threshold, whatever they are, a live row can lose its
   name: the sweep drops it, and another client takes it.
   */
  lemma ShortPruneLosesName(cfg: Config) returns (ops: seq<Stamped>)
    requires cfg.pruneAfter < cfg.goneAfter
    ensures |ops| == 3
    ensures var name, now := "alpha", cfg.pruneAfter;
            && Resolve(cfg, After(cfg, ops[..1]), name, now) == Some("A")
            && name in After(cfg, ops) && After(cfg, ops)[name].tokenId == "B"
            && forall k: nat | 1 <= k < |ops| :: !GoneAtStep(cfg, ops, k, name, "A")
  {
    var a := Advertise("alpha", "h", "A", "ca", None, None);
    var b := Advertise("alpha", "h", "B", "cb", None, None);
    ops := [At(a, 0), At(Prune, cfg.pruneAfter), At(b, cfg.pruneAfter)];
    assert ops[..1] == [At(a, 0)] && ops[..0] == [] && ops[..3] == ops;
    AfterStep(cfg, ops, 0);
    AfterStep(cfg, ops, 1);
    AfterStep(cfg, ops, 2);
    assert "alpha" !in After(cfg, ops[..2]);
  }

  /** A name is `owner`'s after `i` operations and somebody else's after `j`. */
  predicate ChangesHands(cfg: Config, ops: seq<Stamped>, i: nat, j: nat, name: Name, owner: string)
  {
    && i <= j <= |ops|
    && name in After(cfg, ops[..i]) && After(cfg, ops[..i])[name].tokenId == owner
    && name in After(cfg, ops[..j]) && After(cfg, ops[..j])[name].tokenId != owner
  }

  /** Over all runs, no name changes hands unless its row was gone at some step in between. */
  ghost predicate OwnershipHolds(cfg: Config)
  {
    forall ops, i: nat, j: nat, name, owner | ChangesHands(cfg, ops, i, j, name, owner) ::
      exists k: nat :: i <= k < j && GoneAtStep(cfg, ops, k, name, owner)
  }

  /** That holds exactly for the configurations that keep rows at least until they are gone. */
  lemma OwnershipIff(cfg: Config)
    ensures OwnershipHolds(cfg) <==> cfg.pruneAfter >= cfg.goneAfter
  {
    if cfg.pruneAfter >= cfg.goneAfter {
      forall ops, i: nat, j: nat, name, owner | ChangesHands(cfg, ops, i, j, name, owner)
        ensures exists k: nat :: i <= k < j && GoneAtStep(cfg, ops, k, name, owner)
      {
        NameChangesHandsWhenGone(cfg, ops, i, j, name, owner);
      }
    } else {
      var ops := ShortPruneLosesName(cfg);
      assert ops[..3] == ops;
      assert ChangesHands(cfg, ops, 1, 3, "alpha", "A");
    }
  }

  // ----- Heartbeats and certain closes -----

  function Rank(s: RowState): (n: nat)
  {
    match s
    case Connected => 0
    case Reconnecting => 1
    case Gone => 2
  }

  /** A row whose clock has not been reset and whose mark has not been lifted is no livelier later. */
  lemma LaterIsNoLivelier(cfg: Config, row: Row, row': Row, now: nat, later: nat)
    requires now <= later && row'.lastSeen == row.lastSeen && (row.goneNow ==> row'.goneNow)
    ensures Rank(StateAt(cfg, row, now)) <= Rank(StateAt(cfg, row', later))
  {
  }

  /** Nothing between steps `i` and `n` refreshes the row: no ping of its owner, no advertisement of its name. */
  predicate Unrefreshed(cfg: Config, ops: seq<Stamped>, i: nat, n: nat, name: Name, owner: string)
  {
    forall k: nat | i <= k < n && k < |ops| :: ops[k].op != Touch(owner) && !Takes(cfg, ops, k, name)
  }

  /** An unrefreshed row is dropped by a sweep, or keeps its owner, its clock and any mark it has. */
  predicate Lingers(was: Row, t: Table, name: Name)
  {
    name in t ==>
      t[name].tokenId == was.tokenId && t[name].lastSeen == was.lastSeen && (was.goneNow ==> t[name].goneNow)
  }

  lemma LingersStep(cfg: Config, t: Table, op: Op, now: nat, name: Name, was: Row)
    requires Lingers(was, t, name) && op != Touch(was.tokenId)
    requires !(op.Advertise? && op.name == name && Conflict(cfg, t, name, op.tokenId, now).None?)
    ensures Lingers(was, Apply(cfg, t, op, now), name)
  {
    RowStep(cfg, t, op, now, name);
  }

  lemma {:induction false} UnrefreshedRow(
    cfg: Config, ops: seq<Stamped>, i: nat, n: nat, name: Name, owner: string, was: Row)
    requires i <= n <= |ops| && was.tokenId == owner && Lingers(was, After(cfg, ops[..i]), name)
    requires Unrefreshed(cfg, ops, i, n, name, owner)
    ensures Lingers(was, After(cfg, ops[..n]), name)
  {
    if i < n {
      UnrefreshedRow(cfg, ops, i, n - 1, name, owner, was);
      LingersAt(cfg, ops, n - 1, n, name, was);
    }
  }

  lemma LingersAt(cfg: Config, ops: seq<Stamped>, n: nat, next: nat, name: Name, was: Row)
    requires n < next == n + 1 <= |ops| && Lingers(was, After(cfg, ops[..n]), name)
    requires ops[n].op != Touch(was.tokenId) && !Takes(cfg, ops, n, name)
    ensures Lingers(was, After(cfg, ops[..next]), name)
  {
    AfterStep(cfg, ops, n);
    LingersStep(cfg, After(cfg, ops[..n]), ops[n].op, ops[n].now, name, was);
  }

  /**
   With no ping of its owner and no advertisement of its name, a row's state only moves forward in
   time, for every configuration and under any mix of marks, flags, sweeps and other clients' doings;
   and what was gone resolves to nobody, dropped or not.
   */
  lemma StateOnlyAdvances(
    cfg: Config, ops: seq<Stamped>, i: nat, n: nat, name: Name, owner: string, now: nat, later: nat)
    requires i <= n <= |ops| && name in After(cfg, ops[..i]) && After(cfg, ops[..i])[name].tokenId == owner
    requires Unrefreshed(cfg, ops, i, n, name, owner) && now <= later
    ensures name in After(cfg, ops[..n]) ==>
              Rank(StateAt(cfg, After(cfg, ops[..i])[name], now)) <=
              Rank(StateAt(cfg, After(cfg, ops[..n])[name], later))
    ensures Resolve(cfg, After(cfg, ops[..i]), name, now) == None ==>
              Resolve(cfg, After(cfg, ops[..n]), name, later) == None
  {
    UnrefreshedRow(cfg, ops, i, n, name, owner, After(cfg, ops[..i])[name]);
    if name in After(cfg, ops[..n]) {
      LaterIsNoLivelier(cfg, After(cfg, ops[..i])[name], After(cfg, ops[..n])[name], now, later);
    }
  }

  /** Since step `i` nothing has refreshed the row, and nothing has marked it. */
  predicate Silent(cfg: Config, ops: seq<Stamped>, i: nat, n: nat, name: Name, owner: string)
  {
    Unrefreshed(cfg, ops, i, n, name, owner) && forall k: nat | i <= k < n && k < |ops| :: ops[k].op != MarkGone(owner)
  }

  lemma UnmarkedAt(cfg: Config, ops: seq<Stamped>, n: nat, next: nat, name: Name, owner: string)
    requires n < next == n + 1 <= |ops| && ops[n].op != MarkGone(owner) && !Takes(cfg, ops, n, name)
    requires name in After(cfg, ops[..n]) ==>
               After(cfg, ops[..n])[name].tokenId == owner && !After(cfg, ops[..n])[name].goneNow
    ensures name in After(cfg, ops[..next]) ==>
              After(cfg, ops[..next])[name].tokenId == owner && !After(cfg, ops[..next])[name].goneNow
  {
    AfterStep(cfg, ops, n);
    RowStep(cfg, After(cfg, ops[..n]), ops[n].op, ops[n].now, name);
  }

  lemma {:induction false} SilentIsUnmarked(cfg: Config, ops: seq<Stamped>, i: nat, n: nat, name: Name, owner: string)
    requires i <= n <= |ops| && Silent(cfg, ops, i, n, name, owner)
    requires name in After(cfg, ops[..i]) ==>
               After(cfg, ops[..i])[name].tokenId == owner && !After(cfg, ops[..i])[name].goneNow
    ensures name in After(cfg, ops[..n]) ==>
              After(cfg, ops[..n])[name].tokenId == owner && !After(cfg, ops[..n])[name].goneNow
  {
    if i < n {
      SilentIsUnmarked(cfg, ops, i, n - 1, name, owner);
      assert ops[n - 1].op != MarkGone(owner) && !Takes(cfg, ops, n - 1, name);
      UnmarkedAt(cfg, ops, n - 1, n, name, owner);
    }
  }

  /**
   An unmarked owner last heard at clock `beat`, and silent since, is shown by every snapshot as connected
   until the first threshold after the beat, then as reconnecting, and from the second on as gone, whatever
   else has happened on the roster; unless a sweep has dropped the row.
   */
  lemma SilentOwnerIsShown(
    cfg: Config, ops: seq<Stamped>, i: nat, n: nat, name: Name, owner: string, beat: nat, now: nat,
      rows: seq<SnapshotRow>)
    requires i <= n <= |ops| && Silent(cfg, ops, i, n, name, owner) && beat <= now
    requires name in After(cfg, ops[..i]) && Beats(After(cfg, ops[..i]), name, owner, beat)
    requires name in After(cfg, ops[..n]) && IsSnapshot(cfg, After(cfg, ops[..n]), now, rows)
    ensures exists r <- rows ::
              && r.name == name && r.lastSeenAgo == now - beat
              && r.state == (if beat + cfg.goneAfter <= now then Gone
                             else if beat + cfg.reconnectAfter <= now then Reconnecting else Connected)
  {
    SilentIsUnmarked(cfg, ops, i, n, name, owner);
    UnrefreshedRow(cfg, ops, i, n, name, owner, After(cfg, ops[..i])[name]);
    SnapshotShows(cfg, After(cfg, ops[..n]), now, rows, name);
  }

  /**
   A name from its owner's side: the clock of the owner's last beat (a ping, or a successful advertisement of
   the name), and whether a mark has hit the owner's rows since it last advertised the name.
   */
  datatype Moment = Moment(beat: nat, marked: bool)

  /** The owner's advertisement of the name goes through. */
  predicate Renews(cfg: Config, t: Table, op: Op, now: nat, name: Name, owner: string)
  {
    op.Advertise? && op.name == name && op.tokenId == owner && Conflict(cfg, t, name, owner, now).None?
  }

  function MomentStep(cfg: Config, m: Moment, t: Table, op: Op, now: nat, name: Name, owner: string): (m': Moment)
  {
    var renews := Renews(cfg, t, op, now, name, owner);
    Moment(if op == Touch(owner) || renews then now else m.beat, op == MarkGone(owner) || (m.marked && !renews))
  }

  /** The moment after `n` operations, told from the moment `m` after `i`. */
  function MomentAt(cfg: Config, m: Moment, ops: seq<Stamped>, i: nat, n: nat, name: Name, owner: string): (m': Moment)
    requires i <= n <= |ops|
    decreases n
  {
    if n == i then m
    else
      var was, at := MomentAt(cfg, m, ops, i, n - 1, name, owner), ops[n - 1];
      MomentStep(cfg, was, After(cfg, ops[..n - 1]), at.op, at.now, name, owner)
  }

  /** The row as it is after `i` operations, when nothing has marked it. */
  function Start(cfg: Config, ops: seq<Stamped>, i: nat, name: Name): (m: Moment)
    requires i <= |ops| && name in After(cfg, ops[..i])
  {
    Moment(After(cfg, ops[..i])[name].lastSeen, false)
  }

  function LastBeat(cfg: Config, ops: seq<Stamped>, i: nat, n: nat, name: Name, owner: string): (now: nat)
    requires i <= n <= |ops| && name in After(cfg, ops[..i])
  {
    MomentAt(cfg, Start(cfg, ops, i, name), ops, i, n, name, owner).beat
  }

  predicate MarkedSince(cfg: Config, ops: seq<Stamped>, i: nat, n: nat, name: Name, owner: string)
    requires i <= n <= |ops| && name in After(cfg, ops[..i])
  {
    MomentAt(cfg, Start(cfg, ops, i, name), ops, i, n, name, owner).marked
  }

  predicate WithinBeat(cfg: Config, beat: nat, now: nat)
  {
    Elapsed(now, beat) < cfg.reconnectAfter && Elapsed(now, beat) < cfg.goneAfter && Elapsed(now, beat) < cfg.pruneAfter
  }

  /** The row is its owner's, unmarked, and was refreshed by the owner's last beat. */
  predicate Beats(t: Table, name: Name, owner: string, beat: nat)
  {
    name in t && t[name].tokenId == owner && !t[name].goneNow && t[name].lastSeen == beat
  }

  /** Beating, or forfeited: the name is not the owner's, or marked gone. */
  predicate Stands(m: Moment, t: Table, name: Name, owner: string)
  {
    if m.marked then name in t && t[name].tokenId == owner ==> t[name].goneNow
    else Beats(t, name, owner, m.beat)
  }

  lemma StandsStep(cfg: Config, m: Moment, t: Table, op: Op, now: nat, name: Name, owner: string)
    requires Stands(m, t, name, owner) && WithinBeat(cfg, m.beat, now)
    ensures Stands(MomentStep(cfg, m, t, op, now, name, owner), Apply(cfg, t, op, now), name, owner)
  {
    RowStep(cfg, t, op, now, name);
  }

  /** Operation `k` comes within the thresholds of the owner's last beat. */
  predicate Timely(cfg: Config, m: Moment, ops: seq<Stamped>, i: nat, k: nat, name: Name, owner: string)
  {
    i <= k < |ops| && WithinBeat(cfg, MomentAt(cfg, m, ops, i, k, name, owner).beat, ops[k].now)
  }

  predicate InTime(cfg: Config, m: Moment, ops: seq<Stamped>, i: nat, n: nat, name: Name, owner: string)
  {
    forall k: nat | i <= k < n :: Timely(cfg, m, ops, i, k, name, owner)
  }

  /** So does every operation from `i` up to `n`. */
  predicate KeepsBeating(cfg: Config, ops: seq<Stamped>, i: nat, n: nat, name: Name, owner: string)
    requires i <= n <= |ops| && name in After(cfg, ops[..i])
  {
    InTime(cfg, Start(cfg, ops, i, name), ops, i, n, name, owner)
  }

  ghost predicate StandsBy(cfg: Config, m: Moment, ops: seq<Stamped>, i: nat, n: nat, name: Name, owner: string)
    requires i <= n <= |ops|
  {
    Stands(MomentAt(cfg, m, ops, i, n, name, owner), After(cfg, ops[..n]), name, owner)
  }

  lemma StandsAt(cfg: Config, m: Moment, ops: seq<Stamped>, i: nat, n: nat, next: nat, name: Name, owner: string)
    requires i <= n < next == n + 1 <= |ops| && StandsBy(cfg, m, ops, i, n, name, owner)
    requires Timely(cfg, m, ops, i, n, name, owner)
    ensures StandsBy(cfg, m, ops, i, next, name, owner)
  {
    AfterStep(cfg, ops, n);
    StandsStep(cfg, MomentAt(cfg, m, ops, i, n, name, owner), After(cfg, ops[..n]), ops[n].op, ops[n].now, name, owner);
  }

  lemma {:induction false} StandsUpTo(
    cfg: Config, m: Moment, ops: seq<Stamped>, i: nat, n: nat, name: Name, owner: string)
    requires i <= n <= |ops| && StandsBy(cfg, m, ops, i, i, name, owner) && InTime(cfg, m, ops, i, n, name, owner)
    ensures StandsBy(cfg, m, ops, i, n, name, owner)
  {
    if i < n {
      StandsUpTo(cfg, m, ops, i, n - 1, name, owner);
      assert Timely(cfg, m, ops, i, n - 1, name, owner);
      StandsAt(cfg, m, ops, i, n - 1, n, name, owner);
    }
  }

  /**
   Exactly when a session whose owner keeps beating resolves to that owner: when no close or revoke marked
   the owner's rows since its last advertisement of the name. Beats do not lift a mark.
   */
  lemma BeatingResolvesIff(cfg: Config, ops: seq<Stamped>, i: nat, n: nat, name: Name, owner: string, now: nat)
    requires i <= n <= |ops| && name in After(cfg, ops[..i]) && KeepsBeating(cfg, ops, i, n, name, owner)
    requires Beats(After(cfg, ops[..i]), name, owner, After(cfg, ops[..i])[name].lastSeen)
    requires WithinBeat(cfg, LastBeat(cfg, ops, i, n, name, owner), now)
    ensures Resolve(cfg, After(cfg, ops[..n]), name, now) == Some(owner) <==> !MarkedSince(cfg, ops, i, n, name, owner)
  {
    StandsUpTo(cfg, Start(cfg, ops, i, name), ops, i, n, name, owner);
  }

  lemma {:induction false} UnmarkedWithoutMarks(
    cfg: Config, m: Moment, ops: seq<Stamped>, i: nat, n: nat, name: Name, owner: string)
    requires i <= n <= |ops| && !m.marked && forall k | i <= k < n :: ops[k].op != MarkGone(owner)
    ensures !MomentAt(cfg, m, ops, i, n, name, owner).marked
  {
    if i < n { UnmarkedWithoutMarks(cfg, m, ops, i, n - 1, name, owner); }
  }

  /**
   A row whose owner keeps beating faster than all three thresholds, and is not marked gone, stays its
   owner's: nobody takes the name and no sweep drops it.
   */
  lemma HeartbeatKeepsRow(cfg: Config, ops: seq<Stamped>, i: nat, n: nat, name: Name, owner: string)
    requires i <= n <= |ops| && name in After(cfg, ops[..i]) && KeepsBeating(cfg, ops, i, n, name, owner)
    requires Beats(After(cfg, ops[..i]), name, owner, After(cfg, ops[..i])[name].lastSeen)
    requires forall k | i <= k < n :: ops[k].op != MarkGone(owner)
    ensures Beats(After(cfg, ops[..n]), name, owner, LastBeat(cfg, ops, i, n, name, owner))
  {
    StandsUpTo(cfg, Start(cfg, ops, i, name), ops, i, n, name, owner);
    UnmarkedWithoutMarks(cfg, Start(cfg, ops, i, name), ops, i, n, name, owner);
  }

  /** And it is connected at every instant that comes within those thresholds of the last beat. */
  lemma HeartbeatKeepsConnected(cfg: Config, ops: seq<Stamped>, i: nat, n: nat, name: Name, owner: string, now: nat)
    requires i <= n <= |ops| && name in After(cfg, ops[..i]) && KeepsBeating(cfg, ops, i, n, name, owner)
    requires Beats(After(cfg, ops[..i]), name, owner, After(cfg, ops[..i])[name].lastSeen)
    requires forall k | i <= k < n :: ops[k].op != MarkGone(owner)
    requires WithinBeat(cfg, LastBeat(cfg, ops, i, n, name, owner), now)
    ensures Resolve(cfg, After(cfg, ops[..n]), name, now) == Some(owner)
    ensures StateAt(cfg, After(cfg, ops[..n])[name], now) == Connected
  {
    HeartbeatKeepsRow(cfg, ops, i, n, name, owner);
  }

  lemma MarkedStep(cfg: Config, t: Table, op: Op, now: nat, name: Name)
    requires name in t ==> t[name].goneNow
    requires !(op.Advertise? && op.name == name && Conflict(cfg, t, name, op.tokenId, now).None?)
    ensures name in Apply(cfg, t, op, now) ==> Apply(cfg, t, op, now)[name].goneNow
  {
    RowStep(cfg, t, op, now, name);
  }

  /** Once marked gone, a row is gone at every instant until its name is advertised again, whatever else happens. */
  lemma {:induction false} MarkedStaysGone(cfg: Config, ops: seq<Stamped>, i: nat, n: nat, name: Name)
    requires i <= n <= |ops|
    requires name in After(cfg, ops[..i]) ==> After(cfg, ops[..i])[name].goneNow
    requires forall k | i <= k < n :: !Takes(cfg, ops, k, name)
    ensures name in After(cfg, ops[..n]) ==> After(cfg, ops[..n])[name].goneNow
  {
    if i < n {
      MarkedStaysGone(cfg, ops, i, n - 1, name);
      MarkedAt(cfg, ops, n - 1, name);
    }
  }

  lemma MarkedAt(cfg: Config, ops: seq<Stamped>, n: nat, name: Name)
    requires n < |ops| && !Takes(cfg, ops, n, name)
    requires name in After(cfg, ops[..n]) ==> After(cfg, ops[..n])[name].goneNow
    ensures name in After(cfg, ops[..n + 1]) ==> After(cfg, ops[..n + 1])[name].goneNow
  {
    AfterStep(cfg, ops, n);
    MarkedStep(cfg, After(cfg, ops[..n]), ops[n].op, ops[n].now, name);
  }

  /** So from a certain close until the next advertisement the session resolves to nobody, at any clock. */
  lemma MarkedNeverResolves(cfg: Config, ops: seq<Stamped>, i: nat, n: nat, name: Name, now: nat)
    requires i < n <= |ops| && name in After(cfg, ops[..i]) && ops[i].op == MarkGone(After(cfg, ops[..i])[name].tokenId)
    requires forall k | i < k < n :: !Takes(cfg, ops, k, name)
    ensures Resolve(cfg, After(cfg, ops[..n]), name, now) == None
  {
    AfterStep(cfg, ops, i);
    MarkedStaysGone(cfg, ops, i + 1, n, name);
  }

  // ----- Pruning -----

  /** The same run with every sweep left out. */
  function Unpruned(cfg: Config, ops: seq<Stamped>): (t: Table)
  {
    if ops == [] then map[]
    else
      var t, last := Unpruned(cfg, ops[..|ops| - 1]), ops[|ops| - 1];
      if last.op.Prune? then t else Apply(cfg, t, last.op, last.now)
  }

  lemma UnprunedStep(cfg: Config, ops: seq<Stamped>, i: nat)
    requires i < |ops|
    ensures Unpruned(cfg, ops[..i + 1]) ==
            if ops[i].op.Prune? then Unpruned(cfg, ops[..i])
              else Apply(cfg, Unpruned(cfg, ops[..i]), ops[i].op, ops[i].now)
  {
    assert ops[..i + 1][..i] == ops[..i];
  }

  /** The clock of the last sweep among the first `n` operations. */
  function LastSweep(ops: seq<Stamped>, n: nat): (now: nat)
    requires n <= |ops|
  {
    if n == 0 then 0 else if ops[n - 1].op.Prune? then ops[n - 1].now else LastSweep(ops, n - 1)
  }

  /** `t` is `full` with some rows missing, each of which is gone from the sweep's clock `p` on. */
  ghost predicate Hides(cfg: Config, t: Table, full: Table, p: nat)
  {
    && (forall n <- t :: n in full && t[n] == full[n])
    && (forall n <- full | n !in t :: StateAt(cfg, full[n], p) == Gone)
  }

  /** The rows of this client that a sweep has dropped and that nothing else has put to rest. */
  predicate Orphaned(t: Table, full: Table, tokenId: string)
  {
    exists n <- full :: n !in t && full[n].tokenId == tokenId && !full[n].goneNow
  }

  /** Seen from the sweep's clock on, the two tables answer every question alike. */
  lemma HiddenRowsDoNotShow(cfg: Config, t: Table, full: Table, p: nat, now: nat)
    requires Hides(cfg, t, full, p) && p <= now
    ensures forall name :: Resolve(cfg, t, name, now) == Resolve(cfg, full, name, now)
    ensures forall name, tokenId :: Conflict(cfg, t, name, tokenId, now) == Conflict(cfg, full, name, tokenId, now)
    ensures Live(cfg, t, now) == Live(cfg, full, now)
    ensures forall n <- full | n !in t :: StateAt(cfg, full[n], now) == Gone
    ensures forall n <- t :: n in full && View(cfg, t, n, now) == View(cfg, full, n, now)
  {
    forall n <- full | n !in t ensures StateAt(cfg, full[n], now) == Gone {
      LaterIsNoLivelier(cfg, full[n], full[n], p, now);
    }
  }

  lemma HidesStep(cfg: Config, t: Table, full: Table, p: nat, op: Op, now: nat)
    requires Hides(cfg, t, full, p) && p <= now && !op.Prune?
    requires op.Touch? ==> !Orphaned(t, full, op.tokenId)
    ensures Hides(cfg, Apply(cfg, t, op, now), Apply(cfg, full, op, now), p)
  {
    HiddenRowsDoNotShow(cfg, t, full, p, now);
  }

  lemma HidesSweep(cfg: Config, t: Table, full: Table, p: nat, now: nat)
    requires Hides(cfg, t, full, p) && p <= now && cfg.pruneAfter >= cfg.goneAfter
    ensures Hides(cfg, Pruned(cfg, t, now), full, now)
  {
    HiddenRowsDoNotShow(cfg, t, full, p, now);
  }

  /**
   Sweeps at arbitrary times are memory hygiene and nothing else, if rows are kept at least until they
   are gone, no operation reads a clock older than an earlier sweep's, and no ping comes from the
   owner of a dropped row that was not marked gone: the run without sweeps has the same table but for
   rows that are gone, and so answers every later question, and every advertisement, alike.
   */
  lemma {:induction false} PruneIsNeutral(cfg: Config, ops: seq<Stamped>, n: nat)
    requires n <= |ops| && cfg.pruneAfter >= cfg.goneAfter
    requires forall k | 0 <= k < n :: LastSweep(ops, k) <= ops[k].now
    requires forall k | 0 <= k < n && ops[k].op.Touch? ::
               !Orphaned(After(cfg, ops[..k]), Unpruned(cfg, ops[..k]), ops[k].op.tokenId)
    ensures Hides(cfg, After(cfg, ops[..n]), Unpruned(cfg, ops[..n]), LastSweep(ops, n))
  {
    if n > 0 {
      PruneIsNeutral(cfg, ops, n - 1);
      NeutralAt(cfg, ops, n - 1);
    }
  }

  lemma NeutralAt(cfg: Config, ops: seq<Stamped>, n: nat)
    requires n < |ops| && cfg.pruneAfter >= cfg.goneAfter && LastSweep(ops, n) <= ops[n].now
    requires ops[n].op.Touch? ==> !Orphaned(After(cfg, ops[..n]), Unpruned(cfg, ops[..n]), ops[n].op.tokenId)
    requires Hides(cfg, After(cfg, ops[..n]), Unpruned(cfg, ops[..n]), LastSweep(ops, n))
    ensures Hides(cfg, After(cfg, ops[..n + 1]), Unpruned(cfg, ops[..n + 1]), LastSweep(ops, n + 1))
  {
    AfterStep(cfg, ops, n);
    UnprunedStep(cfg, ops, n);
    if ops[n].op.Prune? {
      HidesSweep(cfg, After(cfg, ops[..n]), Unpruned(cfg, ops[..n]), LastSweep(ops, n), ops[n].now);
    } else {
      HidesStep(cfg, After(cfg, ops[..n]), Unpruned(cfg, ops[..n]), LastSweep(ops, n), ops[n].op, ops[n].now);
    }
  }

  /** In observations: at every clock from the last sweep on, names, counts, conflicts and live rows are the same. */
  lemma PruneUnobservable(cfg: Config, ops: seq<Stamped>, n: nat, now: nat)
    requires n <= |ops| && cfg.pruneAfter >= cfg.goneAfter && LastSweep(ops, n) <= now
    requires forall k | 0 <= k < n :: LastSweep(ops, k) <= ops[k].now
    requires forall k | 0 <= k < n && ops[k].op.Touch? ::
               !Orphaned(After(cfg, ops[..k]), Unpruned(cfg, ops[..k]), ops[k].op.tokenId)
    ensures var t, full := After(cfg, ops[..n]), Unpruned(cfg, ops[..n]);
            && (forall name :: Resolve(cfg, t, name, now) == Resolve(cfg, full, name, now))
            && |Live(cfg, t, now)| == |Live(cfg, full, now)|
            && (forall name, tokenId :: Conflict(cfg, t, name, tokenId, now) == Conflict(cfg, full, name, tokenId, now))
            && (forall m <- t :: m in full && View(cfg, t, m, now) == View(cfg, full, m, now))
            && (forall m <- full | m !in t :: View(cfg, full, m, now).state == Gone)
  {
    PruneIsNeutral(cfg, ops, n);
    HiddenRowsDoNotShow(cfg, After(cfg, ops[..n]), Unpruned(cfg, ops[..n]), LastSweep(ops, n), now);
  }

  /** A sweep can never be noticed, whatever the table, by a read no older than it. */
  ghost predicate SweepInvisible(cfg: Config)
  {
    forall t: Table, p: nat, name, now: nat | p <= now ::
      Resolve(cfg, Pruned(cfg, t, p), name, now) == Resolve(cfg, t, name, now)
  }

  /** That holds exactly for the configurations that keep rows at least until they are gone; nothing checks it. */
  lemma SweepInvisibleIff(cfg: Config)
    ensures SweepInvisible(cfg) <==> cfg.pruneAfter >= cfg.goneAfter
  {
    if cfg.pruneAfter >= cfg.goneAfter {
      forall t: Table, p: nat, name, now: nat | p <= now
        ensures Resolve(cfg, Pruned(cfg, t, p), name, now) == Resolve(cfg, t, name, now)
      {
        HidesSweep(cfg, t, t, p, p);
        HiddenRowsDoNotShow(cfg, Pruned(cfg, t, p), t, p, now);
      }
    } else {
      var t: Table := map["alpha" := Row("h", "A", "ca", 0, false, None, None, false)];
      var p := cfg.pruneAfter;
      assert "alpha" !in Pruned(cfg, t, p);
      assert Resolve(cfg, t, "alpha", p) == Some("A");
      assert Resolve(cfg, Pruned(cfg, t, p), "alpha", p) != Resolve(cfg, t, "alpha", p);
    }
  }

  /**
   A ping makes the two runs differ exactly when it comes from the owner of a dropped, unmarked row
   (and rows can be live at all): without the sweep that ping would have revived the row.
   */
  lemma TouchRevealsOrphans(cfg: Config, t: Table, full: Table, p: nat, tokenId: string, now: nat)
    requires Hides(cfg, t, full, p) && p <= now
    ensures (exists name ::
               Resolve(cfg, Touched(t, tokenId, now), name, now) !=
               Resolve(cfg, Touched(full, tokenId, now), name, now)) <==>
            cfg.goneAfter > 0 && Orphaned(t, full, tokenId)
  {
    if Orphaned(t, full, tokenId) {
      if cfg.goneAfter > 0 {
        var n :| n in full && n !in t && full[n].tokenId == tokenId && !full[n].goneNow;
        assert Resolve(cfg, Touched(full, tokenId, now), n, now) == Some(tokenId);
        assert Resolve(cfg, Touched(t, tokenId, now), n, now) == None;
      }
    } else {
      HidesStep(cfg, t, full, p, Touch(tokenId), now);
      HiddenRowsDoNotShow(cfg, Touched(t, tokenId, now), Touched(full, tokenId, now), p, now);
    }
  }

  /** Sweeps show over some run whose clocks never fall behind an earlier sweep's. */
  ghost predicate SweepsShow(cfg: Config, ops: seq<Stamped>, name: Name, now: nat)
  {
    && (forall k | 0 <= k < |ops| :: LastSweep(ops, k) <= ops[k].now)
    && LastSweep(ops, |ops|) <= now
    && Resolve(cfg, After(cfg, ops), name, now) != Resolve(cfg, Unpruned(cfg, ops), name, now)
  }

  /** One row of client `A`, last seen at this clock. */
  function OneRow(lastSeen: nat): (t: Table)
  {
    map["alpha" := Row("h", "A", "ca", lastSeen, false, None, None, false)]
  }

  /** What the sweep and the ping make of that row. */
  lemma OneRowSwept(cfg: Config, now: nat)
    requires now >= cfg.pruneAfter
    ensures Pruned(cfg, OneRow(0), now) == map[] && Touched(map[], "A", now) == map[]
    ensures Touched(OneRow(0), "A", now) == OneRow(now)
  {
  }

  lemma AdvertiseSweepPing(cfg: Config, ops: seq<Stamped>, now: nat)
    requires now >= cfg.pruneAfter
    requires ops == [At(Advertise("alpha", "h", "A", "ca", None, None), 0), At(Prune, now), At(Touch("A"), now)]
    ensures After(cfg, ops[..2]) == map[] && Unpruned(cfg, ops[..2]) == OneRow(0)
    ensures After(cfg, ops) == map[] && Unpruned(cfg, ops) == OneRow(now)
  {
    OneRowSwept(cfg, now);
    assert ops[..0] == [] && ops[..3] == ops;
    AfterStep(cfg, ops, 0);
    UnprunedStep(cfg, ops, 0);
    assert After(cfg, ops[..1]) == OneRow(0) && Unpruned(cfg, ops[..1]) == OneRow(0);
    AfterStep(cfg, ops, 1);
    UnprunedStep(cfg, ops, 1);
    AfterStep(cfg, ops, 2);
    UnprunedStep(cfg, ops, 2);
  }

  /** Under every configuration in which rows can be live: advertise, sweep, and a ping by the owner. */
  lemma PingAfterSweepShows(cfg: Config) returns (ops: seq<Stamped>, now: nat)
    requires cfg.goneAfter > 0
    ensures |ops| == 3 && ops[2].op == Touch("A") && SweepsShow(cfg, ops, "alpha", now)
    ensures Orphaned(After(cfg, ops[..2]), Unpruned(cfg, ops[..2]), "A")
  {
    now := if cfg.pruneAfter >= cfg.goneAfter then cfg.pruneAfter else cfg.goneAfter;
    ops := [At(Advertise("alpha", "h", "A", "ca", None, None), 0), At(Prune, now), At(Touch("A"), now)];
    AdvertiseSweepPing(cfg, ops, now);
    assert "alpha" in OneRow(0);
    assert LastSweep(ops, 0) == 0 && LastSweep(ops, 1) == 0 && LastSweep(ops, 2) == now && LastSweep(ops, 3) == now;
  }

  /** Without the condition on pings, then, sweeps go unnoticed over all runs only where no row is ever live. */
  lemma SweepsShowIff(cfg: Config)
    ensures (exists ops, name, now: nat :: SweepsShow(cfg, ops, name, now)) <==> cfg.goneAfter > 0
  {
    if cfg.goneAfter > 0 {
      var ops, now := PingAfterSweepShows(cfg);
    }
  }

  /** The owner of a dropped row that was not marked gone pings at step `k`. */
  ghost predicate OrphanPings(cfg: Config, ops: seq<Stamped>, k: nat)
  {
    k < |ops| && ops[k].op.Touch? && Orphaned(After(cfg, ops[..k]), Unpruned(cfg, ops[..k]), ops[k].op.tokenId)
  }

  /** After every prefix, and at every clock from its last sweep on, names resolve as they would without sweeps. */
  ghost predicate SweepsUnnoticed(cfg: Config, ops: seq<Stamped>)
  {
    forall n: nat, name, now: nat | n <= |ops| && LastSweep(ops, n) <= now ::
      Resolve(cfg, After(cfg, ops[..n]), name, now) == Resolve(cfg, Unpruned(cfg, ops[..n]), name, now)
  }

  lemma {:induction false} FirstOrphanPing(cfg: Config, ops: seq<Stamped>, n: nat) returns (k: nat)
    requires n < |ops| && OrphanPings(cfg, ops, n)
    ensures k <= n && OrphanPings(cfg, ops, k) && forall i: nat | i < k :: !OrphanPings(cfg, ops, i)
  {
    if i: nat :| i < n && OrphanPings(cfg, ops, i) {
      k := FirstOrphanPing(cfg, ops, i);
    } else {
      k := n;
    }
  }

  lemma OrphanPingShows(cfg: Config, ops: seq<Stamped>, k: nat)
    requires cfg.pruneAfter >= cfg.goneAfter > 0 && OrphanPings(cfg, ops, k)
    requires forall i | 0 <= i < |ops| :: LastSweep(ops, i) <= ops[i].now
    requires forall i: nat | i < k :: !OrphanPings(cfg, ops, i)
    ensures !SweepsUnnoticed(cfg, ops)
  {
    forall i | 0 <= i < k && ops[i].op.Touch?
      ensures !Orphaned(After(cfg, ops[..i]), Unpruned(cfg, ops[..i]), ops[i].op.tokenId)
    {
      assert !OrphanPings(cfg, ops, i);
    }
    PruneIsNeutral(cfg, ops, k);
    var t, full, tokenId, now := After(cfg, ops[..k]), Unpruned(cfg, ops[..k]), ops[k].op.tokenId, ops[k].now;
    AfterStep(cfg, ops, k);
    UnprunedStep(cfg, ops, k);
    TouchRevealsOrphans(cfg, t, full, LastSweep(ops, k), tokenId, now);
    var name :| Resolve(cfg, Touched(t, tokenId, now), name, now) != Resolve(cfg, Touched(full, tokenId, now), name,
      now);
    assert LastSweep(ops, k + 1) <= now;
    assert Resolve(cfg, After(cfg, ops[..k + 1]), name, now) != Resolve(cfg, Unpruned(cfg, ops[..k + 1]), name, now);
  }

  /**
   Over runs, exactly: with rows kept at least until they are gone, rows that can be live, and clocks no
   older than an earlier sweep's, sweeps go unnoticed if and only if no owner of a dropped, unmarked row pings.
   */
  lemma SweepsUnnoticedIff(cfg: Config, ops: seq<Stamped>)
    requires cfg.pruneAfter >= cfg.goneAfter > 0
    requires forall k | 0 <= k < |ops| :: LastSweep(ops, k) <= ops[k].now
    ensures SweepsUnnoticed(cfg, ops) <==> forall k: nat :: !OrphanPings(cfg, ops, k)
  {
    if k: nat :| OrphanPings(cfg, ops, k) {
      var first := FirstOrphanPing(cfg, ops, k);
      OrphanPingShows(cfg, ops, first);
    } else {
      forall n: nat, name, now: nat | n <= |ops| && LastSweep(ops, n) <= now
        ensures Resolve(cfg, After(cfg, ops[..n]), name, now) == Resolve(cfg, Unpruned(cfg, ops[..n]), name, now)
      {
        forall i | 0 <= i < n && ops[i].op.Touch?
          ensures !Orphaned(After(cfg, ops[..i]), Unpruned(cfg, ops[..i]), ops[i].op.tokenId)
        {
          assert !OrphanPings(cfg, ops, i);
        }
        PruneUnobservable(cfg, ops, n, now);
      }
    }
  }
}
