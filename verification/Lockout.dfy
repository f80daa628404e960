/**
 The failed-authentication lockout (src/wire/lockout.rs:80-161): per source address, a window of
 recent failures that is pruned as it is counted, and the end of a lock. `now` is an input of both
 operations, as the source reads it on entry.
 */
module Lockout {
  import opened Prelude

  type Ip = nat

  datatype Params = Params(maxFailures: nat, window: nat, lockout: nat)

  datatype IpState = IpState(failures: seq<nat>, lockedUntil: Option<nat>)

  function Elapsed(now: nat, since: nat): (d: nat)
  {
    if now >= since then now - since else 0
  }

  /** The times that lie strictly within the window before `now`. */
  function Recent(p: Params, times: seq<nat>, now: nat): (r: seq<nat>)
  {
    if times == [] then []
    else Recent(p, times[..|times| - 1], now) +
         (if Elapsed(now, times[|times| - 1]) < p.window then [times[|times| - 1]] else [])
  }

  /** On the clock, a failure at `t` is less than a window old; one that is ahead of the clock is as one now. */
  predicate Counts(t: nat, now: nat, window: nat)
  {
    now < (if t <= now then t else now) + window
  }

  /** The positions of the times that count, in order. */
  ghost predicate Positions(times: seq<nat>, now: nat, window: nat, at: seq<nat>)
  {
    AllCount(times, now, window, at) && Rising(at) && NoneMissing(times, now, window, at)
  }

  ghost predicate AllCount(times: seq<nat>, now: nat, window: nat, at: seq<nat>)
  {
    forall j | 0 <= j < |at| :: at[j] < |times| && Counts(times[at[j]], now, window)
  }

  ghost predicate Rising(at: seq<nat>)
  {
    forall j, k | 0 <= j < k < |at| :: at[j] < at[k]
  }

  ghost predicate NoneMissing(times: seq<nat>, now: nat, window: nat, at: seq<nat>)
  {
    forall i: nat | i < |times| && Counts(times[i], now, window) :: i in at
  }

  /** What is kept of the window: those times, no others, in their order. */
  ghost predicate KeptOnTheClock(times: seq<nat>, now: nat, window: nat, kept: seq<nat>)
  {
    exists at: seq<nat> :: Positions(times, now, window, at) && PickedBy(times, kept, at)
  }

  ghost predicate PickedBy(times: seq<nat>, kept: seq<nat>, at: seq<nat>)
  {
    |kept| == |at| && forall j | 0 <= j < |at| :: at[j] < |times| && kept[j] == times[at[j]]
  }

  predicate LockedAt(until: Option<nat>, now: nat)
  {
    until.Some? && until.value > now
  }

  // ----- The tracker, for one address -----

  /** `is_locked_out`: an expired lock takes the whole entry with it. */
  function Checked(st: Option<IpState>, now: nat): (out: (Option<IpState>, bool))
  {
    if st.Some? && st.value.lockedUntil.Some? then
      if LockedAt(st.value.lockedUntil, now) then (st, true) else (None, false)
    else (st, false)
  }

  /** `record_failure`. */
  function Recorded(p: Params, st: Option<IpState>, now: nat): (out: (Option<IpState>, bool))
  {
    var x := if st.Some? then st.value else IpState([], None);
    if LockedAt(x.lockedUntil, now) then (Some(x), false)
    else
      var failures := Recent(p, x.failures, now) + [now];
      if |failures| >= p.maxFailures then (Some(IpState([], Some(now + p.lockout))), true)
      else (Some(IpState(failures, x.lockedUntil)), false)
  }

  function Lookup(m: map<Ip, IpState>, ip: Ip): (st: Option<IpState>)
  {
    if ip in m then Some(m[ip]) else None
  }

  // ----- The window on the clock -----

  lemma AllCountStep(times: seq<nat>, now: nat, window: nat, t: nat, at: seq<nat>)
    requires AllCount(times, now, window, at)
    ensures AllCount(times + [t], now, window, at)
    ensures Counts(t, now, window) ==> AllCount(times + [t], now, window, at + [|times|])
  {
    forall j | 0 <= j < |at| ensures (times + [t])[at[j]] == times[at[j]] { }
  }

  lemma RisingStep(times: seq<nat>, now: nat, window: nat, at: seq<nat>)
    requires AllCount(times, now, window, at) && Rising(at)
    ensures Rising(at + [|times|])
  {
  }

  lemma NoneMissingStep(times: seq<nat>, now: nat, window: nat, t: nat, at: seq<nat>)
    requires NoneMissing(times, now, window, at)
    ensures NoneMissing(times + [t], now, window, at + [|times|])
    ensures !Counts(t, now, window) ==> NoneMissing(times + [t], now, window, at)
  {
    var all := times + [t];
    forall i: nat | i < |all| && Counts(all[i], now, window)
      ensures i in at + [|times|] && (!Counts(t, now, window) ==> i in at)
    {
      if i < |times| {
        assert all[i] == times[i];
        assert i in at;
      } else {
        assert (at + [|times|])[|at|] == i;
      }
    }
  }

  lemma PositionsStep(times: seq<nat>, now: nat, window: nat, t: nat, at: seq<nat>)
    requires Positions(times, now, window, at)
    ensures Positions(times + [t], now, window, if Counts(t, now, window) then at + [|times|] else at)
  {
    AllCountStep(times, now, window, t, at);
    RisingStep(times, now, window, at);
    NoneMissingStep(times, now, window, t, at);
  }

  lemma PickedSnoc(times: seq<nat>, kept: seq<nat>, at: seq<nat>, t: nat)
    requires PickedBy(times, kept, at)
    ensures PickedBy(times + [t], kept, at) && PickedBy(times + [t], kept + [t], at + [|times|])
  {
    forall j | 0 <= j < |at| ensures at[j] < |times + [t]| && kept[j] == (times + [t])[at[j]] { }
  }

  lemma RecentPositionsStep(p: Params, times: seq<nat>, now: nat, t: nat, at: seq<nat>) returns (at': seq<nat>)
    requires Positions(times, now, p.window, at) && PickedBy(times, Recent(p, times, now), at)
    ensures Positions(times + [t], now, p.window, at') && PickedBy(times + [t], Recent(p, times + [t], now), at')
  {
    at' := if Counts(t, now, p.window) then at + [|times|] else at;
    PositionsStep(times, now, p.window, t, at);
    RecentPickedStep(p, times, now, t, at);
  }

  lemma RecentPickedStep(p: Params, times: seq<nat>, now: nat, t: nat, at: seq<nat>)
    requires PickedBy(times, Recent(p, times, now), at)
    ensures PickedBy(times + [t], Recent(p, times + [t], now),
                     if Counts(t, now, p.window) then at + [|times|] else at)
  {
    RecentSnoc(p, times, t, now);
    PickedSnoc(times, Recent(p, times, now), at, t);
    assert Recent(p, times, now) + [] == Recent(p, times, now);
  }

  lemma {:induction false} RecentPositions(p: Params, times: seq<nat>, now: nat) returns (at: seq<nat>)
    ensures Positions(times, now, p.window, at) && PickedBy(times, Recent(p, times, now), at)
  {
    if times == [] {
      at := [];
    } else {
      var front, t := times[..|times| - 1], times[|times| - 1];
      at := RecentPositions(p, front, now);
      at := RecentPositionsStep(p, front, now, t, at);
      assert times == front + [t];
    }
  }

  /** The window keeps exactly what it should, by the clock alone. */
  lemma RecentOnTheClock(p: Params, times: seq<nat>, now: nat)
    ensures KeptOnTheClock(times, now, p.window, Recent(p, times, now))
  {
    var at := RecentPositions(p, times, now);
    assert Positions(times, now, p.window, at);
  }

  lemma PositionsCount(times: seq<nat>, now: nat, window: nat, at: seq<nat>)
    requires Positions(times, now, window, at)
    ensures |at| == |set i: nat | i < |times| && Counts(times[i], now, window)|
  {
    DistinctCount(at);
    assert forall i | i in at :: i < |times| && Counts(times[i], now, window);
    assert (set i: nat | i in at) == set i: nat | i < |times| && Counts(times[i], now, window);
  }

  lemma {:induction false} DistinctCount(at: seq<nat>)
    requires forall j, k | 0 <= j < k < |at| :: at[j] < at[k]
    ensures |set i: nat | i in at| == |at|
  {
    if at != [] {
      var front, last := at[..|at| - 1], at[|at| - 1];
      DistinctCount(front);
      assert at == front + [last];
      assert (set i: nat | i in at) == (set i: nat | i in front) + {last};
    } else {
      assert (set i: nat | i in at) == {};
    }
  }

  /** No lock reaches beyond now, and with the failures on file that are less than a window old there are enough. */
  ghost predicate TriggersOnTheClock(p: Params, st: Option<IpState>, now: nat)
  {
    match st
    case None => 1 >= p.maxFailures
    case Some(x) =>
      && (x.lockedUntil.Some? ==> x.lockedUntil.value <= now)
      && |set i: nat | i < |x.failures| && Counts(x.failures[i], now, p.window)| + 1 >= p.maxFailures
  }

  /** Exactly when a failure triggers, by the clock alone. */
  lemma TriggerIsOnTheClock(p: Params, st: Option<IpState>, now: nat)
    ensures Recorded(p, st, now).1 <==> TriggersOnTheClock(p, st, now)
  {
    if st.Some? {
      var at := RecentPositions(p, st.value.failures, now);
      PositionsCount(st.value.failures, now, p.window, at);
    }
  }

  /** A failure counts until just before it is a window old. */
  lemma CountsForAWindow(p: Params, t: nat)
    requires p.window > 0
    ensures Recent(p, [t], t + p.window - 1) == [t] && Recent(p, [t], t + p.window) == []
  {
    assert [t][..0] == [];
  }

  class Tracker {
    const p: Params
    var byIp: map<Ip, IpState>

    constructor (p: Params)
      ensures this.p == p && byIp == map[]
    {
      this.p := p;
      byIp := map[];
    }

    method IsLockedOut(ip: Ip, now: nat) returns (locked: bool)
      modifies this
      ensures (Lookup(byIp, ip), locked) == Checked(Lookup(old(byIp), ip), now)
      ensures forall other | other != ip :: Lookup(byIp, other) == Lookup(old(byIp), other)
    {
      locked := false;
      if ip in byIp && byIp[ip].lockedUntil.Some? {
        if byIp[ip].lockedUntil.value > now {
          locked := true;
        } else {
          byIp := byIp - {ip};
        }
      }
    }

    /** `Vec::retain` over the window. */
    method Retain(times: seq<nat>, now: nat) returns (kept: seq<nat>)
      ensures kept == Recent(p, times, now)
      ensures KeptOnTheClock(times, now, p.window, kept)
    {
      kept := [];
      for i := 0 to |times|
        invariant kept == Recent(p, times[..i], now)
      {
        assert times[..i + 1][..i] == times[..i];
        if Elapsed(now, times[i]) < p.window {
          kept := kept + [times[i]];
        }
      }
      assert times[..|times|] == times;
      RecentOnTheClock(p, times, now);
    }

    /** The check, the window, the count, and the lock if the count is reached. */
    method RecordFailure(ip: Ip, now: nat) returns (triggered: bool)
      modifies this
      ensures (Lookup(byIp, ip), triggered) == Recorded(p, Lookup(old(byIp), ip), now)
      ensures triggered <==> TriggersOnTheClock(p, Lookup(old(byIp), ip), now)
      ensures forall other | other != ip :: Lookup(byIp, other) == Lookup(old(byIp), other)
    {
      TriggerIsOnTheClock(p, Lookup(byIp, ip), now);
      var state := if ip in byIp then byIp[ip] else IpState([], None);
      byIp := byIp[ip := state];
      if state.lockedUntil.Some? && state.lockedUntil.value > now {
        return false;
      }
      var failures := Retain(state.failures, now);
      failures := failures + [now];
      triggered := |failures| >= p.maxFailures;
      if triggered {
        byIp := byIp[ip := IpState([], Some(now + p.lockout))];
      } else {
        byIp := byIp[ip := state.(failures := failures)];
      }
    }
  }

  // ----- The policy: a count over the full history -----

  /** Every failure counted since the last trigger, none forgotten, and the end of the last lock. */
  datatype History = History(counted: seq<nat>, until: Option<nat>)

  /** A failure triggers when, with the earlier counted ones strictly within the window, there are enough. */
  function PolicyRecord(p: Params, h: History, now: nat): (out: (History, bool))
  {
    if LockedAt(h.until, now) then (h, false)
    else if |Recent(p, h.counted, now)| + 1 >= p.maxFailures then (History([], Some(now + p.lockout)), true)
    else (History(h.counted + [now], h.until), false)
  }

  datatype Event = Check(now: nat) | Fail(now: nat)

  function TrackerStep(p: Params, st: Option<IpState>, e: Event): (out: (Option<IpState>, bool))
  {
    match e
    case Check(now) => Checked(st, now)
    case Fail(now) => Recorded(p, st, now)
  }

  function PolicyStep(p: Params, h: History, e: Event): (out: (History, bool))
  {
    match e
    case Check(now) => (h, LockedAt(h.until, now))
    case Fail(now) => PolicyRecord(p, h, now)
  }

  function TrackerAfter(p: Params, es: seq<Event>): (st: Option<IpState>)
  {
    if es == [] then None else TrackerStep(p, TrackerAfter(p, es[..|es| - 1]), es[|es| - 1]).0
  }

  function PolicyAfter(p: Params, es: seq<Event>): (h: History)
  {
    if es == [] then History([], None) else PolicyStep(p, PolicyAfter(p, es[..|es| - 1]), es[|es| - 1]).0
  }

  lemma AfterStep(p: Params, es: seq<Event>, i: nat)
    requires i < |es|
    ensures TrackerAfter(p, es[..i + 1]) == TrackerStep(p, TrackerAfter(p, es[..i]), es[i]).0
    ensures PolicyAfter(p, es[..i + 1]) == PolicyStep(p, PolicyAfter(p, es[..i]), es[i]).0
  {
    assert es[..i + 1][..i] == es[..i];
  }

  // ----- The pruned window counts like the full one -----

  lemma RecentSnoc(p: Params, times: seq<nat>, t: nat, now: nat)
    ensures Recent(p, times + [t], now) == Recent(p, times, now) + (if Elapsed(now, t) < p.window then [t] else [])
  {
    assert (times + [t])[..|times|] == times;
  }

  lemma {:induction false} RecentSplit(p: Params, a: seq<nat>, b: seq<nat>, now: nat)
    ensures Recent(p, a + b, now) == Recent(p, a, now) + Recent(p, b, now)
  {
    if b == [] {
      assert a + b == a;
    } else {
      var front, t := b[..|b| - 1], b[|b| - 1];
      RecentSplit(p, a, front, now);
      assert a + b == (a + front) + [t] && b == front + [t];
      RecentSnoc(p, a + front, t, now);
      RecentSnoc(p, front, t, now);
    }
  }

  /** What has left the window does not come back: pruning early changes no later count. */
  lemma {:induction false} PruningEarly(p: Params, times: seq<nat>, now: nat, later: nat)
    requires now <= later
    ensures Recent(p, Recent(p, times, now), later) == Recent(p, times, later)
  {
    if times != [] {
      var front, t := times[..|times| - 1], times[|times| - 1];
      PruningEarly(p, front, now, later);
      RecentSplit(p, Recent(p, front, now), if Elapsed(now, t) < p.window then [t] else [], later);
      assert [t][..0] == [];
    }
  }

  function Failures(st: Option<IpState>): (f: seq<nat>)
  {
    if st.Some? then st.value.failures else []
  }

  function Until(st: Option<IpState>): (u: Option<nat>)
  {
    if st.Some? then st.value.lockedUntil else None
  }

  /** From `since` on, the tracker's entry locks and counts as the full history does. */
  ghost predicate Tracks(p: Params, st: Option<IpState>, h: History, since: nat)
  {
    && (forall now: nat | since <= now :: LockedAt(Until(st), now) == LockedAt(h.until, now))
    && (forall now: nat | since <= now :: Recent(p, Failures(st), now) == Recent(p, h.counted, now))
  }

  lemma RecordTracks(p: Params, st: Option<IpState>, h: History, since: nat, now: nat)
    requires Tracks(p, st, h, since) && since <= now
    ensures Recorded(p, st, now).1 == PolicyRecord(p, h, now).1
    ensures Tracks(p, Recorded(p, st, now).0, PolicyRecord(p, h, now).0, now)
  {
    var st', h' := Recorded(p, st, now).0, PolicyRecord(p, h, now).0;
    assert LockedAt(Until(st), now) == LockedAt(h.until, now);
    assert Recent(p, Failures(st), now) == Recent(p, h.counted, now);
    if !LockedAt(h.until, now) && !PolicyRecord(p, h, now).1 {
      forall later: nat | now <= later ensures Recent(p, Failures(st'), later) == Recent(p, h'.counted, later) {
        RecentSplit(p, Recent(p, Failures(st), now), [now], later);
        RecentSplit(p, h.counted, [now], later);
        PruningEarly(p, Failures(st), now, later);
        assert Recent(p, Failures(st), later) == Recent(p, h.counted, later);
      }
    }
  }

  /** The check that finds an expired lock throws away failures that still count. */
  predicate Discards(p: Params, st: Option<IpState>, now: nat)
  {
    Until(st).Some? && !LockedAt(Until(st), now) && Recent(p, Failures(st), now) != []
  }

  /** A check answers right, and leaves a right entry exactly when it discards nothing that still counts. */
  lemma CheckTracks(p: Params, st: Option<IpState>, h: History, since: nat, now: nat)
    requires Tracks(p, st, h, since) && since <= now
    ensures Checked(st, now).1 == LockedAt(h.until, now)
    ensures Tracks(p, Checked(st, now).0, h, now) <==> !Discards(p, st, now)
  {
    assert LockedAt(Until(st), now) == LockedAt(h.until, now);
    assert Recent(p, Failures(st), now) == Recent(p, h.counted, now);
    var st' := Checked(st, now).0;
    if Discards(p, st, now) {
      assert Recent(p, Failures(st'), now) == [];
    } else if st'.None? && st.Some? {
      forall later: nat | now <= later ensures Recent(p, [], later) == Recent(p, h.counted, later) {
        PruningEarly(p, h.counted, now, later);
        assert LockedAt(Until(st), later) == LockedAt(h.until, later);
      }
    }
  }

  /** The clocks of the events do not run backwards. */
  predicate InOrder(es: seq<Event>)
  {
    forall i, j | 0 <= i < j < |es| :: es[i].now <= es[j].now
  }

  function LastClock(es: seq<Event>, n: nat): (now: nat)
    requires n <= |es|
  {
    if n == 0 then 0 else es[n - 1].now
  }

  /**
   Over every history in which no check discards failures that still count, the tracker and the policy
   agree: each failure triggers, and each check finds a lock, exactly when the full history says so.
   */
  lemma {:induction false} TrackerFollowsPolicy(p: Params, es: seq<Event>, n: nat)
    requires n <= |es| && InOrder(es)
    requires forall k | 0 <= k < n && es[k].Check? :: !Discards(p, TrackerAfter(p, es[..k]), es[k].now)
    ensures Tracks(p, TrackerAfter(p, es[..n]), PolicyAfter(p, es[..n]), LastClock(es, n))
    ensures n < |es| ==>
              TrackerStep(p, TrackerAfter(p, es[..n]), es[n]).1 == PolicyStep(p, PolicyAfter(p, es[..n]), es[n]).1
  {
    if n > 0 {
      TrackerFollowsPolicy(p, es, n - 1);
      FollowAt(p, es, n - 1);
    }
    if n < |es| {
      AnswerAt(p, es, n);
    }
  }

  lemma FollowAt(p: Params, es: seq<Event>, n: nat)
    requires n < |es| && InOrder(es)
    requires Tracks(p, TrackerAfter(p, es[..n]), PolicyAfter(p, es[..n]), LastClock(es, n))
    requires es[n].Check? ==> !Discards(p, TrackerAfter(p, es[..n]), es[n].now)
    ensures Tracks(p, TrackerAfter(p, es[..n + 1]), PolicyAfter(p, es[..n + 1]), LastClock(es, n + 1))
  {
    AfterStep(p, es, n);
    assert n > 0 ==> es[n - 1].now <= es[n].now;
    match es[n] {
      case Check(now) => CheckTracks(p, TrackerAfter(p, es[..n]), PolicyAfter(p, es[..n]), LastClock(es, n), now);
      case Fail(now) => RecordTracks(p, TrackerAfter(p, es[..n]), PolicyAfter(p, es[..n]), LastClock(es, n), now);
    }
  }

  lemma AnswerAt(p: Params, es: seq<Event>, n: nat)
    requires n < |es| && InOrder(es)
    requires Tracks(p, TrackerAfter(p, es[..n]), PolicyAfter(p, es[..n]), LastClock(es, n))
    ensures TrackerStep(p, TrackerAfter(p, es[..n]), es[n]).1 == PolicyStep(p, PolicyAfter(p, es[..n]), es[n]).1
  {
    assert n > 0 ==> es[n - 1].now <= es[n].now;
    match es[n] {
      case Check(now) => CheckTracks(p, TrackerAfter(p, es[..n]), PolicyAfter(p, es[..n]), LastClock(es, n), now);
      case Fail(now) => RecordTracks(p, TrackerAfter(p, es[..n]), PolicyAfter(p, es[..n]), LastClock(es, n), now);
    }
  }

  /** The failure at `i` triggers a lock. */
  predicate Triggers(p: Params, es: seq<Event>, i: nat)
  {
    i < |es| && es[i].Fail? && TrackerStep(p, TrackerAfter(p, es[..i]), es[i]).1
  }

  /** Every failure that comes once a lock has ended has a check before it that came after that end as well. */
  predicate PromptlyChecked(p: Params, es: seq<Event>)
  {
    forall i: nat, k: nat | i < k < |es| && Triggers(p, es, i) && es[k].Fail? && es[k].now >= es[i].now + p.lockout ::
      exists j: nat :: i < j < k && es[j].Check? && es[j].now >= es[i].now + p.lockout
  }

  /** The lock on file was set by the trigger at `i`, and no check since has found it expired. */
  ghost predicate LockedBy(p: Params, es: seq<Event>, n: nat, i: nat)
    requires n <= |es|
  {
    && i < n && Triggers(p, es, i) && Until(TrackerAfter(p, es[..n])) == Some(es[i].now + p.lockout)
    && forall j: nat | i < j < n && es[j].Check? :: es[j].now < es[i].now + p.lockout
  }

  /** What the entry looks like as long as checks come promptly: a lock on file means nothing in the window. */
  ghost predicate Tidy(p: Params, es: seq<Event>, n: nat)
    requires n <= |es|
  {
    var st := TrackerAfter(p, es[..n]);
    Until(st).Some? ==> Failures(st) == [] && exists i: nat :: LockedBy(p, es, n, i)
  }

  lemma TidyCheck(p: Params, es: seq<Event>, n: nat)
    requires n < |es| && es[n].Check? && Tidy(p, es, n)
    ensures Tidy(p, es, n + 1)
  {
    AfterStep(p, es, n);
    var st, st' := TrackerAfter(p, es[..n]), TrackerAfter(p, es[..n + 1]);
    if Until(st').Some? {
      assert st' == st;
      var i: nat :| LockedBy(p, es, n, i);
      assert LockedBy(p, es, n + 1, i);
    }
  }

  /** With prompt checks, a failure that finds a lock on file comes before its end. */
  lemma StillLocked(p: Params, es: seq<Event>, n: nat, i: nat)
    requires n < |es| && es[n].Fail? && LockedBy(p, es, n, i) && PromptlyChecked(p, es)
    ensures es[n].now < es[i].now + p.lockout
  {
  }

  /** A failure during the lock changes nothing. */
  lemma LockedStays(p: Params, es: seq<Event>, n: nat, i: nat)
    requires n < |es| && es[n].Fail? && LockedBy(p, es, n, i) && es[n].now < es[i].now + p.lockout
    ensures TrackerAfter(p, es[..n + 1]) == TrackerAfter(p, es[..n]) && LockedBy(p, es, n + 1, i)
  {
    AfterStep(p, es, n);
  }

  /** A failure that triggers leaves its lock on file, and nothing else. */
  lemma TriggerLocks(p: Params, es: seq<Event>, n: nat)
    requires Triggers(p, es, n)
    ensures Failures(TrackerAfter(p, es[..n + 1])) == [] && LockedBy(p, es, n + 1, n)
  {
    AfterStep(p, es, n);
  }

  lemma TidyFail(p: Params, es: seq<Event>, n: nat)
    requires n < |es| && es[n].Fail? && Tidy(p, es, n) && PromptlyChecked(p, es)
    ensures Tidy(p, es, n + 1)
  {
    if Triggers(p, es, n) {
      TriggerLocks(p, es, n);
    } else if Until(TrackerAfter(p, es[..n])).Some? {
      var i: nat :| LockedBy(p, es, n, i);
      StillLocked(p, es, n, i);
      LockedStays(p, es, n, i);
    } else {
      AfterStep(p, es, n);
    }
  }

  lemma {:induction false} TidyUpTo(p: Params, es: seq<Event>, n: nat)
    requires n <= |es| && PromptlyChecked(p, es)
    ensures Tidy(p, es, n)
  {
    if n > 0 {
      TidyUpTo(p, es, n - 1);
      if es[n - 1].Check? { TidyCheck(p, es, n - 1); } else { TidyFail(p, es, n - 1); }
    }
  }

  /**
   A check between the end of every lock and the next failure is enough for that. A connection's own check
   is not such a check: it comes before the handshake, and the lock may begin and end before it fails.
   */
  lemma PromptCheckDiscardsNothing(p: Params, es: seq<Event>, n: nat, now: nat)
    requires n <= |es| && PromptlyChecked(p, es)
    ensures !Discards(p, TrackerAfter(p, es[..n]), now)
  {
    TidyUpTo(p, es, n);
    assert Recent(p, [], now) == [];
  }

  /** So over such histories the tracker answers every event as the full history does. */
  lemma PromptChecksAgree(p: Params, es: seq<Event>, n: nat)
    requires n < |es| && InOrder(es) && PromptlyChecked(p, es)
    ensures TrackerStep(p, TrackerAfter(p, es[..n]), es[n]).1 == PolicyStep(p, PolicyAfter(p, es[..n]), es[n]).1
  {
    forall k | 0 <= k < n && es[k].Check? ensures !Discards(p, TrackerAfter(p, es[..k]), es[k].now) {
      PromptCheckDiscardsNothing(p, es, k, es[k].now);
    }
    TrackerFollowsPolicy(p, es, n);
  }

  // ----- Whole histories on the clock -----

  lemma {:induction false} FailuresArePast(p: Params, es: seq<Event>, n: nat, now: nat)
    requires n <= |es| && forall k | 0 <= k < n :: es[k].now <= now
    ensures forall t <- Failures(TrackerAfter(p, es[..n])) :: t <= now
    ensures forall t <- PolicyAfter(p, es[..n]).counted :: t <= now
  {
    if n > 0 {
      FailuresArePast(p, es, n - 1, now);
      AfterStep(p, es, n - 1);
      TrackerPastStep(p, TrackerAfter(p, es[..n - 1]), es[n - 1], now);
      PolicyPastStep(p, PolicyAfter(p, es[..n - 1]), es[n - 1], now);
    }
  }

  lemma TrackerPastStep(p: Params, st: Option<IpState>, e: Event, now: nat)
    requires e.now <= now && forall t <- Failures(st) :: t <= now
    ensures forall t <- Failures(TrackerStep(p, st, e).0) :: t <= now
  {
    RecentIsPart(p, Failures(st), e.now);
  }

  lemma PolicyPastStep(p: Params, h: History, e: Event, now: nat)
    requires e.now <= now && forall t <- h.counted :: t <= now
    ensures forall t <- PolicyStep(p, h, e).0.counted :: t <= now
  {
  }

  lemma {:induction false} RecentIsPart(p: Params, times: seq<nat>, now: nat)
    ensures forall t <- Recent(p, times, now) :: t in times
  {
    if times != [] { RecentIsPart(p, times[..|times| - 1], now); }
  }

  /** Of times that are past, those that count are those `t` with `now < t + window`. */
  lemma PastCount(times: seq<nat>, now: nat, window: nat)
    requires forall t <- times :: t <= now
    ensures (set i: nat | i < |times| && Counts(times[i], now, window)) ==
            set i: nat | i < |times| && now < times[i] + window
  {
    assert forall i: nat | i < |times| :: times[i] in times;
  }

  /**
   Over every ordered history: a failure locks the address exactly if no lock reaches beyond it and, with the
   failures `t` still on file for which `now < t + window`, there are enough.
   */
  lemma FailureTriggersIff(p: Params, es: seq<Event>, n: nat)
    requires n < |es| && InOrder(es) && es[n].Fail?
    ensures var times, until, now := Failures(TrackerAfter(p, es[..n])), Until(TrackerAfter(p, es[..n])), es[n].now;
            Triggers(p, es, n) <==>
              && (until.Some? ==> until.value <= now)
              && |set i: nat | i < |times| && now < times[i] + p.window| + 1 >= p.maxFailures
  {
    var st, now := TrackerAfter(p, es[..n]), es[n].now;
    assert forall k | 0 <= k < n :: es[k].now <= now;
    FailuresArePast(p, es, n, now);
    TriggerIsOnTheClock(p, st, now);
    PastCount(Failures(st), now, p.window);
    assert st.None? ==> (set i: nat | i < |Failures(st)| && now < Failures(st)[i] + p.window) == {};
  }

  /** So does the count over the full history, of all the failures counted since the last lock. */
  lemma PolicyTriggersIff(p: Params, es: seq<Event>, n: nat)
    requires n < |es| && InOrder(es) && es[n].Fail?
    ensures var h, now := PolicyAfter(p, es[..n]), es[n].now;
            PolicyRecord(p, h, now).1 <==>
              && (h.until.Some? ==> h.until.value <= now)
              && |set i: nat | i < |h.counted| && now < h.counted[i] + p.window| + 1 >= p.maxFailures
  {
    var h, now := PolicyAfter(p, es[..n]), es[n].now;
    assert forall k | 0 <= k < n :: es[k].now <= now;
    FailuresArePast(p, es, n, now);
    var at := RecentPositions(p, h.counted, now);
    PositionsCount(h.counted, now, p.window, at);
    PastCount(h.counted, now, p.window);
  }

  // ----- What a discarding check costs -----

  /** The tracker after `m` failures at one and the same instant. */
  function TrackerFrom(p: Params, st: Option<IpState>, m: nat, now: nat): (st': Option<IpState>)
  {
    if m == 0 then st else Recorded(p, TrackerFrom(p, st, m - 1, now), now).0
  }

  function PolicyFrom(p: Params, h: History, m: nat, now: nat): (h': History)
  {
    if m == 0 then h else PolicyRecord(p, PolicyFrom(p, h, m - 1, now), now).0
  }

  lemma OneMore(p: Params, times: seq<nat>, now: nat)
    requires p.window > 0
    ensures |Recent(p, times + [now], now)| == |Recent(p, times, now)| + 1
  {
    assert (times + [now])[..|times|] == times;
  }

  /** The tracker's count, of failures within the window. */
  function Count(p: Params, st: Option<IpState>, now: nat): (n: nat)
  {
    |Recent(p, Failures(st), now)|
  }

  lemma TrackerOneMore(p: Params, st: Option<IpState>, now: nat)
    requires p.window > 0 && !LockedAt(Until(st), now) && Count(p, st, now) + 1 < p.maxFailures
    ensures Until(Recorded(p, st, now).0) == Until(st) && Count(p, Recorded(p, st, now).0, now) == Count(p, st, now) + 1
  {
    OneMore(p, Recent(p, Failures(st), now), now);
    PruningEarly(p, Failures(st), now, now);
  }

  /** The tracker, not locked now, holds `count` failures within the window, and its lock ends where it did. */
  ghost predicate Holding(p: Params, st: Option<IpState>, until: Option<nat>, count: nat, now: nat)
  {
    Until(st) == until && Count(p, st, now) == count
  }

  lemma HoldingOneMore(p: Params, st: Option<IpState>, until: Option<nat>, count: nat, now: nat)
    requires p.window > 0 && !LockedAt(until, now) && count + 1 < p.maxFailures && Holding(p, st, until, count, now)
    ensures Holding(p, Recorded(p, st, now).0, until, count + 1, now)
  {
    TrackerOneMore(p, st, now);
  }

  lemma {:induction false} TrackerBurst(p: Params, st: Option<IpState>, m: nat, now: nat)
    requires p.window > 0 && !LockedAt(Until(st), now) && Count(p, st, now) + m < p.maxFailures
    ensures Holding(p, TrackerFrom(p, st, m, now), Until(st), Count(p, st, now) + m, now)
  {
    if m > 0 {
      TrackerBurst(p, st, m - 1, now);
      HoldingOneMore(p, TrackerFrom(p, st, m - 1, now), Until(st), Count(p, st, now) + m - 1, now);
    }
  }

  function PolicyCount(p: Params, h: History, now: nat): (n: nat)
  {
    |Recent(p, h.counted, now)|
  }

  lemma PolicyOneMore(p: Params, h: History, now: nat)
    requires p.window > 0 && !LockedAt(h.until, now) && PolicyCount(p, h, now) + 1 < p.maxFailures
    ensures PolicyRecord(p, h, now).0.until == h.until &&
            PolicyCount(p, PolicyRecord(p, h, now).0, now) == PolicyCount(p, h, now) + 1
  {
    OneMore(p, h.counted, now);
  }

  lemma {:induction false} PolicyBurst(p: Params, h: History, m: nat, now: nat)
    requires p.window > 0 && !LockedAt(h.until, now) && PolicyCount(p, h, now) + m < p.maxFailures
    ensures PolicyFrom(p, h, m, now).until == h.until &&
            PolicyCount(p, PolicyFrom(p, h, m, now), now) == PolicyCount(p, h, now) + m
  {
    if m > 0 {
      PolicyBurst(p, h, m - 1, now);
      PolicyOneMore(p, PolicyFrom(p, h, m - 1, now), now);
    }
  }

  /**
   If a check discards failures that still count, it shows: after enough further failures at that very
   instant, the policy locks the address out and the tracker does not.
   */
  lemma DiscardShows(p: Params, st: Option<IpState>, h: History, since: nat, now: nat) returns (m: nat)
    requires Tracks(p, st, h, since) && since <= now && Discards(p, st, now)
    requires |Recent(p, Failures(st), now)| < p.maxFailures
    ensures var st' := Checked(st, now).0;
            PolicyRecord(p, PolicyFrom(p, h, m, now), now).1 && !Recorded(p, TrackerFrom(p, st', m, now), now).1
    ensures m < p.maxFailures
  {
    var k := |Recent(p, h.counted, now)|;
    assert Recent(p, Failures(st), now) == Recent(p, h.counted, now);
    assert LockedAt(Until(st), now) == LockedAt(h.until, now);
    m := p.maxFailures - 1 - k;
    if p.window == 0 { NoWindow(p, h.counted, now); }
    TrackerBurst(p, Checked(st, now).0, m, now);
    PolicyBurst(p, h, m, now);
  }

  lemma {:induction false} NoWindow(p: Params, times: seq<nat>, now: nat)
    requires p.window == 0
    ensures Recent(p, times, now) == []
  {
    if times != [] { NoWindow(p, times[..|times| - 1], now); }
  }

  /** The tracker never holds as many failures as trigger. */
  lemma {:induction false} BelowThreshold(p: Params, es: seq<Event>)
    ensures Failures(TrackerAfter(p, es)) == [] || |Failures(TrackerAfter(p, es))| < p.maxFailures
  {
    if es != [] {
      BelowThreshold(p, es[..|es| - 1]);
    }
  }

  lemma {:induction false} RecentIsShorter(p: Params, times: seq<nat>, now: nat)
    ensures |Recent(p, times, now)| <= |times|
  {
    if times != [] { RecentIsShorter(p, times[..|times| - 1], now); }
  }

  /** So the condition of the agreement theorem is exact: the first check of a history to break it is noticed. */
  lemma FirstDiscardShows(p: Params, es: seq<Event>, n: nat) returns (m: nat)
    requires n < |es| && InOrder(es) && es[n].Check?
    requires forall k | 0 <= k < n && es[k].Check? :: !Discards(p, TrackerAfter(p, es[..k]), es[k].now)
    requires Discards(p, TrackerAfter(p, es[..n]), es[n].now)
    ensures var now := es[n].now;
            && PolicyRecord(p, PolicyFrom(p, PolicyAfter(p, es[..n + 1]), m, now), now).1
            && !Recorded(p, TrackerFrom(p, TrackerAfter(p, es[..n + 1]), m, now), now).1
    ensures m < p.maxFailures
  {
    TrackerFollowsPolicy(p, es, n);
    BelowThreshold(p, es[..n]);
    var st := TrackerAfter(p, es[..n]);
    RecentIsShorter(p, Failures(st), es[n].now);
    AfterStep(p, es, n);
    assert n > 0 ==> es[n - 1].now <= es[n].now;
    m := DiscardShows(p, st, PolicyAfter(p, es[..n]), LastClock(es, n), es[n].now);
  }

  // ----- Where it can happen -----

  function Burst(m: nat, now: nat): (es: seq<Event>)
    ensures |es| == m && forall e <- es :: e == Fail(now)
  {
    seq(m, _ => Fail(now))
  }

  lemma BurstSnoc(es: seq<Event>, m: nat, now: nat)
    requires m > 0
    ensures es + Burst(m, now) == es + Burst(m - 1, now) + [Fail(now)]
  {
    assert Burst(m, now) == Burst(m - 1, now) + [Fail(now)];
  }

  lemma AfterSnoc(p: Params, es: seq<Event>, e: Event)
    ensures TrackerAfter(p, es + [e]) == TrackerStep(p, TrackerAfter(p, es), e).0
    ensures PolicyAfter(p, es + [e]) == PolicyStep(p, PolicyAfter(p, es), e).0
  {
    assert (es + [e])[..|es|] == es;
  }

  /** A history that goes on with a burst of failures at one instant. */
  lemma {:induction false} BurstAfter(p: Params, es: seq<Event>, m: nat, now: nat)
    ensures TrackerAfter(p, es + Burst(m, now)) == TrackerFrom(p, TrackerAfter(p, es), m, now)
    ensures PolicyAfter(p, es + Burst(m, now)) == PolicyFrom(p, PolicyAfter(p, es), m, now)
  {
    if m == 0 {
      assert es + Burst(0, now) == es;
    } else {
      BurstAfter(p, es, m - 1, now);
      BurstSnoc(es, m, now);
      AfterSnoc(p, es + Burst(m - 1, now), Fail(now));
    }
  }

  /** As many failures at once as trigger: the address is locked, and nothing is left in its window. */
  lemma BurstLocks(p: Params, now: nat)
    requires p.window > 0 && p.maxFailures > 0
    ensures TrackerFrom(p, None, p.maxFailures, now) == Some(IpState([], Some(now + p.lockout)))
  {
    TrackerBurst(p, None, p.maxFailures - 1, now);
  }

  /** Checks that find nothing on file. */
  function Arrivals(m: nat): (es: seq<Event>)
    ensures |es| == m && forall e <- es :: e == Check(0)
  {
    seq(m, _ => Check(0))
  }

  lemma {:induction false} ArrivalsLeaveNothing(p: Params, m: nat)
    ensures TrackerAfter(p, Arrivals(m)) == None
  {
    if m > 0 {
      ArrivalsLeaveNothing(p, m - 1);
      assert Arrivals(m) == Arrivals(m - 1) + [Check(0)];
      AfterSnoc(p, Arrivals(m - 1), Check(0));
    }
  }

  /**
   Connections arrive and are checked; as many of them fail as lock the address; one more fails as the
   lock ends; and a newcomer is checked at that very moment.
   */
  function LockAndFail(p: Params): (es: seq<Event>)
  {
    Arrivals(2 * p.maxFailures + 2) + Burst(p.maxFailures, 0) + [Fail(p.lockout), Check(p.lockout)]
  }

  lemma LockAndFailShape(p: Params)
    ensures var es, a, m := LockAndFail(p), 2 * p.maxFailures + 2, p.maxFailures;
            && |es| == a + m + 2 && InOrder(es) && es[..a] == Arrivals(a) && es[..a + m] == Arrivals(a) + Burst(m, 0)
            && es[a + m] == Fail(p.lockout) && es[a + m + 1] == Check(p.lockout)
            && (forall k | 0 <= k < a :: es[k] == Check(0)) && forall k | a <= k <= a + m :: es[k].Fail?
  {
    var es, a, m := LockAndFail(p), 2 * p.maxFailures + 2, p.maxFailures;
    assert forall k | 0 <= k < a :: es[k] == Arrivals(a)[k] && Arrivals(a)[k] in Arrivals(a);
    assert forall k | a <= k < a + m :: es[k] == Burst(m, 0)[k - a] && es[k] in Burst(m, 0);
  }

  lemma FailAsLockEnds(p: Params, until: nat)
    requires p.maxFailures >= 2
    ensures Recorded(p, Some(IpState([], Some(until))), until).0 == Some(IpState([until], Some(until)))
  {
    assert Recent(p, [], until) + [until] == [until];
  }

  /** Where the check that discards is. */
  function Newcomer(p: Params): (n: nat)
  {
    3 * p.maxFailures + 3
  }

  lemma ArriveAndLock(p: Params, a: nat)
    requires p.window > 0 && p.maxFailures >= 2
    ensures TrackerAfter(p, Arrivals(a) + Burst(p.maxFailures, 0)) == Some(IpState([], Some(p.lockout)))
  {
    ArrivalsLeaveNothing(p, a);
    BurstAfter(p, Arrivals(a), p.maxFailures, 0);
    BurstLocks(p, 0);
  }

  lemma ThenFail(p: Params, front: seq<Event>, until: nat)
    requires p.maxFailures >= 2 && TrackerAfter(p, front) == Some(IpState([], Some(until)))
    ensures TrackerAfter(p, front + [Fail(until)]) == Some(IpState([until], Some(until)))
  {
    AfterSnoc(p, front, Fail(until));
    FailAsLockEnds(p, until);
  }

  lemma LockAndFailSteps(p: Params)
    requires p.window > 0 && p.maxFailures >= 2
    ensures |LockAndFail(p)| == Newcomer(p) + 1
    ensures TrackerAfter(p, LockAndFail(p)[..Newcomer(p)]) == Some(IpState([p.lockout], Some(p.lockout)))
  {
    var front := Arrivals(2 * p.maxFailures + 2) + Burst(p.maxFailures, 0);
    ArriveAndLock(p, 2 * p.maxFailures + 2);
    ThenFail(p, front, p.lockout);
    UpToNewcomer(p, front);
  }

  lemma UpToNewcomer(p: Params, front: seq<Event>)
    requires front == Arrivals(2 * p.maxFailures + 2) + Burst(p.maxFailures, 0)
    ensures |LockAndFail(p)| == Newcomer(p) + 1 && LockAndFail(p)[..Newcomer(p)] == front + [Fail(p.lockout)]
  {
    assert LockAndFail(p) == front + [Fail(p.lockout), Check(p.lockout)];
  }

  lemma LockAndFailDiscards(p: Params)
    requires p.window > 0 && p.maxFailures >= 2
    ensures |LockAndFail(p)| == Newcomer(p) + 1 && InOrder(LockAndFail(p)) && EachChecked(LockAndFail(p))
    ensures LockAndFail(p)[Newcomer(p)] == Check(p.lockout)
    ensures Discards(p, TrackerAfter(p, LockAndFail(p)[..Newcomer(p)]), p.lockout)
  {
    LockAndFailShape(p);
    LockAndFailSteps(p);
    OneMore(p, [], p.lockout);
    assert [] + [p.lockout] == [p.lockout];
    ManyArrivals(LockAndFail(p), 2 * p.maxFailures + 2);
  }

  // ----- Every failure is some connection's, and every connection is checked first -----

  function Fails(es: seq<Event>): (n: nat)
  {
    if es == [] then 0 else Fails(es[..|es| - 1]) + if es[|es| - 1].Fail? then 1 else 0
  }

  function Checks(es: seq<Event>): (n: nat)
  {
    if es == [] then 0 else Checks(es[..|es| - 1]) + if es[|es| - 1].Check? then 1 else 0
  }

  /** At no moment have there been more failures than connections that were checked. */
  predicate EachChecked(es: seq<Event>)
  {
    forall n: nat | n <= |es| :: Fails(es[..n]) <= Checks(es[..n])
  }

  lemma {:induction false} CountsUpTo(es: seq<Event>, a: nat, n: nat)
    requires a <= |es| && n <= |es| && forall k | 0 <= k < a :: es[k].Check?
    ensures Fails(es[..n]) <= (if n <= a then 0 else n - a) && Checks(es[..n]) >= (if n <= a then n else a)
  {
    if n > 0 {
      CountsUpTo(es, a, n - 1);
      assert es[..n][..n - 1] == es[..n - 1];
    }
  }

  /** Enough arrivals ahead of everything else. */
  lemma ManyArrivals(es: seq<Event>, a: nat)
    requires a <= |es| <= 2 * a && forall k | 0 <= k < a :: es[k].Check?
    ensures EachChecked(es)
  {
    forall n: nat | n <= |es| ensures Fails(es[..n]) <= Checks(es[..n]) { CountsUpTo(es, a, n); }
  }

  /** Tracker and policy answer the last event of this history differently. */
  predicate Disagree(p: Params, es: seq<Event>)
  {
    && InOrder(es) && es != []
    && var n := |es| - 1;
       TrackerStep(p, TrackerAfter(p, es[..n]), es[n]).1 != PolicyStep(p, PolicyAfter(p, es[..n]), es[n]).1
  }

  lemma NoEarlierDiscard(p: Params, k: nat)
    requires k < Newcomer(p) < |LockAndFail(p)| && LockAndFail(p)[k].Check?
    ensures TrackerAfter(p, LockAndFail(p)[..k]) == None
  {
    LockAndFailShape(p);
    assert LockAndFail(p)[..k] == Arrivals(k);
    ArrivalsLeaveNothing(p, k);
  }

  lemma LockAndFailMore(p: Params) returns (m: nat)
    requires p.window > 0 && p.maxFailures >= 2
    ensures m < p.maxFailures
    ensures var st, h, now := TrackerAfter(p, LockAndFail(p)), PolicyAfter(p, LockAndFail(p)), p.lockout;
            PolicyRecord(p, PolicyFrom(p, h, m, now), now).1 && !Recorded(p, TrackerFrom(p, st, m, now), now).1
  {
    var start, n := LockAndFail(p), Newcomer(p);
    LockAndFailDiscards(p);
    forall k | 0 <= k < n && start[k].Check? ensures !Discards(p, TrackerAfter(p, start[..k]), start[k].now) {
      NoEarlierDiscard(p, k);
    }
    m := FirstDiscardShows(p, start, n);
    assert start[..n + 1] == start;
  }

  lemma LockAndFailDisagrees(p: Params) returns (es: seq<Event>)
    requires p.window > 0 && p.maxFailures >= 2
    ensures Disagree(p, es) && EachChecked(es)
  {
    var start, now := LockAndFail(p), p.lockout;
    var m := LockAndFailMore(p);
    LockAndFailShape(p);
    BurstAfter(p, start, m, now);
    es := start + Burst(m, now) + [Fail(now)];
    assert es[..|es| - 1] == start + Burst(m, now);
    BurstInOrder(start, m, now);
    assert forall k | 0 <= k < 2 * p.maxFailures + 2 :: es[k] == start[k];
    ManyArrivals(es, 2 * p.maxFailures + 2);
  }

  lemma BurstInOrder(start: seq<Event>, m: nat, now: nat)
    requires InOrder(start) && start != [] && start[|start| - 1].now == now
    ensures InOrder(start + Burst(m, now) + [Fail(now)])
  {
    var es := start + Burst(m, now) + [Fail(now)];
    forall i | 0 <= i < |es| ensures es[i].now <= now && (i >= |start| ==> es[i].now == now) {
      assert |start| <= i < |start| + m ==> es[i] == Burst(m, now)[i - |start|] && es[i] in Burst(m, now);
    }
  }

  /** Nothing is ever kept by a tracker that triggers on the first failure. */
  lemma {:induction false} FirstFailureTriggers(p: Params, es: seq<Event>)
    requires p.maxFailures <= 1
    ensures Failures(TrackerAfter(p, es)) == []
  {
    BelowThreshold(p, es);
  }

  /**
   So the tracker follows the policy over every ordered history exactly under the parameters that keep
   no failure in hand: a threshold of one, or a window of nothing. That every connection is checked before
   it can fail makes no difference.
   */
  lemma AgreementIff(p: Params)
    ensures (exists es :: Disagree(p, es)) <==> p.maxFailures >= 2 && p.window > 0
    ensures (exists es :: Disagree(p, es) && EachChecked(es)) <==> p.maxFailures >= 2 && p.window > 0
  {
    if p.maxFailures >= 2 && p.window > 0 {
      var es := LockAndFailDisagrees(p);
    } else {
      forall es: seq<Event> | InOrder(es) && es != [] ensures !Disagree(p, es) {
        forall k | 0 <= k < |es| ensures !Discards(p, TrackerAfter(p, es[..k]), es[k].now) {
          if p.window == 0 { NoWindow(p, Failures(TrackerAfter(p, es[..k])), es[k].now); }
          if p.maxFailures <= 1 { FirstFailureTriggers(p, es[..k]); }
        }
        TrackerFollowsPolicy(p, es, |es| - 1);
      }
    }
  }

  // ----- The lock -----

  lemma LockSet(p: Params, st: Option<IpState>, e: Event)
    requires e.Fail? && TrackerStep(p, st, e).1
    ensures TrackerStep(p, st, e).0 == Some(IpState([], Some(e.now + p.lockout)))
  {
  }

  lemma WhileLocked(p: Params, e: Event, until: nat)
    ensures var (st', said) := TrackerStep(p, Some(IpState([], Some(until))), e);
            && (e.now < until ==> st' == Some(IpState([], Some(until))))
            && (said <==> if e.Check? then e.now < until else e.now >= until && p.maxFailures <= 1)
  {
    assert Recent(p, [], e.now) + [e.now] == [e.now];
  }

  /** A lock lasts exactly its duration: nothing that happens while it lasts changes it or is counted. */
  lemma {:induction false} LockIsNeverExtended(p: Params, es: seq<Event>, i: nat, n: nat)
    requires i < n <= |es| && es[i].Fail? && TrackerStep(p, TrackerAfter(p, es[..i]), es[i]).1
    requires forall k | i < k < n :: es[k].now < es[i].now + p.lockout
    ensures TrackerAfter(p, es[..n]) == Some(IpState([], Some(es[i].now + p.lockout)))
    ensures n < |es| ==>
              TrackerStep(p, TrackerAfter(p, es[..n]), es[n]).1 ==
                if es[n].Check? then es[n].now < es[i].now + p.lockout
                else es[n].now >= es[i].now + p.lockout && p.maxFailures <= 1
  {
    AfterStep(p, es, n - 1);
    if n == i + 1 {
      LockSet(p, TrackerAfter(p, es[..i]), es[i]);
    } else {
      LockIsNeverExtended(p, es, i, n - 1);
      WhileLocked(p, es[n - 1], es[i].now + p.lockout);
    }
    if n < |es| { WhileLocked(p, es[n], es[i].now + p.lockout); }
  }

  // ----- Addresses are independent -----

  datatype Sourced = From(ip: Ip, event: Event)

  function MapStep(p: Params, m: map<Ip, IpState>, x: Sourced): (m': map<Ip, IpState>)
  {
    var st := TrackerStep(p, Lookup(m, x.ip), x.event).0;
    if st.Some? then m[x.ip := st.value] else m - {x.ip}
  }

  function MapAfter(p: Params, xs: seq<Sourced>): (m: map<Ip, IpState>)
  {
    if xs == [] then map[] else MapStep(p, MapAfter(p, xs[..|xs| - 1]), xs[|xs| - 1])
  }

  function Own(xs: seq<Sourced>, ip: Ip): (es: seq<Event>)
  {
    if xs == [] then []
    else Own(xs[..|xs| - 1], ip) + (if xs[|xs| - 1].ip == ip then [xs[|xs| - 1].event] else [])
  }

  /** What the shared map holds for an address depends on that address's own events alone. */
  lemma {:induction false} AddressesAreIndependent(p: Params, xs: seq<Sourced>, ip: Ip)
    ensures Lookup(MapAfter(p, xs), ip) == TrackerAfter(p, Own(xs, ip))
  {
    if xs != [] {
      var front, last := xs[..|xs| - 1], xs[|xs| - 1];
      AddressesAreIndependent(p, front, ip);
      var es := Own(front, ip);
      if last.ip == ip {
        assert (es + [last.event])[..|es|] == es;
      } else {
        assert es + [] == es;
      }
    }
  }
}
