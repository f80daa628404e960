/**
 The roster (src/wire/roster.rs:80-452): session names, who advertises them, and a state derived from
 the clock at every read. `now` is an input of every operation, as the source reads it on entry.
 */
module Roster {
  import opened Prelude

  type Name = string

  datatype Config = Config(reconnectAfter: nat, goneAfter: nat, pruneAfter: nat)

  datatype RowState = Connected | Reconnecting | Gone

  datatype Row = Row(
    harness: string, tokenId: string, clientId: string, lastSeen: nat, goneNow: bool,
    mode: Option<string>, harnessSessionId: Option<string>, blocked: bool)

  type Table = map<Name, Row>

  /** `saturating_duration_since`: never negative. */
  function Elapsed(now: nat, since: nat): (d: nat)
  {
    if now >= since then now - since else 0
  }

  function StateAt(cfg: Config, row: Row, now: nat): (s: RowState)
  {
    if row.goneNow then Gone
    else if Elapsed(now, row.lastSeen) >= cfg.goneAfter then Gone
    else if Elapsed(now, row.lastSeen) >= cfg.reconnectAfter then Reconnecting
    else Connected
  }

  /**
   A row's state on the clock: gone once marked or silent for long enough, reconnecting before that,
   connected at first.
   */
  lemma StateOnTheClock(cfg: Config, row: Row, now: nat)
    requires row.lastSeen <= now
    ensures StateAt(cfg, row, now) == Gone <==> row.goneNow || row.lastSeen + cfg.goneAfter <= now
    ensures StateAt(cfg, row, now) == Reconnecting <==>
              !row.goneNow && row.lastSeen + cfg.reconnectAfter <= now < row.lastSeen + cfg.goneAfter
    ensures StateAt(cfg, row, now) == Connected <==>
              !row.goneNow && now < row.lastSeen + cfg.reconnectAfter && now < row.lastSeen + cfg.goneAfter
  {
  }

  /** A clock behind the row's own counts as no time passed. */
  lemma StateAheadOfTheClock(cfg: Config, row: Row, now: nat)
    requires now <= row.lastSeen
    ensures StateAt(cfg, row, now) == StateAt(cfg, row, row.lastSeen)
  {
  }

  // ----- Operations -----

  datatype Op =
    | Advertise(name: Name, harness: string, tokenId: string, clientId: string, mode: Option<string>,
      harnessSessionId: Option<string>)
    | Touch(tokenId: string)
    | SetBlocked(name: Name, blocked: bool)
    | MarkGone(tokenId: string)
    | Prune

  /** The client that holds a name against `tokenId`: another one whose row is not gone. */
  function Conflict(cfg: Config, t: Table, name: Name, tokenId: string, now: nat): (held: Option<string>)
  {
    if name in t && t[name].tokenId != tokenId && StateAt(cfg, t[name], now) != Gone then Some(t[name].clientId)
      else None
  }

  function Advertised(t: Table, op: Op, now: nat): (t': Table)
    requires op.Advertise?
  {
    t[op.name := Row(op.harness, op.tokenId, op.clientId, now, false, op.mode, op.harnessSessionId, false)]
  }

  function Touched(t: Table, tokenId: string, now: nat): (t': Table)
  {
    map n | n in t :: if t[n].tokenId == tokenId then t[n].(lastSeen := now) else t[n]
  }

  function Marked(t: Table, tokenId: string): (t': Table)
  {
    map n | n in t :: if t[n].tokenId == tokenId then t[n].(goneNow := true) else t[n]
  }

  function Pruned(cfg: Config, t: Table, now: nat): (t': Table)
  {
    map n | n in t && Elapsed(now, t[n].lastSeen) < cfg.pruneAfter :: t[n]
  }

  function Apply(cfg: Config, t: Table, op: Op, now: nat): (t': Table)
  {
    match op
    case Advertise(name, _, tokenId, _, _, _) =>
      if Conflict(cfg, t, name, tokenId, now).Some? then t else Advertised(t, op, now)
    case Touch(tokenId) => Touched(t, tokenId, now)
    case SetBlocked(name, b) => if name in t then t[name := t[name].(blocked := b)] else t
    case MarkGone(tokenId) => Marked(t, tokenId)
    case Prune => Pruned(cfg, t, now)
  }

  /**
   Exactly when an advertisement is refused, and by whom: another client's row under the name is unmarked and
   was seen less than the gone threshold ago.
   */
  lemma ConflictOnTheClock(cfg: Config, t: Table, name: Name, tokenId: string, now: nat)
    requires name in t ==> t[name].lastSeen <= now
    ensures Conflict(cfg, t, name, tokenId, now) ==
            if name in t && t[name].tokenId != tokenId && !t[name].goneNow && now < t[name].lastSeen + cfg.goneAfter
            then Some(t[name].clientId) else None
  {
  }

  /**
   What each operation does to each row, in the row's own fields; rows come only by an advertisement,
   and go only by a sweep.
   */
  lemma RowByRow(cfg: Config, t: Table, op: Op, now: nat, n: Name)
    requires n in t && t[n].lastSeen <= now
    ensures var r, t' := t[n], Apply(cfg, t, op, now);
            match op
            case Advertise(name, _, _, _, _, _) => n != name ==> n in t' && t'[n] == r
            case Touch(tokenId) =>
              n in t' && t'[n] == Row(r.harness, r.tokenId, r.clientId, if r.tokenId == tokenId then now
                else r.lastSeen,
                                      r.goneNow, r.mode, r.harnessSessionId, r.blocked)
            case SetBlocked(name, b) =>
              n in t' && t'[n] == Row(r.harness, r.tokenId, r.clientId, r.lastSeen, r.goneNow, r.mode,
                r.harnessSessionId,
                                      if n == name then b else r.blocked)
            case MarkGone(tokenId) =>
              n in t' && t'[n] == Row(r.harness, r.tokenId, r.clientId, r.lastSeen, r.goneNow || r.tokenId == tokenId,
                                      r.mode, r.harnessSessionId, r.blocked)
            case Prune => (n in t' <==> now < r.lastSeen + cfg.pruneAfter) && (n in t' ==> t'[n] == r)
    ensures Apply(cfg, t, op, now).Keys <= t.Keys + (if op.Advertise? then {op.name} else {})
  {
  }

  // ----- Readers -----

  function Resolve(cfg: Config, t: Table, name: Name, now: nat): (tokenId: Option<string>)
  {
    if name in t && StateAt(cfg, t[name], now) != Gone then Some(t[name].tokenId) else None
  }

  function Live(cfg: Config, t: Table, now: nat): (names: set<Name>)
  {
    set n | n in t && StateAt(cfg, t[n], now) != Gone
  }

  datatype SnapshotRow = SnapshotRow(
    name: Name, harness: string, clientId: string, state: RowState, lastSeenAgo: nat,
    mode: Option<string>, harnessSessionId: Option<string>, blocked: bool)

  function View(cfg: Config, t: Table, name: Name, now: nat): (r: SnapshotRow)
    requires name in t
  {
    var e := t[name];
    SnapshotRow(name, e.harness, e.clientId, StateAt(cfg, e, now), Elapsed(now, e.lastSeen), e.mode,
      e.harnessSessionId, e.blocked)
  }

  /** Names in the order of their code points, the order of their encoded bytes. */
  predicate Less(a: Name, b: Name)
    decreases |a|
  {
    b != "" && (a == "" || a[0] < b[0] || (a[0] == b[0] && Less(a[1..], b[1..])))
  }

  lemma {:induction false} LessTotal(a: Name, b: Name)
    ensures Less(a, b) || Less(b, a) || a == b
    ensures !(Less(a, b) && Less(b, a)) && !Less(a, a)
    decreases |a|
  {
    if a != "" {
      LessTotal(a[1..], a[1..]);
      if b != "" {
        LessTotal(a[1..], b[1..]);
        assert a == [a[0]] + a[1..] && b == [b[0]] + b[1..];
      }
    }
  }

  lemma {:induction false} LessTransitive(a: Name, b: Name, c: Name)
    requires Less(a, b) && Less(b, c)
    ensures Less(a, c)
    decreases |a|
  {
    if a != "" && a[0] == b[0] && b[0] == c[0] {
      LessTransitive(a[1..], b[1..], c[1..]);
    }
  }

  /** The order is that of dictionaries: the first difference decides, and a prefix comes first. */
  lemma {:induction false} LessAtFirstDifference(p: Name, c: char, d: char, a: Name, b: Name)
    ensures Less(p + [c] + a, p + [d] + b) <==> c < d || (c == d && Less(a, b))
    ensures Less(p, p + [c] + a) && !Less(p + [c] + a, p)
    decreases |p|
  {
    var x, y := p + [c] + a, p + [d] + b;
    if p != "" {
      LessAtFirstDifference(p[1..], c, d, a, b);
      assert x[1..] == p[1..] + [c] + a && y[1..] == p[1..] + [d] + b;
    } else {
      assert x[1..] == a && y[1..] == b;
    }
  }

  predicate Sorted(rows: seq<SnapshotRow>)
  {
    forall i, j | 0 <= i < j < |rows| :: Less(rows[i].name, rows[j].name)
  }

  /** The rows are the table's, one for each name, in order of name. */
  ghost predicate IsSnapshot(cfg: Config, t: Table, now: nat, rows: seq<SnapshotRow>)
  {
    && Sorted(rows)
    && (forall r <- rows :: r.name in t && r == View(cfg, t, r.name, now))
    && (forall n <- t :: View(cfg, t, n, now) in rows)
  }

  function InsertRow(rows: seq<SnapshotRow>, r: SnapshotRow): (rows': seq<SnapshotRow>)
    ensures forall x :: x in rows' <==> x in rows || x == r
  {
    if rows == [] then [r]
    else if Less(r.name, rows[0].name) then [r] + rows
    else
      assert rows == [rows[0]] + rows[1..];
      [rows[0]] + InsertRow(rows[1..], r)
  }

  lemma {:induction false} InsertSorted(rows: seq<SnapshotRow>, r: SnapshotRow)
    requires Sorted(rows) && forall x <- rows :: x.name != r.name
    ensures Sorted(InsertRow(rows, r))
  {
    if rows != [] {
      var rest := InsertRow(rows[1..], r);
      if Less(r.name, rows[0].name) {
        forall j | 0 <= j < |rows| ensures Less(r.name, rows[j].name) {
          if j > 0 { LessTransitive(r.name, rows[0].name, rows[j].name); }
        }
      } else {
        InsertSorted(rows[1..], r);
        LessTotal(r.name, rows[0].name);
        forall j | 0 <= j < |rest| ensures Less(rows[0].name, rest[j].name) {
          assert rest[j] in rest;
        }
      }
    }
  }

  /** The roster object: a table and a configuration. */
  class Board {
    const cfg: Config
    var entries: Table

    constructor (cfg: Config)
      ensures this.cfg == cfg && entries == map[]
    {
      this.cfg := cfg;
      entries := map[];
    }

    method AdvertiseWithMode(op: Op, now: nat) returns (heldBy: Option<string>)
      requires op.Advertise?
      modifies this
      ensures heldBy == Conflict(cfg, old(entries), op.name, op.tokenId, now)
      ensures entries == Apply(cfg, old(entries), op, now)
      ensures heldBy.Some? ==> entries == old(entries)
      ensures heldBy.None? ==>
                && entries.Keys == old(entries).Keys + {op.name}
                && entries[op.name] == Row(op.harness, op.tokenId, op.clientId, now, false, op.mode,
                  op.harnessSessionId, false)
                && forall n <- old(entries) | n != op.name :: entries[n] == old(entries)[n]
    {
      if op.name in entries {
        var existing := entries[op.name];
        if existing.tokenId != op.tokenId && StateAt(cfg, existing, now) != Gone {
          return Some(existing.clientId);
        }
      }
      entries := entries[op.name :=
        Row(op.harness, op.tokenId, op.clientId, now, false, op.mode, op.harnessSessionId, false)];
      heldBy := None;
    }

    /** Refreshes every row of the client, one after another. */
    method TouchClient(tokenId: string, now: nat)
      modifies this
      ensures entries == Touched(old(entries), tokenId, now)
    {
      var left := entries.Keys;
      while left != {}
        invariant left <= old(entries).Keys == entries.Keys
        invariant forall n <- left :: entries[n] == old(entries)[n]
        invariant forall n <- entries | n !in left :: entries[n] == Touched(old(entries), tokenId, now)[n]
        decreases left
      {
        var n :| n in left;
        left := left - {n};
        if entries[n].tokenId == tokenId {
          entries := entries[n := entries[n].(lastSeen := now)];
        }
      }
    }

    method SetBlockedFlag(name: Name, blocked: bool)
      modifies this
      ensures entries == Apply(cfg, old(entries), SetBlocked(name, blocked), 0)
    {
      if name in entries {
        entries := entries[name := entries[name].(blocked := blocked)];
      }
    }

    method MarkClientGone(tokenId: string)
      modifies this
      ensures entries == Marked(old(entries), tokenId)
    {
      var left := entries.Keys;
      while left != {}
        invariant left <= old(entries).Keys == entries.Keys
        invariant forall n <- left :: entries[n] == old(entries)[n]
        invariant forall n <- entries | n !in left :: entries[n] == Marked(old(entries), tokenId)[n]
        decreases left
      {
        var n :| n in left;
        left := left - {n};
        if entries[n].tokenId == tokenId {
          entries := entries[n := entries[n].(goneNow := true)];
        }
      }
    }

    method PruneRows(now: nat)
      modifies this
      ensures entries == Pruned(cfg, old(entries), now)
    {
      var left := entries.Keys;
      while left != {}
        invariant left <= entries.Keys <= old(entries).Keys
        invariant forall n <- entries :: entries[n] == old(entries)[n]
        invariant forall n <- old(entries) | n !in left :: n in entries <==>
          Elapsed(now, old(entries)[n].lastSeen) < cfg.pruneAfter
        decreases left
      {
        var n :| n in left;
        left := left - {n};
        if Elapsed(now, entries[n].lastSeen) >= cfg.pruneAfter {
          entries := entries - {n};
        }
      }
    }

    method ResolveSession(name: Name, now: nat) returns (tokenId: Option<string>)
      ensures tokenId == Resolve(cfg, entries, name, now)
    {
      if name !in entries || StateAt(cfg, entries[name], now) == Gone {
        tokenId := None;
      } else {
        tokenId := Some(entries[name].tokenId);
      }
    }

    method LiveCount(now: nat) returns (n: nat)
      ensures n == |Live(cfg, entries, now)|
    {
      n := 0;
      var left := entries.Keys;
      ghost var counted: set<Name> := {};
      while left != {}
        invariant left <= entries.Keys
        invariant counted == set x | x in entries && x !in left && StateAt(cfg, entries[x], now) != Gone
        invariant n == |counted|
        decreases left
      {
        var x :| x in left;
        left := left - {x};
        if StateAt(cfg, entries[x], now) != Gone {
          n := n + 1;
          counted := counted + {x};
        }
      }
      assert counted == Live(cfg, entries, now);
    }

    /** Collects a row for every name, each put in its place by name. */
    method Snapshot(now: nat) returns (rows: seq<SnapshotRow>)
      ensures IsSnapshot(cfg, entries, now, rows)
    {
      rows := [];
      var left := entries.Keys;
      while left != {}
        invariant left <= entries.Keys && Sorted(rows)
        invariant forall r <- rows :: r.name in entries && r.name !in left && r == View(cfg, entries, r.name, now)
        invariant forall n <- entries | n !in left :: View(cfg, entries, n, now) in rows
        decreases left
      {
        var n :| n in left;
        left := left - {n};
        InsertSorted(rows, View(cfg, entries, n, now));
        rows := InsertRow(rows, View(cfg, entries, n, now));
      }
    }
  }

  // ----- The readers agree -----

  /** What a snapshot shows of a row, field by field. */
  lemma SnapshotShows(cfg: Config, t: Table, now: nat, rows: seq<SnapshotRow>, n: Name)
    requires IsSnapshot(cfg, t, now, rows) && n in t && t[n].lastSeen <= now
    ensures var e := t[n];
            exists r <- rows ::
              r == SnapshotRow(n, e.harness, e.clientId, StateAt(cfg, e, now), now - e.lastSeen, e.mode,
                e.harnessSessionId,
                               e.blocked)
  {
    assert View(cfg, t, n, now) in rows;
  }

  lemma SnapshotTail(cfg: Config, t: Table, now: nat, rows: seq<SnapshotRow>)
    requires IsSnapshot(cfg, t, now, rows) && rows != []
    ensures rows[0].name in t
    ensures IsSnapshot(cfg, t - {rows[0].name}, now, rows[1..])
  {
    var head := rows[0];
    var rest, t' := rows[1..], t - {head.name};
    assert head in rows;
    forall r <- rest ensures r.name in t' && r == View(cfg, t', r.name, now) {
      var j :| 0 <= j < |rest| && rest[j] == r;
      assert rows[j + 1] == r && r in rows;
      LessTotal(head.name, r.name);
    }
    forall n <- t' ensures View(cfg, t', n, now) in rest {
      assert View(cfg, t, n, now) in rows;
    }
  }

  lemma SnapshotEmpty(cfg: Config, t: Table, now: nat, rows: seq<SnapshotRow>)
    requires IsSnapshot(cfg, t, now, rows)
    ensures rows == [] <==> t == map[]
  {
    if rows != [] { assert rows[0] in rows; }
    if t != map[] { var n :| n in t; assert View(cfg, t, n, now) in rows; }
  }

  /** Whatever order the rows are collected in, the snapshot of a table at an instant is one and the same. */
  lemma {:induction false} SnapshotUnique(cfg: Config, t: Table, now: nat, a: seq<SnapshotRow>, b: seq<SnapshotRow>)
    requires IsSnapshot(cfg, t, now, a) && IsSnapshot(cfg, t, now, b)
    ensures a == b
  {
    SnapshotEmpty(cfg, t, now, a);
    SnapshotEmpty(cfg, t, now, b);
    if a != [] {
      assert a[0] in a && b[0] in b;
      assert a[0] in b && b[0] in a;
      LessTotal(a[0].name, b[0].name);
      assert a[0].name == b[0].name;
      SnapshotTail(cfg, t, now, a);
      SnapshotTail(cfg, t, now, b);
      SnapshotUnique(cfg, t - {a[0].name}, now, a[1..], b[1..]);
    }
  }

  function CountLive(rows: seq<SnapshotRow>): (n: nat)
  {
    if rows == [] then 0 else (if rows[0].state != Gone then 1 else 0) + CountLive(rows[1..])
  }

  lemma LiveWithout(cfg: Config, t: Table, n: Name, now: nat)
    requires n in t
    ensures |Live(cfg, t, now)| == |Live(cfg, t - {n}, now)| + (if StateAt(cfg, t[n], now) != Gone then 1 else 0)
  {
    var rest := Live(cfg, t - {n}, now);
    if StateAt(cfg, t[n], now) != Gone {
      assert Live(cfg, t, now) == rest + {n};
    } else {
      assert Live(cfg, t, now) == rest;
    }
  }

  /** The live count is the number of rows the snapshot does not show as gone. */
  lemma {:induction false} CountAgrees(cfg: Config, t: Table, now: nat, rows: seq<SnapshotRow>)
    requires IsSnapshot(cfg, t, now, rows)
    ensures CountLive(rows) == |Live(cfg, t, now)|
  {
    if rows == [] {
      assert Live(cfg, t, now) == {};
    } else {
      assert rows[0] in rows;
      SnapshotTail(cfg, t, now, rows);
      CountAgrees(cfg, t - {rows[0].name}, now, rows[1..]);
      LiveWithout(cfg, t, rows[0].name, now);
    }
  }

  /** A name resolves exactly when its snapshot row is not gone. */
  lemma ResolveAgrees(cfg: Config, t: Table, now: nat, rows: seq<SnapshotRow>, name: Name)
    requires IsSnapshot(cfg, t, now, rows)
    ensures Resolve(cfg, t, name, now).Some? <==> exists r <- rows :: r.name == name && r.state != Gone
    ensures Resolve(cfg, t, name, now).Some? <==> name in Live(cfg, t, now)
  {
    if name in t { assert View(cfg, t, name, now) in rows; }
  }
}
