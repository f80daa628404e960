/** The life of the tokens over every sequence of operations on a store that starts empty. */
module TokenRuns {
  import opened Prelude
  import opened TokenStore

  /** One turn at the store: an operation, and whether the file could not be read or written. */
  datatype Turn = Turn(op: Op, failed: bool)

  function Take(mac: Mac, records: Records, t: Turn): (out: (Records, Reply))
  {
    if t.failed then (records, Refused(Io)) else Execute(mac, records, t.op)
  }

  /** The store after the turns, one by one. */
  function After(mac: Mac, turns: seq<Turn>): (records: Records)
  {
    if turns == [] then [] else Take(mac, After(mac, turns[..|turns| - 1]), turns[|turns| - 1]).0
  }

  /** What turn `i` was answered. */
  function Answer(mac: Mac, turns: seq<Turn>, i: nat): (reply: Reply)
    requires i < |turns|
  {
    Take(mac, After(mac, turns[..i]), turns[i]).1
  }

  lemma AfterStep(mac: Mac, turns: seq<Turn>, i: nat)
    requires i < |turns|
    ensures After(mac, turns[..i + 1]) == Take(mac, After(mac, turns[..i]), turns[i]).0
  {
    assert turns[..i + 1][..i] == turns[..i];
  }

  // ----- Records are never lost or renamed -----

  /** How far along its life a record is: fresh, in use, or dead. */
  function Age(s: StoredState): (n: nat)
  {
    match s
    case Unused => 0
    case Bound => 1
    case Invalidated => 2
    case Revoked => 2
  }

  /** A record of an earlier store, as a later one may have it. */
  predicate Descends(r: TokenRecord, r': TokenRecord)
  {
    && r'.tokenId == r.tokenId && r'.secretHash == r.secretHash && r'.note == r.note
    && r'.createdAt == r.createdAt && r'.expires == r.expires
    && Age(r.state) <= Age(r'.state)
  }

  predicate Extends(a: Records, b: Records)
  {
    |a| <= |b| && forall i | 0 <= i < |a| :: Descends(a[i], b[i])
  }

  lemma ChangeExtends(mac: Mac, records: Records, k: nat, op: Op)
    requires k < |records|
    ensures op.Delete? ==> Extends(records, RunDelete(records, k, op).0)
    ensures op.Redeem? ==> Extends(records, RunRedeem(mac, records, k, op).0)
  {
  }

  lemma TakeExtends(mac: Mac, records: Records, t: Turn)
    ensures Extends(records, Take(mac, records, t).0)
    ensures |Take(mac, records, t).0| == |records| + (if Take(mac, records, t).1.Minted? then 1 else 0)
  {
    var k := Index(records, t.op.tokenId);
    if k < |records| { ChangeExtends(mac, records, k, t.op); }
  }

  /** Nothing is ever removed, reordered or made younger: {Invalidated, Revoked} is never left. */
  lemma {:induction false} StoreExtends(mac: Mac, turns: seq<Turn>, i: nat, j: nat)
    requires i <= j <= |turns|
    ensures Extends(After(mac, turns[..i]), After(mac, turns[..j]))
  {
    if i < j {
      StoreExtends(mac, turns, i, j - 1);
      AfterStep(mac, turns, j - 1);
      TakeExtends(mac, After(mac, turns[..j - 1]), turns[j - 1]);
    }
  }

  function MintCount(mac: Mac, turns: seq<Turn>, n: nat): (c: nat)
    requires n <= |turns|
  {
    if n == 0 then 0 else MintCount(mac, turns, n - 1) + (if Answer(mac, turns, n - 1).Minted? then 1 else 0)
  }

  /** There are exactly as many records as successful mints. */
  lemma {:induction false} OneRecordPerMint(mac: Mac, turns: seq<Turn>, n: nat)
    requires n <= |turns|
    ensures |After(mac, turns[..n])| == MintCount(mac, turns, n)
  {
    if n > 0 {
      OneRecordPerMint(mac, turns, n - 1);
      AfterStep(mac, turns, n - 1);
      TakeExtends(mac, After(mac, turns[..n - 1]), turns[n - 1]);
    }
  }

  /** The record an id names stays the one it names. */
  lemma IndexStable(a: Records, b: Records, id: string)
    requires Extends(a, b) && Index(a, id) < |a|
    ensures Index(b, id) == Index(a, id)
  {
    var k, k' := Index(a, id), Index(b, id);
    assert Descends(a[k], b[k]);
    assert k' < k ==> Descends(a[k'], b[k']);
  }

  // ----- What a record's fields mean -----

  /** A credential is on file exactly while the token is bound, together with who redeemed it. */
  predicate RecordOk(r: TokenRecord)
  {
    && (r.credentialHash.Some? <==> r.state == Bound)
    && (r.state == Bound ==> r.clientId.Some? && r.machine.Some?)
  }

  predicate RecordsOk(records: Records)
  {
    forall i | 0 <= i < |records| :: RecordOk(records[i])
  }

  lemma {:induction false} CredentialIffBound(mac: Mac, turns: seq<Turn>)
    ensures RecordsOk(After(mac, turns))
  {
    if turns != [] {
      CredentialIffBound(mac, turns[..|turns| - 1]);
    }
  }

  // ----- Redeeming -----

  /** A turn redeemed the token. */
  predicate RedeemedAt(mac: Mac, turns: seq<Turn>, i: nat, id: string)
  {
    i < |turns| && turns[i].op.Redeem? && turns[i].op.tokenId == id && Answer(mac, turns, i).Redeemed?
  }

  predicate DeletedAt(mac: Mac, turns: seq<Turn>, i: nat, id: string)
  {
    i < |turns| && turns[i].op.Delete? && turns[i].op.tokenId == id && Answer(mac, turns, i).Deleted?
  }

  predicate VerifiedAt(mac: Mac, turns: seq<Turn>, i: nat, id: string)
  {
    i < |turns| && turns[i].op.Verify? && turns[i].op.tokenId == id && Answer(mac, turns, i).Verified?
  }

  predicate MintedAt(mac: Mac, turns: seq<Turn>, i: nat, id: string)
  {
    i < |turns| && turns[i].op.Mint? && turns[i].op.tokenId == id && Answer(mac, turns, i).Minted?
  }

  /** The state of the record an id names, before turn `i`; a missing record counts as fresh. */
  function AgeBefore(mac: Mac, turns: seq<Turn>, i: nat, id: string): (n: nat)
    requires i <= |turns|
  {
    var records := After(mac, turns[..i]);
    if Index(records, id) < |records| then Age(records[Index(records, id)].state) else 0
  }

  lemma AgeGrows(mac: Mac, turns: seq<Turn>, i: nat, j: nat, id: string)
    requires i <= j <= |turns|
    ensures AgeBefore(mac, turns, i, id) <= AgeBefore(mac, turns, j, id)
  {
    var a, b := After(mac, turns[..i]), After(mac, turns[..j]);
    StoreExtends(mac, turns, i, j);
    if Index(a, id) < |a| {
      IndexStable(a, b, id);
      assert Descends(a[Index(a, id)], b[Index(a, id)]);
    }
  }

  /** What the answer says about the record before and after the turn. */
  lemma AgeAt(mac: Mac, turns: seq<Turn>, i: nat, id: string)
    requires i < |turns|
    ensures RedeemedAt(mac, turns, i, id) ==> AgeBefore(mac, turns, i, id) == 0 && AgeBefore(mac, turns, i + 1, id) == 1
    ensures VerifiedAt(mac, turns, i, id) ==> AgeBefore(mac, turns, i, id) == 1
    ensures DeletedAt(mac, turns, i, id) ==> AgeBefore(mac, turns, i + 1, id) == 2
  {
    var a, b := After(mac, turns[..i]), After(mac, turns[..i + 1]);
    AfterStep(mac, turns, i);
    TakeExtends(mac, a, turns[i]);
    if Index(a, id) < |a| { IndexStable(a, b, id); }
  }

  /** Of all the redeems of one token, at most one succeeds. */
  lemma RedeemedOnce(mac: Mac, turns: seq<Turn>, i: nat, j: nat, id: string)
    requires RedeemedAt(mac, turns, i, id) && RedeemedAt(mac, turns, j, id)
    ensures i == j
  {
    AgeAt(mac, turns, i, id);
    AgeAt(mac, turns, j, id);
    if i < j {
      AgeGrows(mac, turns, i + 1, j, id);
    } else if j < i {
      AgeGrows(mac, turns, j + 1, i, id);
    }
  }

  /** A deleted token is dead for good: no later turn redeems or verifies it. */
  lemma DeletedForGood(mac: Mac, turns: seq<Turn>, i: nat, j: nat, id: string)
    requires i < j && DeletedAt(mac, turns, i, id)
    ensures !RedeemedAt(mac, turns, j, id) && !VerifiedAt(mac, turns, j, id)
  {
    AgeAt(mac, turns, i, id);
    if j < |turns| {
      AgeAt(mac, turns, j, id);
      AgeGrows(mac, turns, i + 1, j, id);
    }
  }

  // ----- What a delete leaves, and tells -----

  /** A delete tells, and writes, revoked for a bound token and invalidated for any other; the rest is untouched. */
  lemma DeleteMarks(mac: Mac, turns: seq<Turn>, d: nat, id: string) returns (k: nat)
    requires DeletedAt(mac, turns, d, id)
    ensures var before, after := After(mac, turns[..d]), After(mac, turns[..d + 1]);
            && Names(before, id, k) && |after| == |before|
            && (forall i | 0 <= i < |before| && i != k :: after[i] == before[i])
            && (before[k].state == Bound ==>
                  after[k] == before[k].(state := Revoked, credentialHash := None) &&
                  Answer(mac, turns, d) == Deleted(ShowRevoked))
            && (before[k].state != Bound ==>
                  after[k] == before[k].(state := Invalidated) && after[k].credentialHash == None &&
                  Answer(mac, turns, d) == Deleted(ShowInvalidated))
  {
    var before := After(mac, turns[..d]);
    k := Index(before, id);
    AfterStep(mac, turns, d);
    DeleteCases(mac, before, id, turns[d].op.now, k);
    CredentialIffBound(mac, turns[..d]);
    assert RecordOk(before[k]);
  }

  /** The record an id names is dead, this way. */
  predicate DeadAs(records: Records, id: string, k: nat, s: StoredState)
  {
    Names(records, id, k) && records[k].state == s && (s == Revoked || s == Invalidated)
  }

  lemma DeadStays(mac: Mac, turns: seq<Turn>, n: nat, next: nat, id: string, k: nat, s: StoredState)
    requires n < next == n + 1 <= |turns| && DeadAs(After(mac, turns[..n]), id, k, s) && !DeletedAt(mac, turns, n, id)
    ensures DeadAs(After(mac, turns[..next]), id, k, s)
  {
    AfterStep(mac, turns, n);
    DeadTake(mac, After(mac, turns[..n]), turns[n], id, k, s);
  }

  lemma DeadTake(mac: Mac, records: Records, t: Turn, id: string, k: nat, s: StoredState)
    requires DeadAs(records, id, k, s)
    requires !(t.op.Delete? && t.op.tokenId == id && Take(mac, records, t).1.Deleted?)
    ensures DeadAs(Take(mac, records, t).0, id, k, s)
  {
    TakeExtends(mac, records, t);
    assert Index(records, id) == k;
    assert forall i | 0 <= i <= k :: Descends(records[i], Take(mac, records, t).0[i]);
  }

  lemma {:induction false} DeadUpTo(mac: Mac, turns: seq<Turn>, m: nat, n: nat, id: string, k: nat, s: StoredState)
    requires m <= n <= |turns| && DeadAs(After(mac, turns[..m]), id, k, s)
    requires forall i | m <= i < n :: !DeletedAt(mac, turns, i, id)
    ensures DeadAs(After(mac, turns[..n]), id, k, s)
  {
    if m < n {
      DeadUpTo(mac, turns, m, n - 1, id, k, s);
      DeadStays(mac, turns, n - 1, n, id, k, s);
    }
  }

  /**
   After the last delete of a token, every redeem and verify that has a pepper and a working disk is refused,
   as revoked if the token was bound before that delete, and as invalidated otherwise.
   */
  lemma RefusedAfterDelete(mac: Mac, turns: seq<Turn>, d: nat, j: nat, id: string)
    requires DeletedAt(mac, turns, d, id) && d < j < |turns| && !turns[j].failed
    requires forall i | d < i < j :: !DeletedAt(mac, turns, i, id)
    requires (turns[j].op.Redeem? || turns[j].op.Verify?) && turns[j].op.tokenId == id && turns[j].op.pepper != []
    ensures var before := After(mac, turns[..d]);
            exists k: nat :: Names(before, id, k) &&
              Answer(mac, turns, j) == Refused(if before[k].state == Bound then WasRevoked else WasInvalidated)
  {
    var k := DeleteMarks(mac, turns, d, id);
    var before, after := After(mac, turns[..d]), After(mac, turns[..d + 1]);
    var s := if before[k].state == Bound then Revoked else Invalidated;
    assert DeadAs(after, id, k, s);
    DeadUpTo(mac, turns, d + 1, j, id, k, s);
    DeadRefuses(mac, After(mac, turns[..j]), turns[j].op, k, s);
  }

  lemma DeadRefuses(mac: Mac, records: Records, op: Op, k: nat, s: StoredState)
    requires (op.Redeem? || op.Verify?) && op.pepper != [] && DeadAs(records, op.tokenId, k, s)
    ensures Execute(mac, records, op).1 == Refused(if s == Revoked then WasRevoked else WasInvalidated)
  {
    match op {
      case Redeem(pepper, id, secret, machine, now, clientId, credential) =>
        RedeemCases(mac, records, pepper, id, secret, machine, now, clientId, credential, k);
      case Verify(pepper, id, credential, now) => VerifyCases(mac, records, pepper, id, credential, now, k);
      case _ =>
    }
  }

  /** A turn whose file could not be read or written changes nothing, and says so. */
  lemma FailedTurn(mac: Mac, turns: seq<Turn>, i: nat)
    requires i < |turns| && turns[i].failed
    ensures After(mac, turns[..i + 1]) == After(mac, turns[..i]) && Answer(mac, turns, i) == Refused(Io)
  {
    AfterStep(mac, turns, i);
  }

  // ----- Where a record comes from -----

  /** Every record was written by the mint that answered for it, and still has what that mint gave it. */
  lemma {:induction false} RecordsAreMinted(mac: Mac, turns: seq<Turn>, n: nat, k: nat) returns (m: nat)
    requires n <= |turns| && k < |After(mac, turns[..n])|
    ensures m < n && MintedAt(mac, turns, m, After(mac, turns[..n])[k].tokenId)
    ensures After(mac, turns[..n])[k].secretHash == HashSecret(mac, turns[m].op.pepper, turns[m].op.secret)
    ensures After(mac, turns[..n])[k].expires == Some(turns[m].op.now + turns[m].op.ttl)
  {
    var before := After(mac, turns[..n - 1]);
    AfterStep(mac, turns, n - 1);
    TakeExtends(mac, before, turns[n - 1]);
    if k < |before| {
      m := RecordsAreMinted(mac, turns, n - 1, k);
      assert Descends(before[k], After(mac, turns[..n])[k]);
    } else {
      m := n - 1;
      NewestIsMinted(mac, before, turns[m]);
    }
  }

  lemma NewestIsMinted(mac: Mac, records: Records, t: Turn)
    requires |Take(mac, records, t).0| > |records|
    ensures !t.failed && t.op.Mint? &&
            Take(mac, records, t) == (records + [NewRecord(mac, t.op)], Minted(t.op.tokenId, t.op.now + t.op.ttl))
  {
  }

  /** What a successful mint wrote is on file at its own place ever after. */
  lemma MintedStays(mac: Mac, turns: seq<Turn>, i: nat, n: nat, id: string)
    requires MintedAt(mac, turns, i, id) && i < n <= |turns|
    ensures var records, k := After(mac, turns[..n]), MintCount(mac, turns, i);
            && k < |records|
            && Descends(NewRecord(mac, turns[i].op), records[k]) && records[k].tokenId == id
  {
    var before := After(mac, turns[..i]);
    OneRecordPerMint(mac, turns, i);
    AfterStep(mac, turns, i);
    assert After(mac, turns[..i + 1])[|before|] == NewRecord(mac, turns[i].op);
    StoreExtends(mac, turns, i + 1, n);
  }

  /**
   A redeem succeeds only for a token that was minted, with a secret that hashes like the one it was
   minted with, and strictly before the expiry it was minted with.
   */
  lemma RedeemedInTime(mac: Mac, turns: seq<Turn>, i: nat, id: string) returns (m: nat)
    requires RedeemedAt(mac, turns, i, id)
    ensures m < i && MintedAt(mac, turns, m, id)
    ensures turns[i].op.now < turns[m].op.now + turns[m].op.ttl
    ensures mac(turns[i].op.pepper, turns[i].op.secret) == mac(turns[m].op.pepper, turns[m].op.secret)
  {
    var records := After(mac, turns[..i]);
    var k := Index(records, id);
    m := RecordsAreMinted(mac, turns, i, k);
    VerifyMatches(mac, turns[i].op.pepper, turns[i].op.secret, turns[m].op.pepper, turns[m].op.secret);
  }

  // ----- Verifying -----

  /** The bound record carries what the redeem at turn `r` put there. */
  predicate BoundBy(mac: Mac, rec: TokenRecord, op: Op)
  {
    op.Redeem? && rec.credentialHash == Some(HashSecret(mac, op.pepper, op.credential)) &&
    rec.clientId == Some(op.clientId) && rec.machine == Some(op.machine)
  }

  /** A turn leaves a bound record as bound by the same redeem, or it is the redeem. */
  lemma BoundStep(mac: Mac, records: Records, t: Turn, k: nat)
    requires k < |Take(mac, records, t).0| && Take(mac, records, t).0[k].state == Bound
    ensures var rec := Take(mac, records, t).0[k];
            || (t.op.Redeem? && Take(mac, records, t).1.Redeemed? && t.op.tokenId == rec.tokenId &&
              k == Index(records, rec.tokenId) && BoundBy(mac, rec, t.op))
            || (k < |records| && records[k].state == Bound && rec.credentialHash == records[k].credentialHash
                && rec.clientId == records[k].clientId && rec.machine == records[k].machine)
  {
  }

  /** By turn `n`, record `k` is as the redeem of turn `i` bound it. */
  ghost predicate BoundAt(mac: Mac, turns: seq<Turn>, n: nat, k: nat, i: nat)
  {
    && i < n <= |turns| && k < |After(mac, turns[..n])|
    && RedeemedAt(mac, turns, i, After(mac, turns[..n])[k].tokenId)
    && BoundBy(mac, After(mac, turns[..n])[k], turns[i].op)
  }

  lemma BoundNow(mac: Mac, turns: seq<Turn>, n: nat, k: nat)
    requires n < |turns| && k < |After(mac, turns[..n + 1])| && After(mac, turns[..n + 1])[k].state == Bound
    ensures BoundAt(mac, turns, n + 1, k, n) ||
            (k < |After(mac, turns[..n])| && After(mac, turns[..n])[k].state == Bound &&
             forall i: nat :: BoundAt(mac, turns, n, k, i) ==> BoundAt(mac, turns, n + 1, k, i))
  {
    var before, after := After(mac, turns[..n]), After(mac, turns[..n + 1]);
    AfterStep(mac, turns, n);
    BoundStep(mac, before, turns[n], k);
    TakeExtends(mac, before, turns[n]);
    assert k < |before| ==> Descends(before[k], after[k]);
  }

  /** A bound record was bound by one earlier redeem that succeeded. */
  lemma {:induction false} BoundWasRedeemed(mac: Mac, turns: seq<Turn>, n: nat, k: nat) returns (i: nat)
    requires n <= |turns| && k < |After(mac, turns[..n])| && After(mac, turns[..n])[k].state == Bound
    ensures i < n && RedeemedAt(mac, turns, i, After(mac, turns[..n])[k].tokenId)
    ensures BoundBy(mac, After(mac, turns[..n])[k], turns[i].op)
  {
    i := n - 1;
    BoundNow(mac, turns, n - 1, k);
    if !BoundAt(mac, turns, n, k, n - 1) {
      i := BoundWasRedeemed(mac, turns, n - 1, k);
      assert BoundAt(mac, turns, n - 1, k, i);
    }
  }

  /**
   A successful verify rests on exactly one earlier successful redeem of that token, whose credential
   hashes like the one presented, with no delete of the token in between; and it reports the client
   and machine that redeemed.
   */
  lemma VerifiedAfterRedeem(mac: Mac, turns: seq<Turn>, j: nat, id: string) returns (i: nat)
    requires VerifiedAt(mac, turns, j, id)
    ensures i < j && RedeemedAt(mac, turns, i, id)
    ensures mac(turns[j].op.pepper, turns[j].op.credential) == mac(turns[i].op.pepper, turns[i].op.credential)
    ensures Answer(mac, turns, j) == Verified(turns[i].op.clientId, turns[i].op.machine)
    ensures forall d | 0 <= d < j :: !DeletedAt(mac, turns, d, id)
  {
    var records := After(mac, turns[..j]);
    i := BoundWasRedeemed(mac, turns, j, Index(records, id));
    VerifyMatches(mac, turns[j].op.pepper, turns[j].op.credential, turns[i].op.pepper, turns[i].op.credential);
    forall d | 0 <= d < j ensures !DeletedAt(mac, turns, d, id) {
      if DeletedAt(mac, turns, d, id) { DeletedForGood(mac, turns, d, j, id); }
    }
  }

  /** With one pepper and a hash without collisions, only the very credential that was handed out verifies. */
  lemma OnlyTheCredentialVerifies(mac: Mac, turns: seq<Turn>, j: nat, id: string) returns (i: nat)
    requires VerifiedAt(mac, turns, j, id)
    requires forall t <- turns :: t.op.Delete? || t.op.pepper == turns[j].op.pepper
    requires forall a, b :: mac(turns[j].op.pepper, a) == mac(turns[j].op.pepper, b) ==> a == b
    ensures i < j && RedeemedAt(mac, turns, i, id) &&
            Answer(mac, turns, i) == Redeemed(turns[i].op.clientId, turns[j].op.credential)
  {
    i := VerifiedAfterRedeem(mac, turns, j, id);
    assert turns[i] in turns;
  }
}
