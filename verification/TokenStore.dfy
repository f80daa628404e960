/**
 The durable token store (src/token/mod.rs:149-658): one record per join token, and the four
 operations that load the records, change one, and save them again.

 The keyed hash is any function of a key and a text; times are integers. `expires` is absent when the
 stored text is not a timestamp. Randomly drawn values (token ids, secrets, credentials) are inputs.
 */
module TokenStore {
  import opened Prelude
  import opened Hex

  type Mac = (seq<Byte>, string) -> seq<Byte>

  datatype StoredState = Unused | Bound | Invalidated | Revoked

  datatype DisplayState = ShowUnused | ShowBound | ShowStale | ShowInvalidated | ShowRevoked

  /** `note` is the operator's label for the token. */
  datatype TokenRecord = TokenRecord(
    tokenId: string, secretHash: string, state: StoredState, note: Option<string>, machine: Option<string>,
    clientId: Option<string>, credentialHash: Option<string>, createdAt: int, expires: Option<int>,
      lastSeen: Option<int>)

  type Records = seq<TokenRecord>

  datatype Refusal =
    | PepperMissing | NotFound | AlreadyBound | WasInvalidated | WasRevoked | IsStale | WrongSecret | WrongCredential
    | NotBound | Io

  datatype Op =
    | Mint(pepper: seq<Byte>, tokenId: string, secret: string, note: Option<string>, now: int, ttl: int)
    | Delete(tokenId: string, now: int)
    | Redeem(pepper: seq<Byte>, tokenId: string, secret: string, machine: string, now: int, clientId: string,
      credential: string)
    | Verify(pepper: seq<Byte>, tokenId: string, credential: string, now: int)

  datatype Reply =
    | Minted(tokenId: string, expires: int)
    | Deleted(state: DisplayState)
    | Redeemed(clientId: string, credential: string)
    | Verified(clientId: string, machine: string)
    | Refused(why: Refusal)

  /** `display_state`: an unused token whose expiry has come is stale. */
  function Display(r: TokenRecord, now: int): (d: DisplayState)
  {
    match r.state
    case Unused => if r.expires.Some? && r.expires.value <= now then ShowStale else ShowUnused
    case Bound => ShowBound
    case Invalidated => ShowInvalidated
    case Revoked => ShowRevoked
  }

  function HashSecret(mac: Mac, pepper: seq<Byte>, secret: string): (hash: string)
  {
    Encoded(mac(pepper, secret))
  }

  predicate VerifySecret(mac: Mac, pepper: seq<Byte>, secret: string, hash: string)
  {
    FromHex(hash) == Some(mac(pepper, secret))
  }

  /** A stored hash accepts exactly the secrets that hash alike. */
  lemma VerifyMatches(mac: Mac, pepper: seq<Byte>, secret: string, pepper': seq<Byte>, secret': string)
    ensures VerifySecret(mac, pepper, secret, HashSecret(mac, pepper', secret')) <==>
              mac(pepper, secret) == mac(pepper', secret')
  {
    RoundTrip(mac(pepper', secret'));
  }

  /** The position of the first record with this id, or the length if there is none. */
  function Index(records: Records, id: string): (k: nat)
    ensures k <= |records|
    ensures k < |records| ==> records[k].tokenId == id
    ensures forall i | 0 <= i < k :: records[i].tokenId != id
  {
    if records == [] then 0
    else if records[0].tokenId == id then 0
    else 1 + Index(records[1..], id)
  }

  function NewRecord(mac: Mac, op: Op): (r: TokenRecord)
    requires op.Mint?
  {
    TokenRecord(op.tokenId, HashSecret(mac, op.pepper, op.secret), Unused, op.note, None, None, None, op.now,
      Some(op.now + op.ttl), None)
  }

  function RunDelete(records: Records, k: nat, op: Op): (out: (Records, Reply))
    requires op.Delete? && k < |records|
  {
    var r := records[k];
    var r' := if r.state == Bound then r.(credentialHash := None, state := Revoked) else r.(state := Invalidated);
    (records[k := r'], Deleted(Display(r', op.now)))
  }

  function RunRedeem(mac: Mac, records: Records, k: nat, op: Op): (out: (Records, Reply))
    requires op.Redeem? && k < |records|
  {
    var r := records[k];
    match Display(r, op.now)
    case ShowBound => (records, Refused(AlreadyBound))
    case ShowInvalidated => (records, Refused(WasInvalidated))
    case ShowRevoked => (records, Refused(WasRevoked))
    case ShowStale => (records, Refused(IsStale))
    case ShowUnused =>
      if !VerifySecret(mac, op.pepper, op.secret, r.secretHash) then (records, Refused(WrongSecret))
      else
        (records[k := r.(state := Bound, machine := Some(op.machine), clientId := Some(op.clientId),
                         credentialHash := Some(HashSecret(mac, op.pepper, op.credential)))],
         Redeemed(op.clientId, op.credential))
  }

  function RunVerify(mac: Mac, records: Records, k: nat, op: Op): (out: (Records, Reply))
    requires op.Verify? && k < |records|
  {
    var r := records[k];
    match r.state
    case Unused => (records, Refused(NotBound))
    case Invalidated => (records, Refused(WasInvalidated))
    case Revoked => (records, Refused(WasRevoked))
    case Bound =>
      if r.credentialHash.None? || !VerifySecret(mac, op.pepper, op.credential, r.credentialHash.value)
      then (records, Refused(WrongCredential))
      else
        (records[k := r.(lastSeen := Some(op.now))],
         Verified(if r.clientId.Some? then r.clientId.value else "", if r.machine.Some? then r.machine.value else ""))
  }

  /** One whole operation on the records it loads: what it leaves, and what it answers. */
  function Execute(mac: Mac, records: Records, op: Op): (out: (Records, Reply))
  {
    if !op.Delete? && op.pepper == [] then (records, Refused(PepperMissing))
    else if op.Mint? then (records + [NewRecord(mac, op)], Minted(op.tokenId, op.now + op.ttl))
    else
      var k := Index(records, op.tokenId);
      if k == |records| then (records, Refused(NotFound))
      else
        match op
        case Delete(_, _) => RunDelete(records, k, op)
        case Redeem(_, _, _, _, _, _, _) => RunRedeem(mac, records, k, op)
        case Verify(_, _, _, _) => RunVerify(mac, records, k, op)
  }

  // ----- Every case, in the record's own fields -----

  /** The record an id names: the first that bears it. */
  predicate Names(records: Records, id: string, k: nat)
  {
    k < |records| && records[k].tokenId == id && forall i | 0 <= i < k :: records[i].tokenId != id
  }

  predicate Unknown(records: Records, id: string)
  {
    forall i | 0 <= i < |records| :: records[i].tokenId != id
  }

  /** A mint writes one record at the end, with nothing in it but the hash, the label and the two times. */
  lemma MintCases(
    mac: Mac, records: Records, pepper: seq<Byte>, id: string, secret: string, note: Option<string>, now: int, ttl: int)
    ensures var out := Execute(mac, records, Mint(pepper, id, secret, note, now, ttl));
            out == if pepper == [] then (records, Refused(PepperMissing))
                   else (records + [TokenRecord(id, Encoded(mac(pepper, secret)), Unused, note, None, None, None, now,
                                                Some(now + ttl), None)],
                         Minted(id, now + ttl))
  {
  }

  /** A delete needs no pepper; a bound token is revoked and loses its credential, any other is invalidated. */
  lemma DeleteCases(mac: Mac, records: Records, id: string, now: int, k: nat)
    ensures Unknown(records, id) ==> Execute(mac, records, Delete(id, now)) == (records, Refused(NotFound))
    ensures Names(records, id, k) ==>
              var r, out := records[k], Execute(mac, records, Delete(id, now));
              && (r.state == Bound ==>
                    out == (records[k := r.(state := Revoked, credentialHash := None)], Deleted(ShowRevoked)))
              && (r.state != Bound ==> out == (records[k := r.(state := Invalidated)], Deleted(ShowInvalidated)))
  {
  }

  /** A redeem refuses, each case for its own reason, or binds the record. */
  lemma RedeemCases(
    mac: Mac, records: Records, pepper: seq<Byte>, id: string, secret: string, machine: string, now: int,
      clientId: string,
    credential: string, k: nat)
    ensures var out := Execute(mac, records, Redeem(pepper, id, secret, machine, now, clientId, credential));
            && (pepper == [] ==> out == (records, Refused(PepperMissing)))
            && (pepper != [] && Unknown(records, id) ==> out == (records, Refused(NotFound)))
            && (pepper != [] && Names(records, id, k) ==>
                  var r := records[k];
                  && (r.state == Bound ==> out == (records, Refused(AlreadyBound)))
                  && (r.state == Invalidated ==> out == (records, Refused(WasInvalidated)))
                  && (r.state == Revoked ==> out == (records, Refused(WasRevoked)))
                  && (r.state == Unused && r.expires.Some? && r.expires.value <= now ==>
                        out == (records, Refused(IsStale)))
                  && (r.state == Unused && (r.expires.None? || now < r.expires.value) ==>
                        out == if FromHex(r.secretHash) != Some(mac(pepper, secret))
                          then (records, Refused(WrongSecret))
                               else (records[k := TokenRecord(id, r.secretHash, Bound, r.note, Some(machine),
                                 Some(clientId),
                                                              Some(Encoded(mac(pepper, credential))), r.createdAt,
                                                              r.expires, r.lastSeen)],
                                     Redeemed(clientId, credential))))
  {
  }

  /** A verify refuses, each case for its own reason, or notes the time. */
  lemma VerifyCases(mac: Mac, records: Records, pepper: seq<Byte>, id: string, credential: string, now: int, k: nat)
    ensures var out := Execute(mac, records, Verify(pepper, id, credential, now));
            && (pepper == [] ==> out == (records, Refused(PepperMissing)))
            && (pepper != [] && Unknown(records, id) ==> out == (records, Refused(NotFound)))
            && (pepper != [] && Names(records, id, k) ==>
                  var r := records[k];
                  && (r.state == Unused ==> out == (records, Refused(NotBound)))
                  && (r.state == Invalidated ==> out == (records, Refused(WasInvalidated)))
                  && (r.state == Revoked ==> out == (records, Refused(WasRevoked)))
                  && (r.state == Bound && (r.credentialHash.None? ||
                                           FromHex(r.credentialHash.value) != Some(mac(pepper, credential))) ==>
                        out == (records, Refused(WrongCredential)))
                  && (r.state == Bound && r.credentialHash.Some? &&
                      FromHex(r.credentialHash.value) == Some(mac(pepper, credential)) ==>
                        && out.0 == records[k := r.(lastSeen := Some(now))]
                        && out.1 == Verified(match r.clientId case Some(c) => c case None => "",
                                             match r.machine case Some(m) => m case None => "")))
  {
  }

  /** The store behind its file: every operation loads the file whole and, if it succeeds, rewrites it whole. */
  class Store {
    var file: Records

    constructor ()
      ensures file == []
    {
      file := [];
    }

    /** `records.iter_mut().find(..)`. */
    static method Find(records: Records, id: string) returns (k: nat)
      ensures k == Index(records, id)
    {
      k := 0;
      while k < |records| && records[k].tokenId != id
        invariant k <= |records|
        invariant Index(records, id) == k + Index(records[k..], id)
      {
        assert records[k..][1..] == records[k + 1..];
        k := k + 1;
      }
    }

    method MintToken(mac: Mac, op: Op) returns (reply: Reply)
      requires op.Mint?
      modifies this
      ensures (file, reply) == Execute(mac, old(file), op)
    {
      if op.pepper == [] {
        return Refused(PepperMissing);
      }
      var records := file;
      records := records + [NewRecord(mac, op)];
      file := records;
      reply := Minted(op.tokenId, op.now + op.ttl);
    }

    method DeleteToken(mac: Mac, op: Op) returns (reply: Reply)
      requires op.Delete?
      modifies this
      ensures (file, reply) == Execute(mac, old(file), op)
    {
      var records := file;
      var k := Find(records, op.tokenId);
      if k == |records| {
        return Refused(NotFound);
      }
      var r := records[k];
      if r.state == Bound {
        r := r.(credentialHash := None, state := Revoked);
      } else {
        r := r.(state := Invalidated);
      }
      file := records[k := r];
      reply := Deleted(Display(r, op.now));
    }

    method RedeemToken(mac: Mac, op: Op) returns (reply: Reply)
      requires op.Redeem?
      modifies this
      ensures (file, reply) == Execute(mac, old(file), op)
    {
      if op.pepper == [] {
        return Refused(PepperMissing);
      }
      var records := file;
      var k := Find(records, op.tokenId);
      if k == |records| {
        return Refused(NotFound);
      }
      var r := records[k];
      match Display(r, op.now) {
        case ShowUnused =>
        case ShowBound => return Refused(AlreadyBound);
        case ShowInvalidated => return Refused(WasInvalidated);
        case ShowRevoked => return Refused(WasRevoked);
        case ShowStale => return Refused(IsStale);
      }
      if !VerifySecret(mac, op.pepper, op.secret, r.secretHash) {
        return Refused(WrongSecret);
      }
      r := r.(state := Bound, machine := Some(op.machine));
      r := r.(clientId := Some(op.clientId), credentialHash := Some(HashSecret(mac, op.pepper, op.credential)));
      file := records[k := r];
      reply := Redeemed(op.clientId, op.credential);
    }

    method VerifyCredential(mac: Mac, op: Op) returns (reply: Reply)
      requires op.Verify?
      modifies this
      ensures (file, reply) == Execute(mac, old(file), op)
    {
      if op.pepper == [] {
        return Refused(PepperMissing);
      }
      var records := file;
      var k := Find(records, op.tokenId);
      if k == |records| {
        return Refused(NotFound);
      }
      var r := records[k];
      match r.state {
        case Bound =>
        case Unused => return Refused(NotBound);
        case Invalidated => return Refused(WasInvalidated);
        case Revoked => return Refused(WasRevoked);
      }
      if r.credentialHash.None? || !VerifySecret(mac, op.pepper, op.credential, r.credentialHash.value) {
        return Refused(WrongCredential);
      }
      file := records[k := r.(lastSeen := Some(op.now))];
      reply := Verified(if r.clientId.Some? then r.clientId.value else "",
                        if r.machine.Some? then r.machine.value else "");
    }
  }
}
