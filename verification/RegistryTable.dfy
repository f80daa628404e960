/**
 The live-connection table (src/wire/registry.rs:185-319) and the critical sections over it.

 An `Entry`'s five pending maps are one map here, keyed by the kind of call and the correlation id.
 A waiter stands for the sender half that the map owns: the call it wakes, and for a prompt the
 session it was sent for.
 */
module RegistryTable {
  import opened Prelude

  type TokenId = string
  type Id = string
  type ConnId = nat
  type CallId = nat

  datatype Kind = Ping | Query | Prompt | Interrupt | Answer

  datatype Slot = Slot(kind: Kind, id: Id)

  datatype Waiter = Waiter(call: CallId, session: string)

  datatype Entry = Entry(conn: ConnId, hostname: string, clientId: string, pending: map<Slot, Waiter>)

  type Table = map<TokenId, Entry>

  /** The token's entry is a fresh one, with nothing pending. */
  function Inserted(t: Table, token: TokenId, conn: ConnId, clientId: string, hostname: string): (t': Table)
  {
    t[token := Entry(conn, hostname, clientId, map[])]
  }

  function Without(t: Table, token: TokenId): (t': Table)
  {
    t - {token}
  }

  function Renamed(t: Table, token: TokenId, hostname: string): (t': Table)
  {
    if token in t then t[token := t[token].(hostname := hostname)] else t
  }

  /** The waiter a frame for `slot` on `token` would reach. */
  function Find(t: Table, token: TokenId, slot: Slot): (w: Option<Waiter>)
  {
    if token in t && slot in t[token].pending then Some(t[token].pending[slot]) else None
  }

  function Registered(t: Table, token: TokenId, slot: Slot, w: Waiter): (t': Table)
  {
    if token in t then t[token := t[token].(pending := t[token].pending[slot := w])] else t
  }

  function Forgotten(t: Table, token: TokenId, slot: Slot): (t': Table)
  {
    if token in t then t[token := t[token].(pending := t[token].pending - {slot})] else t
  }

  /** The prompts of one session that wait on `token`'s current entry. */
  function Waiting(t: Table, token: TokenId, session: string): (calls: set<CallId>)
  {
    if token in t then
      set slot | slot in t[token].pending && slot.kind == Prompt && t[token].pending[slot].session == session
        :: t[token].pending[slot].call
    else {}
  }

  /** Every other token has what it had. */
  ghost predicate SameBut(t: Table, t': Table, token: TokenId)
  {
    forall u | u != token :: (u in t' <==> u in t) && (u in t ==> t'[u] == t[u])
  }

  /** The entry is as it was, but perhaps for what is pending under one slot. */
  ghost predicate SameEntryBut(e: Entry, e': Entry, slot: Slot)
  {
    && e'.conn == e.conn && e'.hostname == e.hostname && e'.clientId == e.clientId
    && forall x | x != slot ::
         (x in e'.pending <==> x in e.pending) && (x in e.pending ==> e'.pending[x] == e.pending[x])
  }

  /** Who is woken: the prompts filed for that very session on that very token. */
  lemma WaitingExactly(t: Table, token: TokenId, session: string, c: CallId)
    ensures c in Waiting(t, token, session) <==>
              token in t && exists id ::
                Slot(Prompt, id) in t[token].pending && t[token].pending[Slot(Prompt, id)] == Waiter(c, session)
  {
    if c in Waiting(t, token, session) {
      var slot :| slot in t[token].pending && slot.kind == Prompt && t[token].pending[slot].session == session &&
                  t[token].pending[slot].call == c;
      assert slot == Slot(Prompt, slot.id);
    }
  }

  /** The table the connection tasks and the control channel share. */
  class Registry {
    var entries: Table

    constructor ()
      ensures entries == map[]
    {
      entries := map[];
    }

    /** Registers a connection and hands back the entry it displaced, if any. */
    method Insert(token: TokenId, conn: ConnId, clientId: string, hostname: string)
      returns (previous: Option<Entry>)
      modifies this
      ensures entries == Inserted(old(entries), token, conn, clientId, hostname)
      ensures token in entries && entries[token].conn == conn && entries[token].pending == map[]
      ensures entries[token].clientId == clientId && entries[token].hostname == hostname
      ensures SameBut(old(entries), entries, token)
      ensures previous == if token in old(entries) then Some(old(entries)[token]) else None
    {
      previous := if token in entries then Some(entries[token]) else None;
      entries := entries[token := Entry(conn, hostname, clientId, map[])];
    }

    /** Removes whatever entry `token` has, whichever connection it belongs to. */
    method Remove(token: TokenId) returns (present: bool)
      modifies this
      ensures entries == Without(old(entries), token)
      ensures token !in entries && SameBut(old(entries), entries, token)
      ensures present <==> token in old(entries)
    {
      present := token in entries;
      entries := entries - {token};
    }

    method SetHostname(token: TokenId, hostname: string)
      modifies this
      ensures entries == Renamed(old(entries), token, hostname)
      ensures SameBut(old(entries), entries, token) && (token in entries <==> token in old(entries))
      ensures token in entries ==>
                && entries[token].hostname == hostname && entries[token].conn == old(entries)[token].conn
                && entries[token].clientId == old(entries)[token].clientId
                && entries[token].pending == old(entries)[token].pending
    {
      if token in entries {
        entries := entries[token := entries[token].(hostname := hostname)];
      }
    }

    /** The second critical section of every call: file the sender under the call's id. */
    method Register(token: TokenId, slot: Slot, w: Waiter) returns (ok: bool)
      modifies this
      ensures ok <==> token in old(entries)
      ensures entries == Registered(old(entries), token, slot, w)
      ensures SameBut(old(entries), entries, token) && (token in entries <==> ok)
      ensures ok ==> SameEntryBut(old(entries)[token], entries[token], slot)
      ensures ok ==> slot in entries[token].pending && entries[token].pending[slot] == w
    {
      ok := token in entries;
      if ok {
        var e := entries[token];
        entries := entries[token := e.(pending := e.pending[slot := w])];
      }
    }

    method Forget(token: TokenId, slot: Slot)
      modifies this
      ensures entries == Forgotten(old(entries), token, slot)
      ensures SameBut(old(entries), entries, token) && (token in entries <==> token in old(entries))
      ensures token in entries ==>
                SameEntryBut(old(entries)[token], entries[token], slot) && slot !in entries[token].pending
    {
      if token in entries {
        var e := entries[token];
        entries := entries[token := e.(pending := e.pending - {slot})];
      }
    }

    /**
     The `resolve_*` methods: who receives the frame. A one-shot sender is taken out of its map;
     a prompt's stays, since a partial reply is not the last one.
     */
    method Resolve(token: TokenId, slot: Slot) returns (w: Option<Waiter>)
      modifies this
      ensures w == Find(old(entries), token, slot)
      ensures entries == if w.Some? && slot.kind != Prompt then Forgotten(old(entries), token, slot) else old(entries)
      ensures w.Some? <==> token in old(entries) && slot in old(entries)[token].pending
      ensures w.Some? ==> w.value == old(entries)[token].pending[slot]
      ensures token in entries ==> (slot in entries[token].pending <==> w.Some? && slot.kind == Prompt)
    {
      w := None;
      if token in entries {
        var e := entries[token];
        if slot in e.pending {
          w := Some(e.pending[slot]);
          if slot.kind != Prompt {
            entries := entries[token := e.(pending := e.pending - {slot})];
          }
        }
      }
    }

    /** `cancel_pending_prompts_for_session`: the loop over the prompts, and exactly whom it wakes. */
    method CancelPendingPromptsForSession(token: TokenId, session: string) returns (woken: set<CallId>)
      ensures woken == Waiting(entries, token, session)
      ensures forall c :: c in woken <==>
                            token in entries && exists id ::
                              && Slot(Prompt, id) in entries[token].pending
                              && entries[token].pending[Slot(Prompt, id)] == Waiter(c, session)
    {
      woken := {};
      if token !in entries {
        return;
      }
      var pending := entries[token].pending;
      var left := pending.Keys;
      while left != {}
        invariant left <= pending.Keys
        invariant woken == set slot | slot in pending.Keys - left && slot.kind == Prompt &&
          pending[slot].session == session
                             :: pending[slot].call
        decreases left
      {
        var slot :| slot in left;
        left := left - {slot};
        assert pending.Keys - left == (pending.Keys - (left + {slot})) + {slot};
        if slot.kind == Prompt && pending[slot].session == session {
          woken := woken + {pending[slot].call};
        }
      }
      forall c { WaitingExactly(entries, token, session, c); }
    }
  }
}
