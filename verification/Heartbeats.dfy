/** The heartbeat ledger of the Consul registry (consul.go): the map from service ID to
    the context of its heartbeat, and the flag that Close raises. */
module Heartbeats {

  /** The context of one heartbeat; `published` once it was put in the map, from when on
      a goroutine ticks until it is cancelled. */
  datatype Heartbeat = Heartbeat(id: string, published: bool, cancelled: bool)

  datatype Ledger = Ledger(table: map<string, nat>, contexts: seq<Heartbeat>, closed: bool)

  const EMPTY_LEDGER := Ledger(map[], [], false)

  /** A goroutine ticks for context c. */
  predicate Live(l: Ledger, c: nat) {
    c < |l.contexts| && l.contexts[c].published && !l.contexts[c].cancelled
  }

  /** The live heartbeats are exactly the map's values, each under its own service ID, so
      at most one per ID; a closed registry has none. */
  predicate LedgerInv(l: Ledger) {
    && (forall id :: id in l.table ==> Live(l, l.table[id]) && l.contexts[l.table[id]].id == id)
    && (forall c: nat :: c < |l.contexts| && Live(l, c) ==> l.contexts[c].id in l.table && l.table[l.contexts[c].id] == c)
    && (l.closed ==> l.table == map[])
  }

  function Cancelled(contexts: seq<Heartbeat>, c: nat): seq<Heartbeat> {
    if c < |contexts| then contexts[c := contexts[c].(cancelled := true)] else contexts
  }

  // What each locked section makes of the ledger.

  function Begun(l: Ledger, id: string): Ledger {
    l.(contexts := l.contexts + [Heartbeat(id, false, false)])
  }

  /** Publishing replaces the previous heartbeat of the ID; a closed registry refuses. */
  function Published(l: Ledger, c: nat): Ledger
    requires c < |l.contexts|
  {
    if l.closed then l
    else
      var id := l.contexts[c].id;
      var contexts := if id in l.table then Cancelled(l.contexts, l.table[id]) else l.contexts;
      if c < |contexts| then
        l.(table := l.table[id := c], contexts := contexts[c := contexts[c].(published := true)])
      else l
  }

  function Dropped(l: Ledger, c: nat): Ledger {
    l.(contexts := Cancelled(l.contexts, c))
  }

  function Deregistered(l: Ledger, id: string): Ledger {
    if id in l.table then
      l.(table := l.table - {id}, contexts := Cancelled(l.contexts, l.table[id]))
    else l
  }

  /** Every live heartbeat is cancelled and the map is empty. */
  function Closed(l: Ledger): Ledger {
    Ledger(map[],
           seq(|l.contexts|, c requires 0 <= c < |l.contexts| =>
                 if Live(l, c) then l.contexts[c].(cancelled := true) else l.contexts[c]),
           true)
  }

  lemma BegunKeeps(l: Ledger, id: string)
    requires LedgerInv(l)
    ensures LedgerInv(Begun(l, id))
    ensures forall c: nat :: Live(Begun(l, id), c) <==> Live(l, c)
  {
    var l' := Begun(l, id);
    forall c: nat
      ensures Live(l', c) <==> Live(l, c)
    {
      if c < |l.contexts| { assert l'.contexts[c] == l.contexts[c]; }
    }
  }

  lemma PublishedKeeps(l: Ledger, c: nat)
    requires LedgerInv(l) && c < |l.contexts| && !l.contexts[c].published && !l.contexts[c].cancelled
    ensures LedgerInv(Published(l, c))
    ensures forall d: nat :: Live(Published(l, c), d) <==>
                          if l.closed then Live(l, d)
                          else d == c || (Live(l, d) && l.contexts[d].id != l.contexts[c].id)
  {
    var l', id := Published(l, c), l.contexts[c].id;
    if !l.closed {
      forall d: nat
        ensures Live(l', d) <==> d == c || (Live(l, d) && l.contexts[d].id != id)
      {
        assert Live(l, d) && l.contexts[d].id == id ==> id in l.table && l.table[id] == d;
      }
    }
  }

  lemma DroppedKeeps(l: Ledger, c: nat)
    requires LedgerInv(l) && c < |l.contexts| && !l.contexts[c].published
    ensures LedgerInv(Dropped(l, c))
    ensures forall d: nat :: Live(Dropped(l, c), d) <==> Live(l, d)
  {
    forall d: nat
      ensures Live(Dropped(l, c), d) <==> Live(l, d)
    {
    }
  }

  lemma DeregisteredKeeps(l: Ledger, id: string)
    requires LedgerInv(l)
    ensures LedgerInv(Deregistered(l, id))
    ensures forall d: nat :: Live(Deregistered(l, id), d) <==> Live(l, d) && l.contexts[d].id != id
  {
    forall d: nat
      ensures Live(Deregistered(l, id), d) <==> Live(l, d) && l.contexts[d].id != id
    {
      assert Live(l, d) && l.contexts[d].id == id ==> id in l.table && l.table[id] == d;
    }
  }

  lemma ClosedKeeps(l: Ledger)
    ensures LedgerInv(Closed(l))
    ensures forall d: nat :: !Live(Closed(l), d)
  {
  }

  /** Close is under way: the live heartbeats of the IDs no longer in `left` are cancelled. */
  predicate PartlyClosed(was: Ledger, left: map<string, nat>, contexts: seq<Heartbeat>) {
    && |contexts| == |was.contexts|
    && (forall id :: id in left ==> id in was.table && left[id] == was.table[id])
    && (forall c: nat :: c < |contexts| ==>
          contexts[c] == (if Live(was, c) && was.contexts[c].id !in left
                          then was.contexts[c].(cancelled := true) else was.contexts[c]))
  }

  lemma CloseOne(was: Ledger, left: map<string, nat>, contexts: seq<Heartbeat>, id: string)
    requires LedgerInv(was) && PartlyClosed(was, left, contexts) && id in left
    ensures PartlyClosed(was, left - {id}, Cancelled(contexts, left[id]))
  {
    assert Live(was, was.table[id]) && was.contexts[was.table[id]].id == id;
    assert forall c: nat :: c < |contexts| && Live(was, c) && was.contexts[c].id == id ==> c == was.table[id];
  }

  /** The registry object, every method of which is one locked section (or, for
      `Begin`, the creation of a context nobody else sees yet, outside the lock). */
  class ConsulRegistry {
    var heartbeats: map<string, nat>
    var contexts: seq<Heartbeat>
    var closed: bool

    function State(): Ledger
      reads this
    {
      Ledger(heartbeats, contexts, closed)
    }

    ghost predicate Valid()
      reads this
    {
      LedgerInv(State())
    }

    constructor ()
      ensures State() == EMPTY_LEDGER && Valid()
    {
      heartbeats, contexts, closed := map[], [], false;
    }

    /** Past the check of `closed`, a fresh context: also when Close has run since. */
    method Begin(id: string) returns (c: nat)
      requires Valid()
      modifies this
      ensures Valid()
      ensures c == |old(contexts)| && State() == Begun(old(State()), id)
      ensures contexts[c] == Heartbeat(id, false, false)
    {
      BegunKeeps(State(), id);
      c := |contexts|;
      contexts := contexts + [Heartbeat(id, false, false)];
    }

    /** The re-check under the storing lock, after the first pass. */
    method Publish(c: nat) returns (stored: bool)
      requires Valid() && c < |contexts| && !contexts[c].published && !contexts[c].cancelled
      modifies this
      ensures Valid()
      ensures State() == Published(old(State()), c)
      ensures stored <==> !old(closed)
      ensures stored ==> Live(State(), c) && contexts[c].id in heartbeats && heartbeats[contexts[c].id] == c
    {
      if closed {
        return false;
      }
      PublishedKeeps(State(), c);
      var id := contexts[c].id;
      if id in heartbeats {
        contexts := Cancelled(contexts, heartbeats[id]);
      }
      heartbeats := heartbeats[id := c];
      contexts := contexts[c := contexts[c].(published := true)];
      stored := true;
    }

    method Deregister(id: string)
      requires Valid()
      modifies this
      ensures Valid()
      ensures State() == Deregistered(old(State()), id)
      ensures id !in heartbeats && forall c: nat :: Live(State(), c) ==> contexts[c].id != id
    {
      DeregisteredKeeps(State(), id);
      if id in heartbeats {
        contexts := Cancelled(contexts, heartbeats[id]);
        heartbeats := heartbeats - {id};
      }
    }

    /** Cancels and deletes the heartbeats one by one, in any order. */
    method Close()
      requires Valid()
      modifies this
      ensures Valid()
      ensures State() == Closed(old(State()))
      ensures closed && heartbeats == map[] && forall c: nat :: !Live(State(), c)
    {
      ghost var was := State();
      closed := true;
      while heartbeats != map[]
        invariant closed
        invariant PartlyClosed(was, heartbeats, contexts)
        decreases |heartbeats|
      {
        var id :| id in heartbeats;
        CloseOne(was, heartbeats, contexts, id);
        contexts := Cancelled(contexts, heartbeats[id]);
        heartbeats := heartbeats - {id};
      }
      assert contexts == Closed(was).contexts;
      ClosedKeeps(was);
    }
  }
}
