/** Append-only hash chains with signed receipts, and the in-memory ledgers built on them. */
module Chain {
  import opened Basics

  /** An entry hash is its preimage. Foreign is any text that no entry body hashes to. */
  datatype Hash<+E> =
    | Digest(seqNo: int, at: Time, prev: Option<Hash<E>>, event: E)
    | Foreign(text: string)

  /** R is what the clerk's receipt signs. */
  datatype Entry<+E, +R> = Entry(
    seqNo: int, at: Time, prev: Option<Hash<E>>, event: E, hash: Hash<E>, receipt: Signature<R>)
  {
    /** What the entry hash covers: everything but the hash and the clerk's receipt. */
    function Body(): Hash<E> {
      Digest(seqNo, at, prev, event)
    }
  }

  function HeadOf<E, R>(entries: seq<Entry<E, R>>): Option<Hash<E>> {
    if entries == [] then None else Some(entries[|entries| - 1].hash)
  }

  /** Entry i carries its position, the hash before it, and its own hash. */
  predicate LinkedAt<E(==), R>(entries: seq<Entry<E, R>>, i: nat)
    requires i < |entries|
  {
    && entries[i].seqNo == i
    && entries[i].prev == HeadOf(entries[..i])
    && entries[i].hash == entries[i].Body()
  }

  ghost predicate Linked<E, R>(entries: seq<Entry<E, R>>) {
    forall i :: 0 <= i < |entries| ==> LinkedAt(entries, i)
  }

  ghost predicate TimesMonotone<E, R>(entries: seq<Entry<E, R>>) {
    forall i, j :: 0 <= i < j < |entries| ==> entries[i].at <= entries[j].at
  }

  ghost predicate SameBodies<E, R>(a: seq<Entry<E, R>>, b: seq<Entry<E, R>>) {
    |a| == |b| && forall i :: 0 <= i < |a| ==> a[i].Body() == b[i].Body() && a[i].hash == b[i].hash
  }

  /**
   One hash decides a whole prefix: two linked chains that agree on the hash at one position agree on
   every body up to it. Receipts are not covered.
   */
  lemma {:induction false} HashFixesPrefix<E, R>(a: seq<Entry<E, R>>, b: seq<Entry<E, R>>, n: nat)
    requires Linked(a) && Linked(b)
    requires 0 < n <= |a| && n <= |b|
    requires a[n - 1].hash == b[n - 1].hash
    ensures SameBodies(a[..n], b[..n])
  {
    assert LinkedAt(a, n - 1) && LinkedAt(b, n - 1);
    if n > 1 {
      assert HeadOf(a[..n - 1]) == Some(a[n - 2].hash);
      assert HeadOf(b[..n - 1]) == Some(b[n - 2].hash);
      HashFixesPrefix(a, b, n - 1);
      forall i | 0 <= i < n ensures a[..n][i].Body() == b[..n][i].Body() && a[..n][i].hash == b[..n][i].hash {
        if i < n - 1 {
          assert a[..n - 1][i].Body() == b[..n - 1][i].Body() && a[..n - 1][i].hash == b[..n - 1][i].hash;
        }
      }
    }
  }

  /** No hash repeats along a linked chain, because each one holds its own position. */
  lemma HashesDistinct<E, R>(entries: seq<Entry<E, R>>, i: nat, j: nat)
    requires Linked(entries) && i < |entries| && j < |entries| && entries[i].hash == entries[j].hash
    ensures i == j
  {
    assert LinkedAt(entries, i) && LinkedAt(entries, j);
  }

  lemma LinkedPrefix<E, R>(entries: seq<Entry<E, R>>, n: nat)
    requires Linked(entries) && n <= |entries|
    ensures Linked(entries[..n])
  {
    forall i | 0 <= i < n ensures LinkedAt(entries[..n], i) {
      assert LinkedAt(entries, i);
      assert entries[..n][..i] == entries[..i];
    }
  }

  lemma LinkedAppend<E, R>(entries: seq<Entry<E, R>>, entry: Entry<E, R>)
    requires Linked(entries)
    requires entry.seqNo == |entries| && entry.prev == HeadOf(entries) && entry.hash == entry.Body()
    ensures Linked(entries + [entry])
  {
    var all := entries + [entry];
    forall i | 0 <= i < |all| ensures LinkedAt(all, i) {
      if i < |entries| {
        assert LinkedAt(entries, i);
        assert all[..i] == entries[..i];
      } else {
        assert all[..i] == entries;
      }
    }
  }

  // ----- Ledgers -----

  /** What a protocol adds: which events open a case and name its clerk, and which are well signed. */
  datatype Rules<!E> = Rules(opens: E -> Option<Key>, genuine: E -> bool)

  ghost predicate Verified<E>(rules: Rules<E>, entries: seq<Entry<E, Hash<E>>>) {
    && entries != []
    && rules.opens(entries[0].event).Some?
    && Linked(entries)
    && TimesMonotone(entries)
    && var clerk := rules.opens(entries[0].event).value;
    && forall i :: 0 <= i < |entries| ==>
         rules.genuine(entries[i].event) && entries[i].receipt == Signature(clerk, entries[i].hash)
  }

  /** What a reader checks of one entry, given the one before it and the founding clerk. */
  predicate InTurn<E(==)>(rules: Rules<E>, entries: seq<Entry<E, Hash<E>>>, i: nat)
    requires i < |entries| && rules.opens(entries[0].event).Some?
  {
    var e := entries[i];
    && e.seqNo == i && rules.genuine(e.event)
    && (if i == 0 then e.prev.None? else e.prev == Some(entries[i - 1].hash) && entries[i - 1].at <= e.at)
    && e.hash == Digest(i, e.at, e.prev, e.event)
    && e.receipt == Signature(rules.opens(entries[0].event).value, e.hash)
  }

  ghost predicate AllInTurn<E>(rules: Rules<E>, entries: seq<Entry<E, Hash<E>>>) {
    && entries != [] && rules.opens(entries[0].event).Some?
    && forall i :: 0 <= i < |entries| ==> InTurn(rules, entries, i)
  }

  lemma {:induction false} TimesInTurn<E>(rules: Rules<E>, entries: seq<Entry<E, Hash<E>>>, i: nat, j: nat)
    requires AllInTurn(rules, entries) && i <= j < |entries|
    ensures entries[i].at <= entries[j].at
  {
    if i < j {
      TimesInTurn(rules, entries, i, j - 1);
      assert InTurn(rules, entries, j);
    }
  }

  lemma LinkedInTurn<E>(rules: Rules<E>, entries: seq<Entry<E, Hash<E>>>, i: nat)
    requires i < |entries| && rules.opens(entries[0].event).Some?
    ensures InTurn(rules, entries, i) <==>
            && LinkedAt(entries, i) && (i > 0 ==> entries[i - 1].at <= entries[i].at) && rules.genuine(entries[i].event)
            && entries[i].receipt == Signature(rules.opens(entries[0].event).value, entries[i].hash)
  {
    assert HeadOf(entries[..i]) == if i == 0 then None else Some(entries[i - 1].hash) by {
      if i > 0 {
        assert entries[..i][i - 1] == entries[i - 1];
      }
    }
  }

  /** A ledger verifies exactly when every entry passes its check against the one before. */
  lemma VerifiedInTurn<E>(rules: Rules<E>, entries: seq<Entry<E, Hash<E>>>)
    ensures Verified(rules, entries) <==> AllInTurn(rules, entries)
  {
    if Verified(rules, entries) {
      forall i | 0 <= i < |entries| ensures InTurn(rules, entries, i) {
        assert LinkedAt(entries, i);
        LinkedInTurn(rules, entries, i);
      }
    }
    if AllInTurn(rules, entries) {
      forall i, j | 0 <= i < j < |entries| ensures entries[i].at <= entries[j].at {
        TimesInTurn(rules, entries, i, j);
      }
      forall i | 0 <= i < |entries|
        ensures LinkedAt(entries, i) && rules.genuine(entries[i].event)
        ensures entries[i].receipt == Signature(rules.opens(entries[0].event).value, entries[i].hash)
      {
        assert InTurn(rules, entries, i);
        LinkedInTurn(rules, entries, i);
      }
    }
  }

  lemma VerifiedPrefix<E>(rules: Rules<E>, entries: seq<Entry<E, Hash<E>>>, n: nat)
    requires Verified(rules, entries) && 0 < n <= |entries|
    ensures Verified(rules, entries[..n])
  {
    LinkedPrefix(entries, n);
  }

  /** The entry a clerk signs for one more event. */
  function NextEntry<E>(entries: seq<Entry<E, Hash<E>>>, event: E, clerk: Key, at: Time): (entry: Entry<E, Hash<E>>)
  {
    var body := Digest(|entries|, at, HeadOf(entries), event);
    Entry(|entries|, at, HeadOf(entries), event, body, Signature(clerk, body))
  }

  lemma VerifiedAppend<E>(rules: Rules<E>, entries: seq<Entry<E, Hash<E>>>, event: E, at: Time)
    requires Verified(rules, entries)
    requires rules.genuine(event) && entries[|entries| - 1].at <= at
    ensures Verified(rules, entries + [NextEntry(entries, event, rules.opens(entries[0].event).value, at)])
  {
    LinkedAppend(entries, NextEntry(entries, event, rules.opens(entries[0].event).value, at));
  }

  lemma VerifiedGenesis<E>(rules: Rules<E>, event: E, clerk: Key, at: Time)
    requires rules.opens(event) == Some(clerk) && rules.genuine(event)
    ensures Verified(rules, [NextEntry([], event, clerk, at)])
  {
    LinkedAppend([], NextEntry([], event, clerk, at));
    assert [] + [NextEntry([], event, clerk, at)] == [NextEntry([], event, clerk, at)];
  }

  /** An in-memory append-only ledger with signed clerk receipts. */
  class Ledger<E(==)> {
    const rules: Rules<E>
    var entries: seq<Entry<E, Hash<E>>>

    constructor (rules: Rules<E>, entries: seq<Entry<E, Hash<E>>>)
      ensures this.rules == rules && this.entries == entries
    {
      this.rules := rules;
      this.entries := entries;
    }

    /** Sign a receipt for one event, unless its receipt time moves backwards. */
    method AppendEvent(event: E, clerk: Key, at: Time) returns (entry: Option<Entry<E, Hash<E>>>)
      modifies this
      ensures entry.None? <==> old(entries) != [] && at < old(entries)[|old(entries)| - 1].at
      ensures entry.None? ==> entries == old(entries)
      ensures entry.Some? ==> entry.value == NextEntry(old(entries), event, clerk, at)
                              && entries == old(entries) + [entry.value]
    {
      if entries != [] {
        var previous := entries[|entries| - 1].at;
        if at < previous {
          return None;
        }
      }
      var next := NextEntry(entries, event, clerk, at);
      entries := entries + [next];
      return Some(next);
    }

    /** Append for the clerk that opened this ledger; any other key is refused. */
    method Append(event: E, clerk: Key, at: Time) returns (entry: Option<Entry<E, Hash<E>>>)
      requires entries != [] && rules.opens(entries[0].event).Some?
      modifies this
      ensures entry.Some? <==> rules.opens(old(entries)[0].event) == Some(clerk)
                               && old(entries)[|old(entries)| - 1].at <= at
      ensures entry.None? ==> entries == old(entries)
      ensures entry.Some? ==> entry.value == NextEntry(old(entries), event, clerk, at)
                              && entries == old(entries) + [entry.value]
    {
      if rules.opens(entries[0].event) != Some(clerk) {
        return None;
      }
      entry := AppendEvent(event, clerk, at);
    }

    method RollbackLast()
      modifies this
      ensures entries == if old(entries) == [] then [] else old(entries)[..|old(entries)| - 1]
    {
      if entries != [] {
        entries := entries[..|entries| - 1];
      }
    }

    /** Walk the chain once, carrying the previous hash and the previous receipt time. */
    method Verify() returns (ok: bool)
      ensures ok <==> Verified(rules, entries)
    {
      if entries == [] {
        return false;
      }
      var founder := rules.opens(entries[0].event);
      if founder.None? {
        return false;
      }
      var previousHash: Option<Hash<E>> := None;
      for n := 0 to |entries|
        invariant previousHash == HeadOf(entries[..n])
        invariant Linked(entries[..n])
        invariant forall i, j :: 0 <= i < j < n ==> entries[i].at <= entries[j].at
        invariant forall i :: 0 <= i < n ==>
          rules.genuine(entries[i].event) && entries[i].receipt == Signature(founder.value, entries[i].hash)
      {
        var entry := entries[n];
        assert entries[..n + 1] == entries[..n] + [entry];
        assert Linked(entries) ==> LinkedAt(entries, n);
        if entry.seqNo != n
           || (n > 0 && entry.at < entries[n - 1].at)
           || entry.prev != previousHash
           || !rules.genuine(entry.event)
           || entry.hash != Digest(entry.seqNo, entry.at, entry.prev, entry.event)
           || entry.receipt != Signature(founder.value, entry.hash)
        {
          return false;
        }
        LinkedAppend(entries[..n], entry);
        previousHash := Some(entry.hash);
      }
      assert entries[..|entries|] == entries;
      return true;
    }
  }
}
