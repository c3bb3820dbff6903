/** A client's outbox and receipts, and why one append commits at most one envelope. */
module RemoteAppend {
  import opened Basics
  import opened Chain
  import opened RemoteClerk

  // ----- What a client keeps -----

  /** A completed record keeps the envelope with the event the clerk's receipt confirms. */
  datatype Completed = Completed(envelope: Envelope, event: Event)

  /** Every envelope a client has signed, in order, and its two durable directories. */
  datatype Books = Books(issued: seq<Envelope>, outbox: map<RequestId, Envelope>, completed: map<RequestId, Completed>)

  /** An envelope that is not ordered and, without another post of it, never will be. */
  ghost predicate Dead(sea: Sea, e: Envelope) {
    Find(sea.log, e.requestId).None? && (Past(sea.log, e.base) || sea.flying[e] == 0)
  }

  ghost predicate Mine(minter: Id, b: Books, e: Envelope) {
    e.requestId.minter == minter && e.requestId.number < |b.issued| && e == b.issued[e.requestId.number]
  }

  /** An issued envelope is in the outbox, or completed, or dead. */
  ghost predicate Settled(b: Books, sea: Sea, n: nat)
    requires n < |b.issued|
  {
    b.issued[n].requestId in b.outbox || b.issued[n].requestId in b.completed || Dead(sea, b.issued[n])
  }

  ghost predicate OutboxOk(minter: Id, b: Books) {
    && (forall n: nat :: n < |b.issued| ==> b.issued[n].requestId == RequestId(minter, n))
    && forall id :: id in b.outbox ==> Mine(minter, b, b.outbox[id]) && b.outbox[id].requestId == id
  }

  /** A completed record holds the very event the clerk ordered. */
  ghost predicate CompletedOk(minter: Id, b: Books, sea: Sea) {
    forall id :: id in b.completed ==>
      && Mine(minter, b, b.completed[id].envelope) && b.completed[id].envelope.requestId == id
      && Find(sea.log, id) == Some(b.completed[id].event)
  }

  /** Nothing of this client's is in flight or ordered but what it issued. */
  ghost predicate OnlyIssued(minter: Id, b: Books, sea: Sea) {
    && (forall d :: d in sea.flying && d.requestId.minter == minter ==> Mine(minter, b, d))
    && forall id: RequestId :: id.minter == minter && Find(sea.log, id).Some? ==>
         Mine(minter, b, Find(sea.log, id).value.event.envelope)
  }

  /** The head of the log, now or at some time before. */
  ghost predicate KnownHead(log: EventLog, head: Option<Hash<Content>>) {
    exists k :: 0 <= k <= |log| && HeadOf(log[..k]) == head
  }

  /** Every envelope was signed against a head the clerk has had. */
  ghost predicate BasesKnown(b: Books, sea: Sea) {
    forall n: nat :: n < |b.issued| ==> KnownHead(sea.log, b.issued[n].base)
  }

  ghost predicate Accounted(minter: Id, b: Books, sea: Sea) {
    && OutboxOk(minter, b) && CompletedOk(minter, b, sea) && OnlyIssued(minter, b, sea) && BasesKnown(b, sea)
    && forall n: nat :: n < |b.issued| ==> Settled(b, sea, n)
  }

  /** Envelopes given up stay given up, whether or not one outbox record is posted again. */
  ghost predicate DeadStay(b: Books, s: Sea, t: Sea, posted: Option<Envelope>) {
    forall n: nat :: n < |b.issued| && Some(b.issued[n]) != posted && Dead(s, b.issued[n]) ==> Dead(t, b.issued[n])
  }

  lemma DeadStaysDead(clerk: Key, minter: Id, b: Books, s: Sea, t: Sea, posted: Option<Envelope>, n: nat)
    requires OutboxOk(minter, b) && OnlyIssued(minter, b, s) && Evolves(clerk, minter, s, t, posted)
    requires posted.Some? ==> Mine(minter, b, posted.value)
    requires n < |b.issued| && Dead(s, b.issued[n]) && (Some(b.issued[n]) != posted || Past(s.log, b.issued[n].base))
    ensures Dead(t, b.issued[n])
  {
    var e := b.issued[n];
    StillPast(clerk, s, t, e.base);
    assert NewlyKnown(s, t, e.requestId, posted);
  }

  lemma AccountedEvolves(clerk: Key, minter: Id, b: Books, s: Sea, t: Sea, posted: Option<Envelope>)
    requires Accounted(minter, b, s) && Evolves(clerk, minter, s, t, posted)
    requires posted.Some? ==> posted.value.requestId in b.outbox && b.outbox[posted.value.requestId] == posted.value
    ensures Accounted(minter, b, t) && DeadStay(b, s, t, posted)
  {
    forall n: nat | n < |b.issued| && Some(b.issued[n]) != posted && Dead(s, b.issued[n]) ensures Dead(t, b.issued[n]) {
      DeadStaysDead(clerk, minter, b, s, t, posted, n);
    }
    forall n: nat | n < |b.issued| ensures Settled(b, t, n) {
      hide Dead, Evolves;
      assert Settled(b, s, n);
    }
    assert CompletedOk(minter, b, t) by {
      forall id | id in b.completed ensures Find(t.log, id) == Find(s.log, id) {
        FindGrows(s.log, t.log, id);
      }
    }
    assert BasesKnown(b, t) by {
      forall n: nat | n < |b.issued| ensures KnownHead(t.log, b.issued[n].base) {
        KnownStays(s.log, t.log, b.issued[n].base);
      }
    }
    assert OnlyIssued(minter, b, t) by {
      OnlyIssuedEvolves(clerk, minter, b, s, t, posted);
    }
  }

  lemma OnlyIssuedEvolves(clerk: Key, minter: Id, b: Books, s: Sea, t: Sea, posted: Option<Envelope>)
    requires OnlyIssued(minter, b, s) && Evolves(clerk, minter, s, t, posted)
    requires posted.Some? ==> Mine(minter, b, posted.value)
    ensures OnlyIssued(minter, b, t)
  {
    hide SeaOk, Past, Mine;
    forall id: RequestId | id.minter == minter && Find(t.log, id).Some?
      ensures Mine(minter, b, Find(t.log, id).value.event.envelope)
    {
      assert NewlyKnown(s, t, id, posted);
      if Find(s.log, id).Some? {
        FindGrows(s.log, t.log, id);
      }
    }
  }

  lemma KnownStays(log: EventLog, longer: EventLog, head: Option<Hash<Content>>)
    requires log <= longer && KnownHead(log, head)
    ensures KnownHead(longer, head)
  {
    var k :| 0 <= k <= |log| && HeadOf(log[..k]) == head;
    assert longer[..k] == log[..k];
  }

  /** A freshly numbered envelope is dead until someone posts it, so it may go into the outbox or be forgotten. */
  lemma AccountedIssue(minter: Id, b: Books, sea: Sea, e: Envelope)
    requires Accounted(minter, b, sea) && e.requestId == RequestId(minter, |b.issued|) && KnownHead(sea.log, e.base)
    ensures Dead(sea, e)
    ensures Accounted(minter, b.(issued := b.issued + [e]), sea)
    ensures Accounted(minter, b.(issued := b.issued + [e], outbox := b.outbox[e.requestId := e]), sea)
  {
    FreshIsDead(minter, b, sea, e);
    var forgotten := b.(issued := b.issued + [e]);
    IssueSettled(minter, b, sea, forgotten, e);
    IssueSettled(minter, b, sea, forgotten.(outbox := b.outbox[e.requestId := e]), e);
  }

  lemma FreshIsDead(minter: Id, b: Books, sea: Sea, e: Envelope)
    requires OnlyIssued(minter, b, sea) && e.requestId == RequestId(minter, |b.issued|)
    ensures Dead(sea, e)
  {
    assert !Mine(minter, b, e);
    assert e !in sea.flying;
  }

  lemma IssueSettled(minter: Id, b: Books, sea: Sea, c: Books, e: Envelope)
    requires Accounted(minter, b, sea) && e.requestId == RequestId(minter, |b.issued|) && KnownHead(sea.log, e.base)
             && Dead(sea, e)
    requires c.issued == b.issued + [e] && c.completed == b.completed
    requires c.outbox == b.outbox || c.outbox == b.outbox[e.requestId := e]
    ensures Accounted(minter, c, sea)
  {
    hide Dead, KnownHead, Find;
    forall d | Mine(minter, b, d) ensures Mine(minter, c, d) {}
    assert OutboxOk(minter, c) by { hide CompletedOk, OnlyIssued, BasesKnown, Settled; }
    assert CompletedOk(minter, c, sea) by { hide OutboxOk, OnlyIssued, BasesKnown, Settled, Mine; }
    assert OnlyIssued(minter, c, sea) by { hide OutboxOk, CompletedOk, BasesKnown, Settled, Mine; }
    assert BasesKnown(c, sea) by { hide OutboxOk, CompletedOk, OnlyIssued, Settled, Mine; }
    forall n: nat | n < |c.issued| ensures Settled(c, sea, n) {
      hide CompletedOk, OnlyIssued, OutboxOk, BasesKnown, Mine;
      if n < |b.issued| {
        assert Settled(b, sea, n);
      }
    }
  }

  /** An envelope that is dead, or on record as completed, may leave the outbox. */
  lemma AccountedClear(minter: Id, b: Books, sea: Sea, id: RequestId)
    requires Accounted(minter, b, sea) && id in b.outbox && (Dead(sea, b.outbox[id]) || id in b.completed)
    ensures Accounted(minter, b.(outbox := b.outbox - {id}), sea)
  {
    forall n: nat | n < |b.issued| ensures Settled(b.(outbox := b.outbox - {id}), sea, n) {
      assert Settled(b, sea, n);
    }
  }

  /** An ordered event may be put on record as completed. */
  lemma AccountedRecord(minter: Id, b: Books, sea: Sea, id: RequestId, event: Event)
    requires Accounted(minter, b, sea) && id in b.outbox && Find(sea.log, id) == Some(event)
    ensures Accounted(minter, b.(completed := b.completed[id := Completed(b.outbox[id], event)]), sea)
  {
    hide Dead, KnownHead;
    var c := b.(completed := b.completed[id := Completed(b.outbox[id], event)]);
    forall n: nat | n < |b.issued| ensures Settled(c, sea, n) {
      assert Settled(b, sea, n);
    }
  }

  /** A completed record already there agrees with the outbox and with the ordered event. */
  lemma RecordAgrees(minter: Id, b: Books, sea: Sea, id: RequestId, event: Event)
    requires Accounted(minter, b, sea) && id in b.outbox && Find(sea.log, id) == Some(event) && id in b.completed
    ensures b.completed[id] == Completed(b.outbox[id], event)
  {}

  /** An event found under an outbox id carries that very envelope. */
  lemma FoundIsOutbox(minter: Id, b: Books, sea: Sea, id: RequestId)
    requires Accounted(minter, b, sea) && id in b.outbox && Find(sea.log, id).Some?
    ensures Find(sea.log, id).value.event == Submitted(b.outbox[id])
  {}

  /** A stale answer means that the envelope's head lies behind for good. */
  lemma StaleIsDead(clerk: Key, policy: Policy, sea: Sea, e: Envelope, now: Time)
    requires KnownHead(sea.log, e.base) && Handle(clerk, policy, sea.log, e, now).0.Stale?
    ensures Past(sea.log, e.base) && Dead(sea, e)
  {
    assert sea.log[..|sea.log|] == sea.log;
  }

  /** What an answer to a post tells: a receipt, that the envelope is dead, or that this post did not revive it. */
  lemma PostDecides(clerk: Key, policy: Policy, sea: Sea, e: Envelope, fate: Fate)
    requires SeaOk(clerk, sea) && KnownHead(sea.log, e.base)
    ensures var (after, reply) := Post(clerk, policy, sea, e, fate);
            && (reply.Receipted? ==> Find(after.log, e.requestId) == Some(reply.event))
            && (reply.Stale? ==> Dead(after, e))
            && (reply.Refused? && Dead(sea, e) ==> Dead(after, e))
  {
    if fate.Answered? {
      HandleAdds(clerk, policy, sea.log, e, fate.now);
      if Handle(clerk, policy, sea.log, e, fate.now).0.Stale? {
        StaleIsDead(clerk, policy, sea, e, fate.now);
      }
    }
  }

  /** Dead envelopes outside the outbox stay dead. */
  ghost predicate StayDead(b: Books, s: Sea, t: Sea) {
    forall n: nat ::
        n < |b.issued| && b.issued[n].requestId !in b.outbox && Dead(s, b.issued[n]) ==> Dead(t, b.issued[n])
  }

  /** While the rest of the world acts, the books stay accounted for and ordered events stay found. */
  lemma MeanwhileAccounted(clerk: Key, policy: Policy, minter: Id, b: Books, sea: Sea, actions: seq<Outside>)
    requires SeaOk(clerk, sea) && Accounted(minter, b, sea) && Apart(minter, actions)
    ensures var after := HappenAll(clerk, policy, sea, actions);
            && SeaOk(clerk, after) && Accounted(minter, b, after) && StayDead(b, sea, after)
            && DeadStay(b, sea, after, None)
            && forall id :: Find(sea.log, id).Some? ==> Find(after.log, id) == Find(sea.log, id)
  {
    hide SeaOk, Accounted, Find, Apart, HappenAll, Dead;
    var after := HappenAll(clerk, policy, sea, actions);
    HappenAllEvolves(clerk, policy, minter, sea, actions);
    AccountedEvolves(clerk, minter, b, sea, after, None);
    forall id | Find(sea.log, id).Some? ensures Find(after.log, id) == Find(sea.log, id) {
      FindGrows(sea.log, after.log, id);
    }
  }

  /** Posting an outbox record keeps the books accounted for, and its answer decides as much as it says. */
  lemma PostAccounted(clerk: Key, policy: Policy, minter: Id, b: Books, sea: Sea, id: RequestId, fate: Fate)
    requires SeaOk(clerk, sea) && Accounted(minter, b, sea) && id in b.outbox
    ensures var e := b.outbox[id];
            var (after, reply) := Post(clerk, policy, sea, e, fate);
            && SeaOk(clerk, after) && Accounted(minter, b, after) && StayDead(b, sea, after)
            && (reply.Receipted? ==> Find(after.log, id) == Some(reply.event))
            && (reply.Stale? ==> Dead(after, e))
            && (reply.Refused? && Dead(sea, e) ==> Dead(after, e))
            && (reply.NoReply? ==> !fate.Answered?)
  {
    hide SeaOk, Find, Handle, Dead, KnownHead, CompletedOk, OnlyIssued, Settled;
    var e := b.outbox[id];
    assert b.issued[e.requestId.number] == e;
    var after := Post(clerk, policy, sea, e, fate).0;
    PostEvolves(clerk, policy, minter, sea, e, fate);
    AccountedEvolves(clerk, minter, b, sea, after, Some(e));
    PostDecides(clerk, policy, sea, e, fate);
    AnswersAlways(clerk, policy, sea.log, e);
  }

  lemma AnswersAlways(clerk: Key, policy: Policy, log: EventLog, e: Envelope)
    ensures forall now :: !Handle(clerk, policy, log, e, now).0.NoReply?
  {}

  lemma OutboxIds(minter: Id, b: Books, sea: Sea, id: RequestId)
    requires Accounted(minter, b, sea) && id in b.outbox
    ensures b.outbox[id].requestId == id && Mine(minter, b, b.outbox[id])
  {}

  /** The next number is on no record. */
  lemma FreshId(minter: Id, b: Books, sea: Sea)
    requires Accounted(minter, b, sea)
    ensures RequestId(minter, |b.issued|) !in b.outbox && RequestId(minter, |b.issued|) !in b.completed
  {}

  /**
   When all the envelopes of one call but the last are dead, at most one of them is ever ordered, whatever copies
   are still to arrive.
   */
  lemma AtMostOneEverOrdered(clerk: Key, policy: Policy, minter: Id, b: Books, sea: Sea, from: nat,
                             actions: seq<Outside>, i: nat, j: nat)
    requires SeaOk(clerk, sea) && Accounted(minter, b, sea) && Apart(minter, actions)
    requires forall n: nat :: from <= n < |b.issued| - 1 ==> Dead(sea, b.issued[n])
    requires from <= i < |b.issued| && from <= j < |b.issued|
    ensures var log := HappenAll(clerk, policy, sea, actions).log;
            Find(log, b.issued[i].requestId).Some? && Find(log, b.issued[j].requestId).Some? ==> i == j
  {
    MeanwhileAccounted(clerk, policy, minter, b, sea, actions);
  }
}
