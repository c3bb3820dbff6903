/** Invariants of every replayed transcript, by induction over its entries. */
module CommunityRuns {
  import opened Basics
  import opened Chain
  import opened CommunityTypes
  import opened CommunitySteps
  import opened CommunityInvariants
  import opened CommunityProvenance
  import opened CommunityAttribution
  import opened CommunityReview

  /** The state before the last entry. */
  lemma RunLast(entries: seq<CommunityEntry>, s: State) returns (prev: State)
    requires entries != [] && Run(entries) == Accept(s)
    ensures Run(entries[..|entries| - 1]) == Accept(prev)
    ensures Step(prev, entries[|entries| - 1]) == Accept(s)
  {
    hide Step;
    prev := Run(entries[..|entries| - 1]).value;
  }

  lemma LinkedLast(entries: seq<CommunityEntry>)
    requires entries != [] && Linked(entries)
    ensures Linked(entries[..|entries| - 1])
    ensures var e := entries[|entries| - 1]; e.hash == e.Body() && e.seqNo == |entries| - 1
  {
    LinkedPrefix(entries, |entries| - 1);
    assert LinkedAt(entries, |entries| - 1);
  }

  lemma {:induction false} RunGraph(entries: seq<CommunityEntry>, s: State)
    requires Linked(entries) && Run(entries) == Accept(s)
    ensures GraphOk(s.handoffs, |entries|)
  {
    hide Step;
    if entries != [] {
      var prev := RunLast(entries, s);
      LinkedLast(entries);
      RunGraph(entries[..|entries| - 1], prev);
      GraphKept(prev, entries[|entries| - 1], s, |entries| - 1);
    }
  }

  lemma {:induction false} RunProvenance(entries: seq<CommunityEntry>, s: State)
    requires Linked(entries) && Run(entries) == Accept(s)
    ensures ProvenanceOk(s.handoffs, s.commitments, s.claims, |entries|)
  {
    hide Step;
    if entries != [] {
      var prev := RunLast(entries, s);
      LinkedLast(entries);
      RunProvenance(entries[..|entries| - 1], prev);
      ProvenanceKept(prev, entries[|entries| - 1], s, |entries| - 1);
    }
  }

  lemma {:induction false} RunAccounted(entries: seq<CommunityEntry>, s: State)
    requires Linked(entries) && Run(entries) == Accept(s)
    ensures AccountedOk(s.accesses, s.results, |entries|)
  {
    hide Step;
    if entries != [] {
      var prev := RunLast(entries, s);
      LinkedLast(entries);
      RunAccounted(entries[..|entries| - 1], prev);
      AccountedKept(prev, entries[|entries| - 1], s, |entries| - 1);
    }
  }

  lemma {:induction false} RunAccepted(entries: seq<CommunityEntry>, s: State)
    requires Run(entries) == Accept(s)
    ensures AcceptedOk(s.handoffs, s.commitments, s.accepted)
  {
    hide Step;
    if entries != [] {
      var prev := RunLast(entries, s);
      RunAccepted(entries[..|entries| - 1], prev);
      AcceptedKept(prev, entries[|entries| - 1], s);
    }
  }

  lemma {:induction false} RunResults(entries: seq<CommunityEntry>, s: State)
    requires Run(entries) == Accept(s)
    ensures ResultsOk(s.handoffs, s.accepted, s.results)
  {
    hide Step;
    if entries != [] {
      var prev := RunLast(entries, s);
      RunResults(entries[..|entries| - 1], prev);
      RunAccepted(entries[..|entries| - 1], prev);
      ResultsKept(prev, entries[|entries| - 1], s);
    }
  }

  lemma {:induction false} RunSealed(entries: seq<CommunityEntry>, s: State)
    requires Run(entries) == Accept(s)
    ensures SealOk(s)
  {
    hide Step;
    if entries != [] {
      var prev := RunLast(entries, s);
      RunSealed(entries[..|entries| - 1], prev);
      SealKept(prev, entries[|entries| - 1], s);
    }
  }

  lemma {:induction false} RunBallots(entries: seq<CommunityEntry>, s: State)
    requires Run(entries) == Accept(s)
    ensures BallotsOk(s)
  {
    hide Step;
    if entries != [] {
      var prev := RunLast(entries, s);
      RunBallots(entries[..|entries| - 1], prev);
      BallotsKept(prev, entries[|entries| - 1], s);
    }
  }

  lemma {:induction false} RunAllocation(entries: seq<CommunityEntry>, s: State)
    requires Run(entries) == Accept(s)
    ensures AllocationOk(s)
  {
    hide Step;
    if entries != [] {
      var prev := RunLast(entries, s);
      RunAllocation(entries[..|entries| - 1], prev);
      AllocationKept(prev, entries[|entries| - 1], s);
    }
  }

  lemma {:induction false} RunPayout(entries: seq<CommunityEntry>, s: State)
    requires Run(entries) == Accept(s)
    ensures PayoutOk(s)
  {
    hide Step;
    if entries != [] {
      var prev := RunLast(entries, s);
      RunPayout(entries[..|entries| - 1], prev);
      PayoutKept(prev, entries[|entries| - 1], s);
    }
  }

  // ----- Opening -----

  /** A case is new exactly when nothing has happened; afterwards its manifest and clerk are fixed and valid. */
  ghost predicate OpenOk(s: State) {
    && (s.phase == New ==> s == EmptyState)
    && (s.phase != New ==>
          && s.manifest.Some? && ValidManifest(s.manifest.value)
          && s.clerkKey.Some? && !CaseActorKey(s.manifest.value, s.clerkKey.value))
  }

  lemma {:induction false} RunOpen(entries: seq<CommunityEntry>, s: State)
    requires Run(entries) == Accept(s)
    ensures OpenOk(s) && (entries != [] <==> s.phase != New)
  {
    hide Step;
    if entries != [] {
      var prev := RunLast(entries, s);
      RunOpen(entries[..|entries| - 1], prev);
      OpenKept(prev, entries[|entries| - 1], s);
    }
  }

  lemma OpenKept(s: State, e: CommunityEntry, t: State)
    requires Step(s, e) == Accept(t) && OpenOk(s)
    ensures OpenOk(t) && t.phase != New
    ensures s.phase != New ==> t.manifest == s.manifest && t.clerkKey == s.clerkKey
    ensures s.phase == New ==> t.claims == map[]
  {
    StepFramed(s, e, t);
    if WorkKind(e.event.payload) {
      WorkFramed(s, e.event.actor, e.at, e.hash, e.event.payload, t);
    } else if !e.event.payload.CommunityOpened? {
      ReviewFramed(s, e.event.actor, e.event.payload, t);
    }
  }

  lemma {:induction false} RunLeases(entries: seq<CommunityEntry>, s: State)
    requires entries != [] && Run(entries) == Accept(s) && TimesMonotone(entries)
    ensures s.manifest.Some?
    ensures LeasesOk(s.claims, s.manifest.value.policy.allowParallel, entries[|entries| - 1].at)
  {
    hide Step;
    var init, last := entries[..|entries| - 1], entries[|entries| - 1];
    var prev := RunLast(entries, s);
    RunOpen(entries, s);
    RunOpen(init, prev);
    OpenKept(prev, last, s);
    if init != [] {
      RunLeases(init, prev);
      assert init[|init| - 1].at <= last.at;
      LeasesKept(prev, last, s, init[|init| - 1].at);
    }
  }

  // ----- Transcripts and their continuations -----

  /** A continued transcript loses its last entry from the continuation. */
  lemma RunShorter(entries: seq<CommunityEntry>, more: seq<CommunityEntry>, t: State) returns (prev: State)
    requires more != [] && Run(entries + more) == Accept(t)
    ensures Run(entries + more[..|more| - 1]) == Accept(prev)
    ensures Step(prev, more[|more| - 1]) == Accept(t)
  {
    hide Step;
    ShorterConcat(entries, more);
    prev := RunLast(entries + more, t);
  }

  lemma {:induction false} RunPrefix(entries: seq<CommunityEntry>, more: seq<CommunityEntry>, t: State)
    requires Run(entries + more) == Accept(t)
    ensures Run(entries).Accept?
  {
    hide Step;
    if more == [] {
      assert entries + more == entries;
    } else {
      var prev := RunShorter(entries, more, t);
      RunPrefix(entries, more[..|more| - 1], prev);
    }
  }

  /** Every non-empty prefix of a replayable transcript is replayable. */
  lemma ReplayPrefix(entries: seq<CommunityEntry>, more: seq<CommunityEntry>)
    requires entries != [] && Replay(entries + more).Accept?
    ensures Replay(entries).Accept?
  {
    hide Step, Run, Verified;
    VerifiedPrefix(CommunityRules, entries + more, |entries|);
    assert (entries + more)[..|entries|] == entries;
    RunPrefix(entries, more, Run(entries + more).value);
  }

  /** Nothing the seal froze changes in any continuation. */
  lemma {:induction false} SealedForever(entries: seq<CommunityEntry>, more: seq<CommunityEntry>, s: State, t: State)
    requires Run(entries) == Accept(s) && Run(entries + more) == Accept(t)
    requires s.phase != New && s.phase != Active
    ensures SameEvidence(s, t) && t.phase != New && t.phase != Active
  {
    hide Step;
    if more == [] {
      assert entries + more == entries;
    } else {
      var prev := RunShorter(entries, more, t);
      SealedForever(entries, more[..|more| - 1], s, prev);
      SealFreezes(prev, more[|more| - 1], t);
    }
  }

  lemma ClosedCommitsHeld(s: State, e: CommunityEntry, t: State)
    requires Step(s, e) == Accept(t) && s.commitsClosed
    ensures t.commitsClosed && t.commits == s.commits
  {
    StepFramed(s, e, t);
    if e.event.payload.BallotCommitted? {
      CommitNeedsOpen(s, e.event.actor, e.event.payload);
    } else if e.event.payload.CommitsClosed? {
      CloseNeedsOpen(s, e.event.actor, e.event.payload);
    }
  }

  lemma CommitNeedsOpen(s: State, actor: Key, p: Payload)
    requires p.BallotCommitted?
    ensures s.commitsClosed ==> StepBallotCommitted(s, actor, p).Reject?
  {}

  lemma CloseNeedsOpen(s: State, actor: Key, p: Payload)
    requires p.CommitsClosed?
    ensures s.commitsClosed ==> StepClosed(s, actor, p).Reject?
  {}

  /** Once commits are closed, the set of commitments is final. */
  lemma {:induction false} CommitsForever(entries: seq<CommunityEntry>, more: seq<CommunityEntry>, s: State, t: State)
    requires Run(entries) == Accept(s) && Run(entries + more) == Accept(t) && s.commitsClosed
    ensures t.commitsClosed && t.commits == s.commits
  {
    hide Step;
    if more == [] {
      assert entries + more == entries;
    } else {
      var prev := RunShorter(entries, more, t);
      CommitsForever(entries, more[..|more| - 1], s, prev);
      ClosedCommitsHeld(prev, more[|more| - 1], t);
    }
  }
}
