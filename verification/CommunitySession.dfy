/** A live case: its ledger and its mutable state, kept in step by append and rollback. */
module CommunitySession {
  import opened Basics
  import opened Chain
  import opened CommunityTypes
  import opened CommunitySteps
  import opened CommunityReview
  import opened CommunityRuns
  import opened CommunityCase
  import History = CommunityHistory
  import Records = CommunityRecords
  import Law = CommunityLaw

  /** A fold of accepted entries always leaves a state that further entries may be applied to. */
  lemma RunValid(entries: seq<CommunityEntry>, s: State)
    requires Run(entries) == Accept(s)
    ensures BallotsOk(s) && (s.manifest.Some? ==> 0 <= s.manifest.value.bountyRao)
    ensures entries != [] ==> s.phase != New
  {
    hide Step;
    RunBallots(entries, s);
    RunOpen(entries, s);
  }

  lemma RunExtended(entries: seq<CommunityEntry>, e: CommunityEntry)
    requires Run(entries).Accept?
    ensures Run(entries + [e]) == Step(Run(entries).value, e)
  {
    hide Step;
    assert (entries + [e])[..|entries|] == entries;
  }

  /** replay_community_ledger: verify, then fold every entry into a fresh state. */
  method ReplayLedger(ledger: Ledger<Event>) returns (state: CommunityState?)
    requires ledger.rules == CommunityRules
    ensures state != null <==> Replay(ledger.entries).Accept?
    ensures state != null ==> fresh(state) && state.Valid() && Accept(state.View()) == Replay(ledger.entries)
  {
    hide Step, AfterRefusal, BallotsOk;
    var verified := ledger.Verify();
    if !verified {
      return null;
    }
    var folded := new CommunityState();
    var entries := ledger.entries;
    for i := 0 to |entries|
      invariant fresh(folded) && folded.Valid()
      invariant Run(entries[..i]) == Accept(folded.View())
      invariant ledger.entries == entries
    {
      RunExtended(entries[..i], entries[i]);
      assert entries[..i + 1] == entries[..i] + [entries[i]];
      var ok := folded.Apply(entries[i]);
      if !ok {
        RejectedPrefix(entries, i + 1);
        return null;
      }
    }
    assert entries[..|entries|] == entries;
    return folded;
  }

  lemma RejectedPrefix(entries: seq<CommunityEntry>, n: nat)
    requires n <= |entries| && Run(entries[..n]).Reject?
    ensures Run(entries).Reject?
  {
    hide Step;
    if Run(entries).Accept? {
      assert entries == entries[..n] + entries[n..];
      RunPrefix(entries[..n], entries[n..], Run(entries).value);
    }
  }

  class CommunitySession {
    const ledger: Ledger<Event>
    const state: CommunityState
    const clerk: Key

    /** The ledger verifies, and the live state is exactly a fresh fold of it. */
    ghost predicate Valid()
      reads this, ledger, state
    {
      && ledger.rules == CommunityRules
      && Verified(CommunityRules, ledger.entries)
      && OpensCommunity(ledger.entries[0].event) == Some(clerk)
      && Run(ledger.entries) == Accept(state.View())
    }

    /** Bind a verified ledger to its replayed state. */
    constructor (ledger: Ledger<Event>, state: CommunityState, clerk: Key)
      requires ledger.rules == CommunityRules && Verified(CommunityRules, ledger.entries)
      requires OpensCommunity(ledger.entries[0].event) == Some(clerk)
      requires Run(ledger.entries) == Accept(state.View())
      ensures Valid() && this.ledger == ledger && this.state == state && this.clerk == clerk
    {
      this.ledger, this.state, this.clerk := ledger, state, clerk;
    }

    /** Open a case; null when the manifest is refused. */
    static method Open(manifest: Manifest, clerk: Key, at: Time) returns (session: CommunitySession?)
      ensures var genesis := NextEntry([], SignedEvent(CommunityOpened(clerk, manifest), clerk), clerk, at);
              && (session != null <==> Step(EmptyState, genesis).Accept?)
              && (session != null ==>
                    fresh(session) && fresh(session.ledger) && fresh(session.state) && session.Valid()
                    && session.clerk == clerk && session.ledger.entries == [genesis])
    {
      hide Step;
      var event := SignedEvent(CommunityOpened(clerk, manifest), clerk);
      ghost var genesis := NextEntry([], event, clerk, at);
      var ledger := new Ledger(CommunityRules, []);
      var entry := ledger.AppendEvent(event, clerk, at);
      assert ledger.entries == [genesis];
      var state := new CommunityState();
      var ok := state.Apply(ledger.entries[0]);
      RunExtended([], genesis);
      assert [] + [genesis] == [genesis];
      if !ok {
        return null;
      }
      VerifiedGenesis(CommunityRules, event, clerk, at);
      session := new CommunitySession(ledger, state, clerk);
    }

    /** Rebuild a session from a stored ledger; null when it does not verify, replay, or match the clerk. */
    static method Resume(ledger: Ledger<Event>, clerk: Key) returns (session: CommunitySession?)
      requires ledger.rules == CommunityRules
      ensures session != null <==>
              Replay(ledger.entries).Accept? && OpensCommunity(ledger.entries[0].event) == Some(clerk)
      ensures session != null ==> fresh(session) && session.Valid() && session.ledger == ledger && fresh(session.state)
    {
      hide Step;
      var state := ReplayLedger(ledger);
      if state == null || OpensCommunity(ledger.entries[0].event) != Some(clerk) {
        return null;
      }
      session := new CommunitySession(ledger, state, clerk);
    }

    /**
     Write the entry to the ledger, apply it, and roll the ledger back if it is refused. Afterwards the ledger still
     verifies and the live state is still its fold; a failed append changes neither.
     */
    method Append(payload: Payload, actorPrivateKey: Key, at: Time) returns (entry: Option<CommunityEntry>)
      requires Valid()
      modifies ledger, state
      ensures Valid()
      ensures var next := NextEntry(old(ledger.entries), SignedEvent(payload, actorPrivateKey), clerk, at);
              && (entry == Some(next) || entry == None)
              && (entry.Some? <==>
                    old(ledger.entries)[|old(ledger.entries)| - 1].at <= at && Step(old(state.View()), next).Accept?)
              && (entry.Some? <==>
                    && old(ledger.entries)[|old(ledger.entries)| - 1].at <= at
                    && History.Lawful(old(ledger.entries), next))
              && (entry.Some? ==>
                    ledger.entries == old(ledger.entries) + [next]
                        && Accept(state.View()) == Step(old(state.View()), next))
      ensures entry.None? ==> ledger.entries == old(ledger.entries) && state.View() == old(state.View())
      ensures Records.Recorded(ledger.entries, state.View()) && Records.AddsUp(ledger.entries, state.View())
    {
      hide Step, History.Lawful, Records.Recorded, Records.AddsUp;
      ghost var before := ledger.entries;
      ghost var view := state.View();
      RunValid(before, view);
      Records.RunRecorded(before, view);
      var event := SignedEvent(payload, actorPrivateKey);
      Law.StepLaw(before, view, NextEntry(before, event, clerk, at));
      entry := ledger.Append(event, clerk, at);
      if entry.None? {
        return;
      }
      RunExtended(before, entry.value);
      var ok := state.Apply(entry.value);
      if !ok {
        ledger.RollbackLast();
        assert ledger.entries == before;
        return None;
      }
      VerifiedAppend(CommunityRules, before, event, at);
      Records.RunRecorded(ledger.entries, state.View());
    }
  }
}
