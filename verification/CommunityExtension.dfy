/** Growing a replayed transcript by one signed entry. */
module CommunityExtension {
  import opened Basics
  import opened Chain
  import opened CommunityTypes
  import opened CommunitySteps
  import opened CommunityRuns

  /** The clerk that founded a verified transcript. */
  function FounderOf(entries: seq<CommunityEntry>): Key
    requires entries != [] && OpensCommunity(entries[0].event).Some?
  {
    OpensCommunity(entries[0].event).value
  }

  /** The receipt time of the last entry. */
  function LastTime(entries: seq<CommunityEntry>): Time
    requires entries != []
  {
    entries[|entries| - 1].at
  }

  /** The entry the founding clerk writes for one more event, received at the last entry's time. */
  function Signed(entries: seq<CommunityEntry>, payload: Payload, signer: Key): CommunityEntry
    requires entries != [] && OpensCommunity(entries[0].event).Some?
  {
    NextEntry(entries, SignedEvent(payload, signer), FounderOf(entries), LastTime(entries))
  }

  lemma Founded(entries: seq<CommunityEntry>, s: State)
    requires Replay(entries) == Accept(s)
    ensures entries != [] && OpensCommunity(entries[0].event).Some? && Run(entries) == Accept(s)
  {
    hide Run;
  }

  /** An accepted next entry keeps the transcript replayable. */
  lemma Extend(entries: seq<CommunityEntry>, s: State, payload: Payload, signer: Key, t: State)
    requires Replay(entries) == Accept(s)
    requires entries != [] && OpensCommunity(entries[0].event).Some?
    requires Step(s, Signed(entries, payload, signer)) == Accept(t)
    ensures Replay(entries + [Signed(entries, payload, signer)]) == Accept(t)
  {
    hide Step;
    var e := Signed(entries, payload, signer);
    VerifiedAppend(CommunityRules, entries, e.event, LastTime(entries));
    ShorterConcat(entries, [e]);
    assert entries + [e][..0] == entries;
  }

  /** Whatever follows a replayed transcript, its state accepts. */
  lemma AcceptedNext(entries: seq<CommunityEntry>, s: State, e: CommunityEntry)
    requires Replay(entries) == Accept(s) && Replay(entries + [e]).Accept?
    ensures Step(s, e).Accept?
  {
    hide Step;
    ShorterConcat(entries, [e]);
    assert entries + [e][..0] == entries;
  }

  lemma ExtendWork(entries: seq<CommunityEntry>, s: State, payload: Payload, signer: Key, t: State)
    requires Replay(entries) == Accept(s) && WorkKind(payload)
    requires entries != [] && OpensCommunity(entries[0].event).Some?
    requires StepWork(s, signer, LastTime(entries), Signed(entries, payload, signer).hash, payload) == Accept(t)
    ensures Replay(entries + [Signed(entries, payload, signer)]) == Accept(t)
    ensures LastTime(entries + [Signed(entries, payload, signer)]) == LastTime(entries)
  {
    hide Replay, StepWork;
    Extend(entries, s, payload, signer, t);
  }

  lemma ExtendReview(entries: seq<CommunityEntry>, s: State, payload: Payload, signer: Key, t: State)
    requires Replay(entries) == Accept(s) && !WorkKind(payload) && !payload.CommunityOpened?
    requires entries != [] && OpensCommunity(entries[0].event).Some?
    requires StepReview(s, signer, payload) == Accept(t)
    ensures Replay(entries + [Signed(entries, payload, signer)]) == Accept(t)
  {
    hide Replay, StepReview;
    Extend(entries, s, payload, signer, t);
  }

  /** No entry, and so no longer transcript, can follow. */
  ghost predicate Final(entries: seq<CommunityEntry>) {
    forall more :: more != [] ==> Replay(entries + more).Reject?
  }

  lemma FinalWhenRefused(entries: seq<CommunityEntry>, s: State)
    requires Replay(entries) == Accept(s) && forall e :: Step(s, e).Reject?
    ensures Final(entries)
  {
    hide Step, Replay;
    forall more | more != [] ensures Replay(entries + more).Reject? {
      if Replay(entries + more).Accept? {
        assert entries + more == entries + [more[0]] + more[1..];
        ReplayPrefix(entries + [more[0]], more[1..]);
        AcceptedNext(entries, s, more[0]);
      }
    }
  }
}
