/** When a refused entry leaves a trace in the mutable state. */
module CommunityRefusal {
  import opened Basics
  import opened Chain
  import opened CommunityTypes
  import opened CommunitySteps
  import opened CommunityCase
  import opened CommunityRuns

  /**
   On a state that has been opened, or for any other event, a refusal changes nothing. On a fresh state it does
   exactly when the opening passed every check but the independence of the clerk's key.
   */
  lemma RefusalLeavesTrace(entries: seq<CommunityEntry>, s: State, e: CommunityEntry)
    requires Run(entries) == Accept(s) && Step(s, e).Reject?
    ensures AfterRefusal(s, e) != s <==>
            && entries == [] && MayStartOpening(s, e)
            && CaseActorKey(e.event.payload.manifest, e.event.actor)
  {
    RunOpen(entries, s);
    TraceNeedsOpening(s, e);
  }

  lemma TraceNeedsOpening(s: State, e: CommunityEntry)
    requires StepOpened(s, e).Reject? || !e.event.payload.CommunityOpened?
    requires s.phase == New ==> s == EmptyState
    ensures AfterRefusal(s, e) != s <==>
            && s.phase == New && MayStartOpening(s, e)
            && CaseActorKey(e.event.payload.manifest, e.event.actor)
  {}

  const SampleFrontier: Frontier :=
    Frontier("f", None, "start", [], {}, FrontierDigest("case", "f", None, "start", [], {}))

  const SampleManifest: Manifest := Manifest(
    "case",
    map["a" := Participant("a", "a", "a", "a"), "b" := Participant("b", "b", "b", "b")],
    "v",
    map["r" := Reviewer("r", "r"), "s" := Reviewer("s", "s"), "t" := Reviewer("t", "t")],
    Policy(60, true, 3, 0), 1, OtherDigest("env"), SampleFrontier)

  lemma SampleParticipants()
    ensures ValidParticipants(SampleManifest)
    ensures SampleManifest.participants.Keys == {"a", "b"}
    ensures forall k :: k in SampleManifest.participants ==> SampleManifest.participants[k] == Participant(k, k, k, k)
  {
    var ps := SampleManifest.participants;
    assert ps.Keys == {"a", "b"} && |ps| == |ps.Keys|;
  }

  lemma SampleRoster()
    ensures |SampleManifest.reviewers| == 3 && SampleManifest.reviewers.Keys == {"r", "s", "t"}
    ensures forall k :: k in SampleManifest.reviewers ==> SampleManifest.reviewers[k] == Reviewer(k, k)
  {
    var rs := SampleManifest.reviewers;
    assert rs.Keys == {"r", "s", "t"} && |rs| == |rs.Keys|;
  }

  /** A manifest whose actors sign with their own names. */
  lemma NamedReviewers(m: Manifest)
    requires 3 <= |m.reviewers| <= 21 && m.verifierKey !in m.reviewers
    requires m.reviewers.Keys !! m.participants.Keys
    requires forall k :: k in m.reviewers ==> m.reviewers[k] == Reviewer(k, k)
    requires forall k :: k in m.participants ==> m.participants[k] == Participant(k, k, k, k)
    ensures ValidReviewers(m)
  {}

  lemma SampleReviewers()
    ensures ValidReviewers(SampleManifest)
  {
    SampleParticipants();
    SampleRoster();
    NamedReviewers(SampleManifest);
  }

  lemma SampleIsValid()
    ensures ValidManifest(SampleManifest)
  {
    hide ValidParticipants, ValidReviewers;
    SampleParticipants();
    SampleReviewers();
    assert |SampleManifest.reviewers| == 3 by { SampleRoster(); }
  }

  /** A clerk that signs with the verifier's key is refused, yet the fresh state keeps its manifest and key. */
  lemma RefusedOpeningWitness(e: CommunityEntry)
    requires e == NextEntry([], SignedEvent(CommunityOpened("v", SampleManifest), "v"), "v", 0)
    ensures Step(EmptyState, e).Reject?
    ensures AfterRefusal(EmptyState, e).manifest == Some(SampleManifest)
    ensures AfterRefusal(EmptyState, e).clerkKey == Some("v")
  {
    SampleIsValid();
  }
}
