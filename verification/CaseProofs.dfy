/** Hash-link proofs that a case clerk signs over a stretch of its event log, without the events. */
module CaseProofs {
  import opened Basics

  type EventHash = string

  const MaxLinks: int := 256

  datatype CaseEvent = CaseEvent(seqNo: int, prev: Option<EventHash>, hash: EventHash)

  datatype CaseProofBody = CaseProofBody(
    problemId: Id, clerk: Key, fromCount: int, fromHead: Option<EventHash>, toCount: int, toHead: Option<EventHash>,
    links: seq<CaseEvent>)

  datatype CaseProof = CaseProof(body: CaseProofBody, signature: Signature<CaseProofBody>)

  /** The head after some links; an empty log has none. */
  function EndOf(head: Option<EventHash>, links: seq<CaseEvent>): Option<EventHash> {
    if links == [] then head else Some(links[|links| - 1].hash)
  }

  /** Each link continues the one before, by position and by hash. */
  predicate Contiguous(links: seq<CaseEvent>, fromCount: int, head: Option<EventHash>) {
    forall i :: 0 <= i < |links| ==> links[i].seqNo == fromCount + i && links[i].prev == EndOf(head, links[..i])
  }

  /** The head a proof establishes for one clerk, problem and range, if it is acceptable. */
  function CheckProof(p: CaseProof, problemId: Id, clerk: Key, fromCount: int, fromHead: Option<EventHash>,
                      toCount: int)
    : Result<Option<EventHash>>
  {
    var b := p.body;
    if && b.problemId == problemId && b.clerk == clerk
       && b.fromCount == fromCount && b.fromHead == fromHead && b.toCount == toCount
       && fromCount <= toCount && |b.links| == toCount - fromCount <= MaxLinks
       && Contiguous(b.links, fromCount, fromHead) && b.toHead == EndOf(fromHead, b.links)
       && p.signature == Signature(clerk, b)
    then Accept(b.toHead)
    else Reject
  }

  /** What a reader checks of one link, given the one before it. */
  predicate Follows(links: seq<CaseEvent>, i: nat, fromCount: int, head: Option<EventHash>)
    requires i < |links|
  {
    links[i].seqNo == fromCount + i && links[i].prev == if i == 0 then head else Some(links[i - 1].hash)
  }

  lemma ContiguousFollows(links: seq<CaseEvent>, fromCount: int, head: Option<EventHash>)
    ensures Contiguous(links, fromCount, head) <==> forall i :: 0 <= i < |links| ==> Follows(links, i, fromCount, head)
    ensures EndOf(head, links) == if |links| == 0 then head else Some(links[|links| - 1].hash)
  {
    forall i | 0 <= i < |links|
      ensures Follows(links, i, fromCount, head) <==>
              links[i].seqNo == fromCount + i && links[i].prev == EndOf(head, links[..i])
    {
      if i > 0 {
        assert links[..i][i - 1] == links[i - 1];
      }
    }
    hide EndOf;
    if forall i :: 0 <= i < |links| ==> Follows(links, i, fromCount, head) {
      forall i | 0 <= i < |links|
        ensures links[i].seqNo == fromCount + i && links[i].prev == EndOf(head, links[..i])
      {
        assert Follows(links, i, fromCount, head);
      }
    }
  }

  /** The clerk signed exactly this range, and each link of it follows the one before up to the stated head. */
  ghost predicate ProofHolds(p: CaseProof, problemId: Id, clerk: Key, fromCount: int, fromHead: Option<EventHash>,
                             toCount: int) {
    var links := p.body.links;
    && p.body == CaseProofBody(problemId, clerk, fromCount, fromHead, toCount, p.body.toHead, links)
    && p.signature == Signature(clerk, p.body) && 0 <= toCount - fromCount == |links| <= 256
    && (forall i :: 0 <= i < |links| ==> Follows(links, i, fromCount, fromHead))
    && p.body.toHead == if |links| == 0 then fromHead else Some(links[|links| - 1].hash)
  }

  lemma ProofExactly(p: CaseProof, problemId: Id, clerk: Key, fromCount: int, fromHead: Option<EventHash>, toCount: int)
    ensures CheckProof(p, problemId, clerk, fromCount, fromHead, toCount).Accept? <==>
            ProofHolds(p, problemId, clerk, fromCount, fromHead, toCount)
  {
    ContiguousFollows(p.body.links, fromCount, fromHead);
    hide Contiguous, Follows;
  }

  /** verify_chain_proof: follow the links, then check the clerk's signature over all of them. */
  method VerifyProof(p: CaseProof, problemId: Id, clerk: Key, fromCount: int, fromHead: Option<EventHash>, toCount: int)
    returns (verified: Result<Option<EventHash>>)
    ensures verified == CheckProof(p, problemId, clerk, fromCount, fromHead, toCount)
    ensures verified.Accept? <==> ProofHolds(p, problemId, clerk, fromCount, fromHead, toCount)
    ensures verified.Accept? ==> verified.value == p.body.toHead
  {
    ProofExactly(p, problemId, clerk, fromCount, fromHead, toCount);
    hide ProofHolds;
    var b := p.body;
    if || b.problemId != problemId || b.clerk != clerk
       || b.fromCount != fromCount || b.fromHead != fromHead || b.toCount != toCount
       || fromCount > toCount || toCount - fromCount > MaxLinks || |b.links| != toCount - fromCount
    {
      return Reject;
    }
    var previous := fromHead;
    for i := 0 to |b.links|
      invariant previous == EndOf(fromHead, b.links[..i])
      invariant forall k :: 0 <= k < i ==>
        b.links[k].seqNo == fromCount + k && b.links[k].prev == EndOf(fromHead, b.links[..k])
    {
      var link := b.links[i];
      if link.seqNo != fromCount + i || link.prev != previous {
        return Reject;
      }
      previous := Some(link.hash);
    }
    assert b.links[..|b.links|] == b.links;
    if b.toHead != previous || p.signature != Signature(clerk, b) {
      return Reject;
    }
    return Accept(b.toHead);
  }

  /** The proof for a stretch of events, if they are contiguous and few enough. */
  function Built(problemId: Id, clerk: Key, fromCount: int, startHead: Option<EventHash>,
                 events: seq<CaseEvent>): Option<CaseProof> {
    if 0 <= fromCount && |events| <= MaxLinks && Contiguous(events, fromCount, startHead) then
      var body := CaseProofBody(problemId, clerk, fromCount, startHead, fromCount + |events|, EndOf(startHead, events),
                                events);
      Some(CaseProof(body, Signature(clerk, body)))
    else None
  }

  /** There is a proof exactly for few events that follow each other, and it states and signs exactly those. */
  ghost predicate BuildMeans(problemId: Id, clerk: Key, fromCount: int, startHead: Option<EventHash>,
                             events: seq<CaseEvent>, proof: Option<CaseProof>) {
    && (proof.Some? <==>
        && 0 <= fromCount && |events| <= 256
        && forall i :: 0 <= i < |events| ==> Follows(events, i, fromCount, startHead))
    && (proof.Some? ==>
          && proof.value.signature == Signature(clerk, proof.value.body)
          && proof.value.body ==
             CaseProofBody(problemId, clerk, fromCount, startHead, fromCount + |events|,
                           if |events| == 0 then startHead else Some(events[|events| - 1].hash), events))
  }

  lemma BuiltExactly(problemId: Id, clerk: Key, fromCount: int, startHead: Option<EventHash>, events: seq<CaseEvent>)
    ensures BuildMeans(problemId, clerk, fromCount, startHead, events,
                       Built(problemId, clerk, fromCount, startHead, events))
  {
    ContiguousFollows(events, fromCount, startHead);
  }

  /** build_chain_proof: copy the links while checking that they connect. */
  method BuildProof(problemId: Id, clerk: Key, fromCount: int, startHead: Option<EventHash>, events: seq<CaseEvent>)
    returns (proof: Option<CaseProof>)
    ensures proof == Built(problemId, clerk, fromCount, startHead, events)
    ensures BuildMeans(problemId, clerk, fromCount, startHead, events, proof)
  {
    BuiltExactly(problemId, clerk, fromCount, startHead, events);
    hide BuildMeans;
    if fromCount < 0 || |events| > MaxLinks {
      return None;
    }
    var links: seq<CaseEvent>, previous := [], startHead;
    for i := 0 to |events|
      invariant links == events[..i] && previous == EndOf(startHead, events[..i])
      invariant forall k :: 0 <= k < i ==>
        events[k].seqNo == fromCount + k && events[k].prev == EndOf(startHead, events[..k])
    {
      var event := events[i];
      if event.seqNo != fromCount + i || event.prev != previous {
        return None;
      }
      links, previous := links + [CaseEvent(fromCount + i, previous, event.hash)], Some(event.hash);
    }
    assert events[..|events|] == events;
    var body := CaseProofBody(problemId, clerk, fromCount, startHead, fromCount + |links|, previous, links);
    return Some(CaseProof(body, Signature(clerk, body)));
  }

  // ----- Honest logs -----

  function HeadAt(log: seq<CaseEvent>, n: nat): Option<EventHash>
    requires n <= |log|
  {
    EndOf(None, log[..n])
  }

  ghost predicate CaseLog(log: seq<CaseEvent>) {
    Contiguous(log, 0, None)
  }

  /** A count and head that a log has had. */
  predicate OnLog(log: seq<CaseEvent>, count: int, head: Option<EventHash>) {
    0 <= count <= |log| && head == HeadAt(log, count)
  }

  /** remote_chain_proof: the stretch of a log between two counts. */
  function Served(problemId: Id, clerk: Key, log: seq<CaseEvent>, fromCount: int, toCount: int): Option<CaseProof> {
    if 0 <= fromCount <= toCount <= |log| && toCount - fromCount <= MaxLinks
    then Built(problemId, clerk, fromCount, HeadAt(log, fromCount), log[fromCount..toCount])
    else None
  }

  lemma EndSplit(log: seq<CaseEvent>, fromCount: nat, toCount: nat, i: nat)
    requires fromCount + i <= toCount <= |log|
    ensures HeadAt(log, fromCount + i) == EndOf(HeadAt(log, fromCount), log[fromCount..toCount][..i])
  {
    if i > 0 {
      assert log[fromCount..toCount][..i][i - 1] == log[fromCount + i - 1];
    }
  }

  lemma StretchContiguous(log: seq<CaseEvent>, fromCount: nat, toCount: nat)
    requires CaseLog(log) && fromCount <= toCount <= |log|
    ensures Contiguous(log[fromCount..toCount], fromCount, HeadAt(log, fromCount))
    ensures EndOf(HeadAt(log, fromCount), log[fromCount..toCount]) == HeadAt(log, toCount)
  {
    hide EndOf, HeadAt;
    var events := log[fromCount..toCount];
    forall i | 0 <= i < |events|
      ensures events[i].seqNo == fromCount + i && events[i].prev == EndOf(HeadAt(log, fromCount), events[..i])
    {
      PositionHead(log, fromCount + i);
      EndSplit(log, fromCount, toCount, i);
    }
    EndSplit(log, fromCount, toCount, |events|);
    assert events[..|events|] == events;
  }

  lemma PositionHead(log: seq<CaseEvent>, i: nat)
    requires CaseLog(log) && i < |log|
    ensures log[i].seqNo == i && log[i].prev == HeadAt(log, i)
  {}

  /** What a clerk builds, a reader accepts, for exactly the range and the heads of the log. */
  lemma ServedIsAccepted(problemId: Id, clerk: Key, log: seq<CaseEvent>, fromCount: int, toCount: int)
    requires CaseLog(log) && 0 <= fromCount <= toCount <= |log| && toCount - fromCount <= MaxLinks
    ensures Served(problemId, clerk, log, fromCount, toCount).Some?
    ensures CheckProof(Served(problemId, clerk, log, fromCount, toCount).value, problemId, clerk, fromCount,
                       HeadAt(log, fromCount), toCount)
            == Accept(HeadAt(log, toCount))
  {
    hide EndOf, HeadAt, Contiguous, CaseLog;
    StretchContiguous(log, fromCount, toCount);
  }

  /** The clerk signs, for this problem, only what it builds from this log. */
  ghost predicate SignsOnly(log: seq<CaseEvent>, problemId: Id, clerk: Key, p: CaseProof) {
    p.signature == Signature(clerk, p.body) && p.body.problemId == problemId ==>
      Served(problemId, clerk, log, p.body.fromCount, p.body.toCount) == Some(p)
  }

  /** So both ends of every proof it signs are positions of the log. */
  lemma SignedEndsOnLog(log: seq<CaseEvent>, problemId: Id, clerk: Key, p: CaseProof)
    requires CaseLog(log) && SignsOnly(log, problemId, clerk, p)
    requires p.signature == Signature(clerk, p.body) && p.body.problemId == problemId
    ensures OnLog(log, p.body.fromCount, p.body.fromHead) && OnLog(log, p.body.toCount, p.body.toHead)
  {
    hide CaseLog, HeadAt, Contiguous;
    StretchContiguous(log, p.body.fromCount, p.body.toCount);
  }
}
