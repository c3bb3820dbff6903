/** The clerk that orders remote envelopes, and a network that loses replies and delays requests. */
module RemoteClerk {
  import opened Basics
  import opened Chain

  // ----- Envelopes and events -----

  /** A request id is unique to whoever minted it. */
  datatype RequestId = RequestId(minter: Id, number: nat)

  /** An envelope is signed against one head of the event log. */
  datatype Envelope = Envelope(requestId: RequestId,
                               base: Option<Hash<Content>>, kind: string, payload: string, actor: Key)

  /** An ordered event holds a submitted envelope, or an event the workspace wrote itself. */
  datatype Content = Submitted(envelope: Envelope) | Written(actor: Key, text: string)

  datatype Receipt = Receipt(envelope: Envelope, seqNo: int, at: Time,
                             prev: Option<Hash<Content>>, hash: Hash<Content>, count: int)

  datatype Stamp = Received(receipt: Receipt) | Authored(hash: Hash<Content>)

  type Event = Entry<Content, Stamp>
  type EventLog = seq<Event>

  /** The clerk's authorization of an envelope against the state its log has reached. */
  type Policy = (EventLog, Envelope, Time) -> bool

  predicate Carries(event: Event, id: RequestId) {
    event.event.Submitted? && event.event.envelope.requestId == id
  }

  /** The first event that carries a request id. */
  function Find(log: EventLog, id: RequestId): (found: Option<Event>)
    ensures found.Some? ==> Carries(found.value, id)
  {
    if log == [] then None
    else
      var earlier := Find(log[..|log| - 1], id);
      if earlier.Some? then earlier
      else if Carries(log[|log| - 1], id) then Some(log[|log| - 1])
      else None
  }

  lemma {:induction false} FindGrows(log: EventLog, longer: EventLog, id: RequestId)
    requires log <= longer && Find(log, id).Some?
    ensures Find(longer, id) == Find(log, id)
  {
    if |log| < |longer| {
      FindGrows(log, longer[..|longer| - 1], id);
    } else {
      assert log == longer;
    }
  }

  lemma {:induction false} FoundIn(log: EventLog, id: RequestId)
    ensures Find(log, id).Some? ==> Find(log, id).value in log
  {
    if log != [] {
      FoundIn(log[..|log| - 1], id);
    }
  }

  // ----- Ordering -----

  /** Receipt times never move backwards. */
  function StampTime(log: EventLog, now: Time): Time {
    if log != [] && now < log[|log| - 1].at then log[|log| - 1].at else now
  }

  function ReceiptFor(e: Envelope, seqNo: int, at: Time, prev: Option<Hash<Content>>): Receipt {
    Receipt(e, seqNo, at, prev, Digest(seqNo, at, prev, Submitted(e)), seqNo + 1)
  }

  function Ordered(clerk: Key, log: EventLog, e: Envelope, now: Time): Event {
    var at := StampTime(log, now);
    Entry(|log|, at, HeadOf(log), Submitted(e), Digest(|log|, at, HeadOf(log), Submitted(e)),
          Signature(clerk, Received(ReceiptFor(e, |log|, at, HeadOf(log)))))
  }

  function OwnEvent(log: EventLog, actor: Key, text: string, now: Time): Event {
    var at := StampTime(log, now);
    var hash := Digest(|log|, at, HeadOf(log), Written(actor, text));
    Entry(|log|, at, HeadOf(log), Written(actor, text), hash, Signature(actor, Authored(hash)))
  }

  datatype Reply = NoReply | Refused | Stale | Receipted(event: Event, created: bool)

  /** append_envelope: a known request id gets its stored receipt; a new one must name the current head. */
  function Handle(clerk: Key, policy: Policy, log: EventLog, e: Envelope, now: Time): (Reply, EventLog) {
    var known := Find(log, e.requestId);
    if known.Some? then
      (if known.value.event == Submitted(e) then Receipted(known.value, false) else Refused, log)
    else if e.base != HeadOf(log) then (Stale, log)
    else if !policy(log, e, StampTime(log, now)) then (Refused, log)
    else
      var event := Ordered(clerk, log, e, now);
      (Receipted(event, true), log + [event])
  }

  /** What a client checks of a receipt: the clerk signed it for this very envelope and this very event. */
  predicate ReceiptVerifies(clerk: Key, e: Envelope, event: Event) {
    && event.event == Submitted(e) && event.hash == event.Body()
    && event.receipt == Signature(clerk, Received(ReceiptFor(e, event.seqNo, event.at, event.prev)))
  }

  /** Submitted events hold receipts that verify. */
  ghost predicate ReceiptsOk(clerk: Key, log: EventLog) {
    forall i :: 0 <= i < |log| && log[i].event.Submitted? ==> ReceiptVerifies(clerk, log[i].event.envelope, log[i])
  }

  // ----- The network -----

  /** The clerk's log, and the copies of requests that are still on their way. */
  datatype Sea = Sea(log: EventLog, flying: multiset<Envelope>)

  /** What happens apart from one client's own requests. */
  datatype Outside =
    | Arrive(e: Envelope, now: Time)
    | Other(e: Envelope, now: Time)
    | Own(actor: Key, text: string, now: Time)

  function Happen(clerk: Key, policy: Policy, sea: Sea, a: Outside): Sea {
    match a
    case Arrive(e, now) =>
      if e in sea.flying then Sea(Handle(clerk, policy, sea.log, e, now).1, sea.flying - multiset{e}) else sea
    case Other(e, now) => sea.(log := Handle(clerk, policy, sea.log, e, now).1)
    case Own(actor, text, now) => sea.(log := sea.log + [OwnEvent(sea.log, actor, text, now)])
  }

  function HappenAll(clerk: Key, policy: Policy, sea: Sea, actions: seq<Outside>): Sea {
    if actions == [] then sea
    else Happen(clerk, policy, HappenAll(clerk, policy, sea, actions[..|actions| - 1]), actions[|actions| - 1])
  }

  /** No one else mints this client's request ids. */
  predicate Apart(minter: Id, actions: seq<Outside>) {
    forall i :: 0 <= i < |actions| && actions[i].Other? ==> actions[i].e.requestId.minter != minter
  }

  /** The fate of one request: it may be lost, or delayed, or answered, or handled without its answer arriving. */
  datatype Fate = Lost | ReplyLost(now: Time) | Denied | Answered(now: Time)

  function Post(clerk: Key, policy: Policy, sea: Sea, e: Envelope, fate: Fate): (Sea, Reply) {
    match fate
    case Lost => (sea.(flying := sea.flying + multiset{e}), NoReply)
    case Denied => (sea, Refused)
    case ReplyLost(now) => (sea.(log := Handle(clerk, policy, sea.log, e, now).1), NoReply)
    case Answered(now) =>
      var (reply, log) := Handle(clerk, policy, sea.log, e, now);
      (sea.(log := log), reply)
  }

  // ----- What the log and the network keep -----

  ghost predicate SeaOk(clerk: Key, sea: Sea) {
    Linked(sea.log) && ReceiptsOk(clerk, sea.log)
  }

  /** The head lies behind the end of the log. */
  ghost predicate Past(log: EventLog, head: Option<Hash<Content>>) {
    exists k :: 0 <= k < |log| && HeadOf(log[..k]) == head
  }

  /** A head that lies behind is never the head again. */
  lemma PastIsNotHead(log: EventLog, longer: EventLog, head: Option<Hash<Content>>)
    requires Linked(longer) && log <= longer && Past(log, head)
    ensures Past(longer, head) && HeadOf(longer) != head
  {
    var k :| 0 <= k < |log| && HeadOf(log[..k]) == head;
    assert longer[..k] == log[..k];
    if k > 0 && HeadOf(longer) == head {
      HashesDistinct(longer, k - 1, |longer| - 1);
    }
  }

  /**
   One step of the world, as one client sees it: the log grows, only the posted envelope gains copies, and a new
   event of this client comes from a copy in flight or from the post, and extends the head it names.
   */
  ghost predicate Evolves(clerk: Key, minter: Id, s: Sea, t: Sea, posted: Option<Envelope>) {
    && SeaOk(clerk, t) && s.log <= t.log
    && (forall d: Envelope :: d.requestId.minter == minter && Some(d) != posted ==> t.flying[d] <= s.flying[d])
    && forall id: RequestId :: id.minter == minter ==> NewlyKnown(s, t, id, posted)
  }

  ghost predicate NewlyKnown(s: Sea, t: Sea, id: RequestId, posted: Option<Envelope>) {
    Find(s.log, id).None? && Find(t.log, id).Some? ==>
      var d := Find(t.log, id).value.event.envelope;
      (Some(d) == posted || d in s.flying) && !Past(s.log, d.base)
  }

  lemma EvolvesTransitive(clerk: Key, minter: Id, s: Sea, t: Sea, u: Sea, posted: Option<Envelope>)
    requires Evolves(clerk, minter, s, t, None) && Evolves(clerk, minter, t, u, posted)
    ensures Evolves(clerk, minter, s, u, posted)
  {
    forall id: RequestId | id.minter == minter ensures NewlyKnown(s, u, id, posted) {
      hide Linked, ReceiptsOk;
      assert NewlyKnown(s, t, id, None) && NewlyKnown(t, u, id, posted);
      if Find(t.log, id).Some? {
        FindGrows(t.log, u.log, id);
      } else if Find(u.log, id).Some? {
        StillPast(clerk, s, t, Find(u.log, id).value.event.envelope.base);
      }
    }
  }

  lemma StillPast(clerk: Key, s: Sea, t: Sea, head: Option<Hash<Content>>)
    requires SeaOk(clerk, t) && s.log <= t.log
    ensures Past(s.log, head) ==> Past(t.log, head)
  {
    if Past(s.log, head) {
      PastIsNotHead(s.log, t.log, head);
    }
  }

  /** Handling an envelope adds at most one event, which carries it and extends the head it names. */
  lemma HandleAdds(clerk: Key, policy: Policy, log: EventLog, e: Envelope, now: Time)
    requires Linked(log) && ReceiptsOk(clerk, log)
    ensures var (reply, after) := Handle(clerk, policy, log, e, now);
            && Linked(after) && ReceiptsOk(clerk, after)
            && (after == log
                || (after == log + [after[|log|]] && after[|log|].event == Submitted(e) && e.base == HeadOf(log)
                                 && Find(log, e.requestId).None?))
            && (reply.Receipted? ==> Find(after, e.requestId) == Some(reply.event) && reply.event.event == Submitted(e))
            && (reply.Stale? ==> after == log && Find(log, e.requestId).None? && e.base != HeadOf(log))
  {
    var event := Ordered(clerk, log, e, now);
    LinkedAppend(log, event);
    assert (log + [event])[..|log|] == log;
  }

  /** Adding one event makes at most its own request id known. */
  lemma FindAppended(log: EventLog, event: Event, id: RequestId)
    ensures Find(log + [event], id) == if Find(log, id).Some? then Find(log, id)
            else if Carries(event, id) then Some(event) else None
  {
    assert (log + [event])[..|log|] == log;
  }

  lemma HeadNotPast(log: EventLog)
    requires Linked(log)
    ensures !Past(log, HeadOf(log))
  {
    if Past(log, HeadOf(log)) {
      PastIsNotHead(log, log, HeadOf(log));
    }
  }

  /** Handling an envelope evolves the log, whoever sent it. */
  lemma HandleEvolves(clerk: Key, policy: Policy, minter: Id, sea: Sea, e: Envelope, now: Time,
                      flying: multiset<Envelope>, posted: Option<Envelope>)
    requires SeaOk(clerk, sea) && flying <= sea.flying
    requires e.requestId.minter != minter || posted == Some(e) || e in sea.flying
    ensures Evolves(clerk, minter, sea, Sea(Handle(clerk, policy, sea.log, e, now).1, flying), posted)
  {
    hide Handle;
    HandleAdds(clerk, policy, sea.log, e, now);
    HeadNotPast(sea.log);
    var after := Handle(clerk, policy, sea.log, e, now).1;
    if after != sea.log {
      var added := after[|sea.log|];
      forall id: RequestId
        ensures Find(after, id) == if Find(sea.log, id).Some? then Find(sea.log, id)
                else if Carries(added, id) then Some(added) else None
      {
        FindAppended(sea.log, after[|sea.log|], id);
      }
    }
  }

  lemma HappenEvolves(clerk: Key, policy: Policy, minter: Id, sea: Sea, a: Outside)
    requires SeaOk(clerk, sea) && Apart(minter, [a])
    ensures Evolves(clerk, minter, sea, Happen(clerk, policy, sea, a), None)
  {
    hide Handle;
    assert a == [a][0];
    match a {
      case Arrive(e, now) =>
        if e in sea.flying {
          HandleEvolves(clerk, policy, minter, sea, e, now, sea.flying - multiset{e}, None);
        }
      case Other(e, now) => HandleEvolves(clerk, policy, minter, sea, e, now, sea.flying, None);
      case Own(actor, text, now) =>
        var event := OwnEvent(sea.log, actor, text, now);
        LinkedAppend(sea.log, event);
        forall id: RequestId ensures Find(sea.log + [event], id) == Find(sea.log, id) {
          FindAppended(sea.log, event, id);
        }
    }
  }

  lemma {:induction false} HappenAllEvolves(clerk: Key, policy: Policy, minter: Id, sea: Sea, actions: seq<Outside>)
    requires SeaOk(clerk, sea) && Apart(minter, actions)
    ensures Evolves(clerk, minter, sea, HappenAll(clerk, policy, sea, actions), None)
  {
    hide Evolves;
    if actions == [] {
      EvolvesSame(clerk, minter, sea);
    } else {
      var before := actions[..|actions| - 1];
      HappenAllEvolves(clerk, policy, minter, sea, before);
      var t := HappenAll(clerk, policy, sea, before);
      EvolvedOk(clerk, minter, sea, t);
      HappenEvolves(clerk, policy, minter, t, actions[|actions| - 1]);
      EvolvesTransitive(clerk, minter, sea, t, HappenAll(clerk, policy, sea, actions), None);
    }
  }

  lemma EvolvesSame(clerk: Key, minter: Id, sea: Sea)
    requires SeaOk(clerk, sea)
    ensures Evolves(clerk, minter, sea, sea, None)
  {}

  lemma EvolvedOk(clerk: Key, minter: Id, s: Sea, t: Sea)
    requires Evolves(clerk, minter, s, t, None)
    ensures SeaOk(clerk, t)
  {}

  lemma PostEvolves(clerk: Key, policy: Policy, minter: Id, sea: Sea, e: Envelope, fate: Fate)
    requires SeaOk(clerk, sea)
    ensures Evolves(clerk, minter, sea, Post(clerk, policy, sea, e, fate).0, Some(e))
  {
    hide Handle;
    match fate {
      case Lost =>
      case Denied =>
      case ReplyLost(now) => HandleEvolves(clerk, policy, minter, sea, e, now, sea.flying, Some(e));
      case Answered(now) => HandleEvolves(clerk, policy, minter, sea, e, now, sea.flying, Some(e));
    }
  }

  /** An honest reply always passes the client's checks. */
  lemma HonestReplyVerifies(clerk: Key, policy: Policy, log: EventLog, e: Envelope, now: Time)
    requires Linked(log) && ReceiptsOk(clerk, log)
    ensures var reply := Handle(clerk, policy, log, e, now).0;
            reply.Receipted? ==> ReceiptVerifies(clerk, e, reply.event)
  {
    FoundIn(log, e.requestId);
  }

  // ----- What an answer means -----

  /** Event i is the first to carry this request id. */
  predicate FirstCarries(log: EventLog, id: RequestId, i: nat) {
    i < |log| && Carries(log[i], id) && forall j :: 0 <= j < i ==> !Carries(log[j], id)
  }

  lemma {:induction false} FindIsFirst(log: EventLog, id: RequestId)
    ensures Find(log, id).None? <==> forall i :: 0 <= i < |log| ==> !Carries(log[i], id)
    ensures forall i: nat :: FirstCarries(log, id, i) ==> Find(log, id) == Some(log[i])
    ensures Find(log, id).Some? ==> exists i: nat :: FirstCarries(log, id, i)
  {
    hide Carries;
    if log != [] {
      var init := log[..|log| - 1];
      FindIsFirst(init, id);
      forall i: nat | FirstCarries(log, id, i) ensures Find(log, id) == Some(log[i]) {
        if i < |init| {
          assert FirstCarries(init, id, i);
        }
      }
      if i: nat :| FirstCarries(init, id, i) {
        assert FirstCarries(log, id, i);
      } else if Carries(log[|log| - 1], id) {
        assert FirstCarries(log, id, |log| - 1);
      }
    }
  }

  /** The clerk's clock, which never runs behind the log. */
  predicate StampedAt(log: EventLog, now: Time, at: Time) {
    now <= at && (log != [] ==> log[|log| - 1].at <= at) && (at == now || (log != [] && at == log[|log| - 1].at))
  }

  /**
   A request whose id is on the log is answered from the log: with its receipt if it is the very envelope, else
   refused. A new one is stale unless it names the head, and otherwise ordered next exactly if the policy allows it.
   */
  lemma AnswerMeans(clerk: Key, policy: Policy, log: EventLog, e: Envelope, now: Time, at: Time)
    requires StampedAt(log, now, at)
    ensures var (reply, after) := Handle(clerk, policy, log, e, now);
            && (forall i: nat :: FirstCarries(log, e.requestId, i) ==>
                  && after == log
                  && reply == if log[i].event == Submitted(e) then Receipted(log[i], false) else Refused)
            && ((forall i :: 0 <= i < |log| ==> !Carries(log[i], e.requestId)) ==>
                  && (reply == Stale <==> e.base != HeadOf(log))
                  && (reply == Refused <==> e.base == HeadOf(log) && !policy(log, e, at))
                  && (reply.Receipted? <==> e.base == HeadOf(log) && policy(log, e, at))
                  && (reply.Receipted? ==>
                        && reply.created && after == log + [reply.event] && reply.event.event == Submitted(e)
                        && reply.event.seqNo == |log| && reply.event.at == at && reply.event.prev == HeadOf(log))
                  && (!reply.Receipted? ==> after == log))
  {
    FindIsFirst(log, e.requestId);
    hide Find, FirstCarries, Carries;
    assert at == StampTime(log, now);
  }

  /** A receipt verifies exactly when the clerk signed it over this envelope, its place in the log, and its hash. */
  lemma ReceiptMeans(clerk: Key, e: Envelope, event: Event)
    ensures ReceiptVerifies(clerk, e, event) <==>
            && event.event == Submitted(e) && event.hash == Digest(event.seqNo, event.at, event.prev, Submitted(e))
            && event.receipt.key == clerk && event.receipt.message.Received?
            && event.receipt.message.receipt
                == Receipt(e, event.seqNo, event.at, event.prev, event.hash, event.seqNo + 1)
  {}

  /** Whatever happens, receipt times never run backwards. */
  lemma {:induction false} TimesNeverBack(clerk: Key, policy: Policy, sea: Sea, actions: seq<Outside>)
    requires TimesMonotone(sea.log)
    ensures TimesMonotone(HappenAll(clerk, policy, sea, actions).log)
  {
    hide Happen;
    if actions != [] {
      var before := HappenAll(clerk, policy, sea, actions[..|actions| - 1]);
      TimesNeverBack(clerk, policy, sea, actions[..|actions| - 1]);
      HappensInTime(clerk, policy, before, actions[|actions| - 1]);
    }
  }

  lemma HappensInTime(clerk: Key, policy: Policy, sea: Sea, a: Outside)
    requires TimesMonotone(sea.log)
    ensures TimesMonotone(Happen(clerk, policy, sea, a).log)
  {
    hide Find;
    match a {
      case Arrive(e, now) => LaterEntry(sea.log, Ordered(clerk, sea.log, e, now));
      case Other(e, now) => LaterEntry(sea.log, Ordered(clerk, sea.log, e, now));
      case Own(actor, text, now) => LaterEntry(sea.log, OwnEvent(sea.log, actor, text, now));
    }
  }

  lemma LaterEntry(log: EventLog, event: Event)
    requires TimesMonotone(log) && (log != [] ==> log[|log| - 1].at <= event.at)
    ensures TimesMonotone(log + [event])
  {}
}
