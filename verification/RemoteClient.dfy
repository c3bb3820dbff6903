/** The client's append and recover operations, over any schedule of losses, delays and other clients. */
module RemoteClient {
  import opened Basics
  import opened Chain
  import opened RemoteClerk
  import opened RemoteAppend

  /** How far local finalization gets: both files changed, nothing written, or the outbox record left behind. */
  datatype Save = Kept | NotKept | NotCleared

  /** What happens around one request: first everyone else, then its fate, then the local files. */
  datatype Turn = Turn(outside: seq<Outside>, fate: Fate, save: Save)

  datatype Answer = NoAnswer | LookupDenied | Missing | Found(event: Event)

  /** The connection to the clerk. Its script decides every loss, delay and interleaving. */
  class Wire {
    const clerk: Key
    const policy: Policy
    const script: nat -> Turn
    var turn: nat
    var sea: Sea

    constructor (clerk: Key, policy: Policy, script: nat -> Turn, sea: Sea)
      ensures this.clerk == clerk && this.policy == policy && this.script == script && this.turn == 0 && this.sea == sea
    {
      this.clerk, this.policy, this.script, this.turn, this.sea := clerk, policy, script, 0, sea;
    }

    /** The world just before this client's next request is handled. */
    function Meanwhile(): Sea
      reads this
    {
      HappenAll(clerk, policy, sea, script(turn).outside)
    }

    method Fetch() returns (head: Option<Option<Hash<Content>>>, save: Save)
      modifies this
      ensures turn == old(turn) + 1 && save == script(old(turn)).save && sea == old(Meanwhile())
      ensures head == if script(old(turn)).fate.Answered? then Some(HeadOf(sea.log)) else None
    {
      sea := Meanwhile();
      head := if script(turn).fate.Answered? then Some(HeadOf(sea.log)) else None;
      save := script(turn).save;
      turn := turn + 1;
    }

    method Submit(e: Envelope) returns (reply: Reply, save: Save)
      modifies this
      ensures turn == old(turn) + 1 && save == script(old(turn)).save
      ensures (sea, reply) == Post(clerk, policy, old(Meanwhile()), e, script(old(turn)).fate)
    {
      var (after, answer) := Post(clerk, policy, Meanwhile(), e, script(turn).fate);
      sea, reply, save := after, answer, script(turn).save;
      turn := turn + 1;
    }

    method Lookup(id: RequestId) returns (answer: Answer, save: Save)
      modifies this
      ensures turn == old(turn) + 1 && save == script(old(turn)).save && sea == old(Meanwhile())
      ensures answer == match script(old(turn)).fate
                        case Denied => LookupDenied
                        case Answered(_) =>
                          (match RemoteClerk.Find(sea.log, id) case None => Missing case Some(event) => Found(event))
                        case _ => NoAnswer
    {
      sea := Meanwhile();
      answer := match script(turn).fate
        case Denied => LookupDenied
        case Answered(_) => (match RemoteClerk.Find(sea.log, id) case None => Missing case Some(event) => Found(event))
        case _ => NoAnswer;
      save := script(turn).save;
      turn := turn + 1;
    }
  }

  /** What was refused is refused on the log as the post left it. */
  lemma RefusalStands(clerk: Key, policy: Policy, sea: Sea, e: Envelope, fate: Fate)
    ensures var (after, reply) := Post(clerk, policy, sea, e, fate);
            && (reply.NoReply? <==> fate.Lost? || fate.ReplyLost?)
            && (reply.Refused? ==>
                  fate.Denied?
                  || (fate.Answered? && Handle(clerk, policy, after.log, e, fate.now) == (Refused, after.log)))
  {
    hide Find, Ordered, StampTime;
  }

  /** How an append or a recovery ends. InDoubt and RecoveryRefused leave the outbox record. */
  datatype Ending =
    | Returned(event: Event, created: bool)
    | TooStale | Rejected | Unfetched | Unsaved | BadRetries | NoRecord
    | InDoubt(id: RequestId) | RecoveryRefused(id: RequestId)

  class RemoteClient {
    const wire: Wire
    const minter: Id
    var minted: nat
    var outbox: map<RequestId, Envelope>
    var completed: map<RequestId, Completed>
    /** Every envelope ever signed. */
    ghost var issued: seq<Envelope>

    ghost function Kept(): Books
      reads this
    {
      Books(issued, outbox, completed)
    }

    ghost predicate Valid()
      reads this, wire
    {
      && minted == |issued| && SeaOk(wire.clerk, wire.sea) && Accounted(minter, Kept(), wire.sea)
      && (forall k: nat :: Apart(minter, wire.script(k).outside))
      && forall n: nat :: n < |issued| ==> issued[n].requestId == RequestId(minter, n)
    }

    constructor (wire: Wire, minter: Id)
      requires SeaOk(wire.clerk, wire.sea) && OnlyIssued(minter, Books([], map[], map[]), wire.sea)
      requires forall k: nat :: Apart(minter, wire.script(k).outside)
      ensures Valid() && this.wire == wire && this.minter == minter && minted == 0 && outbox == map[]
    {
      this.wire, this.minter, this.minted := wire, minter, 0;
      this.outbox, this.completed, this.issued := map[], map[], [];
    }

    /** Envelopes already out of the outbox and dead have stayed so, and ids were never reused. */
    twostate predicate NothingRevived()
      reads this, wire
    {
      && old(issued) <= issued
      && forall n: nat :: n < |old(issued)| && issued[n].requestId !in old(outbox) && old(Dead(wire.sea, issued[n])) ==>
           Dead(wire.sea, issued[n])
    }

    /** Every request in a span of turns was answered or turned away, and every local write went through. */
    predicate AllHeard(from: nat, to: nat)
    {
      forall k: nat :: from <= k < to ==>
        (wire.script(k).fate.Answered? || wire.script(k).fate.Denied?) && wire.script(k).save == Save.Kept
    }

    /** The last request was turned away, or the clerk refuses this envelope on the log as it stands. */
    ghost predicate TurnedDown(e: Envelope)
      reads this, wire
    {
      && 0 < wire.turn
      && var fate := wire.script(wire.turn - 1).fate;
      fate.Denied?
          || (fate.Answered? && Handle(wire.clerk, wire.policy, wire.sea.log, e, fate.now) == (Refused, wire.sea.log))
    }

    /** Post one outbox record. */
    method Submit(id: RequestId) returns (reply: Reply, save: Save)
      requires Valid() && id in outbox
      modifies wire
      ensures Valid() && NothingRevived()
      ensures wire.turn == old(wire.turn) + 1 && save == wire.script(old(wire.turn)).save
      ensures reply.NoReply? <==> wire.script(old(wire.turn)).fate.Lost? || wire.script(old(wire.turn)).fate.ReplyLost?
      ensures reply.Refused? ==> TurnedDown(outbox[id])
      ensures reply.Receipted? ==> Find(wire.sea.log, id) == Some(reply.event)
      ensures reply.Stale? ==> Dead(wire.sea, outbox[id])
      ensures reply.Refused? && old(Dead(wire.sea, outbox[id])) ==> Dead(wire.sea, outbox[id])
    {
      hide HappenAll, Post, Apart, SeaOk, Accounted, Dead, Find;
      var e := outbox[id];
      MeanwhileAccounted(wire.clerk, wire.policy, minter, Kept(), wire.sea, wire.script(wire.turn).outside);
      PostAccounted(wire.clerk, wire.policy, minter, Kept(), wire.Meanwhile(), id, wire.script(wire.turn).fate);
      OutboxIds(minter, Kept(), wire.sea, id);
      RefusalStands(wire.clerk, wire.policy, wire.Meanwhile(), e, wire.script(wire.turn).fate);
      assert issued[e.requestId.number] == e;
      reply, save := wire.Submit(e);
    }

    /** Put the confirmed event on record, then clear the outbox; a record already there must agree. */
    method Finalize(id: RequestId, event: Event, save: Save) returns (done: bool)
      requires Valid() && id in outbox && Find(wire.sea.log, id) == Some(event)
      modifies this`outbox, this`completed
      ensures Valid()
      ensures done <==> save == Save.Kept || (save == NotKept && id in old(completed))
      ensures outbox == if done then old(outbox) - {id} else old(outbox)
      ensures done ==> id in completed && completed[id] == Completed(old(outbox)[id], event)
      ensures event.event == Submitted(old(outbox)[id])
      ensures completed == if save == NotKept then old(completed)
              else old(completed)[id := Completed(old(outbox)[id], event)]
    {
      hide Accounted, SeaOk, Find, Apart;
      var record := Completed(outbox[id], event);
      FoundIsOutbox(minter, Kept(), wire.sea, id);
      if id in completed {
        RecordAgrees(minter, Kept(), wire.sea, id, event);
      }
      AccountedRecord(minter, Kept(), wire.sea, id, event);
      if id in completed {
        if completed[id] != record {
          return false;
        }
        assert completed == completed[id := record];
      } else if save == NotKept {
        return false;
      } else {
        completed := completed[id := record];
      }
      if save == NotCleared {
        return false;
      }
      AccountedClear(minter, Kept(), wire.sea, id);
      outbox := outbox - {id};
      return true;
    }

    /**
     Resolve one outbox record: take the stored receipt if there is one, otherwise post the same envelope again.
     It returns only once the envelope is ordered and on record.
     */
    method Recover(id: RequestId) returns (end: Ending)
      requires Valid()
      modifies this`outbox, this`completed, wire
      ensures Valid() && NothingRevived()
      ensures id !in old(outbox) ==> end == NoRecord && outbox == old(outbox) && wire.turn == old(wire.turn)
      ensures id in old(outbox) ==>
                match end
                case Returned(event, created) =>
                  && outbox == old(outbox) - {id} && id in completed
                  && completed[id] == Completed(old(outbox)[id], event)
                  && Find(wire.sea.log, id) == Some(event) && event.event == Submitted(old(outbox)[id])
                case TooStale => outbox == old(outbox) && Dead(wire.sea, old(outbox)[id])
                case InDoubt(d) => d == id && outbox == old(outbox)
                case RecoveryRefused(d) => d == id && outbox == old(outbox)
                case _ => false
      ensures old(wire.turn) <= wire.turn && (AllHeard(old(wire.turn), wire.turn) ==> !end.InDoubt?)
      ensures end.RecoveryRefused? ==> TurnedDown(old(outbox)[id])
      ensures id in old(outbox) && AllAnswered(old(wire.turn), wire.turn) ==>
                !end.InDoubt? && (old(Find(wire.sea.log, id)).Some? ==> end.Returned?)
    {
      hide Accounted, SeaOk, Apart, Dead, Find, HappenAll;
      if id !in outbox {
        return NoRecord;
      }
      var answer, save := LookUp(id);
      match answer {
        case NoAnswer => return InDoubt(id);
        case LookupDenied => return RecoveryRefused(id);
        case Found(event) =>
          var done := Finalize(id, event, save);
          return if done then Returned(event, false) else InDoubt(id);
        case Missing =>
          var reply, saved := Submit(id);
          match reply {
            case NoReply => return InDoubt(id);
            case Stale => return TooStale;
            case Refused => return RecoveryRefused(id);
            case Receipted(event, created) =>
              var done := Finalize(id, event, saved);
              return if done then Returned(event, created) else InDoubt(id);
          }
      }
    }

    method LookUp(id: RequestId) returns (answer: Answer, save: Save)
      requires Valid() && id in outbox
      modifies wire
      ensures Valid() && NothingRevived()
      ensures wire.turn == old(wire.turn) + 1 && save == wire.script(old(wire.turn)).save
      ensures answer.Found? ==> Find(wire.sea.log, id) == Some(answer.event)
      ensures answer.NoAnswer? ==>
                wire.script(old(wire.turn)).fate.Lost? || wire.script(old(wire.turn)).fate.ReplyLost?
      ensures answer.LookupDenied? ==> wire.script(old(wire.turn)).fate.Denied?
      ensures wire.script(old(wire.turn)).fate.Answered? ==>
              answer.Found? || (answer.Missing? && old(Find(wire.sea.log, id)).None?)
    {
      hide HappenAll, Apart, SeaOk, Accounted, Dead, RemoteClerk.Find;
      MeanwhileAccounted(wire.clerk, wire.policy, minter, Kept(), wire.sea, wire.script(wire.turn).outside);
      answer, save := wire.Lookup(id);
    }

    /** Every request in a span of turns was answered, and every local write went through. */
    predicate AllAnswered(from: nat, to: nat)
    {
      forall k: nat :: from <= k < to ==> wire.script(k).fate.Answered? && wire.script(k).save == Save.Kept
    }

    /** Fetch the head and sign a new envelope against it; its outbox record comes before any post. */
    method Issue(kind: string, payload: string, actor: Key) returns (id: Result<RequestId>, failure: Ending)
      requires Valid()
      modifies this`minted, this`outbox, this`issued, wire
      ensures Valid() && NothingRevived() && wire.turn == old(wire.turn) + 1
      ensures id.Accept? ==>
                && id.value == RequestId(minter, old(minted)) && minted == old(minted) + 1
                && outbox == old(outbox)[id.value := issued[old(minted)]] && id.value !in old(outbox)
                && issued[old(minted)] == Envelope(id.value, HeadOf(wire.sea.log), kind, payload, actor)
                && Dead(wire.sea, issued[old(minted)])
      ensures id.Reject? ==>
                && outbox == old(outbox) && minted <= old(minted) + 1
                && (failure == Unfetched || failure == Unsaved)
                && (failure == Unfetched ==> !wire.script(old(wire.turn)).fate.Answered?)
                && (failure == Unsaved ==> wire.script(old(wire.turn)).save == NotKept)
                && forall n: nat :: old(minted) <= n < minted ==>
                     && issued[n].requestId !in outbox && Dead(wire.sea, issued[n])
                     && issued[n].kind == kind && issued[n].payload == payload && issued[n].actor == actor
    {
      hide HappenAll, Apart, SeaOk, Accounted, Dead;
      MeanwhileAccounted(wire.clerk, wire.policy, minter, Kept(), wire.sea, wire.script(wire.turn).outside);
      var head, save := wire.Fetch();
      if head.None? {
        return Reject, Unfetched;
      }
      var e := Envelope(RequestId(minter, minted), head.value, kind, payload, actor);
      assert wire.sea.log[..|wire.sea.log|] == wire.sea.log;
      AccountedIssue(minter, Kept(), wire.sea, e);
      FreshId(minter, Kept(), wire.sea);
      minted, issued := minted + 1, issued + [e];
      if save == NotKept {
        return Reject, Unsaved;
      }
      outbox := outbox[e.requestId := e];
      return Accept(e.requestId), NoRecord;
    }

    /** Drop the outbox record of a dead envelope. */
    method GiveUp(id: RequestId)
      requires Valid() && id in outbox && Dead(wire.sea, outbox[id])
      modifies this`outbox
      ensures Valid() && outbox == old(outbox) - {id}
    {
      AccountedClear(minter, Kept(), wire.sea, id);
      outbox := outbox - {id};
    }

    /** Envelopes from one number on are out of the outbox and will never be ordered. */
    ghost predicate AllDead(from: nat)
      reads this, wire
    {
      forall n: nat :: from <= n < |issued| ==> issued[n].requestId !in outbox && Dead(wire.sea, issued[n])
    }

    /**
     Post a new envelope and, if no answer comes, recover it. A stale or rejected envelope leaves the outbox, and
     can never be ordered; TooStale tells that a fresh head is worth trying.
     */
    method PostOrRecover(id: RequestId) returns (end: Ending)
      requires Valid() && id in outbox && Dead(wire.sea, outbox[id])
      modifies this`outbox, this`completed, wire
      ensures Valid() && NothingRevived()
      ensures match end
              case Returned(event, created) =>
                && outbox == old(outbox) - {id} && id in completed && completed[id] == Completed(old(outbox)[id], event)
                && Find(wire.sea.log, id) == Some(event) && event.event == Submitted(old(outbox)[id])
              case InDoubt(d) => d == id && outbox == old(outbox)
              case RecoveryRefused(d) => d == id && outbox == old(outbox)
              case _ => end in {TooStale, Rejected} && outbox == old(outbox) - {id} && Dead(wire.sea, old(outbox)[id])
      ensures old(wire.turn) < wire.turn && (AllHeard(old(wire.turn), wire.turn) ==> !end.InDoubt?)
      ensures end.RecoveryRefused? || end == Rejected ==> TurnedDown(old(outbox)[id])
    {
      hide Accounted, SeaOk, Apart, Dead, Find, HappenAll;
      var reply, save := Submit(id);
      match reply {
        case Stale =>
          GiveUp(id);
          return TooStale;
        case NoReply =>
          end := Recover(id);
          if end == TooStale {
            GiveUp(id);
          }
        case Refused =>
          GiveUp(id);
          return Rejected;
        case Receipted(event, created) =>
          var done := Finalize(id, event, save);
          return if done then Returned(event, created) else InDoubt(id);
      }
    }

    /**
     Sign, post, and try again on a fresh head when stale. However requests are lost, delayed or overtaken, every
     envelope it signs but the last is dead, so at most one can ever be ordered. A normal return means the last one
     is; an ending in doubt leaves exactly that one in the outbox; any other ending means none is or will be.
     */
    method Append(kind: string, payload: string, actor: Key, staleRetries: int) returns (end: Ending)
      requires Valid()
      modifies this`minted, this`outbox, this`completed, this`issued, wire
      ensures Valid() && NothingRevived()
      ensures |old(issued)| <= |issued|
      ensures 0 <= staleRetries <= 8 ==> |issued| <= |old(issued)| + staleRetries + 1
      ensures !(0 <= staleRetries <= 8) <==> end == BadRetries
      ensures forall n: nat :: |old(issued)| <= n < |issued| ==>
                issued[n].kind == kind && issued[n].payload == payload && issued[n].actor == actor
      ensures forall n: nat :: |old(issued)| <= n < |issued| - 1 ==>
                issued[n].requestId !in outbox && Dead(wire.sea, issued[n])
      ensures match end
              case Returned(event, created) =>
                && |old(issued)| < |issued| && outbox == old(outbox)
                && var e := issued[|issued| - 1];
                && event.event == Submitted(e) && Find(wire.sea.log, e.requestId) == Some(event)
                && e.requestId in completed && completed[e.requestId] == Completed(e, event)
              case InDoubt(id) =>
                |old(issued)| < |issued| && id == issued[|issued| - 1].requestId
                    && outbox == old(outbox)[id := issued[|issued| - 1]]
              case RecoveryRefused(id) =>
                |old(issued)| < |issued| && id == issued[|issued| - 1].requestId
                    && outbox == old(outbox)[id := issued[|issued| - 1]]
              case _ => outbox == old(outbox) && AllDead(|old(issued)|)
      ensures AllHeard(old(wire.turn), wire.turn) ==> !end.InDoubt? && end != Unsaved
      ensures AllAnswered(old(wire.turn), wire.turn) ==> end != Unfetched
      ensures end.RecoveryRefused? || end == Rejected ==>
                |old(issued)| < |issued| && TurnedDown(issued[|issued| - 1])
      ensures end == TooStale ==> |issued| == |old(issued)| + staleRetries + 1
    {
      hide Accounted, SeaOk, Apart, Dead, Find, HappenAll;
      if staleRetries < 0 || staleRetries > 8 {
        return BadRetries;
      }
      for attempt := 0 to staleRetries + 1
        invariant Valid() && NothingRevived()
        invariant |issued| == |old(issued)| + attempt && old(wire.turn) <= wire.turn
        invariant outbox == old(outbox) && AllDead(|old(issued)|)
        invariant forall n: nat :: |old(issued)| <= n < |issued| ==>
          issued[n].kind == kind && issued[n].payload == payload && issued[n].actor == actor
        invariant attempt <= staleRetries
      {
        var id, failure := Issue(kind, payload, actor);
        if id.Reject? {
          return failure;
        }
        end := PostOrRecover(id.value);
        if end != TooStale || attempt == staleRetries {
          return;
        }
      }
      assert false;
    }
  }
}
