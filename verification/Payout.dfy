/** Splitting the frozen bounty into payment legs. */
module Payout {
  import opened Basics
  import opened Ordering
  import opened Apportionment
  import opened CommunityTypes
  import opened Credit

  /** A positive allocation's sort key: its destination, then the participant. */
  datatype Destination = Destination(coldkey: string, hotkey: string, participantId: Id)

  predicate DestinationLe(a: Destination, b: Destination) {
    if a.coldkey != b.coldkey then TextLe(a.coldkey, b.coldkey)
    else if a.hotkey != b.hotkey then TextLe(a.hotkey, b.hotkey)
    else TextLe(a.participantId, b.participantId)
  }

  lemma DestinationOrder()
    ensures TotalOrder(DestinationLe)
  {
    TextOrder();
  }

  /** The allocation names every participant, with shares in range that sum to 10000. */
  predicate ValidAllocation(m: Manifest, bps: map<Id, int>) {
    && bps.Keys == m.participants.Keys
    && (forall p :: p in bps ==> 0 <= bps[p] <= 10_000)
    && Total(bps) == 10_000
  }

  function DestinationOf(m: Manifest, p: Id): Destination
    requires p in m.participants
  {
    Destination(m.participants[p].coldkey, m.participants[p].hotkey, p)
  }

  function PositiveDestinations(m: Manifest, bps: map<Id, int>): (ds: seq<Destination>)
    requires bps.Keys == m.participants.Keys
    ensures SortedBy(DestinationLe, ds)
    ensures forall d ::
            d in ds <==> d.participantId in bps && bps[d.participantId] > 0 && d == DestinationOf(m, d.participantId)
  {
    DestinationOrder();
    var positive := set p | p in bps && bps[p] > 0 :: DestinationOf(m, p);
    var ds := SortedSet(DestinationLe, positive);
    assert forall d :: d in ds <==> d in Elements(ds);
    ds
  }

  function BpsOf(ds: seq<Destination>, bps: map<Id, int>): (ws: seq<int>)
    requires forall d :: d in ds ==> d.participantId in bps
    ensures |ws| == |ds|
  {
    seq(|ds|, i requires 0 <= i < |ds| => bps[ds[i].participantId])
  }

  function LegAt(d: Destination, i: nat, bps: int, amount: int): Leg {
    Leg(LegNumber(i + 1), d.participantId, d.coldkey, d.hotkey, bps, amount)
  }

  function LegsWith(ds: seq<Destination>, ws: seq<int>, amounts: seq<int>): (legs: seq<Leg>)
    requires |ds| == |ws| == |amounts|
    ensures |legs| == |ds|
  {
    seq(|ds|, i requires 0 <= i < |ds| => LegAt(ds[i], i, ws[i], amounts[i]))
  }

  /** The deterministic legs of an allocation. */
  ghost function PayoutLegs(m: Manifest, bps: map<Id, int>): Result<seq<Leg>>
    requires 0 <= m.bountyRao
  {
    if !ValidAllocation(m, bps) then Reject
    else
      var ds := PositiveDestinations(m, bps);
      var ws := BpsOf(ds, bps);
      PositiveWeights(m, bps);
      Accept(LegsWith(ds, ws, Shares(m.bountyRao, ws)))
  }

  function Amounts(legs: seq<Leg>): (amounts: seq<int>)
    ensures |amounts| == |legs|
  {
    seq(|legs|, i requires 0 <= i < |legs| => legs[i].amountRao)
  }

  // ----- Zero shares drop out without changing the whole -----

  lemma {:induction false} SumOverDistinct(f: map<Id, int>, xs: seq<Id>, ys: seq<Id>)
    requires NoDuplicates(xs) && NoDuplicates(ys)
    requires forall p :: p in ys ==> p in xs
    requires forall p :: p in xs && p !in ys ==> ValueOrZero(f, p) == 0
    ensures Sum(Lookup(f, xs)) == Sum(Lookup(f, ys))
  {
    if xs == [] {
      NoneListed(xs, ys);
    } else {
      var init, last := xs[..|xs| - 1], xs[|xs| - 1];
      DropLast(f, xs);
      if last in ys {
        var rest := DropFrom(f, ys, last);
        SumOverDistinct(f, init, rest);
      } else {
        SumOverDistinct(f, init, ys);
      }
    }
  }

  lemma NoneListed<T>(xs: seq<T>, ys: seq<T>)
    requires forall p :: p in ys ==> p in xs
    ensures xs == [] ==> ys == []
  {
    if ys != [] {
      assert ys[0] in xs;
    }
  }

  lemma DropLast(f: map<Id, int>, xs: seq<Id>)
    requires NoDuplicates(xs) && xs != []
    ensures var init, last := xs[..|xs| - 1], xs[|xs| - 1];
            && NoDuplicates(init)
            && (forall p :: p in init <==> p in xs && p != last)
            && Sum(Lookup(f, xs)) == Sum(Lookup(f, init)) + ValueOrZero(f, last)
  {
    SplitLast(xs);
    var init, last := xs[..|xs| - 1], xs[|xs| - 1];
    assert Lookup(f, xs)[..|xs| - 1] == Lookup(f, init);
  }

  lemma DropFrom(f: map<Id, int>, ys: seq<Id>, last: Id) returns (rest: seq<Id>)
    requires NoDuplicates(ys) && last in ys
    ensures |rest| < |ys| && NoDuplicates(rest)
    ensures forall p :: p in rest <==> p in ys && p != last
    ensures Sum(Lookup(f, ys)) == Sum(Lookup(f, rest)) + ValueOrZero(f, last)
  {
    var k :| 0 <= k < |ys| && ys[k] == last;
    rest := ys[..k] + ys[k + 1..];
    RemoveValue(f, ys, k);
    RemovedElements(ys, k);
  }

  lemma RemoveValue(f: map<Id, int>, ys: seq<Id>, k: nat)
    requires k < |ys|
    ensures Sum(Lookup(f, ys)) == Sum(Lookup(f, ys[..k] + ys[k + 1..])) + ValueOrZero(f, ys[k])
  {
    var values := Lookup(f, ys);
    assert Lookup(f, ys[..k] + ys[k + 1..]) == values[..k] + values[k + 1..];
    SumSplitAt(values, k);
    SumAppend(values[..k], values[k + 1..]);
  }

  lemma RemovedElements<T>(ys: seq<T>, k: nat)
    requires NoDuplicates(ys) && k < |ys|
    ensures NoDuplicates(ys[..k] + ys[k + 1..])
    ensures forall p :: p in ys[..k] + ys[k + 1..] <==> p in ys && p != ys[k]
    ensures Elements(ys[..k] + ys[k + 1..]) == Elements(ys) - {ys[k]}
  {
    assert ys == ys[..k] + [ys[k]] + ys[k + 1..];
  }

  function ValueOrZero(f: map<Id, int>, p: Id): int {
    if p in f then f[p] else 0
  }

  function Lookup(f: map<Id, int>, xs: seq<Id>): (values: seq<int>)
    ensures |values| == |xs|
    ensures forall i :: 0 <= i < |xs| ==> values[i] == ValueOrZero(f, xs[i])
  {
    seq(|xs|, i requires 0 <= i < |xs| => ValueOrZero(f, xs[i]))
  }

  function ParticipantsOf(ds: seq<Destination>): (ids: seq<Id>)
    ensures |ids| == |ds|
    ensures forall i :: 0 <= i < |ds| ==> ids[i] == ds[i].participantId
  {
    seq(|ds|, i requires 0 <= i < |ds| => ds[i].participantId)
  }

  /** The positive participants, listed once each. */
  lemma PositiveListed(m: Manifest, bps: map<Id, int>)
    requires ValidAllocation(m, bps)
    ensures var ids := ParticipantsOf(PositiveDestinations(m, bps));
            NoDuplicates(ids) && forall p :: p in ids <==> p in bps && bps[p] > 0
  {
    var ds := PositiveDestinations(m, bps);
    var ids := ParticipantsOf(ds);
    forall i, j | 0 <= i < j < |ids| ensures ids[i] != ids[j] {
      assert ds[i] in ds && ds[j] in ds;
    }
    forall p ensures p in ids <==> p in bps && bps[p] > 0 {
      if p in ids {
        var i :| 0 <= i < |ids| && ids[i] == p;
        assert ds[i] in ds;
      }
      if p in bps && bps[p] > 0 {
        assert DestinationOf(m, p) in ds;
        var i :| 0 <= i < |ds| && ds[i] == DestinationOf(m, p);
        assert ids[i] == p;
      }
    }
  }

  lemma ValuesAreLookup(bps: map<Id, int>)
    ensures Lookup(bps, SortedTexts(bps.Keys)) == ValuesOf(bps)
  {
    assert |bps.Keys| == |bps|;
    forall i | 0 <= i < |bps| ensures Lookup(bps, SortedTexts(bps.Keys))[i] == ValuesOf(bps)[i] {
      KeysPresent(bps, i);
    }
  }

  lemma PositiveWeights(m: Manifest, bps: map<Id, int>)
    requires ValidAllocation(m, bps)
    ensures var ws := BpsOf(PositiveDestinations(m, bps), bps);
            Sum(ws) == 10_000 && Weights(ws) && forall i :: 0 <= i < |ws| ==> 0 < ws[i]
  {
    var ds, all := PositiveDestinations(m, bps), SortedTexts(bps.Keys);
    var ids := ParticipantsOf(ds);
    PositiveListed(m, bps);
    assert forall p :: p in all <==> p in Elements(all);
    SumOverDistinct(bps, all, ids);
    ValuesAreLookup(bps);
    forall i | 0 <= i < |ds| ensures BpsOf(ds, bps)[i] == Lookup(bps, ids)[i] > 0 {
      assert ds[i] in ds;
    }
    assert Lookup(bps, ids) == BpsOf(ds, bps);
  }

  // ----- Conservation -----

  /** The legs always sum to the bounty, whatever the rounding. */
  lemma LegsConserve(m: Manifest, bps: map<Id, int>)
    requires 0 <= m.bountyRao && PayoutLegs(m, bps).Accept?
    ensures Sum(Amounts(PayoutLegs(m, bps).value)) == m.bountyRao
  {
    hide PositiveDestinations, Total, DestinationLe;
    var ws := BpsOf(PositiveDestinations(m, bps), bps);
    PositiveWeights(m, bps);
    SharesConserve(m.bountyRao, ws);
    assert Amounts(PayoutLegs(m, bps).value) == Shares(m.bountyRao, ws);
  }

  function Payees(legs: seq<Leg>): (ids: seq<Id>)
    ensures |ids| == |legs|
  {
    seq(|legs|, i requires 0 <= i < |legs| => legs[i].participantId)
  }

  ghost predicate LegFollowsQuota(m: Manifest, bps: map<Id, int>, leg: Leg) {
    && leg.participantId in bps && leg.participantId in m.participants
    && leg.coldkey == m.participants[leg.participantId].coldkey
    && leg.hotkey == m.participants[leg.participantId].hotkey
    && 0 < leg.bps == bps[leg.participantId]
    && 0 <= leg.amountRao
    && leg.amountRao * 10_000 < m.bountyRao * leg.bps + 10_000
    && m.bountyRao * leg.bps < leg.amountRao * 10_000 + 10_000
  }

  /** One leg per positive participant, numbered from one, each its quota rounded down or up. */
  lemma LegsFaithful(m: Manifest, bps: map<Id, int>)
    requires 0 <= m.bountyRao && PayoutLegs(m, bps).Accept?
    ensures var legs := PayoutLegs(m, bps).value;
            && (forall i :: 0 <= i < |legs| ==> legs[i].legId == LegNumber(i + 1) && LegFollowsQuota(m, bps, legs[i]))
            && NoDuplicates(Payees(legs))
            && (forall p :: p in Payees(legs) <==> p in bps && bps[p] > 0)
  {
    hide Shares, Total, DestinationLe;
    var legs := PayoutLegs(m, bps).value;
    var ds := PositiveDestinations(m, bps);
    var ws := BpsOf(ds, bps);
    PositiveWeights(m, bps);
    forall i | 0 <= i < |legs| ensures LegFollowsQuota(m, bps, legs[i]) {
      QuotaRule(m.bountyRao, ws, i);
      assert ds[i] in ds;
    }
    PositiveListed(m, bps);
    assert Payees(legs) == ParticipantsOf(ds);
  }

  /** Where the first differing part of a destination decides. */
  predicate PaidBefore(a: Leg, b: Leg) {
    || (a.coldkey != b.coldkey && TextLe(a.coldkey, b.coldkey))
    || (a.coldkey == b.coldkey && a.hotkey != b.hotkey && TextLe(a.hotkey, b.hotkey))
    || (a.coldkey == b.coldkey && a.hotkey == b.hotkey && TextLe(a.participantId, b.participantId))
  }

  /** Legs are listed by destination. */
  lemma LegsInOrder(m: Manifest, bps: map<Id, int>, i: nat, j: nat)
    requires 0 <= m.bountyRao && PayoutLegs(m, bps).Accept?
    requires i < j < |PayoutLegs(m, bps).value|
    ensures PaidBefore(PayoutLegs(m, bps).value[i], PayoutLegs(m, bps).value[j])
  {
    var ds := PositiveDestinations(m, bps);
    PositiveWeights(m, bps);
    hide Shares, PositiveDestinations, Total;
    assert DestinationLe(ds[i], ds[j]);
  }

  /** The units left over by rounding down go to the largest remainders, earlier legs first among equals. */
  lemma LegTies(m: Manifest, bps: map<Id, int>, i: nat, j: nat)
    requires 0 <= m.bountyRao && PayoutLegs(m, bps).Accept?
    requires i < |PayoutLegs(m, bps).value| && j < |PayoutLegs(m, bps).value| && i != j
    requires var a, b := PayoutLegs(m, bps).value[i], PayoutLegs(m, bps).value[j];
             a.amountRao != m.bountyRao * a.bps / 10_000 && b.amountRao == m.bountyRao * b.bps / 10_000
    ensures var a, b := PayoutLegs(m, bps).value[i], PayoutLegs(m, bps).value[j];
            var x, y := m.bountyRao * a.bps % 10_000, m.bountyRao * b.bps % 10_000;
            y < x || (y == x && i < j)
  {
    var ws := BpsOf(PositiveDestinations(m, bps), bps);
    PositiveWeights(m, bps);
    hide Shares, PositiveDestinations, Total, BpsOf;
    LargestRemainders(m.bountyRao, ws, i, j);
  }

  // ----- The in-place computation -----

  /** Build the legs, then raise the foremost ones in place through a second ordering. */
  method ComputeLegs(m: Manifest, bps: map<Id, int>) returns (result: Result<seq<Leg>>)
    requires 0 <= m.bountyRao
    ensures result == PayoutLegs(m, bps)
  {
    if !ValidAllocation(m, bps) {
      return Reject;
    }
    var positive := PositiveDestinations(m, bps);
    var ws := BpsOf(positive, bps);
    PositiveWeights(m, bps);
    var start, byRemainder, remainder := PlanBumps(m.bountyRao, ws);
    var legs := DraftAndRaise(positive, ws, start, byRemainder, remainder);
    return Accept(legs);
  }

  method DraftAndRaise(positive: seq<Destination>, ws: seq<int>, start: seq<int>, byRemainder: seq<nat>, remainder: nat)
    returns (drafted: seq<Leg>)
    requires |positive| == |ws| == |start| && remainder <= |byRemainder|
    requires forall k :: 0 <= k < |byRemainder| ==> byRemainder[k] < |start|
    ensures drafted == LegsWith(positive, ws, Bumped(start, byRemainder, remainder))
  {
    var legs := new Leg[|positive|](i requires 0 <= i < |positive| => LegAt(positive[i], i, ws[i], start[i]));
    assert legs[..] == LegsWith(positive, ws, start);
    RaiseLegs(legs, byRemainder, remainder, positive, ws, start);
    return legs[..];
  }

  method RaiseLegs(legs: array<Leg>, byRemainder: seq<nat>, remainder: nat,
                   ghost positive: seq<Destination>, ghost ws: seq<int>, ghost start: seq<int>)
    requires |positive| == |ws| == |start| == legs.Length && remainder <= |byRemainder|
    requires forall k :: 0 <= k < |byRemainder| ==> byRemainder[k] < legs.Length
    requires legs[..] == LegsWith(positive, ws, start)
    modifies legs
    ensures legs[..] == LegsWith(positive, ws, Bumped(start, byRemainder, remainder))
  {
    for k := 0 to remainder
      invariant legs[..] == LegsWith(positive, ws, Bumped(start, byRemainder, k))
    {
      var i := byRemainder[k];
      ghost var before := Bumped(start, byRemainder, k);
      assert Bumped(start, byRemainder, k + 1) == before[i := before[i] + 1];
      RaisedLeg(positive, ws, before, i);
      assert legs[i] == legs[..][i];
      legs[i] := legs[i].(amountRao := legs[i].amountRao + 1);
      assert legs[..] == LegsWith(positive, ws, before)[i := legs[i]];
    }
  }

  lemma RaisedLeg(ds: seq<Destination>, ws: seq<int>, amounts: seq<int>, i: nat)
    requires |ds| == |ws| == |amounts| && i < |ds|
    ensures var leg := LegsWith(ds, ws, amounts)[i];
            LegsWith(ds, ws, amounts)[i := leg.(amountRao := leg.amountRao + 1)]
            == LegsWith(ds, ws, amounts[i := amounts[i] + 1])
  {}
}
