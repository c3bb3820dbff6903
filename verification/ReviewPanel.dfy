/** Choosing an independent review panel: one reviewer per controller, least assignment digests first. */
module ReviewPanel {
  import opened Basics
  import opened Ordering

  datatype Standing = Probation | Active | Suspended

  datatype Profile = Profile(
    reviewerId: Key, controller: string, standing: Standing, passes: int, total: int, revealRate: int,
        conflicts: set<Id>)

  /** A seed commitment is the digest of one seed, or of nothing anyone can show. */
  datatype SeedCommitment = OfSeed(seed: string) | Unopenable(text: string)

  datatype PanelPolicy = PanelPolicy(
    panelSize: nat, minTotal: int, minPasses: int, minRevealRate: int, seedCommitment: SeedCommitment)

  /** What an assignment digest covers, and the digest itself as text. */
  datatype Assignment<+R> = Assignment(seed: string, caseId: Id, root: R, reviewerId: Key)

  type Digests<!R> = Assignment<R> -> string

  predicate Eligible(policy: PanelPolicy, caseId: Id, excluded: set<string>, p: Profile) {
    && p.standing == Active
    && p.total >= policy.minTotal && p.passes >= policy.minPasses && p.revealRate >= policy.minRevealRate
    && caseId !in p.conflicts && p.controller !in excluded
  }

  // ----- The order of candidates -----

  /** Reviewers compare by digest, then by key. */
  predicate Ahead(score: Key -> string, a: Key, b: Key) {
    if score(a) == score(b) then TextLe(a, b) else TextLe(score(a), score(b))
  }

  lemma AheadOrder(score: Key -> string)
    ensures forall a, b :: Ahead(score, a, b) || Ahead(score, b, a)
    ensures forall a, b :: Ahead(score, a, b) && Ahead(score, b, a) ==> a == b
    ensures forall a, b, c :: Ahead(score, a, b) && Ahead(score, b, c) ==> Ahead(score, a, c)
  {
    forall a, b ensures Ahead(score, a, b) || Ahead(score, b, a) {
      TextLeTotal(a, b);
      TextLeTotal(score(a), score(b));
    }
    forall a, b ensures Ahead(score, a, b) && Ahead(score, b, a) ==> a == b {
      TextLeTotal(a, b);
      TextLeTotal(score(a), score(b));
    }
    forall a, b, c | Ahead(score, a, b) && Ahead(score, b, c) ensures Ahead(score, a, c) {
      AheadTransitive(score, a, b, c);
    }
  }

  lemma AheadTransitive(score: Key -> string, a: Key, b: Key, c: Key)
    requires Ahead(score, a, b) && Ahead(score, b, c)
    ensures Ahead(score, a, c)
  {
    if score(a) == score(b) == score(c) {
      TextLeTransitive(a, b, c);
    } else if score(a) != score(b) && score(b) != score(c) {
      TextLeTransitive(score(a), score(b), score(c));
      TextLeTotal(score(a), score(b));
    }
  }

  ghost predicate InOrder(score: Key -> string, ps: seq<Profile>) {
    forall i, j :: 0 <= i < j < |ps| ==> Ahead(score, ps[i].reviewerId, ps[j].reviewerId)
  }

  /** Insert after everything that does not come later, which keeps the sort stable. */
  function Insert(score: Key -> string, p: Profile, ps: seq<Profile>): (r: seq<Profile>)
    requires InOrder(score, ps)
    ensures InOrder(score, r) && Elements(r) == Elements(ps) + {p}
  {
    AheadOrder(score);
    if ps == [] then [p]
    else if !Ahead(score, ps[0].reviewerId, p.reviewerId) then
      InsertedFirst(score, p, ps);
      [p] + ps
    else
      var rest := Insert(score, p, ps[1..]);
      InsertedLater(score, p, ps, rest);
      [ps[0]] + rest
  }

  lemma InsertedFirst(score: Key -> string, p: Profile, ps: seq<Profile>)
    requires InOrder(score, ps) && ps != [] && !Ahead(score, ps[0].reviewerId, p.reviewerId)
    ensures InOrder(score, [p] + ps) && Elements([p] + ps) == Elements(ps) + {p}
  {
    AheadOrder(score);
    forall i | 0 <= i < |ps| ensures Ahead(score, p.reviewerId, ps[i].reviewerId) {
      if i > 0 {
        AheadTransitive(score, p.reviewerId, ps[0].reviewerId, ps[i].reviewerId);
      }
    }
  }

  lemma InsertedLater(score: Key -> string, p: Profile, ps: seq<Profile>, rest: seq<Profile>)
    requires InOrder(score, ps) && ps != [] && Ahead(score, ps[0].reviewerId, p.reviewerId)
    requires InOrder(score, rest) && Elements(rest) == Elements(ps[1..]) + {p}
    ensures InOrder(score, [ps[0]] + rest) && Elements([ps[0]] + rest) == Elements(ps) + {p}
  {
    hide Ahead;
    assert ps == [ps[0]] + ps[1..];
    forall i | 0 <= i < |rest| ensures Ahead(score, ps[0].reviewerId, rest[i].reviewerId) {
      assert rest[i] in Elements(rest);
    }
    forall q ensures q in Elements([ps[0]] + rest) <==> q in Elements(ps) + {p} {
      assert q in rest <==> q in Elements(rest);
    }
  }

  // ----- Selection -----

  /** The eligible profiles of a roster, sorted. */
  function Candidates(score: Key -> string, policy: PanelPolicy, caseId: Id, excluded: set<string>,
                      roster: seq<Profile>)
    : (r: seq<Profile>)
    ensures InOrder(score, r)
    ensures Elements(r) == set p | p in roster && Eligible(policy, caseId, excluded, p)
  {
    if roster == [] then []
    else
      SplitLast(roster);
      var earlier := Candidates(score, policy, caseId, excluded, roster[..|roster| - 1]);
      if Eligible(policy, caseId, excluded, roster[|roster| - 1])
      then Insert(score, roster[|roster| - 1], earlier)
      else earlier
  }

  /** Seat candidates in order, one to a controller, until the panel is full. */
  function Seat(ordered: seq<Profile>, taken: set<string>, size: nat): Option<seq<Profile>> {
    if size == 0 then Some([])
    else if ordered == [] then None
    else if ordered[0].controller in taken then Seat(ordered[1..], taken, size)
    else
      Also([ordered[0]], Seat(ordered[1..], taken + {ordered[0].controller}, size - 1))
  }

  /**
   A full panel: each seat's controller is new, and no candidate whose controller is still unseated would come
   before it.
   */
  ghost predicate Panel(score: Key -> string, pool: set<Profile>, taken: set<string>, size: nat, chosen: seq<Profile>) {
    && |chosen| == size
    && forall i :: 0 <= i < size ==>
         && chosen[i] in pool && Unseated(taken, chosen[..i], chosen[i].controller)
         && forall p :: p in pool && Unseated(taken, chosen[..i], p.controller) ==>
              Ahead(score, chosen[i].reviewerId, p.reviewerId)
  }

  predicate Unseated(taken: set<string>, seated: seq<Profile>, controller: string) {
    controller !in taken && forall j :: 0 <= j < |seated| ==> seated[j].controller != controller
  }

  function Controllers(pool: set<Profile>): set<string> {
    set p | p in pool :: p.controller
  }

  /** How many controllers are left to seat. */
  function Left(ordered: seq<Profile>, taken: set<string>): nat {
    |Controllers(Elements(ordered)) - taken|
  }

  lemma LeftStep(ordered: seq<Profile>, taken: set<string>)
    ensures Left([], taken) == 0
    ensures ordered != [] ==>
              Left(ordered, taken) == if ordered[0].controller in taken then Left(ordered[1..], taken)
                                      else Left(ordered[1..], taken + {ordered[0].controller}) + 1
  {
    assert Controllers(Elements([])) - taken == {};
    if ordered != [] {
      HeadController(ordered);
      LeftToSeat(Controllers(Elements(ordered[1..])), ordered[0].controller, taken);
    }
  }

  lemma LeftToSeat(rest: set<string>, head: string, taken: set<string>)
    ensures head in taken ==> (rest + {head}) - taken == rest - taken
    ensures head !in taken ==> |(rest + {head}) - taken| == |rest - (taken + {head})| + 1
  {
    if head !in taken {
      assert (rest + {head}) - taken == (rest - (taken + {head})) + {head};
    }
  }

  /** Greedy seating fails exactly when too few controllers are left. */
  lemma {:induction false} SeatingFills(ordered: seq<Profile>, taken: set<string>, size: nat)
    ensures Seat(ordered, taken, size).None? <==> Left(ordered, taken) < size
  {
    hide Left;
    LeftStep(ordered, taken);
    if size > 0 && ordered != [] {
      if ordered[0].controller in taken {
        SeatingFills(ordered[1..], taken, size);
      } else {
        SeatingFills(ordered[1..], taken + {ordered[0].controller}, size - 1);
      }
    }
  }

  lemma HeadController(ordered: seq<Profile>)
    requires ordered != []
    ensures Elements(ordered) == Elements(ordered[1..]) + {ordered[0]}
    ensures Controllers(Elements(ordered)) == Controllers(Elements(ordered[1..])) + {ordered[0].controller}
  {
    assert ordered == [ordered[0]] + ordered[1..];
    assert Elements(ordered) == Elements(ordered[1..]) + {ordered[0]};
  }

  /** What greedy seating fills is a panel. */
  lemma {:induction false} SeatingIsPanel(score: Key -> string, ordered: seq<Profile>, taken: set<string>, size: nat)
    requires InOrder(score, ordered) && Seat(ordered, taken, size).Some?
    ensures Panel(score, Elements(ordered), taken, size, Seat(ordered, taken, size).value)
  {
    if size > 0 {
      var head, tail := ordered[0], ordered[1..];
      if head.controller in taken {
        SeatingIsPanel(score, tail, taken, size);
        SkipTaken(score, ordered, taken, size, Seat(tail, taken, size).value);
      } else {
        SeatingIsPanel(score, tail, taken + {head.controller}, size - 1);
        SeatHead(score, ordered, taken, size, Seat(tail, taken + {head.controller}, size - 1).value);
      }
    }
  }

  lemma SkipTaken(score: Key -> string, ordered: seq<Profile>, taken: set<string>, size: nat, chosen: seq<Profile>)
    requires ordered != [] && ordered[0].controller in taken
             && Panel(score, Elements(ordered[1..]), taken, size, chosen)
    ensures Panel(score, Elements(ordered), taken, size, chosen)
  {
    HeadController(ordered);
  }

  lemma SeatHead(score: Key -> string, ordered: seq<Profile>, taken: set<string>, size: nat, rest: seq<Profile>)
    requires InOrder(score, ordered) && ordered != [] && ordered[0].controller !in taken && size > 0
    requires Panel(score, Elements(ordered[1..]), taken + {ordered[0].controller}, size - 1, rest)
    ensures Panel(score, Elements(ordered), taken, size, [ordered[0]] + rest)
  {
    AheadOrder(score);
    var head, chosen := ordered[0], [ordered[0]] + rest;
    forall i | 0 <= i < size
      ensures chosen[i] in Elements(ordered) && Unseated(taken, chosen[..i], chosen[i].controller)
      ensures forall p :: p in Elements(ordered) && Unseated(taken, chosen[..i], p.controller) ==>
                Ahead(score, chosen[i].reviewerId, p.reviewerId)
    {
      if i > 0 {
        assert chosen[..i] == [head] + rest[..i - 1];
        forall c ensures Unseated(taken, chosen[..i], c) <==> Unseated(taken + {head.controller}, rest[..i - 1], c) {
          UnseatedCons(taken, head, rest[..i - 1], c);
        }
        assert rest[i - 1] in Elements(ordered[1..]);
        forall p | p in Elements(ordered) && Unseated(taken, chosen[..i], p.controller)
          ensures Ahead(score, chosen[i].reviewerId, p.reviewerId)
        {
          assert chosen[..i][0] == head;
          assert p in Elements(ordered[1..]);
        }
      }
    }
  }

  lemma UnseatedCons(taken: set<string>, head: Profile, rest: seq<Profile>, c: string)
    ensures Unseated(taken, [head] + rest, c) <==> Unseated(taken + {head.controller}, rest, c)
  {
    var all := [head] + rest;
    assert forall j :: 0 <= j < |rest| ==> all[j + 1] == rest[j];
    if Unseated(taken, all, c) {
      assert all[0].controller != c;
    }
  }

  /** Only one panel exists for a pool whose reviewer keys are distinct. */
  lemma {:induction false} PanelUnique(score: Key -> string, pool: set<Profile>, taken: set<string>, size: nat,
                                       a: seq<Profile>, b: seq<Profile>, n: nat)
    requires Panel(score, pool, taken, size, a) && Panel(score, pool, taken, size, b) && n <= size
    requires forall p, q :: p in pool && q in pool && p.reviewerId == q.reviewerId ==> p == q
    ensures a[..n] == b[..n]
  {
    if n > 0 {
      PanelUnique(score, pool, taken, size, a, b, n - 1);
      AheadOrder(score);
      assert a[n - 1] == b[n - 1];
      SplitLast(a[..n]);
      SplitLast(b[..n]);
      assert a[..n][..n - 1] == a[..n - 1] && b[..n][..n - 1] == b[..n - 1];
    }
  }

  // ----- The whole operation -----

  function ScoreOf<R>(digests: Digests<R>, seed: string, caseId: Id, root: R): Key -> string {
    id => digests(Assignment(seed, caseId, root, id))
  }

  function Pool(policy: PanelPolicy, caseId: Id, excluded: set<string>, roster: seq<Profile>): set<Profile> {
    set p | p in roster && Eligible(policy, caseId, excluded, p)
  }

  /** The panel for a seed, or None when the seed is wrong or the pool cannot fill the panel. */
  function Selected<R>(digests: Digests<R>, policy: PanelPolicy, caseId: Id, excluded: set<string>,
                       roster: seq<Profile>, seed: string, root: R)
    : Option<seq<Profile>>
  {
    if OfSeed(seed) != policy.seedCommitment then None
    else Seat(Candidates(ScoreOf(digests, seed, caseId, root), policy, caseId, excluded, roster), {}, policy.panelSize)
  }

  /** select_reviewers: score every eligible profile, sort, and seat one reviewer per controller. */
  method SelectReviewers<R>(digests: Digests<R>, policy: PanelPolicy, caseId: Id, excluded: set<string>,
                            roster: seq<Profile>, seed: string, root: R)
    returns (selected: Option<seq<Key>>)
    requires policy.panelSize > 0
    ensures var panel := Selected(digests, policy, caseId, excluded, roster, seed, root);
            && (selected.Some? <==> panel.Some?)
            && (selected.Some? ==> selected.value == Keys(panel.value))
  {
    if OfSeed(seed) != policy.seedCommitment {
      return None;
    }
    var score := ScoreOf(digests, seed, caseId, root);
    var candidates: seq<Profile> := [];
    for i := 0 to |roster|
      invariant InOrder(score, candidates)
      invariant candidates == Candidates(score, policy, caseId, excluded, roster[..i])
    {
      assert roster[..i + 1][..i] == roster[..i];
      if Eligible(policy, caseId, excluded, roster[i]) {
        candidates := Insert(score, roster[i], candidates);
      }
    }
    assert roster[..|roster|] == roster;
    var seated := FillPanel(candidates, policy.panelSize);
    return match seated case None => None case Some(panel) => Some(Keys(panel));
  }

  /** Seat the candidates one by one, remembering the controllers already seated. */
  method FillPanel(candidates: seq<Profile>, size: nat) returns (panel: Option<seq<Profile>>)
    requires size > 0
    ensures panel == Seat(candidates, {}, size)
  {
    var seated: seq<Profile>, controllers: set<string> := [], {};
    assert candidates[0..] == candidates;
    SeatedAlso([], Seat(candidates, {}, size));
    for i := 0 to |candidates|
      invariant |seated| < size
      invariant Seat(candidates, {}, size) == Also(seated, Seat(candidates[i..], controllers, size - |seated|))
    {
      var profile := candidates[i];
      assert candidates[i..][1..] == candidates[i + 1..];
      if profile.controller !in controllers {
        SeatedNext(seated, profile, Seat(candidates[i + 1..], controllers + {profile.controller}, size - |seated| - 1));
        seated, controllers := seated + [profile], controllers + {profile.controller};
        if |seated| == size {
          SeatedAlso(seated, Some([]));
          return Some(seated);
        }
      }
    }
    return None;
  }

  function Also(seated: seq<Profile>, rest: Option<seq<Profile>>): Option<seq<Profile>> {
    match rest case None => None case Some(more) => Some(seated + more)
  }

  lemma SeatedAlso(seated: seq<Profile>, rest: Option<seq<Profile>>)
    ensures seated == [] ==> Also(seated, rest) == rest
    ensures rest == Some([]) ==> Also(seated, rest) == Some(seated)
  {
    if rest.Some? {
      assert [] + rest.value == rest.value;
      assert seated + [] == seated;
    }
  }

  lemma SeatedNext(seated: seq<Profile>, p: Profile, rest: Option<seq<Profile>>)
    ensures Also(seated, Also([p], rest)) == Also(seated + [p], rest)
  {
    if rest.Some? {
      assert seated + ([p] + rest.value) == (seated + [p]) + rest.value;
    }
  }

  function Keys(panel: seq<Profile>): seq<Key> {
    seq(|panel|, i requires 0 <= i < |panel| => panel[i].reviewerId)
  }

  /**
   What a panel is: full, all eligible, on pairwise distinct controllers, each seat the least of its controller, and
   no unseated controller with anyone ahead of any seat. It is found exactly when enough controllers are eligible.
   */
  lemma PanelIndependent<R>(digests: Digests<R>, policy: PanelPolicy, caseId: Id, excluded: set<string>,
                            roster: seq<Profile>, seed: string, root: R)
    requires OfSeed(seed) == policy.seedCommitment
    ensures var pool := Pool(policy, caseId, excluded, roster);
            var score := ScoreOf(digests, seed, caseId, root);
            var panel := Selected(digests, policy, caseId, excluded, roster, seed, root);
            && (panel.None? <==> |Controllers(pool)| < policy.panelSize)
            && (panel.Some? ==>
                  && |panel.value| == policy.panelSize
                  && (forall i :: 0 <= i < |panel.value| ==> panel.value[i] in pool)
                  && (forall i, j ::
                      0 <= i < j < |panel.value| ==> panel.value[i].controller != panel.value[j].controller)
                  && (forall i, p ::
                      0 <= i < |panel.value| && p in pool && p.controller == panel.value[i].controller ==>
                        Ahead(score, panel.value[i].reviewerId, p.reviewerId))
                  && (forall i, p :: 0 <= i < |panel.value| && p in pool && Unseated({}, panel.value, p.controller) ==>
                        Ahead(score, panel.value[i].reviewerId, p.reviewerId)))
  {
    var score := ScoreOf(digests, seed, caseId, root);
    var ordered := Candidates(score, policy, caseId, excluded, roster);
    SeatingFills(ordered, {}, policy.panelSize);
    assert Controllers(Elements(ordered)) - {} == Controllers(Elements(ordered));
    var panel := Seat(ordered, {}, policy.panelSize);
    if panel.Some? {
      SeatingIsPanel(score, ordered, {}, policy.panelSize);
      PanelReads(score, Elements(ordered), policy.panelSize, panel.value);
    }
  }

  lemma PanelReads(score: Key -> string, pool: set<Profile>, size: nat, chosen: seq<Profile>)
    requires Panel(score, pool, {}, size, chosen)
    ensures forall i, j :: 0 <= i < j < size ==> chosen[i].controller != chosen[j].controller
    ensures forall i, p :: 0 <= i < size && p in pool && p.controller == chosen[i].controller ==>
              Ahead(score, chosen[i].reviewerId, p.reviewerId)
    ensures forall i, p :: 0 <= i < size && p in pool && Unseated({}, chosen, p.controller) ==>
              Ahead(score, chosen[i].reviewerId, p.reviewerId)
  {
    forall i, j | 0 <= i < j < size ensures chosen[i].controller != chosen[j].controller {
      assert Unseated({}, chosen[..j], chosen[j].controller);
      assert chosen[..j][i] == chosen[i];
    }
    forall i, p | 0 <= i < size && p in pool && p.controller == chosen[i].controller
      ensures Ahead(score, chosen[i].reviewerId, p.reviewerId)
    {
      assert Unseated({}, chosen[..i], p.controller);
    }
    forall i, p | 0 <= i < size && p in pool && Unseated({}, chosen, p.controller)
      ensures Ahead(score, chosen[i].reviewerId, p.reviewerId)
    {
      assert Unseated({}, chosen[..i], p.controller);
    }
  }

  /** The order of the roster is irrelevant. */
  lemma PanelOrderFree<R>(digests: Digests<R>, policy: PanelPolicy, caseId: Id, excluded: set<string>,
                       roster: seq<Profile>, other: seq<Profile>, seed: string, root: R)
    requires Elements(roster) == Elements(other)
    requires forall i, j :: 0 <= i < j < |roster| ==> roster[i].reviewerId != roster[j].reviewerId
    ensures Selected(digests, policy, caseId, excluded, roster, seed, root)
            == Selected(digests, policy, caseId, excluded, other, seed, root)
  {
    if OfSeed(seed) == policy.seedCommitment {
      var score := ScoreOf(digests, seed, caseId, root);
      var a := Candidates(score, policy, caseId, excluded, roster);
      var b := Candidates(score, policy, caseId, excluded, other);
      assert Elements(a) == Elements(b) by {
        forall p ensures p in Elements(a) <==> p in Elements(b) {
          assert p in roster <==> p in Elements(roster);
          assert p in other <==> p in Elements(other);
        }
      }
      hide Ahead, Candidates, Panel, Seat;
      SeatingFills(a, {}, policy.panelSize);
      SeatingFills(b, {}, policy.panelSize);
      var x, y := Seat(a, {}, policy.panelSize), Seat(b, {}, policy.panelSize);
      if x.Some? {
        SeatingIsPanel(score, a, {}, policy.panelSize);
        SeatingIsPanel(score, b, {}, policy.panelSize);
        PanelUnique(score, Elements(a), {}, policy.panelSize, x.value, y.value, policy.panelSize);
        assert x.value[..policy.panelSize] == x.value && y.value[..policy.panelSize] == y.value;
      }
    }
  }

  // ----- Which panel it is, without sorting -----

  /** May sit on this case: active, experienced and revealing enough, and free of conflicts. */
  predicate Serves(policy: PanelPolicy, caseId: Id, excluded: set<string>, p: Profile) {
    && p.standing.Active? && policy.minTotal <= p.total && policy.minPasses <= p.passes
    && policy.minRevealRate <= p.revealRate && !(caseId in p.conflicts || p.controller in excluded)
  }

  /** Drawn no later: by digest, and by key among equal digests. */
  predicate NoLater(digestA: string, a: Key, digestB: string, b: Key) {
    (digestA != digestB && TextLe(digestA, digestB)) || (digestA == digestB && TextLe(a, b))
  }

  /** Seat i goes to the first reviewer drawn among those whose controller holds no earlier seat. */
  ghost predicate FairSeat<R>(digests: Digests<R>, policy: PanelPolicy, caseId: Id, excluded: set<string>,
                              roster: seq<Profile>, seed: string, root: R, chosen: seq<Profile>, i: nat)
    requires i < |chosen|
  {
    && chosen[i] in roster && Serves(policy, caseId, excluded, chosen[i])
    && (forall j :: 0 <= j < i ==> chosen[j].controller != chosen[i].controller)
    && forall p :: p in roster && Serves(policy, caseId, excluded, p)
                   && (forall j :: 0 <= j < i ==> chosen[j].controller != p.controller) ==>
         NoLater(digests(Assignment(seed, caseId, root, chosen[i].reviewerId)), chosen[i].reviewerId,
                 digests(Assignment(seed, caseId, root, p.reviewerId)), p.reviewerId)
  }

  /** The seed opens the frozen commitment, and every seat is fairly filled. */
  ghost predicate FairPanel<R>(digests: Digests<R>, policy: PanelPolicy, caseId: Id, excluded: set<string>,
                               roster: seq<Profile>, seed: string, root: R, chosen: seq<Profile>) {
    && policy.seedCommitment == OfSeed(seed) && |chosen| == policy.panelSize
    && forall i :: 0 <= i < |chosen| ==> FairSeat(digests, policy, caseId, excluded, roster, seed, root, chosen, i)
  }

  lemma FairIsPanel<R>(digests: Digests<R>, policy: PanelPolicy, caseId: Id, excluded: set<string>,
                       roster: seq<Profile>, seed: string, root: R, chosen: seq<Profile>)
    ensures FairPanel(digests, policy, caseId, excluded, roster, seed, root, chosen) <==>
            && OfSeed(seed) == policy.seedCommitment
            && Panel(ScoreOf(digests, seed, caseId, root), Pool(policy, caseId, excluded, roster), {},
                     policy.panelSize, chosen)
  {
    var score, pool := ScoreOf(digests, seed, caseId, root), Pool(policy, caseId, excluded, roster);
    forall i, p | 0 <= i < |chosen|
      ensures Unseated({}, chosen[..i], p) <==> forall j :: 0 <= j < i ==> chosen[j].controller != p
    {
      assert forall j :: 0 <= j < i ==> chosen[..i][j] == chosen[j];
    }
    forall i | 0 <= i < |chosen|
      ensures FairSeat(digests, policy, caseId, excluded, roster, seed, root, chosen, i) <==>
              && chosen[i] in pool && Unseated({}, chosen[..i], chosen[i].controller)
              && forall p :: p in pool && Unseated({}, chosen[..i], p.controller) ==>
                   Ahead(score, chosen[i].reviewerId, p.reviewerId)
    {}
  }

  /** The panel selected for a seed is the one fair panel, and none is selected when there is none. */
  lemma SelectedIsFair<R>(digests: Digests<R>, policy: PanelPolicy, caseId: Id, excluded: set<string>,
                          roster: seq<Profile>, seed: string, root: R, chosen: seq<Profile>)
    requires forall i, j :: 0 <= i < j < |roster| ==> roster[i].reviewerId != roster[j].reviewerId
    ensures Selected(digests, policy, caseId, excluded, roster, seed, root) == Some(chosen) <==>
            FairPanel(digests, policy, caseId, excluded, roster, seed, root, chosen)
  {
    FairIsPanel(digests, policy, caseId, excluded, roster, seed, root, chosen);
    var score := ScoreOf(digests, seed, caseId, root);
    var ordered := Candidates(score, policy, caseId, excluded, roster);
    hide FairPanel, Ahead, Candidates, Seat;
    if OfSeed(seed) == policy.seedCommitment {
      SeatingFills(ordered, {}, policy.panelSize);
      var seated := Seat(ordered, {}, policy.panelSize);
      if seated.Some? {
        SeatingIsPanel(score, ordered, {}, policy.panelSize);
        if Panel(score, Elements(ordered), {}, policy.panelSize, chosen) {
          PanelUnique(score, Elements(ordered), {}, policy.panelSize, seated.value, chosen, policy.panelSize);
          assert seated.value[..policy.panelSize] == seated.value && chosen[..policy.panelSize] == chosen;
        }
      } else if Panel(score, Elements(ordered), {}, policy.panelSize, chosen) {
        PanelNeedsControllers(score, Elements(ordered), policy.panelSize, chosen);
      }
    }
  }

  /** A panel seats as many controllers as it has seats. */
  lemma PanelNeedsControllers(score: Key -> string, pool: set<Profile>, size: nat, chosen: seq<Profile>)
    requires Panel(score, pool, {}, size, chosen)
    ensures size <= |Controllers(pool)|
  {
    PanelReads(score, pool, size, chosen);
    assert forall i :: 0 <= i < size ==> chosen[i] in pool;
    hide Ahead, Panel;
    var seats := seq(size, i requires 0 <= i < size => chosen[i].controller);
    DistinctMultiset(seats);
    assert Elements(seats) <= Controllers(pool);
    SubsetSize(Elements(seats), Controllers(pool));
    assert |multiset(seats)| == size;
  }
}
