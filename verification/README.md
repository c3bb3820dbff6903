# Boule, verified

Boule keeps collaborative research as append-only signed logs with state machines folded over them, and pays
contributors by integer credit arithmetic. This project models four parts of it and proves what they are for.

1. **Community adjudication (v0.2).** Delegated sessions, route leases, commit-then-handoff, a frontier of accepted
   handoffs, a transitive dependency closure, an evidence seal, sealed ballots, median aggregation, largest-remainder
   apportionment, and leg-by-leg payout. `CommunityTypes` and `CommunitySteps` say when an event is accepted and what
   it leaves; `CommunityInvariants`, `CommunityProvenance`, `CommunityAttribution`, `CommunityReview`,
   `CommunityAuthority`, `CommunityEntitlement` and `CommunityRuns` hold what every run keeps; `CommunityTheorems`
   states the main results. `CommunityHistory` says from the transcript alone which entry may come next;
   `CommunityRecords`, `CommunityReading` and `CommunityLaw` prove that the fold accepts exactly those entries and
   holds exactly what they said. `CommunityExtension`, `CommunityProgress`, `CommunityVoting`, `CommunityPayment`,
   `CommunityDeadlock` and `CommunityOutcome` build transcripts: what can always be reached, and where a case can end
   for good. `CommunityCase` and `CommunitySession` are the mutable state and the session, proved against the fold.
   `Causality`, `Apportionment`, `Medians`, `Credit`, `Aggregation`, `CreditRobustness`, `CreditDeadlock` and `Payout`
   are the algorithms and arithmetic.
2. **The registry log and its clients.** `RegistryReplay` (records and identities), `RegistryHistory` and
   `RegistryLaw` (the same told from the log alone), `RegistryLog` and `RegistryWorld` (many instances over one file),
   `RegistryTrust` and `RegistryFetch` (first-use trust, chunked proofs, races between clients), `CaseProofs`,
   `CaseAnchors` and `CaseFetch` (case high-water marks), `FetchSlots` and `LiveRefresh` (the live projection's worker
   slots).
3. **Two-agent review (v0.1).** `ReviewPanel`, `ReviewDecision`, `ReviewSteps`, `ReviewRuns`, `ReviewTheorems`,
   `ReviewOutcome`, `ReviewAuthority` and `ReviewSession`, with `ReviewHistory` and `ReviewLaw` for the same rules
   told from the transcript alone.
4. **Remote append and run logs.** `RemoteClerk`, `RemoteAppend` and `RemoteClient` (outbox recovery under lost
   replies and delayed deliveries), and `RunLog` (appending to an event file under crashes, and reading it
   incrementally), with `RunLogCodec` as one codec that meets its hypotheses.

`Basics`, `Ordering` and `Chain` are shared: sequences and sums, text order and sorting, hash chains and ledgers.

How things are modelled:

- A digest is a datatype constructor around what it is computed from, so equal digests mean equal preimages. Where
  digests are compared as text, in reviewer selection, they are an arbitrary function to text.
- A signature verifies for exactly one key and one message. That a key signs only honest statements is written as a
  hypothesis about the messages that carry its signature.
- Times are integers in microseconds. Exceptions are `Reject`, `None`, `false` or a named ending; a method's contract
  says which, and that nothing changed.
- Each of the three state machines is stated twice: as a fold over a state, as the code has it, and as a law that reads
  only the log (`CommunityHistory.Lawful`, `ReviewHistory.Lawful`, `RegistryHistory.Lawful`). The two are proved to
  accept the same logs, and the state to hold, item by item, what the log's entries said.
- What the original fetches over the network, waits for, or shares with other processes is a parameter: a function
  that answers requests, a schedule of everyone else's actions, or a crash point. Every statement holds for all of
  them.

## What the proofs found

- Opening a community case checks that the clerk's key is independent of the case's actors only after it has stored
  the manifest and the clerk key, so that one refusal leaves them in the fresh state (src/boule/community.py:676-687).
  `CommunityRefusal.RefusalLeavesTrace` shows it is the only refusal that changes anything.
- A community review has no deadlines, and a commitment is only checked to be a digest (src/boule/community.py:1229).
  One frozen reviewer that commits a digest of no valid ballot keeps every continuation in review, under every valid
  manifest (`CommunityOutcome.OneReviewerBlocks`, `CommunityOutcome.ManifestCanBlock`). From closed commits on, an
  outcome is within reach if and only if every missing ballot opens to a valid ballot of its reviewer and all ballots
  together leave something to share (`CommunityOutcome.ClosedReviewConcludes`).
- Even a fully revealed community review can be stuck for good: when nothing stands against an allocation but every
  per-participant median is zero, aggregation raises and no entry can ever follow. `CommunityTheorems.ReviewFinishes`
  is the exact condition on the ballots. `CommunityDeadlock.StuckWithExactly` is the exact condition on the frozen
  manifest, for every odd number k of decided ballots: some fully revealed transcript with k decided ballots gets
  stuck if and only if k makes the quorum within the roster and k * ceil(10000 / D) <= ((k - 1) / 2) * n, for n
  participants and a dispersion limit D. With three reviewers, some fully revealed transcript gets stuck exactly when
  n >= 3 * ceil(10000 / D) (`CommunityDeadlock.StuckExactly`), and `CommunityDeadlock.TrioGetsStuck` is a concrete
  manifest. `CreditRobustness.AggregationNeverFails` shows that for no roster can aggregation raise while n * D is at
  most 20000, twice the bound one would expect from the medians' total.
- The two-agent review has deadlines instead, and gets past a reviewer who does not reveal, but not past one who does
  not commit. A running review can still be decided exactly up to the commit deadline while commits are open, and up
  to the appeal deadline once they are closed (`ReviewOutcome.DecidableExactly`); a panel member's silence past the
  commit deadline ends the case without a decision (`ReviewOutcome.SilenceEndsTheCase`).
- A community allocation can be finalized before commits are closed, exactly while nobody has committed, and is then
  inconclusive (src/boule/community.py:1270-1280, `CommunityTheorems.EarlyFinalization`).
- The trust store limits its origins when it is read but not when it is written, so adding one origin to a full store
  succeeds and makes every later call fail (src/boule/trust_store.py:175-179, `RegistryTrust.FullStoreLocksUp`). Over
  any calls, the store stays usable if and only if the origins it holds and those that valid calls name are together
  within the limit (`RegistryTrust.StoreUsableExactly`).
- Two honest clients sharing a trust store can make each other fail: only a proof that no longer fits is retried, and
  only once. `RegistryFetch.TwoClientsFailEachOther` is a log of two entries on which they do, and
  `RegistryFetch.FetchDecided` gives the exact outcome.
- An event line written without its status update gives the next event the same number, and a torn line that the next
  append completes stops every reader from any boundary before it (src/boule/run_store.py:271-290,
  `RunLog.LostStatusRepeatsNumber`, `RunLog.TornThenAppendBlocks`). `RunLog.AppendsReadBackExactly` is the exact
  condition: the file reads back if and only if no append landed whole after a torn one, and is then numbered from one
  if and only if none landed whole after one whose line landed without its status.

## Model

| member | source | states |
|---|---|---|
| Apportionment.PlanBumps | src/boule/community.py:438-453 | the loop's floors, remainder and sorted residues are a plan: raising its first claimants gives the largest-remainder shares |
| Apportionment.SharesConserve | src/boule/community.py:438-453 | for non-negative weights with a positive total, the shares sum to exactly the amount shared |
| Apportionment.QuotaRule | src/boule/community.py:438-453 | each share is the floor or the ceiling of its exact quota, and a zero weight gets zero |
| Apportionment.LargestRemainders | src/boule/community.py:438-453 | whoever is rounded up has a larger remainder than whoever is not, or the same one and an earlier place |
| Apportionment.SharesMonotone | src/boule/community.py:438-453 | a larger weight never gets a smaller share, even across the rounding boundary |
| Apportionment.RemainderBound | src/boule/community.py:443-450 | a positive remainder is less than the number of weights with a non-zero residue, so only those are raised |
| Credit.NormalizeBps | src/boule/community.py:438-453 | normalizing medians in place is largest-remainder apportionment of 10000 over participants in identifier order, or a refusal when the total is zero |
| Credit.BumpForemost | src/boule/community.py:448-452 | raising the foremost participants one by one in the dictionary equals raising the first places of the order |
| Credit.NormalizationSound | src/boule/community.py:438-453 | normalized shares cover the same participants, sum to 10000, round every quota, and keep the order of the medians |
| Credit.NormalizationTies | src/boule/community.py:438-453 | among medians, the one rounded up has the larger remainder, or the same one and the earlier identifier |
| Ordering.TextLeExactly | src/boule/community.py:438-453 | identifiers are ordered as text: a prefix first, otherwise by the first character that differs |
| Medians.MedianOrderFree | src/boule/community.py:456-461 | the median depends only on the multiset of values |
| Medians.MedianOfArrangement | src/boule/community.py:456-461 | in any sorted arrangement of the values, the median is the middle one, or half the sum of the middle two rounded down |
| Medians.MedianMajority | src/boule/moderation.py:86-91 | a strict majority of values in a range puts the median in that range |
| Medians.MedianWithin | src/boule/community.py:456-461 | the median lies between any bounds on all the values |
| Medians.ZeroMedianMass | src/boule/community.py:456-461 | values within a spread whose median is zero total at most half the spread for each other value |
| Aggregation.AggregateBallots | src/boule/community.py:1414-1457 | quorum, dispersion, medians and normalization give the recorded allocation, or a reason, or an error |
| Aggregation.RejectsExactly | src/boule/community.py:1414-1457 | aggregation raises exactly when nothing stands against an allocation and every median is zero |
| Aggregation.AllocationMeans | src/boule/community.py:1414-1457 | an accepted aggregate counts revealed and deciding ballots, and stands without an allocation exactly when too few decide or two of them differ over some participant by more than the limit |
| Aggregation.AllocationShares | src/boule/community.py:1414-1457 | a decided allocation shares 10000 out by the medians of the deciding ballots, each quota rounded and the largest remainders up |
| Aggregation.DispersionIsWidest | src/boule/community.py:1414-1457 | the recorded dispersion is reached by two deciding ballots over one participant and exceeded by none |
| Aggregation.AggregateOrderFree | src/boule/community.py:1414-1457 | any two reveal orders of the same ballots give the same outcome |
| CreditRobustness.MedianMass | src/boule/community.py:1421-1457 | ballots that agree within D leave the medians of n participants a total of at least 10000 - n * D |
| CreditRobustness.MediansNeverVanish | src/boule/community.py:1421-1457 | while n * D is at most 20000 the medians cannot all be zero |
| CreditRobustness.AggregationNeverFails | src/boule/community.py:1414-1457 | under a policy with n * D at most 20000 aggregation never raises |
| CreditDeadlock.PanelDeadlock | src/boule/community.py:1359-1457 | k reviewers that make the quorum have valid ballots that aggregate to an error in every reveal order, when k * ceil(10000 / D) places can be dealt to the sealed contributors with nobody holding half of the ballots |
| CreditDeadlock.VanishedNeedsBearers | src/boule/community.py:1414-1457 | an odd number k of full ballots within D whose medians are all zero need k * ceil(10000 / D) <= ((k - 1) / 2) * n |
| CreditDeadlock.ZeroMedianExactly | src/boule/community.py:456-461 | a median of non-negative values is zero whenever only a minority is positive, and for an odd number of values only then |
| Payout.ComputeLegs | src/boule/community.py:464-511 | drafting legs by coldkey and hotkey and raising them in place through a second order gives one rounded leg for each positive participant |
| Payout.RaiseLegs | src/boule/community.py:500-511 | the in-place loop raises exactly the foremost legs of the second order, each by one |
| Payout.LegsConserve | src/boule/community.py:464-511 | the legs always sum to the frozen bounty |
| Payout.LegsFaithful | src/boule/community.py:464-511 | the legs are numbered in order, pay every positive participant once and no one else, and each is the floor or ceiling of its quota |
| Payout.LegsInOrder | src/boule/community.py:464-511 | legs are listed by coldkey, then hotkey, then participant |
| Payout.LegTies | src/boule/community.py:464-511 | a leg rounded up has a larger remainder than one that is not, or the same one and an earlier place |
| Causality.DependencyClosure | src/boule/community.py:616-631 | the worklist terminates and returns exactly what the roots reach through depends_on and uses, or fails when that meets an unknown or NO_SIGNAL handoff |
| Causality.ClosureIsLeast | src/boule/community.py:616-631 | an accepted closure is the least set that holds the roots and is closed under causal edges |
| Causality.ClosureWithin | src/boule/community.py:1099-1111 | within a closed accepted set, the whole closure is accepted exactly when the direct roots are |
| Causality.ClosureStable | src/boule/community.py:616-631 | publishing more handoffs never changes an accepted closure |
| Chain.HashFixesPrefix | src/boule/ledger.py:149-186 | two linked chains with one equal hash at a position agree on every body up to it |
| Chain.HashesDistinct | src/boule/ledger.py:149-186 | no hash repeats along a linked chain |
| Chain.Ledger.AppendEvent | src/boule/ledger.py:119-143 | a receipt signed for the next position is appended, unless its time moves backwards, which changes nothing |
| Chain.Ledger.Append | src/boule/community.py:139-151 | only the clerk that opened the ledger appends |
| Chain.Ledger.RollbackLast | src/boule/ledger.py:145-147 | exactly the last entry is taken back |
| Chain.Ledger.Verify | src/boule/ledger.py:149-186 | the loop accepts exactly the linked, monotone, genuinely signed chains founded by their clerk |
| Chain.VerifiedInTurn | src/boule/ledger.py:149-186 | a ledger verifies exactly when each entry passes a check against only the one before it and the founding key |
| Chain.VerifiedAppend | src/boule/community.py:153-174 | appending to a verified ledger keeps it verified |
| CommunityCase.CommunityState.Apply | src/boule/community.py:660-1357 | applying an entry in place accepts exactly what the step function accepts and leaves its state, which CommunityLaw.ReplayLaw fixes from the log alone; a refusal leaves what AfterRefusal says |
| CommunityCase.CommunityState.ApplyOpened | src/boule/community.py:666-692 | opening, with the assignments in the order of the code, including those a late refusal leaves behind |
| CommunityCase.CommunityState.ApplyRevoked | src/boule/community.py:742-767 | revoking a session releases every claim it still holds, walking the claims in place |
| CommunityCase.CommunityState.ApplyPublished | src/boule/community.py:886-968 | a handoff opens its commitment and completes its claim |
| CommunityCase.CommunityState.ApplyProposed | src/boule/community.py:1069-1150 | a result is recorded with its closure and every attribution difference |
| CommunityCase.CommunityState.ApplyFinalized | src/boule/community.py:1270-1280 | an allocation is recorded only if it is the deterministic aggregate |
| CommunityCase.CommunityState.ApplyPlanned | src/boule/community.py:1282-1312 | a payout plan is recorded only if its legs are the computed legs and sum to the bounty |
| CommunityCase.CommunityState.ApplyConfirmed | src/boule/community.py:1333-1356 | a submitted leg is confirmed, and the case is paid when every positive leg is |
| CommunityRefusal.RefusalLeavesTrace | src/boule/community.py:660-692 | a refusal changes the state exactly when it refuses an opening for its clerk key |
| CommunityRefusal.RefusedOpeningWitness | src/boule/community.py:676-687 | a concrete refused opening that leaves manifest and clerk behind |
| CommunitySession.ReplayLedger | src/boule/community.py:1679-1684 | replay verifies the chain and folds it into a fresh state, failing exactly when either does |
| CommunitySession.CommunitySession.Open | src/boule/community.py:1580-1589 | a session opens exactly when its genesis entry is accepted, with a one-entry ledger in step with its state |
| CommunitySession.CommunitySession.Resume | src/boule/community.py:1592-1595 | a stored ledger resumes exactly when it replays and names this clerk |
| CommunitySession.CommunitySession.Append | src/boule/community.py:1597-1616 | an append succeeds exactly when its time is not behind and the entry is lawful after the ledger as it stands; the ledger stays verified, the live state holds exactly what its entries said, and a failure changes neither |
| CommunityLaw.ReplayLaw | src/boule/community.py:660-1357 | a ledger replays exactly when its chain verifies and every entry is lawful after those before it, where lawful reads only those entries; the state then holds what they said and what they add up to |
| CommunityLaw.StepLaw | src/boule/community.py:660-1357 | after any accepted transcript the step function accepts exactly the lawful entries |
| CommunityLaw.ManifestLaw | src/boule/community.py:252-407 | a manifest is valid under a clerk exactly when no key plays two roles, no person is behind two, no destination is paid twice, the limits hold and the first frontier is blank |
| CommunityRecords.StepNoted | src/boule/community.py:660-1357 | an accepted entry puts exactly its own items on record, none of which was there, as it states them, and changes no other |
| CommunityRecords.RunRecorded | src/boule/community.py:660-1357 | the state of every run holds each item as its entry said it, nothing else, and the frontier, accepted set, accesses and ballots that the entries add up to |
| CommunityRecords.ReceiptsAreVerdicts | src/boule/community.py:1152-1189 | every stored technical receipt is the frozen verifier's own entry on that result and its artifact, with its hash and its verdict |
| CommunityInvariants.StepFramed | src/boule/community.py:660-1357 | each kind of event touches only its own fields |
| CommunityInvariants.LeasesKept | src/boule/community.py:789-845 | every event keeps the lease rule, at the later receipt time |
| CommunityTheorems.RouteLeaseSafety | src/boule/community.py:822-845 | at any instant from the last receipt on, two live claims on one route are both parallel and the policy allows it |
| CommunityTheorems.AcceptedFrontierSafety | src/boule/community.py:970-1029 | in every run the accepted set is causally closed, useful and inspectable, so a closure is accepted exactly when its direct roots are |
| CommunityTheorems.CausalityAcyclic | src/boule/community.py:942-954 | no handoff depends on itself through any chain |
| CommunityTheorems.HandoffsMatchCommitments | src/boule/community.py:886-968 | handoffs and opened commitments correspond one to one, the commitment coming first, and a claim is completed exactly when one handoff cites it |
| CommunityAuthority.HandoffsAttributed | src/boule/community.py:583-598 | a handoff, its commitment and its claim belong to one participant and one session, under a key no frozen actor or other session holds |
| CommunityAuthority.RunActs | src/boule/community.py:698-740 | in every run sessions and their keys name each other, and every act belongs to its session's participant |
| CommunityEntitlement.EveryEntryEntitled | src/boule/community.py:660-1357 | every entry of an accepted transcript was signed by the clerk, verifier, controller or reviewer entitled to it, or by a delegated session with the scope, before its end |
| CommunityEntitlement.RevokedNeverActs | src/boule/community.py:742-767 | a session never acts after the entry that revokes it |
| CommunityProvenance.PathDescends | src/boule/community.py:942-954 | every proper causal path leads to an earlier ledger entry |
| CommunityAttribution.AccountedKept | src/boule/community.py:1107-1149 | every event keeps each result's accounting of what its proposer had received when proposing it |
| CommunityTheorems.SealStability | src/boule/community.py:633-658 | from the seal on, recomputing the evidence root gives the stored one, attribution stays the exact closure with every earlier access answered for, and the sealed transcript holds the verifier's own entry that passed the sealed result's artifact |
| CommunityReview.BallotsKept | src/boule/community.py:1249-1268 | every event keeps revealed ballots valid and bound to their reviewers' commitments |
| CommunityTheorems.AllocationFixedByCommits | src/boule/community.py:1215-1280 | two continuations from the same closed commits record the same allocation |
| CommunityTheorems.ReviewFinishes | src/boule/community.py:1270-1280 | a fully revealed review accepts some next ledger entry exactly while quorum or dispersion stands against an allocation or some median is positive |
| CommunityTheorems.ReviewAlwaysFinishes | src/boule/community.py:1270-1280 | under a policy with n * D at most 20000 every fully revealed review accepts some next ledger entry |
| CommunityTheorems.EarlyFinalization | src/boule/community.py:1270-1280 | before the close, finalization is accepted exactly while no one has committed, and is inconclusive |
| CommunityTheorems.PayoutConserved | src/boule/community.py:1282-1356 | confirmed legs were submitted, are positive, and never exceed the bounty; a paid case has paid exactly the positive legs and the bounty |
| CommunityProgress.ReviewReachable | src/boule/community.py:666-1213 | every valid manifest, under any clerk with a free key, has a transcript from the opening to the sealed review in which every participant's handoff is part of the result |
| CommunityVoting.AnyPanelVotes | src/boule/community.py:1215-1268 | any valid ballots of a quorum of reviewers can be committed, closed and revealed from an open review |
| CommunityPayment.AllocationCanBePaid | src/boule/community.py:1282-1356 | from every allocated or paying state of every transcript some continuation reaches mock_paid |
| CommunityDeadlock.ReviewCanDeadlock | src/boule/community.py:1215-1280 | an open review with enough sealed contributors can be voted, by any number of reviewers that makes the quorum, into a fully revealed state that no entry follows |
| CommunityDeadlock.ManifestCanDeadlock | src/boule/community.py:666-1280 | under enough participants for k decided ballots some fully revealed transcript from the opening gets stuck for ever |
| CommunityDeadlock.StuckWithExactly | src/boule/community.py:1270-1457 | for every odd k, some fully revealed transcript with k decided ballots gets stuck for ever if and only if k makes the quorum within the roster and k * ceil(10000 / D) <= ((k - 1) / 2) * n |
| CommunityDeadlock.StuckExactly | src/boule/community.py:1270-1457 | where an odd roster must be unanimous, some fully revealed transcript gets stuck for ever if and only if places suffice for a ballot of each; with three reviewers, when n >= 3 * ceil(10000 / D) |
| CommunityDeadlock.TrioGetsStuck | src/boule/community.py:1270-1457 | a concrete manifest of three participants and three reviewers under which a fully revealed review gets stuck |
| CommunityOutcome.ClosedReviewConcludes | src/boule/community.py:1215-1280 | from closed commits some continuation is allocated or inconclusive if and only if every missing ballot opens to a valid ballot of its reviewer and all ballots together leave something to share; otherwise every continuation stays in review |
| CommunityOutcome.ClosedFinalExactly | src/boule/community.py:1215-1280 | a transcript with closed commits admits no further entry if and only if all ballots are revealed with nothing to share, or some are missing and none of theirs opens |
| CommunityOutcome.UnopenableNeverConcludes | src/boule/community.py:1215-1280 | once a commitment opens to no valid ballot of its reviewer, commits open or closed, every continuation stays in review |
| CommunityOutcome.OneReviewerBlocks | src/boule/community.py:1215-1280 | while commits are open, any frozen reviewer that has not committed can append one commitment after which no continuation ends the review |
| CommunityOutcome.ReviewCanBlock | src/boule/community.py:1215-1280 | whatever valid ballots the others cast and reveal, one more commitment that opens to nothing leaves a transcript that no entry follows |
| CommunityOutcome.ManifestCanBlock | src/boule/community.py:666-1280 | every valid manifest has a transcript from the opening that no entry follows, with every reviewer committed and all but one revealed |
| CommunityRuns.ReplayPrefix | src/boule/community.py:1679-1684 | every non-empty prefix of a replayable transcript is replayable, chain and all |
| CommunityRuns.RunPrefix | src/boule/community.py:1679-1684 | every prefix of an accepted transcript is accepted |
| CommunityRuns.CommitsForever | src/boule/community.py:1233-1247 | closed commits never change |
| CommunityRuns.RunLeases | src/boule/community.py:822-845 | the lease rule holds after every entry of a ledger with monotone times |
| RegistryReplay.Replay | src/boule/registry.py:476-709 | the loop over records and binding maps computes the fold of the registry steps |
| RegistryReplay.IdentitiesStayApart | src/boule/registry.py:476-709 | no commitment, repository or node, current or before a migration, belongs to two cases, and retries stay within the bound |
| RegistryReplay.LogGrowthProgresses | src/boule/registry.py:595-682 | as the log grows a case keeps its commitment and marker, migrates at most once, and its event count and retries never fall |
| RegistryReplay.LargerBound | src/boule/registry.py:696-707 | a log accepted under one retry bound replays identically under a larger one |
| RegistryLaw.ReplayLaw | src/boule/registry.py:476-709 | a log replays exactly when each event is lawful after the entries before it, where lawful reads only those entries; the records then hold what the events said, with their counters, anchors and times |
| RegistryLaw.StepLaw | src/boule/registry.py:476-709 | after any replayed log a transition accepts exactly the lawful events |
| RegistryLog.VerifyLog | src/boule/registry.py:711-749 | the loop accepts exactly the signed chains that replay |
| RegistryLog.SignedChainInTurn | src/boule/registry.py:711-749 | a log is a signed chain exactly when each entry passes a check against only the one before it and the founding key |
| RegistryLog.ExtensionKeepsPrefix | src/boule/registry.py:453-460 | between signed chains, comparing one hash decides equality of every observed body |
| RegistryLog.Registry.Refresh | src/boule/registry.py:444-451 | an instance adopts the file exactly when it verifies and extends what was observed, and never loses an observed entry |
| RegistryLog.Registry.Append | src/boule/registry.py:751-797 | one locked append: it reports success exactly when the latest log is adopted, nothing was recorded before, any expected head is the head, time is not behind, the records accept the event and the write is confirmed; the file changes only on the expected head |
| RegistryLog.AppendExactly | src/boule/registry.py:751-797 | the exact conditions for an append to write, to report success, and to report a repeat, over the verified log, the observed prefix, the clerk, the head, the time and the disk; anything else changes nothing on disk |
| RegistryLog.Registry.WriteNext | src/boule/registry.py:779-797 | the entry is kept exactly when it verifies and the write is confirmed, and taken back otherwise |
| RegistryWorld.SharingIsSafe | src/boule/registry.py:751-797 | under any interleaving of instances the file always verifies, only grows, and every instance holds a prefix of it |
| RegistryWorld.ExpectedHeadHonoured | src/boule/registry.py:770-771 | in any interleaving, even with outsiders, an append that names a head changes the file only if that was the head just before it |
| RegistryWorld.OneWritePerHead | src/boule/registry.py:770-797 | of all appends that name one head, whoever makes them, at most one ever changes the file |
| RegistryWorld.ObservedNeverRewritten | src/boule/registry.py:444-460 | even if outsiders replace the file at will, no instance accepts a log that rewrites what it observed |
| RegistryWorld.MigrateRepository | src/boule/registry.py:864-989 | a migration is planned from the observed records and appended as MigrateEffect says, which MoveExactly fixes from the logs; the file changes only on the expected head |
| RegistryWorld.MoveExactly | src/boule/registry.py:864-989 | a request to move appends exactly when the observed case can move and never did, the latest log is adopted, ends on the expected head in time and may lawfully be followed by that move, and the write is confirmed; the move names the marker and repository of the case's own provisioning entry |
| RegistryWorld.RepeatedMoveIsIdle | src/boule/registry.py:886-989 | once a log records a move, the same request on any later log never writes, and succeeds exactly when the instance can plan it, which for one that saw the move means a valid and current case anchor |
| RegistryWorld.AppendedMoveIsRecorded | src/boule/registry.py:864-989 | a request that appends leaves a log that records its move |
| RegistryTrust.VerifyProof | src/boule/registry.py:258-316 | following the links accepts exactly the contiguous, signed proofs of the asked range, telling a wrong range apart |
| RegistryTrust.ProvenExactly | src/boule/registry.py:258-316 | a proof is accepted exactly when the key signed this range and each receipt in it is signed and follows the one before, from the known head to the stated one |
| RegistryTrust.HonestProofProven | src/boule/registry.py:1089-1127 | a proof built from a signed chain is accepted for its own range and ends on the chain |
| RegistryTrust.ProvenIsOnLog | src/boule/registry.py:258-316 | an accepted non-empty proof starts and ends on the log its receipts were signed for |
| RegistryTrust.TrustStore.Read | src/boule/trust_store.py:206-213 | the stored anchor of an origin, or a failure when the store holds too many |
| RegistryTrust.TrustStore.Trust | src/boule/trust_store.py:216-265 | the verdict on a snapshot and its proofs, and that only first use and a complete advance change the store |
| RegistryTrust.VerdictMeans | src/boule/trust_store.py:216-265 | the exact condition for each verdict, from the stored anchor, the snapshot and its proofs, and that only a trusting verdict records the snapshot |
| RegistryTrust.AnchorsNeverRollBack | src/boule/trust_store.py:229-265 | whatever is presented, an anchor keeps its key, never moves back, and never changes head at one count |
| RegistryTrust.AdvancesStayOnLog | src/boule/trust_store.py:247-265 | if a key signs receipts for one log only, an anchor moves only between two positions of that log |
| RegistryTrust.ReachedAnchorCarriesOldOne | src/boule/trust_store.py:247-265 | any chain that carries the reached anchor carries the one it started from |
| RegistryTrust.OverfullIsUnreadable | src/boule/trust_store.py:175-179 | a store over its limit judges every valid call unreadable and never changes again |
| RegistryTrust.FullStoreLocksUp | src/boule/trust_store.py:216-265 | one call makes a usable store unusable exactly when it is full and a valid call names a new origin, and every later call then fails |
| RegistryTrust.StoreUsableExactly | src/boule/trust_store.py:216-265 | over any calls, the store stays usable exactly when its origins and those that valid calls name are together within the limit |
| RegistryFetch.FetchChunks | src/boule/registry_client.py:88-100 | the loop fetches one proof for each chunk of 256 up to the snapshot, or fails |
| RegistryFetch.FetchIndex | src/boule/registry_client.py:59-125 | two attempts at most, the second only after a wrong range, with other clients acting in between; a pinned snapshot is accepted exactly when the pinned key signed it within the limit, without touching the store, and nothing unsigned is ever trusted |
| RegistryFetch.FetchMeans | src/boule/registry_client.py:59-125 | what each ending says: a pin means that very key's signature and an untouched store, an unsigned snapshot fails, and a trusting verdict leaves the snapshot as the anchor |
| RegistryFetch.HonestChunksReach | src/boule/registry_client.py:88-100 | chunks of an honest log of any length lead from an anchor to a snapshot |
| RegistryFetch.AttemptDecided | src/boule/registry_client.py:80-116 | one attempt on an honest log succeeds, or meets a wrong range, exactly by where rivals moved the anchor |
| RegistryFetch.FetchDecided | src/boule/registry_client.py:80-116 | the exact condition for the whole fetch to succeed under honest rivals, and the anchor it leaves |
| RegistryFetch.FirstUseRaceFails | src/boule/registry_client.py:80-116 | of two clients that both find no anchor, the one whose call lands second fails without a retry, as incomplete or rolled back |
| RegistryFetch.TwoClientsFailEachOther | src/boule/registry_client.py:80-116 | a concrete signed log of two entries on which two honest clients fail each other |
| RegistryFetch.AloneAlwaysAdvances | src/boule/registry_client.py:80-116 | alone, a client on an honest log of up to a million entries always advances to the snapshot |
| CaseProofs.BuildProof | src/boule/remote_protocol.py:376-421 | a proof is built exactly for few events that each follow the one before, and states and signs exactly those |
| CaseProofs.VerifyProof | src/boule/remote_protocol.py:424-477 | a proof is accepted exactly when the clerk signed this range for this problem, each link follows the one before from the known head, and the last is the stated head |
| CaseProofs.ServedIsAccepted | src/boule/remote_protocol.py:376-477 | what a clerk builds from its log a reader accepts, for exactly that range and its heads |
| CaseAnchors.CaseAnchorStore.AnchorFor | src/boule/case_anchor_store.py:225-246 | the persisted anchor, or the registry's when that is ahead; a changed identity or a fork is refused |
| CaseAnchors.CaseAnchorStore.Advance | src/boule/case_anchor_store.py:248-271 | a verified anchor is persisted unless it rolls back, forks or changes identity, which changes nothing |
| CaseAnchors.AdvanceThenRead | src/boule/case_anchor_store.py:225-271 | what an advance persists is what the next read returns |
| CaseAnchors.MarksForward | src/boule/registry_api.py:669-681 | under any interleaving of the two writes of every worker, other processes and restarts, no persisted anchor moves back or forks, and memory never runs ahead of the store |
| CaseAnchors.RefreshStartsAtPersisted | src/boule/registry_api.py:554-588 | in every reachable state, even if the store has moved on since the memory was copied, a refresh meets no conflict and starts each fetch at the persisted anchor |
| CaseFetch.LiveProjector.Checkpoint | src/boule/registry_api.py:669-681 | persist first, then, after whatever happens between the two locks, remember if it is news |
| CaseFetch.LiveProjector.FetchCaseState | src/boule/registry_api.py:151-222 | a snapshot is followed only if the case's clerk signed it, in time and not behind the anchor; the proof loop, with checkpoints and rivals, then succeeds exactly when the chunks reach its head |
| CaseFetch.PullChains | src/boule/registry_api.py:199-222 | the checkpoints are a strictly increasing chain of full chunks, each proven from the one before, and end at the snapshot when the fetch completes |
| CaseFetch.PullForward | src/boule/registry_api.py:199-222 | a fetch never moves a persisted anchor back, completed or not |
| CaseFetch.PullPersists | src/boule/registry_api.py:199-222 | every checkpoint a fetch makes, completed or not, is in the durable store when it ends, or a later one of the same case is |
| CaseFetch.CheckpointsOnLog | src/boule/registry_api.py:199-222 | if the clerk signs only what it builds from one log, the start and every checkpoint lie on it |
| CaseFetch.HonestFetchDecided | src/boule/registry_api.py:199-222 | with an honest clerk and rivals that persist only positions of its log, a fetch completes exactly when no rival takes the case past a chunk's target before that chunk is persisted |
| CaseFetch.HonestFetchCompletes | src/boule/registry_api.py:199-222 | with an honest clerk and no rivals a fetch completes from any trusted position |
| FetchSlots.PermitsConserved | src/boule/registry_api.py:548-695 | in every interleaving, free permits plus held ones plus tasks that still hold one make up the worker limit |
| FetchSlots.AllPermitsReturn | src/boule/registry_api.py:665-695 | when every fetch is over, all permits are free |
| FetchSlots.ReleasedForGood | src/boule/registry_api.py:665-695 | a task that released its permit never holds one again, so each is released once |
| FetchSlots.PermitComesBack | src/boule/registry_api.py:595-695 | the permit taken for a fetch comes back whether it runs, is cancelled before or after its callback is attached, or is never accepted |
| LiveRefresh.Projector.SubmitOne | src/boule/registry_api.py:595-614 | acquiring, submitting and attaching the callback conserve permits whatever happens in between |
| LiveRefresh.Projector.FillSlots | src/boule/registry_api.py:595-616 | the next records are submitted in order while permits last |
| LiveRefresh.Projector.Refresh | src/boule/registry_api.py:548-663 | a refresh terminates, conserves permits, and gives every record exactly one entry in registry order: live exactly when its own fetch was collected in success and projects, timed out only while that fetch had not ended, unsubmitted only for want of permits or time |
| ReviewPanel.SelectReviewers | src/boule/moderation.py:16-62 | scoring, sorting and seating one reviewer for each controller computes the selected panel |
| ReviewPanel.SelectedIsFair | src/boule/moderation.py:16-62 | the selected panel is the one in which each seat goes to the first eligible reviewer drawn, by digest and then key, among controllers without a seat; there is none exactly when none is selected |
| ReviewPanel.PanelIndependent | src/boule/moderation.py:16-62 | the panel is full, eligible, on distinct controllers, least of each controller and together the least, and missing exactly when too few controllers are eligible |
| ReviewPanel.PanelUnique | src/boule/moderation.py:49-62 | a pool with distinct keys has only one such panel |
| ReviewPanel.PanelOrderFree | src/boule/moderation.py:16-62 | the order of the roster is irrelevant |
| ReviewDecision.BallotShare | src/boule/moderation.py:71-83 | the share is the first agent by name's weighted points, as the nearest basis points of all points, or none when nothing is decided or scored |
| ReviewDecision.AgentsByName | src/boule/moderation.py:71-83 | the first and the second agent are the case's two agents in the order of their names |
| ReviewDecision.ScoresMoveShare | src/boule/moderation.py:71-83 | raising the first agent's scores on any criteria, or lowering the second's, never lowers the first agent's share |
| ReviewDecision.PreferredGetsHalf | src/boule/moderation.py:94-156 | an agent that no decided ballot scores below the other on any criterion gets at least half of a decided outcome |
| ReviewDecision.RoundedNearest | src/boule/moderation.py:81-83 | the share is the nearest basis point, halves going up, and within the whole |
| ReviewDecision.ShareMonotone | src/boule/moderation.py:71-83 | scoring an agent higher never lowers its share |
| ReviewDecision.SplitBounds | src/boule/moderation.py:139-144 | the split stays between the floor and the whole less the floor, meets both ends, and is monotone in the median |
| ReviewDecision.SplitNearest | src/boule/moderation.py:139-144 | the split is the nearest basis point to the exact one |
| ReviewDecision.AggregateBallots | src/boule/moderation.py:94-156 | the validated shares, their median and spread give the decision, or the first reason against it |
| ReviewDecision.OutcomeMeans | src/boule/moderation.py:94-156 | what an outcome counts, and that it stands without a decision exactly for too few ballots, too few that decide, or two shares too far apart, in that order |
| ReviewDecision.OutcomeFigures | src/boule/moderation.py:94-156 | the median, dispersion and confidence over the shares, and a decided split at the median that makes up the whole |
| ReviewDecision.DecidedSplit | src/boule/moderation.py:94-156 | a decided outcome sums to the whole, leaves each agent the floor, and follows a strict majority of shares |
| ReviewDecision.OutcomeOrderFree | src/boule/moderation.py:94-156 | the order of ballots is irrelevant |
| ReviewSession.ProtocolState.Apply | src/boule/protocol.py:79-279 | applying an entry in place accepts exactly what the step function accepts; a refused entry changes nothing |
| ReviewSession.ReplayLedger | src/boule/protocol.py:459-464 | replay verifies the chain and folds it, failing exactly when either does |
| ReviewSession.ProtocolSession.Open | src/boule/protocol.py:316-326 | a session opens exactly when its genesis entry is accepted |
| ReviewSession.ProtocolSession.Append | src/boule/protocol.py:328-343 | an append succeeds exactly when its time is not behind and the entry is lawful after the ledger as it stands; the ledger stays verified, the state holds exactly what its entries said, and a failure changes neither |
| ReviewLaw.ReplayLaw | src/boule/protocol.py:79-279 | a ledger replays exactly when its chain verifies and every entry is lawful after those before it, where lawful reads only those entries; the state then holds what they said |
| ReviewLaw.StepLaw | src/boule/protocol.py:79-279 | after any accepted transcript the step function accepts exactly the lawful entries |
| ReviewRuns.RunOk | src/boule/protocol.py:79-279 | every run keeps the case valid, the seal current, commitments complete before reveals, ballots bound, the panel selected and the decision aggregated |
| ReviewTheorems.RevealsAgree | src/boule/protocol.py:194-257 | a committed reviewer who reveals in two continuations reveals the same ballot |
| ReviewTheorems.DecisionsAgree | src/boule/protocol.py:237-277 | once commits are closed the decision depends only on who reveals |
| ReviewTheorems.SealedRootStable | src/boule/protocol.py:62-77 | after sealing, recomputing the evidence root always gives the sealed one |
| ReviewTheorems.RunDependencies | src/boule/protocol.py:104-122 | a contribution's dependencies were on record before it, in every run |
| ReviewTheorems.RunPanel | src/boule/protocol.py:173-192 | in every run the panel is full, eligible, on distinct controllers, and independent of both agents |
| ReviewTheorems.ReviewAlwaysDecides | src/boule/protocol.py:259-277 | once commits are closed, exactly one decision is acceptable, and it is whenever the rules allow one |
| ReviewOutcome.ClosedReviewDecides | src/boule/protocol.py:218-277 | every transcript with closed commits has a next ledger entry, received at the revealing deadline, that decides it |
| ReviewOutcome.DecidableExactly | src/boule/protocol.py:194-277 | a running review can be decided by entries received from now on if and only if now is within the commit deadline while commits are open, or within the appeal deadline once they are closed |
| ReviewOutcome.SilenceEndsTheCase | src/boule/protocol.py:194-277 | in every continuation in which a panel member has not committed nothing is closed or decided, and past the commit deadline nothing more is accepted |
| ReviewTheorems.RunDecision | src/boule/protocol.py:259-277 | a recorded decision met its quorum, sums to the whole, leaves each agent the floor, and follows a majority |
| ReviewAuthority.EveryEntryEntitled | src/boule/protocol.py:79-279 | every entry of a run was signed by the party entitled to it and arrived by its deadline |
| RemoteClerk.HandleAdds | src/boule/workspace.py:507-586 | a request adds at most one event, which carries its envelope and extends the head it names; a known request gets its stored receipt |
| RemoteClerk.AnswerMeans | src/boule/workspace.py:507-586 | a known request is answered from the log, with its receipt only for the very envelope; a new one is stale unless it names the head, and is otherwise ordered next exactly when the policy allows it |
| RemoteClerk.TimesNeverBack | src/boule/workspace.py:507-586 | whatever requests arrive, receipt times never run backwards |
| RemoteClerk.PastIsNotHead | src/boule/workspace.py:546-548 | a head that lies behind is never the head again, so a stale envelope is dead |
| RemoteClerk.HonestReplyVerifies | src/boule/remote_protocol.py:248-297 | an honest reply always passes the client's receipt checks |
| RemoteClerk.ReceiptMeans | src/boule/remote_protocol.py:248-297 | a receipt passes the client's checks exactly when the clerk signed it over this envelope, its place in the log and its hash |
| RemoteAppend.MeanwhileAccounted | src/boule/remote_client.py:426-473 | while others act and delayed copies arrive, every envelope stays accounted for and dead ones stay dead |
| RemoteAppend.PostAccounted | src/boule/remote_client.py:290-310 | posting an outbox record keeps the accounts, and each kind of answer decides as much as it says |
| RemoteAppend.RecordAgrees | src/boule/remote_client.py:363-381 | a completed record already there agrees with the recovered receipt |
| RemoteAppend.AtMostOneEverOrdered | src/boule/remote_client.py:426-473 | at most one envelope of a call is ever ordered, whatever is still in flight |
| RemoteClient.RemoteClient.Finalize | src/boule/remote_client.py:336-386 | the completed record is written once and must agree, and only then is the outbox cleared |
| RemoteClient.RemoteClient.Recover | src/boule/remote_client.py:403-424 | recovery returns only with the envelope ordered and on record and keeps the outbox otherwise; it is in doubt only after a lost request or write, refused only when turned down, and settles whenever it is answered |
| RemoteClient.RemoteClient.Append | src/boule/remote_client.py:426-473 | a return means the last envelope is ordered and on record, doubt leaves exactly it in the outbox, any other ending means none is or will be, and all earlier envelopes are dead; doubt needs a lost request or write, a rejection a refusal, and staleness every retry |
| RunLog.RunStore.AppendEvent | src/boule/run_store.py:271-290 | the line is numbered and written, then the status, with a crash at any point |
| RunLog.RunStore.EventsSince | src/boule/run_store.py:292-317 | the events among the complete lines after an offset, in order, and the offset after the last newline; an error exactly for an offset outside the file or a piece that does not parse |
| RunLog.SplitMeans | src/boule/run_store.py:292-317 | cutting at newlines loses nothing: pieces hold none and rejoin to the bytes |
| RunLog.SubLinesMean | src/boule/run_store.py:309-317 | a line is cut at carriage returns, of which only a last one may be part of its end |
| RunLog.ParseMeans | src/boule/run_store.py:309-317 | a read fails exactly on an unparsable piece, and otherwise gives every event among the pieces in order, skipping other values |
| RunLog.FollowingLosesNothing | src/boule/run_store.py:271-317 | however writes and reads interleave, the results are exactly the complete records up to a record boundary |
| RunLog.ReadCatchesUp | src/boule/run_store.py:292-317 | a successful read leaves no complete record behind |
| RunLog.BadLineBlocks | src/boule/run_store.py:309-317 | an unparsable complete line stops the reader for good |
| RunLog.AppendsReadBackExactly | src/boule/run_store.py:271-317 | after any appends with crashes, the file reads back exactly when no append landed whole after a torn one, and then with numbers from one exactly when none landed whole after a lost status |
| RunLog.TornThenAppendBlocks | src/boule/run_store.py:271-317 | a torn append and the next whole one make every reader at or before that line fail |
| RunLog.LostStatusRepeatsNumber | src/boule/run_store.py:271-290 | two appends around a lost status leave two events with one number |
| RunLog.AppendsReadBack | src/boule/run_store.py:271-317 | completed appends read back in order, numbered from one |
| RunLogCodec.SampleCodecIsStrict | src/boule/run_store.py:271-317 | a codec exists that meets the hypotheses of these results |

## Left out

- CommunityDeadlock.StuckWithExactly: for an even number of decided ballots it states no threshold, because a median
  of two middle shares is also zero for shares of 0 and 1; `ManifestCanDeadlock` covers even numbers in one direction.
- Ed25519 (RFC 8032), SHA-256 (FIPS 180-4), canonical JSON and base64: ideal signatures and injective digests stand
  in.
- Text shapes, lengths and formats of identifiers, keys, URLs, digests and timestamps; exact field sets of payloads.
- Error messages, except where the code itself tells errors apart.
- Leg identifiers and mock references are datatypes for their printed forms; a missing reference is a payload that has
  none.
- Frontier, ballot and result notes that no check reads.
- Summaries, join briefs, and the session methods that only prepare a payload for `append`.
- File modes, symbolic links, locks and fsync: a locked read-modify-replace is one step, with its failures as
  outcomes.
- Byte-size limits of stores and responses.
- HTTP, URL handling, redirects and clocks: requests are answered by parameters, and a late answer is a lost one.
- The client's cached state snapshot in remote append, and replies that fail verification: the clerk is honest.
- The workspace's authorization of events is an arbitrary policy of the clerk.
- Concurrent recoveries of one outbox record from other processes; the agreement of their records is proved.
- Projection of case state into activity lists, and the projection cache's expiry.
- Git subprocesses, provisioning, the agent runner, terminal and web interfaces, importers and demos.
- RemoteClient.RemoteClient.Recover: a stale answer leaves the dead record in the outbox, as the code does, so a later
  recovery reports it stale again.
- Which fetches finish before a refresh's deadline: a schedule decides. What is shown of one that did is exact.
