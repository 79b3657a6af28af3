# Verified model of the swarm, the meaning compiler and the repair statistics

This project models the decision-making core of the repository and proves what it promises: how correlated evidence is
grouped so that it votes once, how artifacts and budgets are kept in an append-only store, how predictions are scored, how
the paper portfolio keeps its books, how an insight document becomes a canonical spec, how repairs are counted and compared,
and how replies of the app server find their requests. `dafny verify dfyconfig.toml` checks all of it.

Code that changes state is modelled by classes and loops (the union-find, the portfolio, the store, the two clients of
the store, the request table, the section scanner, the tallies), each proved against a function or a declarative
predicate. Code made of expressions is modelled by functions. The laws are lemmas about those functions, for every input,
every run or every interleaving. What a choice, a price, a table or a payment comes to is stated once more in the raw fields
of the records and in literal numbers and texts, so that no definition is taken at its word.

| group | modules |
|---|---|
| evidence clusters, voting, selection | `DisjointSets`, `Provenance`, `Clusters`, `EvidenceChains`, `Votes`, `Herding`, `Selection` |
| append-only store and its clients | `Store`, `StoreLaws`, `Lineage`, `Ledger`, `Evaluation`, `EvaluationLaws`, `Settlements`, `DueListing`, `Exceptions`, `Blockade`, `Interleaving`, `Orchestration`, `OrchestrationLaws`, `RoundAccounts`, `RoundOrder`, `RoundIndependence`, `RoundExamples`, `Clients` |
| paper trading | `Paper`, `PaperLaws`, `PaperFills` |
| canonical JSON and the meaning compiler | `CanonicalJson`, `CanonicalSpec`, `MeaningText`, `MeaningDocument`, `MeaningSpec`, `MeaningCompiler`, `MeaningLaws`, `MeaningTables`, `MeaningOutcomes`, `MeaningSections` |
| statistics | `Binomial`, `Fisher`, `Wilson`, `Transitions`, `Baselines`, `BaselineLaws`, `BaselineChoices`, `Comparison` |
| request and response correlation | `Rpc` |
| shared | `Schema`, `Ordering`, `Lists`, `Reachability`, `Reals` |

## Where the code does not do what one would expect

Each of these is stated by a lemma, with the exact condition under which the expected property does hold.

- `canonicalize` is not idempotent: an array that holds undefined elements beside strings out of order is sorted only by a
  second pass (`CanonicalizeIdempotentIffSettled`, `UndefinedElementsDelaySorting`). `buildCanonicalSpec` is a fixpoint of
  itself all the same, because its first step removes undefined values (`BuildIsFixpoint`).
- A data field named `__proto__` passes validation, is missing from `data_model` and from the properties of `data_schema`,
  and is still required by it (`OutcomeRequiresListedIff`, `PrototypeFieldIsRequiredNotListed`).
- The limit of ten preferences and the second look at the data model can never refuse anything (`FineEntriesAreFew`,
  `HardeningNeverFires`).
- A settlement that passes the checks of the evaluation record but not those of the outcome artifact, such as one with a
  blank source reference, is recorded and never reported or paid for, and its prediction is never due again
  (`ScoringCompletesIff`, `BlankSourceLosesOutcome`, `ScoredIsNeverDueAgain`).
- An exception ends the whole evaluation run. A run with fresh identifiers raises exactly when a prediction among the first
  10000 has a source reference that does not parse as a URL, or when one of them that awaits evaluation is unfit: its
  observation is invalid, or, inside the settlement window, its metadata, its record or its outcome fails a check, or,
  outside the window, the report of the anomaly fails one, as for a blank source reference (`EvaluationAbortsIff`,
  `SettlementAbortsIffUnfit`, `BlankAnomalyIsStuck`). What is evaluated by then is exact too (`RunEvaluatesUpToFirstUnfit`).
  - A prediction that is unfit before anything is written, for any of these reasons but the outcome, stays due and keeps all
    predictions behind it in the listing from ever being evaluated (`StuckBlocksTheRest`, `RefusedIffStuck`,
    `UnreadableBlocksTheNext`); one whose outcome alone fails ends one run (`UnfitRaisesOnceUnlessStuck`).
  - A reference such as "http://[" passes validation and stops every run before the first settlement, whether or not its
    prediction is due (`UnparsableStopsEveryRun`, `BadReferenceStopsAll`).
- What a round leaves depends on the order in which its workers complete: an output that refers to another output of the
  round fails if it comes first (`ReferencesMatter`), and a failure takes less from a worker whose reward comes later
  (`PovertyMatters`). It does not, to aborts, failures and budgets, exactly when the outputs are independent and whoever
  fails has one unit to lose or nothing to earn; both can be told before the round (`OrderIsIrrelevantIff`).
- A fill labelled BUY can sell, and with a negative slippage, which passes the limit, one labelled SELL can buy: the side is
  that of the target before slippage (`SideMatchesQuantityIffOutsideBand`, `BuyThatSells`, `SellThatBuys`).
- A request whose message cannot be written stays in the table of pending requests (`LeftPendingIffNeverSent`,
  `UnsentCallStaysPending`). A reply whose identifier is `true` answers request 1, although section 5 of the JSON-RPC 2.0
  Specification asks for the same value; every other reply that reaches a call carries its number
  (`IdentifierMatchesIffNotBoolean`, `TrueAnswersTheFirstCall`). And some lines of the server raise in the reader and end it:
  lines that do not decode, bare numbers, booleans and nulls, strings and arrays that look like a reply, and, as long as some
  call is pending, identifiers that are lists or objects (`ReaderDiesIffLineRaises`, `ContainerPassesAnEmptyTable`,
  `RaisingLineStrandsTheCall`).
- `due_predictions` looks at the first 10000 predictions only, evaluated or not, so a prediction behind them is never due
  (`DueIffPendingAndRanked`, `BehindTheLimitNeverDue`, `CrowdedOut`).
- When the data model overrides the task, the spec keeps the feature intents of the task that it replaces
  (`SpecReflectsMeaning`).


## Model

| member | source | states |
|---|---|---|
| `DisjointSets.UnionFind.constructor` | factory/swarm/anti_herding.py:32-33 | every identifier starts as its own class; nothing is united |
| `DisjointSets.UnionFind.Find` | factory/swarm/anti_herding.py:35-43 | returns the least identifier of the equivalence closure class of its argument, keeps every class, and points the argument straight at it; both loops end |
| `DisjointSets.UnionFind.Union` | factory/swarm/anti_herding.py:45-49 | the recorded pairs grow by exactly this one, and every class is the equivalence closure class of the pairs united so far |
| `DisjointSets.CompressionKeepsRoots` | factory/swarm/anti_herding.py:39-42 | redirecting nodes to their root, as path compression does, changes no root |
| `DisjointSets.MergingLabelsExtendsClosure` | factory/swarm/anti_herding.py:45-49 | replacing the larger root by the smaller everywhere is the same as adding the pair to the equivalence closure |
| `Provenance.WalkIsExplored` | factory/swarm/anti_herding.py:52-68 | a walk through lineage that avoids the identifiers guarded on the current path is explored to its end |
| `Provenance.GuardedEntryIsIrrelevant` | factory/swarm/anti_herding.py:52-68 | what the environment stores under an identifier that is guarded never influences the result |
| `Provenance.GuardLosesNothing` | factory/swarm/anti_herding.py:52-68 | where normalization never raises, the recursion returns exactly the reachable sources in spite of its guard |
| `Provenance.RootSourcesAreReachableSources` | factory/swarm/anti_herding.py:15-68 | for every lineage graph, cyclic or with dangling parents, the recursion ends; it raises if and only if some artifact reachable through parents and derivations has a reference that does not parse, and otherwise returns exactly the sources of the reachable ones |
| `Clusters.CollectSources` | factory/swarm/anti_herding.py:71-75 | the dictionary of root sources is completed if and only if every reference of every input parses, and then holds the root sources of each artifact |
| `Clusters.UniteWithOwners` | factory/swarm/anti_herding.py:76-80 | uniting an artifact with the first owner of each of its sources records exactly those pairs, in any visiting order |
| `Clusters.UniteByEvidence` | factory/swarm/anti_herding.py:72-80 | after the pass the union-find classes are the closure of sharing a root source |
| `Clusters.GroupByRoot` | factory/swarm/anti_herding.py:81-83 | the identifiers are grouped by root, each exactly once |
| `Clusters.ListClusters` | factory/swarm/anti_herding.py:84-95 | each group becomes the record of its class, listed once |
| `Clusters.ClusterByEvidence` | factory/swarm/anti_herding.py:71-96 | raises if and only if some reference of some input does not parse; otherwise the result lists each class of the declarative relation once, sorted by cluster identifier |
| `Clusters.ClusterIffLinked` | factory/swarm/anti_herding.py:71-96 | two artifacts get the same cluster if and only if a chain of input artifacts links them in which neighbours share a root source |
| `Clusters.SameClusterIsEquivalence` | factory/swarm/anti_herding.py:71-96 | being in one cluster is reflexive, symmetric and transitive, so clusters partition the identifiers |
| `Clusters.DistinctClustersShareNoSource` | factory/swarm/anti_herding.py:71-96 | different clusters rest on disjoint root sources |
| `Clusters.ClustersWithEveryAncestor` | factory/swarm/anti_herding.py:52-96 | an artifact is always in the cluster of each present artifact it descends from, as stored artifacts have sources |
| `Clusters.IndexIgnoresOrder` | factory/swarm/anti_herding.py:71-76 | for distinct identifiers the indexed environment, hence the clustering, does not depend on the input order |
| `Clusters.ClusteringIsUnique` | factory/swarm/anti_herding.py:71-96 | any two results for the same sources contain the same clusters, and are equal when the digests differ |
| `EvidenceChains.RootSourcesIff` | factory/swarm/anti_herding.py:52-68 | the root sources of an artifact are the normalized references cited by it or by an artifact that a line of parents and derivations leads to |
| `EvidenceChains.IndexKeepsLast` | factory/swarm/anti_herding.py:73 | of several artifacts with one identifier the last one counts |
| `EvidenceChains.TogetherIffChained` | factory/swarm/anti_herding.py:71-96 | two artifacts are listed in one cluster if and only if a chain of artifacts, each resting on a source of the next, leads from one to the other |
| `EvidenceChains.RecordsInFields` | factory/swarm/anti_herding.py:83-96 | every artifact is listed; a cluster lists its artifacts and exactly the sources they rest on, both ascending, and is named by the digest of both; clusters come in the order of their names, each once |
| `Votes.CastBallot` | factory/swarm/anti_herding.py:112-123 | a cluster with a prediction adds one vote, for the direction of its strongest prediction, which `RepresentativeDecides` tells in the fields; another cluster adds none |
| `Votes.IndependentClusterVote` | factory/swarm/anti_herding.py:105-124 | unless some reference does not parse, a direction is listed if and only if some cluster is decided for it, with the number of these clusters: those in which a prediction of the direction is more confident than every other prediction, or as confident with the greater identifier; the total is the number of clusters with a prediction |
| `Votes.RepresentativeDecides` | factory/swarm/anti_herding.py:119-122 | the member that the order of the code makes the strongest is the one that decides in this sense |
| `Ordering.LtIsLexicographic` | factory/swarm/anti_herding.py:121-121 | texts compare by their first difference, and a proper prefix is smaller |
| `Votes.TotalCountsPredictingClasses` | factory/swarm/anti_herding.py:105-124 | the total vote equals the number of clusters that contain a prediction |
| `Votes.VotesForOneDirection` | factory/swarm/anti_herding.py:112-123 | a cluster votes for one direction only |
| `Herding.PredictionAddsVoteIffIndependent` | factory/swarm/anti_herding.py:105-124 | a new prediction that nothing references raises the total by one exactly when no cluster it touches votes already, and never otherwise |
| `Herding.CorrelatedPredictionAddsNoVote` | factory/swarm/anti_herding.py:105-124 | a new prediction whose root sources all lie in one cluster that votes already leaves the total unchanged |
| `Herding.VotesWithNewcomer` | factory/swarm/anti_herding.py:105-124 | a newcomer replaces the votes of all clusters it correlates with by a single vote |
| `Herding.ClassesWithNewcomer` | factory/swarm/anti_herding.py:71-96 | after adding an unreferenced artifact the clusters are the untouched ones and one that merges all it touches |
| `Selection.ClusterRepresentatives` | factory/swarm/anti_herding.py:147-161 | one representative for each cluster: the member of the greatest quality, 0.5 where none is given, then of the greatest confidence, then counter-evidence, then of the greatest identifier |
| `Selection.RankIsByFields` | factory/swarm/anti_herding.py:176-182 | the rank compares quality, confidence, being counter-evidence and identifier in this order |
| `Selection.MinorityDissents` | factory/swarm/anti_herding.py:163-174 | the minority is the counter-evidence and the predictions of another direction than the most frequent one, UP before FLAT before DOWN among equally frequent ones |
| `Selection.FairnessByFields` | factory/swarm/anti_herding.py:184-205 | what a fair selection takes in terms of the fields: of minority, majority and rest nothing that is below what is left out, and the reserve is the fraction of the slots rounded up |
| `Selection.SplitByMajority` | factory/swarm/anti_herding.py:163-193 | the representatives split into those with and without the majority direction, each ranked |
| `Selection.Fill` | factory/swarm/anti_herding.py:194-205 | the slots are filled by reserve, majority, rest of the minority, then the best others |
| `Selection.FillSlotsTakesPrefixes` | factory/swarm/anti_herding.py:194-205 | whatever the numbers, the selection is a prefix of each ranked list, of the sizes the reserve and the limit leave |
| `Selection.CrowdedSelectionIsFair` | factory/swarm/anti_herding.py:194-205 | with at least as many clusters as slots every slot goes to a different cluster and the minority keeps its reserve |
| `Selection.SparseSelectionIsFair` | factory/swarm/anti_herding.py:194-205 | with fewer clusters than slots every cluster is represented and the best others fill the rest |
| `Selection.SelectObservations` | factory/swarm/anti_herding.py:127-205 | errors exactly for a bad limit or fraction or, when not all items fit, for a reference that does not parse; all items sorted when they fit; otherwise the slots are filled in order from the ranked minority, the ranked majority and the ranked rest, repeated identifiers or not; for distinct identifiers that is exactly `limit` distinct inputs, every cluster before any duplicate, the minority at its reserve, and the best ranked first in each part, all of it told in the fields of the artifacts by `FairByFields` |
| `Binomial.Vandermonde` | evolution_eval/transition_matrix.py:178-186 | the binomials of two rows convolve to the binomial of the whole, the identity behind the distribution |
| `Binomial.ChooseByFactorials` | evolution_eval/transition_matrix.py:178-181 | the recursive binomial is the quotient of factorials that the log-gamma formula computes |
| `Fisher.FisherExactTwoSided` | evolution_eval/transition_matrix.py:189-204 | the loop returns the sum of the terms not above the observed one plus 1e-15, clamped to the unit interval |
| `Fisher.TermsSumToOne` | evolution_eval/transition_matrix.py:184-204 | the hypergeometric terms over the range of the loop sum to one |
| `Fisher.PValueIsProbability` | evolution_eval/transition_matrix.py:189-204 | for any tolerance of at least zero the p-value lies between the observed probability and one, so the final clamp never acts |
| `Fisher.PValueIgnoresRowOrder` | evolution_eval/transition_matrix.py:189-204 | swapping the rows of the table leaves the p-value unchanged |
| `Fisher.PValueIgnoresColumnOrder` | evolution_eval/transition_matrix.py:189-204 | swapping the columns leaves it unchanged |
| `Fisher.PValueIgnoresTransposition` | evolution_eval/transition_matrix.py:189-204 | transposing the table leaves it unchanged |
| `Fisher.TermByFactorials` | evolution_eval/transition_matrix.py:175-186 | the probability of a table is the product of the factorials of its margins over those of its total and its cells |
| `Wilson.ImplementationsAgree` | evolution_eval/stats_core.py:16-25 | the two implementations return the same interval for every count |
| `Wilson.BoundsBracketProportion` | evolution_eval/transition_matrix.py:31-40 | 0 <= lower <= k/n <= upper <= 1, and neither clamp ever acts |
| `Wilson.IntervalInvertsScoreTest` | evolution_eval/transition_matrix.py:31-40 | the interval is exactly the set of proportions that a score test at the critical value does not reject |
| `Transitions.CountRow` | evolution_eval/transition_matrix.py:79-100 | the increments for one more valid row keep the counters a description of the rows so far |
| `Transitions.BuildMatrix` | evolution_eval/transition_matrix.py:65-106 | refuses exactly the lists with an invalid row, and otherwise the counters describe the rows by status and repair |
| `Transitions.MatrixConservesFlow` | evolution_eval/transition_matrix.py:65-106 | visits of the first state are its successes and failures, visits of the repair state likewise, and repairs that succeed are counted on both paths |
| `Transitions.ComputeProbabilities` | evolution_eval/transition_matrix.py:109-128 | each transition gets its count, its denominator, their quotient and the Wilson bounds |
| `Transitions.BranchesSumToOne` | evolution_eval/transition_matrix.py:109-128 | the probabilities of the outcomes of a visited branching state sum to one |
| `Transitions.CollapsedPathIsProduct` | evolution_eval/transition_matrix.py:109-128 | the probability of the collapsed success path is the product of its steps |
| `Transitions.EstimatesAreBracketed` | evolution_eval/transition_matrix.py:109-128 | every reported interval contains its probability and lies in the unit interval |
| `Transitions.EstimateInvertsScoreTest` | evolution_eval/transition_matrix.py:109-128 | the interval of a transition from a visited state holds exactly the proportions that a score test at 1.959963984540054 does not reject |
| `Transitions.UnvisitedIsZero` | evolution_eval/transition_matrix.py:109-128 | from a state never visited, count, probability and bounds are zero |
| `Paper.PaperTradeEngine.Process` | factory/swarm/paper.py:113-183 | books exactly the decided fill, which `DecidedIffFill` tells in numbers, or reports the reason for refusal and leaves the portfolio as it was |
| `PaperFills.DecidedIffFill` | factory/swarm/paper.py:113-183 | the engine fills if and only if gate, policy and signal permit it, the notional is the scaled share of the equity cut to a millionth, label and price follow from the target before slippage, the quantity leads to the target at the slipped price cut to 1e-8, notional, fee and profit are the product, the fee rate and the gain of what is closed less the fee, and loss limit and cash allow it |
| `PaperFills.BookedInNumbers` | factory/swarm/paper.py:199-225 | booking changes cash, profit and one position by the numbers of the fill, and no other subject |
| `PaperFills.BookedAverage` | factory/swarm/paper.py:205-216 | the average price weighs what is added, is the price after a flip, zero after a close and the old one otherwise |
| `PaperFills.FeesAreProportional` | factory/swarm/paper.py:159-160 | over any run from a fresh portfolio the cash spent beyond the trades is the fee rate on the turnover |
| `Paper.PaperTradeEngine.ApplyPosition` | factory/swarm/paper.py:199-225 | cash, position, average price and daily profit change by the trade, its price and its fee |
| `PaperLaws.TradeKeepsCost` | factory/swarm/paper.py:185-225 | for opens, adds, partial closes, full closes and flips, the position at cost changes by the price paid plus the profit realized |
| `PaperLaws.RunKeepsPrincipal` | factory/swarm/paper.py:113-225 | no sequence of signals changes cash plus positions at cost minus realized profit |
| `PaperLaws.Conservation` | factory/swarm/paper.py:84-225 | on a fresh portfolio cash plus the sum of quantity times average price is initial cash plus daily realized profit, after any signals |
| `PaperLaws.RunIsSafe` | factory/swarm/paper.py:113-183 | in every reachable state cash is not negative, each artifact filled at most once, and from the first fill on realized profit is at least minus the loss limit |
| `PaperLaws.DailyLossIsBounded` | factory/swarm/paper.py:130-165 | daily realized loss never exceeds the loss fraction of initial cash |
| `PaperLaws.LossBreakerIsPermanent` | factory/swarm/paper.py:130-132 | once the loss limit is reached no later signal fills |
| `PaperLaws.FilledPositionIsBounded` | factory/swarm/paper.py:134-156 | after a fill the position costs at most the allowed share of the equity before it and, at a positive price, has the direction of the signal |
| `PaperLaws.SideMatchesQuantityIffOutsideBand` | factory/swarm/paper.py:142-156 | for every filled signal, whatever its slippage, the label is the sign of the quantity if and only if the old position lies outside the slippage band |
| `PaperLaws.ShortSideMatchesUnderAdverseSlippage` | factory/swarm/paper.py:142-156 | for short signals with slippage from zero to below the whole price the label is always the sign of the quantity |
| `PaperLaws.BuyThatSells` | factory/swarm/paper.py:113-183 | two signals on a fresh portfolio, the second of which is filled with the label BUY and a negative quantity |
| `PaperLaws.SellThatBuys` | factory/swarm/paper.py:113-183 | with a negative slippage, which the limit lets pass, a short signal on a fresh portfolio is filled with the label SELL and a positive quantity |
| `PaperLaws.RunReconciles` | factory/swarm/paper.py:160-225 | each position is the sum of the quantities filled in its subject |
| `CanonicalJson.CanonicalizeValue` | factory/utils/canonical_json.js:24-62 | the recursion with its loops over elements and sorted keys computes the canonical form |
| `CanonicalJson.CanonicalizeIdempotentIffSettled` | factory/utils/canonical_json.js:24-62 | canonicalizing twice is canonicalizing once if and only if no array holds undefined elements beside strings out of order |
| `CanonicalJson.UndefinedElementsDelaySorting` | factory/utils/canonical_json.js:33-46 | the array undefined, b, a is canonicalized differently the second time |
| `CanonicalJson.CanonicalizeIsCompleteInvariant` | factory/utils/canonical_json.js:24-62 | on values without undefined two values have one canonical form if and only if they differ by reordering string arrays at any depth |
| `CanonicalJson.CanonicalizeForgetsStringOrder` | factory/utils/canonical_json.js:24-62 | the order inside string arrays never shows in the canonical form, on all values |
| `CanonicalJson.CanonicalIsPlain` | factory/utils/canonical_json.js:24-62 | a canonical value holds nothing undefined at any depth |
| `CanonicalSpec.BuildCanonicalSpec` | factory/parser/parseMeaning.js:115-127 | the steps copy, delete, digest, assign and canonicalize succeed exactly when the fixed form does, and return it |
| `CanonicalSpec.BuildSucceedsIffOriginIsObject` | factory/parser/parseMeaning.js:115-127 | a spec builds if and only if its origin is an object |
| `CanonicalSpec.BuildIsFixpoint` | factory/parser/parseMeaning.js:115-127 | building a built spec changes nothing, on every input |
| `CanonicalSpec.IncomingHashIsIgnored` | factory/parser/parseMeaning.js:119-125 | whatever hash a spec arrives with, even an undefined one, does not matter |
| `CanonicalSpec.StoredHashIsDigestOfRest` | factory/parser/parseMeaning.js:115-127 | the stored hash is the canonical digest of the output with that field deleted |
| `CanonicalSpec.BuildsAgreeIffRestAgrees` | factory/parser/parseMeaning.js:115-127 | two specs build alike if and only if they agree, without their hashes, once settled |
| `CanonicalSpec.PlainBuildsAgreeIffSameButStringOrder` | factory/parser/parseMeaning.js:115-127 | two plain specs build alike if and only if they differ in the hash and the order inside string arrays only |
| `CanonicalSpec.BuiltByNames` | factory/parser/parseMeaning.js:115-127 | a spec builds if and only if its meaning_origin is an object or an array; its hash is then the digest of the built spec without it, and all else is the settled spec; an array gets no hash |
| `MeaningText.CollectSections` | factory/parser/meaning_validator.js:212-258 | the loop over lines computes the section state machine, with its error and line number |
| `MeaningText.ExtractBullets` | factory/parser/meaning_validator.js:275-287 | the items are those of the bullet lines, in order |
| `MeaningText.ParseDataModel` | factory/parser/meaning_validator.js:98-145 | accepts exactly when every line that is not blank is a field of an allowed type, names are distinct, there are at most 20 and at least one if there are lines; returns the fields in order |
| `MeaningText.ParseUiPreference` | factory/parser/meaning_validator.js:152-197 | accepts exactly the allowed keys and values, each key once, and returns them |
| `MeaningText.FineEntriesAreFew` | factory/parser/meaning_validator.js:190-193 | at most four preferences can be accepted, so the limit of ten never acts |
| `MeaningText.ValidateMeaningMarkdown` | factory/parser/meaning_validator.js:207-306 | accepts exactly the documents with both required sections holding bullets and valid optional sections, and returns what they spell out |
| `MeaningSections.AcceptedByTitles` | factory/parser/meaning_validator.js:63-310 | a document is accepted if and only if all headings are known titles, none twice, no section nests a heading, Observations and Recommended Actions have bullets, the Data Model declares at most twenty distinct fields of the five types, and the UI Preference gives distinct keys values of their lists |
| `MeaningSections.TextsByTitles` | factory/parser/meaning_validator.js:63-310 | pattern interpretation, risk level and functional intent are the texts under these titles |
| `MeaningSections.BulletsByTitles` | factory/parser/meaning_validator.js:63-310 | observations and recommended actions are the bullets under these titles |
| `MeaningSections.EntriesByTitles` | factory/parser/meaning_validator.js:63-310 | data model and preferences are the entries under these titles |
| `MeaningSections.TextLineByLine` | factory/parser/meaning_validator.js:63-310 | a text joins the contents of the lines that are not blank by line breaks |
| `MeaningDocument.EveryTextIsADocument` | factory/parser/meaning_validator.js:212-258 | every list of lines is a preamble followed by sections |
| `MeaningDocument.ScanOfDocument` | factory/parser/meaning_validator.js:212-258 | the scan succeeds if and only if headings are known, sections distinct and no other heading is inside one, and then collects the lines of each section |
| `MeaningDocument.RearrangedMeansAlike` | factory/parser/meaning_validator.js:207-306 | reordering sections, or lines of the order-free sections, keeps a document valid and its meaning the same up to the order of bullets and fields |
| `MeaningSpec.ResolveAiTaskIsFirstMatch` | factory/parser/meaning_to_spec_map.js:77-84 | the profile is that of the first rule whose token occurs, and the default when none does |
| `MeaningTables.RulesNameTask` | factory/parser/meaning_to_spec_map.js:30-41 | the ten tokens and the tasks they name, in order |
| `MeaningTables.ProfilesShow` | factory/parser/meaning_to_spec_map.js:16-28 | which interface type each task has |
| `MeaningTables.ProfilesIntend` | factory/parser/meaning_to_spec_map.js:16-28 | which intents each task has |
| `MeaningTables.BlueprintsShip` | factory/parser/spec_to_artifact_map.js:3-77 | which files each task has |
| `MeaningSpec.UiTypeFollowsTask` | factory/parser/parseMeaning.js:260-265 | however the profile was chosen the interface type is the one it names; the two tables agree |
| `MeaningSpec.OverridesAlike` | factory/parser/parseMeaning.js:211-224 | the override depends on the set of field names only |
| `MeaningSpec.DerivedAlike` | factory/parser/parseMeaning.js:260-282 | meanings that differ in the order of bullets and fields derive specs that differ in the incoming hash and the order of fields only |
| `MeaningSpec.AlikeSpecsBuildAlike` | factory/parser/parseMeaning.js:267-284 | such specs build to the same canonical spec, under any collation |
| `MeaningLaws.SpecReflectsMeaning` | factory/parser/meaning_to_spec_map.js:99-150 | the intents in the spec are, in order, exactly those of the task that the functional intent names and those whose token some observation mentions, even when the data model overrides the task; each flag is set if and only if some recommended action mentions its token |
| `MeaningOutcomes.DocumentNamesTask` | factory/parser/parseMeaning.js:209-226 | the task in a compiled document: physiological monitor for a field heart_rate, else sleep monitor for sleep_duration, else habit tracker for a name with habit or streak, else stream processor for event_stream, else the task of the first token in the functional intent |
| `MeaningOutcomes.OutcomeUi` | factory/parser/parseMeaning.js:260-265 | the interface type in a compiled spec is that of its task |
| `MeaningOutcomes.OutcomeTexts` | factory/parser/parseMeaning.js:267-270 | project type and place of origin of a compiled spec |
| `MeaningOutcomes.OutcomeIntents` | factory/parser/meaning_to_spec_map.js:108-130 | the intents in a compiled spec, in order: those of the task that the functional intent names, and those for heart, screen and interrupt in the observations |
| `MeaningOutcomes.OutcomeFiles` | factory/parser/spec_to_artifact_map.js:87-158 | the files in a compiled spec, in order: those of its task, with a dark theme, a panel or a minimal page as preferred, and no other public page for the minimal layout; beside them two fixed lists |
| `MeaningOutcomes.OutcomeFeedback` | factory/parser/meaning_to_spec_map.js:144-146 | the feedback flag is there, and set, if and only if a recommended action mentions reduce |
| `MeaningOutcomes.OutcomeSuggestion` | factory/parser/meaning_to_spec_map.js:147-149 | the suggestion flag if and only if one mentions increase |
| `MeaningOutcomes.OutcomeOriginIntent` | factory/parser/meaning_to_spec_map.js:138-142 | the origin names the functional intent, null when there is none |
| `MeaningOutcomes.OutcomeOriginRisk` | factory/parser/meaning_to_spec_map.js:138-142 | the origin names the risk level, null when there is none |
| `MeaningOutcomes.OutcomePreferences` | factory/parser/parseMeaning.js:278-282 | the preferences of a document reach its compiled spec, and only then is there such a field |
| `MeaningOutcomes.OutcomeDataModel` | factory/parser/parseMeaning.js:272-276 | the types of the data fields reach the compiled spec by name |
| `MeaningOutcomes.OutcomeSchemaTypes` | factory/parser/parseMeaning.js:272-276 | the schema describes an object whose properties have the types of the data fields |
| `MeaningOutcomes.OutcomeWithoutData` | factory/parser/parseMeaning.js:272-276 | without data fields there is neither |
| `MeaningCompiler.ApplyUiPreferenceVariation` | factory/parser/spec_to_artifact_map.js:125-159 | the pushes and the filter make up the varied files |
| `MeaningCompiler.VariedFiles` | factory/parser/spec_to_artifact_map.js:82-159 | the varied files are exactly the given and the optional ones in increasing order, and the minimal layout leaves one public page |
| `MeaningCompiler.BuildDataModelArtifacts` | factory/parser/parseMeaning.js:69-89 | the loop collects types, properties and required names of the sorted fields |
| `MeaningLaws.OutcomeSchema` | factory/parser/parseMeaning.js:69-89 | from document lines to canonical spec: the schema requires the names of all data fields and lists all but one named like the prototype property |
| `MeaningLaws.OutcomeRequiresListedIff` | factory/parser/parseMeaning.js:69-89 | a compiled schema requires exactly the properties it lists if and only if no field is named like the prototype property |
| `MeaningLaws.PrototypeFieldIsRequiredNotListed` | factory/parser/parseMeaning.js:69-89 | a concrete document that compiles, whose schema requires a property and lists none |
| `MeaningCompiler.EnforceDataModelTypeHardening` | factory/parser/parseMeaning.js:189-202 | refuses exactly the fields whose lower-cased type is not allowed |
| `MeaningCompiler.HardeningNeverFires` | factory/parser/parseMeaning.js:253-258 | the repeated checks never refuse what validation accepted |
| `MeaningCompiler.ParseMeaning` | factory/parser/parseMeaning.js:251-287 | the pipeline succeeds exactly when nothing is forbidden, the document is valid and the result fits, and returns the canonical spec |
| `MeaningCompiler.AcceptedDocumentsBuild` | factory/parser/parseMeaning.js:251-287 | a valid document without forbidden content always builds; only the size limit can refuse the result |
| `MeaningCompiler.RearrangementIsInvisible` | factory/parser/parseMeaning.js:253-284 | permuting bullets, data fields, preferences or whole sections leaves the outcome identical from lines to canonical spec and hash |
| `MeaningCompiler.OutcomeIsCanonical` | factory/parser/parseMeaning.js:284-287 | a compiled spec is a fixpoint of the build and carries the digest of the rest of itself |
| `Store.ArtifactStore.AddArtifact` | factory/swarm/store.py:196-243 | commits the artifact and its edges, or reports why and changes nothing |
| `Store.ArtifactStore.AddEvaluation` | factory/swarm/store.py:339-363 | commits the record if its prediction exists and has none, or changes nothing |
| `Store.ArtifactStore.Enrol` | factory/swarm/store.py:391-427 | registers the workers that are new and leaves the others as they are |
| `Store.ArtifactStore.AddBudgetEvent` | factory/swarm/store.py:453-494 | the budget changes by the clipped amount, and the ledger records what was applied |
| `StoreLaws.ArtifactIsStoredIff` | factory/swarm/store.py:196-255 | an artifact is stored if and only if it has sources, a probability for confidence, distinct references to other stored artifacts, prediction fields exactly if it is a prediction, maturing after it was made and without magnitude for no signal, and a new identifier and hash |
| `StoreLaws.StoredArtifact` | factory/swarm/store.py:196-255 | it comes last, with one edge to each artifact it refers to |
| `StoreLaws.RecordIsStoredIff` | factory/swarm/store.py:339-389 | a record is stored if and only if its scores are probabilities, it has sources, no negative cost or tokens, is about a stored prediction without a record, and is new |
| `StoreLaws.BudgetChangesIff` | factory/swarm/store.py:453-500 | a budget changes if and only if a reason is given, the worker is registered, the event is new and the related artifact is stored |
| `StoreLaws.ChangedBudget` | factory/swarm/store.py:470-500 | the budget takes what is asked for, but not below zero, and the ledger records what it took |
| `StoreLaws.RegistrationIff` | factory/swarm/store.py:391-430 | one to a thousand workers with a budget that is not negative are registered, and those registered before keep what they have |
| `Lineage.RunKeepsLineage` | factory/swarm/store.py:196-243 | in every reachable state references point to artifacts stored before, and the edge table holds exactly the references |
| `Lineage.ReachableLineageIsAcyclic` | factory/swarm/store.py:196-243 | no artifact of a reachable state reaches itself |
| `Lineage.Closure` | factory/swarm/store.py:291-316 | the worklist returns exactly the transitive closure |
| `Lineage.LineageOf` | factory/swarm/store.py:291-316 | ancestors and descendants are exactly the two closures, sorted, and never contain the artifact itself |
| `Lineage.AncestorIffDescendant` | factory/swarm/store.py:291-316 | one is an ancestor of the other if and only if the other is a descendant of the one |
| `Lineage.AppendOnlyGrowsDescendants` | factory/swarm/store.py:196-243 | appending changes no ancestors and adds at most the new artifact to descendants, exactly for its ancestors |
| `Ledger.LedgerReconciles` | factory/swarm/store.py:391-494 | after any transactions each budget is the first grant plus the recorded changes and is not negative |
| `Clients.ReachedIsConsistent` | factory/swarm/store.py:196-494 | every store that clients reach has acyclic lineage and a ledger that reconciles |
| `Clients.RoundReaches` | factory/swarm/orchestration.py:87-185 | a round, in any order of completion and even aborted, leaves a store that transactions reach, with the same grants |
| `Clients.EvaluationReaches` | factory/swarm/evaluation.py:78-244 | so does an evaluation run |
| `Evaluation.EvaluationEngine.EvaluateDue` | factory/swarm/evaluation.py:78-175 | settles nothing when a listed prediction has a reference that does not parse; otherwise the loop settles the due predictions one by one up to the first exception, with cluster sizes taken from the evidence clusters |
| `Evaluation.EvaluationEngine.SettleOne` | factory/swarm/evaluation.py:95-174 | one settlement commits its transactions in order, or stops at the first that fails: an invalid observation, a metadata cost or token count that is no number, a record or an artifact that fails its checks |
| `Evaluation.EvaluationEngine.ApplyWorkerBudget` | factory/swarm/evaluation.py:215-244 | pays a registered worker the change that `ScoringLeaves` tells in numbers, and nobody else |
| `Evaluation.ClusterSizes` | factory/swarm/evaluation.py:89-92 | unless some reference does not parse, the sizes are those of the declarative evidence clusters, and one for anything else |
| `Settlements.ScoringLeaves` | factory/swarm/evaluation.py:117-244 | a scoring leaves one record with the squared miss, its complement, the usefulness, the share in the cluster and what was spent, one outcome, and for a registered worker one entry that takes the budget B to B plus the change, at least zero: two units for a hit or against a miss, less twice the squared miss, plus twice the share, plus the usefulness, which is the reported one or else the share of a hit, less a hundred times the cost, at most two |
| `Settlements.ContaminationLeaves` | factory/swarm/evaluation.py:177-213 | a settlement from outside the window leaves the report of an anomaly with the references of the observation |
| `Settlements.EndingIsDecided` | factory/swarm/evaluation.py:95-174 | a settlement is scored if and only if the observation is valid and observed between maturity and now, the metadata are numbers, and record and outcome pass; it is reported as an anomaly if and only if it is valid and observed outside, and the anomaly passes |
| `Settlements.DueByFields` | factory/swarm/store.py:318-337 | a prediction is due if and only if it is stored, has no record, is mature and neither invalidated, rejected nor failed, and fewer than 10000 predictions stand before it |
| `EvaluationLaws.EveryRunEvaluatesOnce` | factory/swarm/evaluation.py:78-244 | over any run with forward clocks and interleaved clients each prediction is scored at most once inside its window, reported and paid for at most once; without aborts reported exactly when scored, and paid for exactly when its worker was registered at the time it was scored |
| `EvaluationLaws.PayableIffScoredWhileRegistered` | factory/swarm/evaluation.py:215-244 | the predictions counted as payable are exactly those that some run of the history scored while their worker was registered |
| `Interleaving.EveryInterleavingScoresOnce` | factory/swarm/evaluation.py:78-244 | however the single transactions of any number of evaluation runs and of other clients interleave, each prediction is scored at most once inside its window; at every moment its record is reported or some run, perhaps one that raised, stands before its report, and its report is paid for or waived or some run, perhaps one that raised, stands before its payment, each exactly once |
| `Interleaving.NothingIsLostBetweenSettlements` | factory/swarm/evaluation.py:78-244 | whenever no run stands in the middle of a settlement every record is reported, and paid for unless its worker was not registered |
| `Interleaving.AloneIsSettleAll` | factory/swarm/evaluation.py:95-175 | a run whose transactions nobody interrupts leaves the store that the run taken as one step leaves, and raises if and only if that does |
| `Exceptions.SettlementAbortsIffUnfit` | factory/swarm/evaluation.py:95-174 | a settlement raises if and only if the prediction is unfit: the observation is invalid, or inside the window metadata, record or outcome fail their checks, or outside it the anomaly does; it has then changed nothing if and only if the prediction is stuck, that is unless only the outcome fails |
| `Exceptions.BlankAnomalyIsStuck` | factory/swarm/evaluation.py:177-213 | a concrete settlement from outside the window whose only source reference is blank passes validation and makes its prediction stuck |
| `Exceptions.UnfitRaisesOnceUnlessStuck` | factory/swarm/evaluation.py:147-172 | a prediction that is unfit but not stuck raises once and is never due again |
| `Exceptions.FitPredictionsAreSettled` | factory/swarm/evaluation.py:95-174 | while the due predictions are fit the run goes on, its records are those of the recordable ones in order, and what is drawn for the others stays fresh |
| `Exceptions.RunEvaluatesUpToFirstUnfit` | factory/swarm/evaluation.py:95-174 | a run raises if and only if some due prediction is unfit; the store then holds the records of exactly the recordable predictions up to and including the first unfit one |
| `Exceptions.DueAreDistinct` | factory/swarm/store.py:318-337 | no prediction is due twice |
| `Exceptions.ClusteringRaisesIff` | factory/swarm/evaluation.py:86-90 | clustering raises if and only if a prediction with fewer than 10000 before it has a reference that does not parse |
| `Exceptions.EvaluationAbortsIff` | factory/swarm/evaluation.py:78-174 | with fresh draws an evaluation run raises if and only if a listed prediction has a reference that does not parse, in which case it does nothing, or a listed prediction that awaits evaluation is unfit |
| `Blockade.RefusedIffStuck` | factory/swarm/evaluation.py:95-130 | settling a prediction raises with every store left as it was if and only if it is stuck: the observation is invalid, or inside the window metadata or record fail their checks, or outside it the anomaly does |
| `Blockade.RunEndsAt` | factory/swarm/evaluation.py:95-103 | a run ends at the latest where it comes to a stuck prediction, and leaves what the predictions before it left |
| `Blockade.StuckBlocksTheRest` | factory/swarm/evaluation.py:95-174 | over any history in which every run finds a mature prediction stuck, it and every prediction behind it in the listing are never evaluated |
| `Blockade.UnreadableBlocksTheNext` | factory/swarm/evaluation.py:127-128 | two stored predictions of which the older one has metadata that cannot be read: however often the run is repeated the other, which is fit, stays pending |
| `Blockade.UnparsableStopsEveryRun` | factory/swarm/evaluation.py:86-90 | while a prediction with a reference that does not parse is among the first 10000, due or not, no run settles anything: the store is what the other clients alone make of it |
| `Blockade.BadReferenceStopsAll` | factory/swarm/anti_herding.py:15-21 | two stored predictions of which one cites "http://[": however often the run is repeated the store stays as it is, though the other is fit and pending |
| `EvaluationLaws.ScoringCompletesIff` | factory/swarm/evaluation.py:95-174 | a mature prediction with a settlement in its window is scored, reported and paid in full if and only if its cost and token count can be read and record and outcome artifact pass the checks; if only the outcome fails, the record stays alone, and otherwise nothing is left |
| `EvaluationLaws.BlankSourceLosesOutcome` | factory/swarm/evaluation.py:147-172 | a concrete settlement with a blank source reference is recorded and its outcome lost |
| `EvaluationLaws.ScoredIsNeverDueAgain` | factory/swarm/store.py:318-337 | a scored prediction is never due again, so a lost outcome is never made up |
| `EvaluationLaws.ContaminationOnlyReports` | factory/swarm/evaluation.py:104-116 | an outcome from outside the window adds one anomaly child and nothing else |
| `EvaluationLaws.DueArePending` | factory/swarm/store.py:318-337 | due predictions are stored, mature and not yet evaluated |
| `DueListing.DueIffListed` | factory/swarm/store.py:318-337 | for any order of the listing a prediction is due if and only if it is among the first 10000 and awaits evaluation |
| `DueListing.DueIffPendingAndRanked` | factory/swarm/store.py:318-337 | a stored prediction is due if and only if it awaits evaluation and fewer than 10000 predictions stand before it |
| `DueListing.AllPendingAreDueIff` | factory/swarm/store.py:318-337 | all predictions that await evaluation are due if and only if none of them has 10000 predictions before it |
| `DueListing.RankBelowSize` | factory/swarm/store.py:318-337 | which no prediction has in a store of at most 10000 |
| `DueListing.BehindTheLimitNeverDue` | factory/swarm/store.py:318-337 | a prediction with 10000 others before it is never due in any later state, whatever is evaluated or appended, as evaluated predictions keep their place |
| `DueListing.CrowdedOut` | factory/swarm/store.py:318-337 | a reachable store of more than 10000 predictions in which a mature one is pending and never due |
| `EvaluationLaws.ScoresAreProbabilities` | factory/swarm/evaluation.py:117-146 | scores are probabilities, uniqueness is positive, and the clamps leave the scores as computed |
| `EvaluationLaws.DeltaIsBounded` | factory/swarm/evaluation.py:226-238 | one settlement changes a budget by more than -6 and at most 5 |
| `Orchestration.SwarmOrchestrator.CommitRound` | factory/swarm/orchestration.py:117-156 | the loop over completions commits outputs, rewards and failures in order of completion |
| `Orchestration.SwarmOrchestrator.RewardDownstreamReuse` | factory/swarm/orchestration.py:164-185 | each distinct reference to another registered worker is rewarded, in order |
| `OrchestrationLaws.RewardAllPays` | factory/swarm/orchestration.py:164-185 | with fresh event identifiers every reward is taken, a quarter to each author, and nothing else changes |
| `OrchestrationLaws.CompletionIsDecided` | factory/swarm/orchestration.py:117-156 | a completion fails if and only if its output cannot be stored, and aborts the round if and only if neither can the report of the failure |
| `OrchestrationLaws.RoundIsAccounted` | factory/swarm/orchestration.py:87-185 | a round that is not aborted, with budgets of any size and in any order, stores one artifact for each worker, its output or the report of its failure, records no failure after a commit, and leaves every budget at its start plus a quarter per reuse, less one unit or all it held for a failure |
| `RoundAccounts.CreditsAreReuses` | factory/swarm/orchestration.py:164-185 | an artifact earns a worker one reward for each artifact of that other registered worker that it refers to |
| `RoundAccounts.BudgetInNumbers` | factory/swarm/orchestration.py:117-185 | a budget ends a round at its start plus a quarter for each reuse, less one unit for a failure or all that was held |
| `RoundAccounts.LeftInFields` | factory/swarm/orchestration.py:117-150 | a worker leaves its own output or, on failure, a failed critique that cites the worker |
| `RoundAccounts.FailureLeaves` | factory/swarm/orchestration.py:127-156 | a failure leaves its report, and an entry that takes one unit or what there is |
| `RoundAccounts.RewardLeaves` | factory/swarm/orchestration.py:164-185 | a reward adds a quarter and one entry for the maker of the artifact referred to |
| `RoundAccounts.RewardsAreInOrder` | factory/swarm/orchestration.py:164-185 | the references to be rewarded are those of the artifact, each once, ascending |
| `RoundAccounts.SucceedsIff` | factory/swarm/orchestration.py:117-126 | a generation succeeds if and only if it is the own output of the worker, on the subject, and one that the store takes in |
| `RoundOrder.OrdersCompare` | factory/swarm/orchestration.py:117-156 | two orders of completion with the same failures store the same artifacts, and leave a worker the same budget if and only if it did not fail or its failure took as much in both |
| `RoundOrder.SolventOrdersAgree` | factory/swarm/orchestration.py:117-156 | two orders with the same failures leave all budgets the same when whoever fails starts with one unit |
| `RoundIndependence.FailuresAgreeIffIndependent` | factory/swarm/orchestration.py:117-156 | no order aborts and the same workers fail in all orders if and only if reports can be stored, no two workers leave the same key, and no refused output only waits for references that others of the round leave |
| `RoundIndependence.OrderIsIrrelevantIff` | factory/swarm/orchestration.py:87-185 | the order of completion matters to no abort, no failure and no budget if and only if the outputs are independent in that sense and whoever fails has one unit to lose or nothing to earn in the round |
| `RoundExamples.ReferencesMatter` | factory/swarm/orchestration.py:117-156 | a round of two workers with five units each in which the one that refers to the output of the other fails, and pays, in one of the two orders |
| `RoundExamples.PovertyMatters` | factory/swarm/store.py:470-490 | a round in which the same failure and the same reward leave a quarter of a unit in one order and nothing in the other |
| `Rpc.AppServerClient.NextId` | factory/agent/codex_daemon.py:70-73 | draws the next identifier |
| `Rpc.AppServerClient.Await` | factory/agent/codex_daemon.py:102-109 | the wait ends with the response in the queue, or with nothing |
| `Rpc.AppServerClient.ReadReply` | factory/agent/codex_daemon.py:75-90 | one line: noise and messages that are no reply pass, a line that raises with the table as it is ends the reader, and a reply takes the queue that waits for its identifier out of the table |
| `Rpc.EveryInterleavingKeeps` | factory/agent/codex_daemon.py:70-109 | in every interleaving each call waits, or is held by the reader, or was answered, one at a time |
| `Rpc.ResponsesReachTheirCall` | factory/agent/codex_daemon.py:70-109 | a response reaches only the call that drew its identifier; no late reply reaches a later call |
| `Rpc.IdentifierMatchesIffNotBoolean` | factory/agent/codex_daemon.py:88-93 | whatever reaches a call carries the number of that call as its identifier if and only if its identifier is no boolean; a boolean is true and reaches the first call |
| `Rpc.QueuesAreFilledOnce` | factory/agent/codex_daemon.py:88-93 | every queue is filled at most once, and filling never blocks the reader |
| `Rpc.LeftPendingIffNeverSent` | factory/agent/codex_daemon.py:94-109 | a finished call leaves an entry behind if and only if its message could not be sent and no reply was taken for it |
| `Rpc.UnsentCallStaysPending` | factory/agent/codex_daemon.py:94-101 | a run in which a call that could not be sent leaves its entry |
| `Rpc.PendingCallsAreOpen` | factory/agent/codex_daemon.py:94-109 | the table holds only calls that are open or could not be sent |
| `Rpc.FinishedIsFinal` | factory/agent/codex_daemon.py:94-109 | how a call ended is never revised |
| `Rpc.TrueAnswersTheFirstCall` | factory/agent/codex_daemon.py:88-93 | a reply whose identifier is true answers the first call |
| `Rpc.ReaderDiesIffLineRaises` | factory/agent/codex_daemon.py:75-93 | in any interleaving the reader is dead if and only if it took up a line that does not decode, a bare value, a string or an array that looks like a reply, or, while some call was pending, a reply whose identifier is a list or an object |
| `Rpc.BareValuesRaise` | factory/agent/codex_daemon.py:88-89 | a bare number, and the string "invalid result", are such lines whatever is pending |
| `Rpc.LineEndsReaderIff` | factory/agent/codex_daemon.py:75-90 | a line ends the idle reader if and only if it does not decode, is a bare value, is a string or an array with "id" and with "result" or "error" in it, or is a reply to a list or an object while some call is pending |
| `Rpc.ReplyIsTakenIff` | factory/agent/codex_daemon.py:88-93 | a line takes the queue of a pending call out of the table if and only if it is a reply with that number, or with the boolean that equals it, for its identifier; the reader then holds its payload for that call |
| `Rpc.ContainerPassesAnEmptyTable` | factory/agent/codex_daemon.py:88-90 | a reply whose identifier is a list, read while no call is pending, changes nothing |
| `Rpc.ContainerEndsAWaitingReader` | factory/agent/codex_daemon.py:88-90 | read while a call waits, it ends the reader |
| `Rpc.RaisingLineStrandsTheCall` | factory/agent/codex_daemon.py:75-93 | whichever line raises while a call waits, that call is never answered, whatever happens then |
| `Rpc.DeadReaderAnswersNothing` | factory/agent/codex_daemon.py:75-93 | once the reader is dead no queue is filled any more |
| `Baselines.RepresentativesAreChampions` | factory/swarm/baselines.py:65-72 | a representative is a candidate that none of its cluster exceeds |
| `Baselines.RepresentativesAreDistinct` | factory/swarm/baselines.py:65-72 | no candidate represents twice |
| `BaselineChoices.SingleIsFirst` | factory/swarm/baselines.py:76-77 | the single worker is the one with the least identifier |
| `BaselineChoices.AcceptedIff` | factory/swarm/baselines.py:208-231 | a comparison is accepted if and only if the penalty is not negative, there are rows, each with probabilities and without negative cost or tokens, and the rows of a case agree on the outcome |
| `BaselineChoices.BestLeads` | factory/swarm/baselines.py:78-82 | the best of the independent ones leads its cluster and is highest in confidence, score and identifier among the leaders |
| `BaselineChoices.SwarmIsHighest` | factory/swarm/baselines.py:83-87 | the swarm takes the highest score, then confidence, then identifier |
| `BaselineChoices.MajorityWins` | factory/swarm/baselines.py:88-101 | the direction with most leaders wins, then with the greater sum of confidences, then with the later name, and its most confident leader is taken |
| `BaselineChoices.RandomIsDrawn` | factory/swarm/baselines.py:102-120 | the random baseline predicts one of three directions by the digest, with a third of confidence, for free |
| `BaselineChoices.LossInFields` | factory/swarm/baselines.py:124-126 | a miss loses the squared confidence, a hit the square of what is missing from it |
| `BaselineLaws.SelectionIgnoresRowOrder` | factory/swarm/baselines.py:75-121 | for distinct workers every selector picks the same candidate in any order of the rows |
| `BaselineLaws.SelectionIsHindsightFree` | factory/swarm/baselines.py:75-121 | rows that differ in their outcomes only lead to the same worker, direction and confidence |
| `Comparison.CompareBaselines` | factory/swarm/baselines.py:202-297 | refuses exactly bad penalties, invalid or missing candidates and inconsistent outcomes, and otherwise reports every metric and advantage |
| `Comparison.AdvantagesAreScoreGaps` | factory/swarm/baselines.py:129-297 | the paired advantages, gross and net of cost, are the gaps between the separately computed scores |
| `Comparison.CostIsSumOfCaseCosts` | factory/swarm/baselines.py:232-248 | the total charged to a method is the sum of its case costs |
| `BaselineChoices.CasesByIdentifier` | factory/swarm/baselines.py:202-230 | the cases come in the order of their identifiers, each with all its rows |
| `BaselineChoices.CostInFields` | factory/swarm/baselines.py:234-252 | a case costs the single worker its own price, the random baseline nothing, and the others all candidates |
| `BaselineChoices.TotalsGrow` | factory/swarm/baselines.py:217-252 | each case adds its choice, its charge and its tokens to what the cases before it came to |
| `BaselineChoices.HitRateIsMean` | factory/swarm/baselines.py:143-148 | the hit rate is the number of hits over that of cases |
| `BaselineChoices.ScoreIsMean` | factory/swarm/baselines.py:143-149 | the score is the mean loss |
| `BaselineChoices.UsefulnessIsPerUnit` | factory/swarm/baselines.py:135-152 | usefulness is told per dollar and per token where any were spent |
| `BaselineChoices.AdjustmentIsPenalty` | factory/swarm/baselines.py:153-155 | the adjusted score adds the penalty on the cost of a case |
| `BaselineChoices.AdvantageInFields` | factory/swarm/baselines.py:159-183 | the advantage compares case by case, gross and with the weighted difference of costs |
| `BaselineChoices.IntervalIsQuantiles` | factory/swarm/baselines.py:186-199 | the bounds stand at places 49 and 1949 of 2000 sorted means, counted from zero |
| `Comparison.IntervalLiesWithin` | factory/swarm/baselines.py:186-199 | whatever is drawn, the bootstrap interval is ordered and lies between the least and the greatest improvement |

## Left out

- Clusters.ClusteringIsUnique: clusters whose truncated digests collide may come in either order, as their sort key is equal.
- EvaluationLaws.EveryRunEvaluatesOnce: other clients are taken not to write evaluations, outcomes of the evaluator or evaluation payments, which the code does not prevent; an evaluation run is one step here, and a sequence of transactions in `Interleaving`.
- Floating point: all arithmetic is over exact integers and reals, so rounding, decimal precision, `lgamma` and `exp` are not modelled; the symmetries of the Fisher test are proved for any tolerance of at least zero, and the square root is a parameter that squares back to its argument.
- Digests, source normalization, which may raise for any text, `toLowerCase`, `localeCompare`, identifier and secret patterns, size limits and random identifiers are arbitrary functions, predicates or parameters; only `toLowerCase` on the five type names is assumed to return them.
- The patterns that classify a document line: a line is given by what the patterns find in it. The limit on the bytes of the document and the file system steps of the compiler are not modelled.
- JavaScript numbers that are not finite, sparse arrays, `toJSON` and class instances; JSON text itself, for which the canonical value stands. Strings compare by code point.
- SQLite: each transaction is one step, timestamps are integers, and the order of a listing by timestamp text is any comparison in which only rows of one key tie. The read of the prediction before an evaluation is written belongs to the same step.
- The record of a signal's `expected_magnitude` error and the texts and evidence of generated artifacts, which no modelled operation reads; they are carried as one opaque text.
- Goal fitness, purchases, receipts, discovery, the paper trading gate's thresholds and the specialization detector: bookkeeping without further invariants.
- The choice of workers for a round, the context given to them and what a worker does with it: a round is given by the order of completion and the outputs.
- Evaluation metrics and calibration bins, effect sizes, power formulas, odds ratios, normal tests and phase fitting.
- HTTP, commerce, dashboards, daemons' file moves, shell scripts and log classifiers. The lease scripts of the queue are not part of this model.
- The text of the server's lines, of which only what the reader looks at is kept, the payload of a reply, which is passed on unread, and the log file that the reader writes first, where a failing write would end it as well.
- `NO_SIGNAL` and dangling parents are modelled; artifacts that fail schema validation never enter the store, so laws about stored artifacts take their validation for granted.
- The recursion limits of the two interpreters.
