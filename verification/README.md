# Verified model of OPORD's allocator, AI governance, compliance scoring and DLP

OPORD hands out network blocks, gates and accounts for AI usage, scores
compliance, and strips personal data from gateway requests. This project models
the code that does so and proves what it guarantees, over every input, every
interleaving and every run.

- **`Ipam.dfy`, `IpamPool.dfy`, `Account.dfy`, `Jobs.dfy`, `JobRuns.dfy`**: the CIDR pool. Any number of
  processes allocate and release blocks by reading a versioned map, deciding, and
  writing it back with compare-and-swap under bounded retry. The model has the
  two retry loops as loops over a store that other processes write to, the
  interleaved protocol as a state machine, and the atomic allocator both of them
  refine. A write may be answered, lost, applied with its answer lost, or held up
  and applied after its caller gave up. The account jobs (provision: allocate,
  then call the cloud provider; destroy: tear down, then release) are code in
  `Account.dfy` and a state machine on top of the protocol in `Jobs.dfy`; each
  follows the other.
- **`Usage.dfy`, `Conservation.dfy`, `Governance.dfy`, `SeatQuota.dfy`,
  `GatewayBudget.dfy`, `Import.dfy`**, with `UsageCases.dfy` and
  `GovernanceCases.dfy`: AI governance. Spend is a two-pass sum in which an imported
  figure supersedes a provider's own gateway estimates; policies, seat quotas and
  budgets gate requests and gateway calls on it. The gates are check-then-act, so
  the two overshoot theorems bound what concurrent callers can exceed, and two
  further theorems build runs that reach those bounds.
- **`Checks.dfy`, `Luhn.dfy`, `Redact.dfy`**, with `ChecksCases.dfy`: the compliance scorecard, the Luhn
  loop, and the in-place rewrite of a decoded JSON tree on the heap.
- `Sequences.dfy`, `Sorting.dfy`, `Strings.dfy`, `Wrappers.dfy`: shared facts, and
  what the code relies on from Go's `sort`, `strings` and `strconv` packages. The stable sort is written as an
  insertion sort; `Sorting.StableSortUnique` proves that order and stability fix
  the result, so it stands for any stable sort.

The `...Cases` modules, and sections of the other modules, say what the
specification functions mean without them: on the stored texts (which sources
supersede, which effect denies, which metric counts, what comes out of a
redacted text), as an if-and-only-if for every input.

Code that loops and updates is a method with a loop, proved equal to a
specification function; the theorems are lemmas about those functions or about
the runs of a state machine. `hide` statements only keep unneeded definitions
away from the solver.

## What turned out false, and exactly when the code is right

- A block handed to an owner made only of white space still counts as free: the
  code refuses the empty owner only (`internal/ipam/ipam.go:56`) but trims before
  it asks whether a block is free (`internal/ipam/ipam.go:134`).
  `Ipam.HeldIffRealOwner` is the exact condition, `Ipam.BlankOwnerLosesItsBlock`
  the input. Real owners are workspace UUIDs.
- The empty key is read as "none" (`internal/ipam/ipam.go:65`, `:69`): when it is
  free the pool seems exhausted, and when the caller holds it the caller gets a
  second block. `IpamPool.EmptyKeyExactly` is the exact condition.
- A destroy that overlaps a provision of the same workspace can leave one block
  in use by two workspaces: `JobRuns.OverlapSharesBlock` builds the run, whose
  only overlap is one such pair. A release that arrives after its job gave up can
  do the same without any overlap, because provisioning again reuses the block
  without changing the pool's version: `JobRuns.LateReleaseSharesBlock`. If no
  provision of a workspace overlaps a destroy or a late release of it, it cannot
  happen (`Jobs.RunsAreSafe`); provisions may overlap provisions, and destroys
  destroys.
- A destroy whose release failed still ends as destroyed
  (`internal/orchestrator/account.go:368-372`) with the block held:
  `Jobs.DestroyedMayHold` says exactly when.
- Provider budgets do not always add up to the global budget. A provider's
  reference may be its name or its id
  (`internal/orchestrator/ai_governance.go:211-212`), so a budget by name and one
  by id of the same provider count its rows twice
  (`Conservation.NameAndIdCountTwice`); and budgets by id of two providers whose
  names differ only in case count each row once, yet disagree with the whole,
  which supersedes by lowercase name (`Conservation.TwoSpellingsDisagree`).
  `Conservation.ConservedExactly` is the exact condition.
- A budget that refers to a provider by id counts the provider's gateway calls
  but never gates them, so its spend has no bound: `GatewayBudget.ByIdUnbounded`.
  `GatewayBudget.CoveredIffCounted` is the exact condition and
  `GatewayBudget.OverspendBounded` the bound for all other budgets.
- Import keys join project and line item with a colon, so two different charges
  of one period can share a key and the second one's money is never recorded:
  `Import.ClashLosesCharge`. `Import.SameKeyExactly` and
  `Import.AllImportedExactly` are the exact conditions.
- A comment advises a budget of zero dollars as a kill-switch
  (`internal/orchestrator/ai_enforce.go:64-69`). The code gives a budget without
  a positive limit a usage of 0 percent, so it blocks nothing:
  `Governance.ZeroBudgetExactly`. Creating one is refused as well
  (`internal/orchestrator/ai_governance.go:90-92`).

The model follows the code in each case. It also follows it where seat quotas
compare their enforcement with `block` exactly while the gateway ignores case,
and where a workspace budget without a reference gates every request but looks
for a workspace in three places of a record. `Governance.GatingBudgetCounts`
states exactly when these agree; the instance records written here name no
workspace in their raw fields, and for such records they always do.

## Model

| member | source | states |
|---|---|---|
| Ipam.StepSimulates | internal/ipam/ipam.go:64-82 | one step of any process is one atomic call at its deciding read or applied write, or nothing; a pending or late write that was not overtaken is exactly its call's atomic effect |
| Ipam.Linearizable | internal/ipam/ipam.go:55-117 | every interleaving of any number of calls, late writes included, is a sequential run of the atomic allocator: same answers in order, same final pool |
| Ipam.EachCallOnce | internal/ipam/ipam.go:55-117 | a decided call occurs in that sequential run exactly once with the answer it returned; one that gave up or died does not occur, and one whose write failed at most once, then or later |
| Ipam.RealTimeOrder | internal/ipam/ipam.go:55-117 | the sequential order never puts a call before one that had returned, with no write of its own still under way, when it started |
| Ipam.RetriesNeedInterference | internal/ipam/ipam.go:59-84 | a call gives up only if at least maxRetries commits by other calls fell between its start and its return |
| Ipam.VersionCountsCommits | internal/ipam/vault.go:59-76 | the version grows by one per applied write, and no call applies more than one, ever |
| Ipam.EffectKeepsOwners | internal/ipam/ipam.go:64-113 | an atomic call leaves every held block with its owner, except the owner's own release, and keeps one block per owner |
| Ipam.ProtocolKeepsOwners | internal/ipam/ipam.go:55-117 | after any interleaving: same keys, free plus held constant, at most one block per owner, and a held block still its owner's unless that owner's release took effect |
| Ipam.FreedBeforeReuse | internal/ipam/ipam.go:131-143 | if a block changes owner over a run, it was free at some moment of that run |
| Ipam.AllocateIdempotent | internal/ipam/ipam.go:64-67 | two successful allocations for one non-blank owner with no release of that owner between them return the same block, whatever all other owners do |
| Ipam.SameOwnerSameBlock | internal/ipam/ipam.go:59-83 | the same of two concurrent calls in the interleaved protocol, from any processes, for an owner that is not blank |
| Ipam.FreshBlockIsLeast | internal/ipam/ipam.go:68-80 | a fresh block is the smallest free key of the pool it is committed against, and nothing else in the pool changes |
| Ipam.HeldIffRealOwner | internal/ipam/ipam.go:56-58 | after a fresh allocation the block counts as held exactly when the owner is not blank |
| Ipam.BlankOwnerLosesItsBlock | internal/ipam/ipam.go:131-143 | a concrete pool on which a blank owner's block is given to the next caller |
| IpamPool.OwnedBy | internal/ipam/ipam.go:120-127 | returns some block of the owner, whichever iteration meets first, or the empty string when the owner has none |
| IpamPool.FirstFreeOf | internal/ipam/ipam.go:131-143 | collecting and sorting the free keys yields the least one, or the empty string when none is free |
| Strings.LessExactly | internal/ipam/ipam.go:141 | the order by which the smallest key is taken: the first difference decides, and a proper prefix comes first |
| Strings.BlankExactly | internal/ipam/ipam.go:134 | a text is blank exactly when it holds white space only |
| IpamPool.FreeAll | internal/ipam/ipam.go:98-105 | frees every block of the owner and nothing else, and reports whether there was one |
| IpamPool.Kv.CASWrite | internal/ipam/vault.go:59-76 | a request that arrives is applied exactly when the version still matches; a conflict means another write came between and this one did nothing; the caller hears of it exactly when the answer arrives too |
| IpamPool.Allocator.Allocate | internal/ipam/ipam.go:55-85 | whatever other processes write meanwhile: the answer is the decision on one version current during the call, the call wrote that version's successor or nothing, and giving up means at least six other commits; its requests alternate reads and writes, all answered except the last of a call that failed, and it fails to read or write exactly when that one was not |
| IpamPool.Allocator.Release | internal/ipam/ipam.go:88-117 | the same for release |
| IpamPool.NoFailureWhenAnswered | internal/ipam/ipam.go:60-79 | so a call all of whose requests are answered neither fails to read nor to write |
| IpamPool.OutcomeIsAtomic | internal/ipam/ipam.go:55-117 | the contract of the two loops in terms of the atomic allocator: the answer is an atomic answer and the one version written is the atomic effect on its predecessor |
| IpamPool.EmptyKeyExactly | internal/ipam/ipam.go:64-71 | on any pool, a decision is the atomic allocator's exactly unless the lookup finds no block and the empty key is free (then: exhausted) or the owner's own (then: a second block) |
| Account.ProvisionUsesItsBlock | internal/orchestrator/account.go:234-257 | the provider is handed the explicit block, or else the one returned by the allocation just before |
| Account.ReleaseFollowsTeardown | internal/orchestrator/account.go:360-373 | a release follows a successful teardown at once, and the status destroyed follows the release |
| Account.Service.ProvisionAccount | internal/orchestrator/account.go:206-267 | the ordered effects of one provisioning job on every path, failed lookups included; the allocation's answer is the pool loop's; the status ends ready, and the call succeeds, exactly when the job reaches the provider and the provider's next outcome is success, and it ends failed otherwise |
| Account.Service.DestroyAccount | internal/orchestrator/account.go:326-377 | the ordered effects of one destroy job on every path: the status ends destroyed, and the call succeeds, exactly when the provider's next outcome is success; a failed release does not fail the call |
| Jobs.RunsAreSafe | internal/orchestrator/account.go:206-377 | if no provision of a workspace overlaps a destroy or a late release of it, then in every reachable state each block in use at the provider is held in the pool by the workspace using it |
| Jobs.NoSharedBlock | internal/orchestrator/account.go:354-373 | over all such runs: no block is in use by two workspaces, and a destroyed workspace uses none |
| Jobs.BlockStaysUntilDestroyed | internal/orchestrator/account.go:354-373 | a block given to a workspace's provision stays that workspace's, and goes to no other, until a provider-side destroy of it succeeds, over provisions, retries, failed destroys and crashes |
| Jobs.DestroyedHoldsExactly | internal/orchestrator/account.go:360-372 | while a workspace is being destroyed it holds exactly the blocks it held before, if no release of it is applied, and none otherwise |
| Jobs.DestroyedMayHold | internal/orchestrator/account.go:367-373 | so a workspace ends as destroyed holding exactly what it held at the teardown unless a release was applied |
| Jobs.FinishedJobsFollowCode | internal/orchestrator/account.go:206-377 | in every run of the machine, a finished job has done exactly the trace of its sequential code, for some answers of pool and provider |
| Jobs.ProvisionIsPath | internal/orchestrator/account.go:206-267 | every trace of the provisioning code is a path of the machine, with any course of the pool protocol that gives its answer |
| Jobs.DestroyIsPath | internal/orchestrator/account.go:326-377 | the same of the destroy code |
| Jobs.StatusIsEmitted | internal/orchestrator/account.go:206-377 | the machine's statuses are those the code sets |
| JobRuns.OverlapSharesBlock | internal/orchestrator/account.go:354-373 | a run whose only overlap is one provision and one destroy of a workspace, and which leaves one block in use by two workspaces |
| JobRuns.LateReleaseSharesBlock | internal/orchestrator/account.go:367-371 | a run without overlapping jobs in which a release write arrives late, with the same end |
| Usage.AuthoritativeProviders | internal/orchestrator/ai_governance.go:172-180 | the first pass collects exactly the lowercase names of providers with an imported figure in scope and window |
| Usage.AiCostUSD | internal/orchestrator/ai_governance.go:171-192 | the two loops compute the specification sum |
| UsageCases.ReportSupersedesEstimate | internal/orchestrator/ai_governance.go:155-190 | read off the raw texts: of a gateway estimate and another row of the provider, only the other one counts if its source is one of the three report names up to case and white space, and both count otherwise |
| UsageCases.WrittenSources | internal/orchestrator/ai_governance.go:155-159 | so does each of the three sources exactly as the importers write it |
| UsageCases.OneRowCost | internal/orchestrator/ai_governance.go:183-191 | one row counts its cost from the start of the window on |
| UsageCases.ScopesExactly | internal/orchestrator/ai_governance.go:206-235 | what each scope of a budget counts, and that an unknown scope counts nothing |
| UsageCases.PeriodsExactly | internal/orchestrator/ai_governance.go:194-204 | daily, yearly and annual, and that every other period is the month |
| UsageCases.SummaryExactly | internal/orchestrator/ai_governance.go:127-138 | spend, remainder, percentage and the band of spend that each status names |
| UsageCases.QuotasExactly | internal/orchestrator/ai_enforce.go:294-309 | a cost quota is the superseding sum over all rows, a token quota adds up the token rows of the period |
| Usage.CostByProvider | internal/orchestrator/ai_governance.go:164-192 | the total is the sum over provider names of all their rows, or of all but their estimates once an imported row exists |
| Usage.CostPermutes | internal/orchestrator/ai_governance.go:171-192 | the total does not depend on row order |
| Usage.SupersessionStep | internal/orchestrator/ai_governance.go:172-190 | what one more row does: the first imported row of a provider adds its cost and takes away exactly that provider's estimates, an estimate of a superseded provider adds nothing, any other counted row its cost |
| Usage.ListBudgetSummaries | internal/orchestrator/ai_governance.go:112-142 | one summary per budget, in order, with its spend, remainder, percentage and status |
| Usage.HardLimitReached | internal/orchestrator/ai_governance.go:127-138 | with a positive limit the status is hard_limit exactly when 100 * spend >= threshold * limit; without one, exactly when the threshold is not positive |
| Usage.AiQuotaUsage | internal/orchestrator/ai_enforce.go:294-309 | a cost quota counts the superseding sum over all rows, any other the quantities of its metric in the period |
| Conservation.ConservedExactly | internal/orchestrator/ai_governance.go:164-216 | budgets of one period add up to the whole on a table and all its parts exactly when every row that costs something is counted by exactly one of them, and the one that counts an estimate counts every imported figure that supersedes it |
| Conservation.SpendConserved | internal/orchestrator/ai_enforce.go:294-309 | so budgets by name for each provider, one per distinct name, add up to the global budget's spend, which is also the cost quota's usage |
| Conservation.ProviderBudgetActual | internal/orchestrator/ai_governance.go:144-149 | a budget that counts one provider's rows, by name or by id, has that provider's share of the whole as its spend |
| Conservation.PairConserved | internal/orchestrator/ai_governance.go:172-190 | an estimate and an imported figure that supersedes it are conserved exactly when the budget that counts the first counts the second |
| Conservation.ConservationNeedsOneMatch | internal/orchestrator/ai_governance.go:211-212 | a table of one row that costs something is conserved exactly when one and only one of the budgets counts it |
| Conservation.NameAndIdCountTwice | internal/orchestrator/ai_governance.go:211-212 | a budget by name and one by id of one provider whose sum is not the spend |
| Conservation.TwoSpellingsDisagree | internal/orchestrator/ai_governance.go:171-192 | two budgets by id that count each row once and whose sum is not the spend |
| Governance.MatchAny | internal/orchestrator/ai_enforce.go:90-106 | an empty list, a blank pattern, or a pattern equal to a candidate up to case and outer white space |
| Governance.HasSelector | internal/orchestrator/ai_enforce.go:70-79 | whether any selector list holds a non-blank entry |
| Governance.Matches | internal/orchestrator/ai_enforce.go:81-86 | all four selectors match the request, the owner through its mail domain |
| Governance.CountActive | internal/orchestrator/ai_enforce.go:193-202 | the number of active instances in the quota's scope |
| Governance.EvaluateAIGovernance | internal/orchestrator/ai_enforce.go:157-239 | blocks exactly when an active, readable, selective deny policy matches, a blocking seat quota in scope is reached, or an applicable budget is at its hard limit; reports each such reason, each warning, and nothing else |
| Governance.EvaluateGatewayBudget | internal/orchestrator/ai_enforce.go:245-288 | blocks exactly when a global or provider budget covering the provider is at its hard limit or a blocking token or cost quota is used up |
| GovernanceCases.PolicyBlocksExactly | internal/orchestrator/ai_enforce.go:54-115 | read off the stored texts: a policy with at most one pattern in each list blocks exactly when it is active and readable, its effect is not "allow" up to case and white space, some pattern is given, and each names the request's provider or type, category, service, or owner's mail domain |
| GovernanceCases.EffectsExactly | internal/orchestrator/ai_enforce.go:60-62 | in particular "deny" and an empty effect block, "allow" in any spelling does not |
| GovernanceCases.ContractorPolicy | internal/orchestrator/ai_enforce.go:49-51 | the documented example blocks exactly the requests of that mail domain to that provider |
| GovernanceCases.NoDomainNoMatch | internal/orchestrator/ai_enforce.go:109-115 | an owner without a mail domain is named by no domain pattern |
| GovernanceCases.ListSelectsAny | internal/orchestrator/ai_enforce.go:90-106 | a longer list selects what some entry selects, and a blank entry everything |
| GovernanceCases.DomainOfOwner | internal/orchestrator/ai_enforce.go:109-115 | the mail domain is what follows the last "@", lowercase and trimmed, and nothing without one |
| GovernanceCases.SeatQuotaBlocksExactly | internal/orchestrator/ai_enforce.go:180-213 | a quota blocks a request exactly when it counts instances or seats, applies to the service, is enforced with "block" and is reached |
| GovernanceCases.ActiveExactly | internal/orchestrator/ai_enforce.go:193-202 | which instances it counts, one by one |
| GovernanceCases.ThroughputQuotaBlocksExactly | internal/orchestrator/ai_enforce.go:262-285 | a quota blocks the gateway exactly when it counts tokens or cost, its enforcement is "block" up to case, and its usage has reached the limit |
| GovernanceCases.BudgetBlocksExactly | internal/orchestrator/ai_enforce.go:217-228 | a budget blocks a request exactly when its scope covers it and its spend has reached the hard threshold |
| GovernanceCases.BudgetBlocksGatewayExactly | internal/orchestrator/ai_enforce.go:250-260 | a budget blocks the gateway exactly when it is global, for all providers or for this one by name, and spent up |
| GovernanceCases.BlockedByParts | internal/orchestrator/ai_enforce.go:157-239 | policies, quotas and budgets block independently: two sets of them block together exactly when one blocks alone |
| GovernanceCases.ReasonsExactly | internal/orchestrator/ai_enforce.go:173-228 | what is reported for an entry that blocks, and for a quota or budget that only warns |
| Governance.GatingBudgetCounts | internal/orchestrator/ai_enforce.go:118-137 | a budget that gates a request counts every record of the instance it creates whenever its reference is not blank, and otherwise with one exactly stated exception |
| Governance.VerdictPermutes | internal/orchestrator/ai_enforce.go:157-239 | the verdict does not depend on the order of policies, quotas, budgets, instances or usage rows |
| Governance.MoreRulesNeverUnblock | internal/orchestrator/ai_enforce.go:157-239 | adding policies, quotas or budgets never lets a blocked request through |
| Governance.ZeroBudgetExactly | internal/orchestrator/ai_enforce.go:64-69 | a budget without a positive limit changes the verdict of either gate only if its threshold is not positive |
| SeatQuota.Instances.ProvisionAIRequest | internal/orchestrator/ai.go:382-458 | refused exactly when governance blocks on the table at entry; otherwise the active instance joins the table as other callers left it, or adds nothing, a provider failure exactly when the first request after the gate fails and an insert failure exactly when the second does |
| SeatQuota.Instances.RevokeAIInstance | internal/orchestrator/ai.go:670-717 | succeeds exactly for an instance active or suspended at entry whose provider agrees and that still exists, and changes only its status in the table as other callers left it |
| SeatQuota.FirstNonEmptyExactly | internal/orchestrator/account.go:308-315 | owner and workspace are the first text given that is more than white space |
| SeatQuota.GatePassesBelowLimit | internal/orchestrator/ai_enforce.go:203-210 | an open gate has seen fewer active instances than the rounded-up quota |
| SeatQuota.OvershootBounded | internal/orchestrator/ai.go:411-448 | with at most k calls between gate and insert, active instances never exceed ceil(L) + k - 1, over all grants, failures and revokes |
| SeatQuota.OvershootReached | internal/orchestrator/ai.go:411-448 | for every positive quota and every k there is a run that ends at exactly ceil(L) + k - 1 |
| GatewayBudget.CoveredIffCounted | internal/orchestrator/ai_enforce.go:118-126 | a budget counts a provider's gateway rows exactly when the gate covers the provider or the budget refers to it by id |
| GatewayBudget.RowRaises | internal/orchestrator/ai_governance.go:1113-1163 | a gateway row never lowers a budget's spend, and raises it by at most its cost and only if the budget counts it |
| GatewayBudget.OverspendBounded | internal/orchestrator/ai_governance.go:950-1008 | calls of cost at most c, at most k in flight: the spend of a budget that refers to no provider by id stays strictly below hardPct * limit / 100 + k * c throughout a period |
| GatewayBudget.OverspendReached | internal/orchestrator/ai_governance.go:950-1008 | from any spend below the threshold, for a provider without an imported figure, there is a run that adds exactly k * c |
| GatewayBudget.ByIdUnbounded | internal/orchestrator/ai_governance.go:950-1008 | for a budget that refers to a provider by id, calls made one at a time exceed any amount |
| GatewayBudget.ClosedGateStaysClosed | internal/orchestrator/ai_enforce.go:245-260 | once a budget closes the gate it stays closed while only gateway rows are added |
| Import.UsageTable.ImportCosts | internal/orchestrator/ai_governance.go:490-517 | the loop deals with a prefix of the items and leaves table and counters as the item-by-item specification says; it stops early exactly when an operation failed, and makes one operation for a recorded item and two for a new one |
| Import.RecordedExactly | internal/orchestrator/ai_governance.go:495-497 | which row makes an item count as recorded |
| Import.KeyText | internal/orchestrator/ai_governance.go:494 | the import key of an item, spelled out |
| Import.RowCarries | internal/orchestrator/ai_governance.go:503-511 | what the row of an item carries: its value as cost and quantity, its bucket's period, and a source that supersedes estimates |
| Import.ImportReplacesEstimate | internal/orchestrator/ai_governance.go:172-190 | so importing an item replaces the provider's estimate of the period by the item's value |
| Import.ImportRecords | internal/orchestrator/ai_governance.go:490-517 | rows are only appended, every item dealt with is recorded, and imported plus skipped is the number of items |
| Import.ImportResumes | internal/orchestrator/ai_governance.go:490-517 | a second run after a complete or interrupted first one leaves the table of a single run; after a complete one it imports nothing and skips everything |
| Import.SameKeyExactly | internal/orchestrator/ai_governance.go:494 | two items are taken for one another exactly when period and position agree and project and line join to the same text |
| Import.AllImportedExactly | internal/orchestrator/ai_governance.go:494-502 | every item becomes a row exactly when none was recorded before and no two share a key |
| Import.NothingLost | internal/orchestrator/ai_governance.go:490-517 | a report whose buckets cover different periods loses nothing, whatever its texts |
| Import.ClashLosesCharge | internal/orchestrator/ai_governance.go:494 | a report with two buckets of one period in which a charge is never recorded |
| Checks.Run | internal/checks/checks.go:130-158 | subject by subject, the applicable checks' results in order, none for destroyed subjects |
| ChecksCases.RunExactly | internal/checks/checks.go:132-156 | one more check adds one result to a subject, with the check's and the subject's fields and the check's verdict, unless the subject is destroyed or of another kind |
| ChecksCases.EntriesExactly | internal/checks/checks.go:254-293 | what each group and each check summary holds |
| ChecksCases.NamesInOrder | internal/checks/checks.go:234-260 | names stand in order of first appearance |
| ChecksCases.PercentExactly | internal/checks/checks.go:199-205 | the percentage that passed, and 100 when nothing counts |
| Checks.RunConcat | internal/checks/checks.go:130-158 | lists of subjects may be evaluated apart and joined |
| Checks.RunPermutes | internal/checks/checks.go:130-158 | permuting subjects permutes the results |
| Checks.DestroyedCountForNothing | internal/checks/checks.go:133-135 | dropping the destroyed subjects beforehand changes nothing |
| Checks.Score | internal/checks/checks.go:209-307 | one pass with totals and four maps of counters yields, for every breakdown and key, exactly the counts of that key's results, groups in order of first appearance, then stably sorted |
| ChecksCases.CountsExactly | internal/checks/checks.go:221-272 | what one more result does to every count: "pass" passes, "skip" does not count, anything else fails, with blank accounts and environments under their stand-in names |
| ChecksCases.SeveritiesExactly | internal/checks/checks.go:27-37 | critical before warning before info before anything else |
| ChecksCases.GroupNamesExactly | internal/checks/checks.go:234-260 | the groups are the names that counted results have |
| ChecksCases.FirstResultSpeaks | internal/checks/checks.go:257-260 | a check's summary takes its texts from the first counted result of that check |
| Checks.BreakdownConserves | internal/checks/checks.go:209-307 | each breakdown's passed and failed sum to the overall figures, and those are the results that were not skipped |
| Checks.CheckSummariesConserve | internal/checks/checks.go:259-293 | the same for the per-check summaries |
| Checks.ScoreIsWeightedMean | internal/checks/checks.go:199-307 | the overall score is the mean of each breakdown's scores weighted by their counts, so it lies between their least and their greatest |
| Checks.FailuresOrdered | internal/checks/checks.go:295-302 | failures are a permutation of exactly the failing results, by severity and then check id, ties in their original order |
| Checks.WorstFirst | internal/checks/checks.go:303-305 | groups are a permutation ordered by score, ties in order of first appearance |
| Checks.SubjectOrderIrrelevant | internal/checks/checks.go:130-307 | permuting subjects changes no total and no group's counts |
| Luhn.LuhnValid | internal/orchestrator/ai_dlp.go:37-57 | the backward loop accepts exactly the texts whose digits number at least 13 and satisfy the checksum of ISO/IEC 7812-1, Annex B |
| Luhn.ChecksumByPairs | internal/orchestrator/ai_dlp.go:40-54 | from the right, every first digit counts as it is and every second doubled, less nine above nine |
| Luhn.KnownNumber | internal/orchestrator/ai_dlp.go:37-57 | a known card number is accepted, with and without blanks |
| Luhn.ZerosAccepted | internal/orchestrator/ai_dlp.go:56 | thirteen digits are the fewest accepted |
| Luhn.SingleDigitDetected | internal/orchestrator/ai_dlp.go:37-57 | changing any one digit of an accepted number makes it rejected |
| Luhn.TranspositionDetected | internal/orchestrator/ai_dlp.go:37-57 | swapping two neighbours of an accepted number leaves it accepted exactly when they are equal or a 0 and a 9 |
| Luhn.TypoRejected | internal/orchestrator/ai_dlp.go:37-57 | the same for a mistyped digit in a text with separators |
| Luhn.SwapInText | internal/orchestrator/ai_dlp.go:37-57 | the same for swapped digits in a text, whatever separates them |
| Luhn.SeparatorIrrelevant | internal/orchestrator/ai_dlp.go:43-46 | a character that is no digit makes no difference anywhere |
| Redact.RedactDLPString | internal/orchestrator/ai_dlp.go:61-78 | the patterns in order, then the card runs that pass the Luhn test, are replaced by tokens and counted by kind |
| Redact.CardsExactly | internal/orchestrator/ai_dlp.go:68-76 | piece by piece: a run with at least 13 digits and a checksum divisible by ten comes out as "[REDACTED:credit_card]" and is one hit, every other run and the text between as it is |
| Redact.OneRunExactly | internal/orchestrator/ai_dlp.go:70-76 | the same of a text that is one card-shaped run |
| Redact.KnownNumberRedacted | internal/orchestrator/ai_dlp.go:70-76 | for instance, a well-known number |
| Redact.FirstPatternExactly | internal/orchestrator/ai_dlp.go:62-67 | each match of the first pattern comes out as "[REDACTED:name]" and is one hit of that name, and the rest of the rules work on the result |
| Redact.WalkRedact | internal/orchestrator/ai_dlp.go:104-121 | in place on the heap: every container stays where it is, the tree it holds becomes the redacted tree, and the hits grow by the sum over its strings |
| Redact.EveryLeafRewritten | internal/orchestrator/ai_dlp.go:104-121 | the redacted tree has exactly the paths of the original; at each, the same kind and keys, a string cleaned, any other leaf unchanged |
| Redact.NoHitsNoChange | internal/orchestrator/ai_dlp.go:92-95 | a tree without a hit is left exactly as it was |
| Redact.RedactDLP | internal/orchestrator/ai_dlp.go:85-102 | fails closed exactly when something was found and the result cannot be encoded; otherwise forwards the redacted tree, or the original exactly when nothing was found or it is not JSON; a decoded original that is forwarded equals its redaction |
| Sorting.StableSortUnique | internal/checks/checks.go:295-305 | an ordered arrangement with ties in their original order is unique |

## Left out

Assumptions:

- Text is ASCII: `ToLower`, `EqualFold` and `TrimSpace` treat no other characters.
- Money, percentages and scores are `real`: rounding is not modelled.
- The clock does not cross a period boundary within one decision or run.
- Callers are unscoped: `scopeTenant` and `tenantVisible` are not part of this model.
- Enforcement reads succeed. The code skips a gate whose list cannot be read; here every list is present.
- Only `Allocate` and `Release` write the pool.
- Stored JSON is already decoded: a policy's rule is readable or not, a usage row's `raw` is its string fields.
- DLP patterns are arbitrary functions that divide a text into matches and the rest; `regexp` itself is not part of this model.
- A decoded request is a tree: no container is shared, as `encoding/json` produces it.

Contracts that state less than they might:

- Ipam.Linearizable: its callers are those for whom the empty key is neither free nor their own, which every caller is on a pool of CIDR keys; by IpamPool.EmptyKeyExactly these are exactly the callers that can always be served as promised. All theorems about the protocol share this.
- Ipam.AllocateIdempotent: assumes a non-blank owner, for whom alone it holds; Ipam.BlankOwnerLosesItsBlock and Ipam.HeldIffRealOwner show why.
- Ipam.RealTimeOrder: leaves open where a call that failed with its write still under way falls, since the write may land at any later time.
- IpamPool.OutcomeIsAtomic: assumes the same of its caller and pools.
- Jobs.RunsAreSafe: is about blocks from the pool; an explicit VPC CIDR in the account's spec bypasses the pool and is not tracked. Workspaces are not blank, and the pool is configured.
- Jobs.DestroyedHoldsExactly: assumes that no late write of the workspace lands meanwhile.
- Account.Service.ProvisionAccount: the four lookups are one outcome; the spec's validation, the stored outputs and the team access granted afterwards are not modelled.
- Account.Service.DestroyAccount: the lookups are one outcome; the account id and block recovered from the stored result, which only the provider sees, are not modelled.
- GatewayBudget.OverspendBounded: assumes non-negative costs; GatewayBudget.ByIdUnbounded is the case of a budget by id.
- Conservation.SpendConserved: is the case of budgets by name; Conservation.ConservedExactly is the general statement.
- SeatQuota.Instances.ProvisionAIRequest: the usage records it writes afterwards and the secret it stores are not modelled.
- Usage.AiCostUSD: the two passes of the one function are two methods.
- Checks.Score: the counters are values in maps, where the code keeps pointers to structs; the stable sorts are calls of the specified sort.
- Redact.RedactDLP: decoding and encoding are given by their outcome.

Not modelled:

- The Anthropic and LiteLLM imports, which repeat the OpenAI record loop with other keys.
- `ReapExpiredAIInstances`, suspending and extending instances, and access reviews.
- The audit log, events, notification and the texts of messages and retry hints.
- The model price table and the token counting that give a gateway call its cost.
- The built-in checks: a check is any function from a subject to a status and a message.
- HTTP handlers, the command line, the web interface, and the database and job-queue layers.
- The Vault transport: the store is a versioned map whose requests may fail before or after taking effect.
- The cache, CDN, certificate and API gateway orchestrators.
