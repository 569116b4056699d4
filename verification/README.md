# Soufflerie in Dafny

A verification model of the hard core of Soufflerie: the D2Q9 lattice-Boltzmann channel, the lease-fenced
sweep protocol with its artifact store and orchestrator, the service's bounded in-process state, and four
self-contained algorithms. `dafny verify dfyconfig.toml` checks the whole project with Dafny 4.11.

## What is modelled

**The flow solver** (`Lattice`, `Kinetics`, `ChannelGather`, `ChannelStages`, `ChannelEnds`, `ChannelRefinement`,
`ObstacleAgreement`, `ObstacleChannel`, `Sponge`, `GridSums`, `Conservation`, `Forces`, `MomentumExchange`).
Populations are exact reals on a grid of any size. The fused channel kernel is a function of one cell; the staged
NumPy pipeline (roll, wall overwrite, inlet, outlet, obstacle bounce-back) is a set of methods that write arrays in
place. The main results: the staged pipeline equals the kernel population by population, and with an obstacle exactly
for the masks that a stated condition describes; the ownership table names the rule that wrote each population last;
the inlet of every step drives the prescribed flow; runs of any length are the lattice Boltzmann equation and conserve
mass and momentum; and momentum exchange is exact on every rectangle that encloses the obstacle. A cell of zero
density has no velocity; where NumPy raises and the kernel stores a value that is not a number, the model writes
`None`, and the refinement covers that case.

**The sweep** (`SweepState`, `SweepRuns`, `SweepFencing`, `SweepLeases`, `RunPublication`, `SolveTransaction`,
`ResumePlans`, `SweepSummaries`, `SweepRounds`, `SweepOrchestrator`, `SweepWorkers`, `SweepOvertaken`). One method per
store operation, refined to pure outcome functions; runs are arbitrary interleavings of operations by any number of
workers, with unrelated clocks, and a crash is a worker that issues no more operations. The transaction of a remote
worker is a method that lets other workers act between any two of its steps.

**The service** (`JobRecords`, `JobStore`, `SolveJobs`, `JobStreams`, `JobRetention`, `JobSchedule`, `JobPromises`,
`TokenBuckets`, `RetryAdvice`, `Admission`, `SolveService`). The job manager and the admission controller are classes
whose invariants hold after every operation; a submission asks the controller at the point where the source does, and
over every run of a service the solves admitted are the jobs created, day by day. The event stream runs against any
interleaving of submissions, job steps, expiry and shutdown; resuming at a cursor serves the Last-Event-ID
reconnection of section 9.2 of the WHATWG HTML Standard. The scheduling bound hidden in `expires_at` is proved over
every run of a timed state machine, and then of the manager's own records.

**Algorithms**: lineage ordering (`LineageGraph`, `Lineage`, `LineageOrder`, `LineageVerification`), tensor ranges
(`TensorRanges`), JSON limits (`JsonLimits`), connectivity (`Connectivity`) and area resampling (`Resampling`).

`Wrappers`, `Collections` and `Reals` hold shared result types and small facts.

## Where the code and its description part

* `docs/data/sweep-lifecycle.md:27` calls an attempt ID a random token. The orchestrator numbers it
  (`infra/sweep_execution.py:86`), and the model follows the code.
* With numbered tokens the fence holds only while every claim is in number: it carries the next number, repeats the
  record's own token, or finds nothing claimable. `SweepFencing.FenceHoldsExactly` shows that this is the exact
  condition over every interleaving of numbered claims, and `SweepRounds.RoundsTrack` that the orchestrator's rounds
  meet it whenever workers claim with the tokens of their own round, however often and however late.
  `SweepFencing.StaleClaimDefeatsFence` gives a run in which a queued duplicate of an old claim lets the worker of
  attempt 1 complete attempt 3.
* Leases can be renewed (`docs/data/sweep-lifecycle.md:43`), but no worker renews one. A worker whose solve takes
  longer than ten minutes raises, whatever the solver found, and its attempt stays running on record until somebody
  claims or reaps the case (`SolveTransaction.ExecuteSolve`, `SweepLeases.OverLeaseIsPowerless`).
* The transition table of solve jobs also allows a running job to start again and a queued job to report progress.
  `JobRecords.StartedExactly` and `JobRecords.ProgressedExactly` say exactly when a step keeps the event contract; a
  job's coroutine takes only those steps.
* A sweep summary built while a case succeeds between the final plan and the reading of the records fails its own
  validator. `SweepOvertaken.OvertakenExactly` gives the exact condition for the summary that a sweep reports,
  `SweepOvertaken.RejectedSummary` a run of eight smoke cases.
* The staged obstacle pipeline and the kernel do not agree for every mask. Bounce-back overwrites wall rows that the
  kernel holds; the kernel rebuilds the inlet from populations that came back from an obstacle, the stages rebuild it
  before the bounce; an obstacle at the outlet takes away the density that the outlet divides by.
  `ObstacleAgreement.Compatible` is the exact condition on the mask, and there is a failing input for each of its
  clauses.
* The seconds that a refused client is told to wait do not guarantee admission. `RetryAdvice.AdviceCanFail` is a run
  in which the table is full when they are over. After a rate refusal the advice can be relied on, whatever others
  ask, exactly if the client comes back within one window of the refusal (`RetryAdvice.AdviceReliableExactly`); after
  a full-table refusal it never can (`RetryAdvice.FullAdviceNeverReliable`).

## Model

| member | source | states |
|---|---|---|
| Lattice.DirectionTables | src/soufflerie/solver/lattice.py:42-64 | the opposite table is an involution that negates both velocity components and keeps the weight, and components determine the direction |
| Lattice.EquilibriumMoments | src/soufflerie/solver/_warp_backend.py:13-24 | the equilibrium has exactly the density, momentum and Euler stress it is built from |
| Lattice.CollisionConserves | src/soufflerie/solver/_warp_backend.py:108-136 | collision keeps density and both momenta of its cell for every relaxation rate, and is defined exactly at nonzero density |
| Lattice.EquilibriumExpanded | src/soufflerie/solver/_warp_backend.py:13-24 | the equilibrium is a linear form in density, momentum and Euler stress |
| Lattice.ZouHeExact | src/soufflerie/solver/boundaries.py:161-176 | the reconstruction has exactly density rho, momentum rho times u and no cross momentum, and reads none of what it replaces |
| Lattice.RegularizeIsProjection | src/soufflerie/solver/boundaries.py:179-205 | regularization imposes density and momentum, keeps the second-order stress, and does nothing when applied again |
| Kinetics.EquilibriumExactly | src/soufflerie/solver/_warp_backend.py:13-24 | the equilibrium is the one cell with its density, momentum and Euler stress and no higher moment |
| Kinetics.RegularizeExactly | src/soufflerie/solver/boundaries.py:179-205 | the regularized cell is the one cell with the prescribed density and momentum, the stress of the original and no higher moment |
| Kinetics.CollisionRelaxes | src/soufflerie/solver/_warp_backend.py:108-136 | collision relaxes: every population keeps the fraction 1 - omega of its distance to the equilibrium of its own cell |
| Kinetics.CollisionShrinksStress | src/soufflerie/solver/_warp_backend.py:108-136 | the stress beyond the Euler stress keeps the fraction 1 - omega in all three components |
| Kinetics.CollisionRestsExactly | src/soufflerie/solver/_warp_backend.py:108-136 | for omega other than zero a cell is unchanged exactly if it is its own equilibrium |
| ChannelGather.FallbackNeverSurvives | src/soufflerie/solver/_warp_backend.py:65-89 | for every mask, no value read through the out-of-range fallback reaches any cell |
| ChannelGather.OwnerDeterminesValue | src/soufflerie/solver/_warp_backend.py:176-281 | with no solid cells every population is the value that the rule of its owner writes |
| ChannelEnds.KernelStreams | src/soufflerie/solver/_warp_backend.py:65-89 | for every mask, between the two ends a population is that of the cell behind it, or the cell's own opposite one if that is solid or in a wall row; wall rows and solid cells are left alone |
| ChannelEnds.InletFlows | src/soufflerie/solver/_warp_backend.py:207-249 | for every mask the inlet drives the flow: the density is the one for which the known populations carry it; away from the walls the cell has that density, streamwise momentum rho times u, no cross momentum, the stress of the pulled cell with its entering populations, and no higher moment; beside a wall the entering populations that the wall does not own are the stated expressions |
| ChannelEnds.OutletFlows | src/soufflerie/solver/_warp_backend.py:251-277 | for every mask the outlet takes its entering populations from upstream, the wall's links excepted, and is not a number exactly if no density is left there |
| ChannelStages.ChannelBoundaryOwnership | src/soufflerie/solver/boundaries.py:81-112 | the table filled and overwritten in place is the ownership function, corners included; it fails exactly on small grids |
| ChannelStages.PullStreamHalfwayWalls | src/soufflerie/solver/boundaries.py:115-136 | rolling and overwriting gives half-way walls, with the last writer of each population |
| ChannelStages.RegularizeNode | src/soufflerie/solver/boundaries.py:179-205 | the loops with running stress sums compute the regularized cell |
| ChannelStages.ApplyInletOutlet | src/soufflerie/solver/boundaries.py:208-251 | the in-place reconstruction writes the inlet and outlet cells, and fails exactly where an outlet neighbour has no density |
| ChannelRefinement.StagesRefineGather | src/soufflerie/solver/_warp_backend.py:176-281 | cell by cell the staged pipeline is the fused kernel, with any field in place of the fallback |
| ChannelRefinement.PullStreamChannel | src/soufflerie/solver/boundaries.py:254-262 | the staged result is the fused kernel's, its inlet drives the prescribed flow, its last writers are the ownership table, and it fails exactly where the kernel's result is not a number or the input is refused, with the error of each |
| ObstacleAgreement.AgreementExactly | src/soufflerie/solver/obstacle.py:49-77 | bounce-back after the staged pipeline and the fused kernel with solid cells agree at every cell for all populations exactly for compatible masks: no link from the outer rows, the inlet column all solid or clear with its neighbour, the last three columns clear |
| ObstacleAgreement.CompatibleAgrees | src/soufflerie/solver/_warp_backend.py:176-281 | for a compatible mask both are finite alike and equal in all nine populations, at every cell, for every field |
| ObstacleAgreement.WallLinkDiffers | src/soufflerie/solver/obstacle.py:69-74 | every link that starts in a wall row makes them differ, for every field whose two populations along it differ |
| ObstacleAgreement.SolidOutletDiffers | src/soufflerie/solver/boundaries.py:229-251 | a solid cell in the outlet column makes them differ, for every field that leaves no density upstream |
| ObstacleAgreement.NearOutletDiffers | src/soufflerie/solver/_warp_backend.py:251-277 | a solid cell that would stream into the outlet's neighbour makes them differ: a failing field |
| ObstacleAgreement.NearInletDiffers | src/soufflerie/solver/_warp_backend.py:207-249 | a solid cell that would stream into a fluid inlet cell makes them differ: a failing field |
| ObstacleChannel.ValidateLinks | src/soufflerie/solver/obstacle.py:30-46 | links are accepted exactly when each runs from a fluid cell to a solid one |
| ObstacleChannel.ApplyObstacleBounceBack | src/soufflerie/solver/obstacle.py:49-77 | the in-place writes bounce exactly the listed links and restore solid cells |
| ObstacleChannel.StreamAroundObstacle | src/soufflerie/solver/obstacle.py:88-121 | for every mask the enumerated links, channel streaming and bounce-back give the bounced channel, refused exactly where the channel is; for a compatible mask they give the kernel's populations |
| Sponge.StrengthRises | src/soufflerie/solver/boundaries.py:279-290 | the profile rises strictly from zero to its maximum |
| Sponge.StrengthQuadratic | src/soufflerie/solver/boundaries.py:279-290 | the profile is quadratic: 0.15 times the square of the way through |
| Sponge.SpongeRelaxes | src/soufflerie/solver/_warp_backend.py:152-173 | in the inner rows of its columns each population keeps the fraction that the quadratic profile leaves of its distance to the inlet equilibrium, and nothing else changes |
| Sponge.SpongeShrinksDeviation | src/soufflerie/solver/_warp_backend.py:152-173 | the sponge shrinks a cell's deviation from the inlet state by exactly its strength, in all three moments |
| Sponge.ApplySponge | src/soufflerie/solver/boundaries.py:302-329 | the column-by-column relaxation is the kernel's, and is refused exactly on the stated inputs |
| Conservation.StreamPermutes | src/soufflerie/solver/_warp_backend.py:139-149 | periodic streaming is a permutation in each direction: it keeps the sum of every function of a population |
| Conservation.StreamConserves | src/soufflerie/solver/_warp_backend.py:139-149 | periodic streaming keeps every direction-weighted total |
| Conservation.StreamMoves | src/soufflerie/solver/_warp_backend.py:139-149 | periodic streaming moves every population one cell along its own direction |
| Conservation.CollisionKeepsTotals | src/soufflerie/solver/_warp_backend.py:108-136 | collision of the grid keeps total mass and momentum |
| Conservation.RunConserves | src/soufflerie/solver/_warp_backend.py:108-149 | total mass and momentum are the same after any number of collide-and-stream steps |
| Conservation.RunIsBoltzmann | src/soufflerie/solver/_warp_backend.py:108-149 | a run is the lattice Boltzmann equation: at every step each population goes one cell along its direction and keeps the fraction 1 - omega of its distance to the equilibrium of the cell it leaves |
| Conservation.RunGoesOnExactly | src/soufflerie/solver/_warp_backend.py:108-136 | a run goes one step further exactly if none of its cells is empty |
| Conservation.WallStreamingKeepsMass | src/soufflerie/solver/boundaries.py:115-136 | half-way wall streaming keeps the mass of the inner rows |
| Forces.EnumerateObstacleLinks | src/soufflerie/solver/forces.py:101-124 | the nested loops list the links of the grid; they fail exactly on an empty mask |
| Forces.GridLinksExact | src/soufflerie/solver/forces.py:101-124 | the list holds every fluid-to-solid link once, in row, column, direction order, and nothing else |
| Forces.EnumerationAccepted | src/soufflerie/solver/forces.py:59-94 | the list passes the strict key-order check of its own result type |
| Forces.MomentumExchangeForce | src/soufflerie/solver/forces.py:148-177 | the reduction by tiles of 256 links is the plain sum |
| Forces.ExchangeIsLinkTotal | src/soufflerie/solver/forces.py:163-177 | the sum over the list is the sum over the grid of the link populations |
| MomentumExchange.MomentumExchangeExact | src/soufflerie/solver/forces.py:148-177 | on every rectangle enclosing the obstacle, fluid mass changes by the flux alone and momentum by the flux minus the computed force |
| SweepState.LocalSweepStateStore.InitializeCase | src/soufflerie/datagen/sweep_state.py:336-354 | creates a pending record of no attempts, stamped with the time, or returns the existing one |
| SweepState.LocalSweepStateStore.ClaimCase | src/soufflerie/datagen/sweep_state.py:410-450 | leaves exactly the claim outcome of the record it read, and every other record alone |
| SweepState.LocalSweepStateStore.RenewLease | src/soufflerie/datagen/sweep_state.py:452-479 | leaves exactly the renewal outcome, which `SweepLeases.RenewedExactly` tells by the fields of the record |
| SweepState.LocalSweepStateStore.SucceedCase | src/soufflerie/datagen/sweep_state.py:481-524 | leaves exactly the success outcome, verification included, which `SweepLeases.SucceedExactly` tells by the fields of the record |
| SweepState.LocalSweepStateStore.FailCase | src/soufflerie/datagen/sweep_state.py:526-573 | leaves exactly the failure outcome, which `SweepLeases.FailExactly` tells by the fields of the record |
| SweepState.LocalSweepStateStore.ReapExpired | src/soufflerie/datagen/sweep_state.py:575-582 | leaves exactly the consequence of an expired lease |
| SweepState.IdentityPatterns | src/soufflerie/datagen/sweep_state.py:31-38 | case, attempt and owner names are exactly the strings of the three patterns |
| SweepLeases.RenewedExactly | src/soufflerie/datagen/sweep_state.py:452-479 | a renewal is granted exactly if the case runs, token and owner are those on record, time is left and the clock is not behind; it then lasts ten minutes from now, and otherwise the record stays |
| SweepLeases.SucceedExactly | src/soufflerie/datagen/sweep_state.py:481-524 | a success is recorded exactly under those conditions and with a verified artifact; a case that has succeeded answers its own digest again and no other |
| SweepLeases.FailExactly | src/soufflerie/datagen/sweep_state.py:526-573 | a failure is recorded exactly under those conditions, and leaves another attempt exactly for the two transient codes marked retryable in the first two attempts; an ended attempt may only repeat the failure on record |
| SweepLeases.ReapedExactly | src/soufflerie/datagen/sweep_state.py:381-408 | reaping ends exactly the attempts whose lease is over, in another attempt or, after three, in failure |
| SweepLeases.ClaimedExactly | src/soufflerie/datagen/sweep_state.py:410-450 | a claim takes exactly a pending case, or one of whose first two attempts the lease is over, under a token not just used, for ten minutes; it finds its own live lease again and no other |
| SweepLeases.ClaimableExactly | src/soufflerie/datagen/sweep_state.py:424-434 | when something can be claimed, by the fields of the record, and then a claim under a new token takes it |
| SweepLeases.OverLeaseIsPowerless | src/soufflerie/datagen/sweep_state.py:361-379 | once its lease is over an attempt is out of everybody's hands: over every run nothing but a claim or a reap changes the record |
| SweepLeases.LiveLeaseExcludes | src/soufflerie/datagen/sweep_state.py:361-379 | while a lease lives nobody but its holder changes the record, over every run |
| SweepRuns.StepKeepsRecordSound | src/soufflerie/datagen/sweep_state.py:108-174 | no operation ever builds an incoherent record, so stamping fails only on clock regression; one failure code per failed attempt |
| SweepRuns.SoundExactly | src/soufflerie/datagen/sweep_state.py:108-156 | a sound record has exactly one of five forms |
| SweepRuns.RunIsSound | src/soufflerie/datagen/sweep_state.py:108-156 | every record of every interleaving is coherent, accounts for its failures, and a success names a published run of its case |
| SweepRuns.RunContinues | src/soufflerie/datagen/sweep_state.py:381-582 | failure history only grows at its end, counters never go back, and succeeded and failed records never change again |
| SweepRuns.AttemptCountsClaims | src/soufflerie/datagen/sweep_state.py:410-450 | the attempt number counts the claims granted, of which there are at most three |
| SweepRuns.CaseRunsAlone | src/soufflerie/datagen/sweep_state.py:381-582 | cases do not interfere: what a run does to one case is what its operations on that case do alone |
| SweepFencing.AttemptNameInjective | infra/sweep_execution.py:82-87 | tokens of one case are equal exactly when their numbers are |
| SweepFencing.DecimalReads | infra/sweep_execution.py:85-87 | the numeral in a token reads as the number of its attempt |
| SweepFencing.NamesRead | infra/sweep_execution.py:85-87 | the parts of a token and of an owner name, at their places |
| SweepFencing.ClaimTracksExactly | infra/sweep_execution.py:82-87 | a claim under any token keeps the token tracking the counter exactly when it carries the next number, repeats the record's own token, or finds nothing claimable |
| SweepFencing.FreshClaimAnswer | src/soufflerie/datagen/sweep_state.py:424-450 | a fresh claim is never refused for its token, and is granted whenever anything is claimable |
| SweepFencing.Fenced | src/soufflerie/datagen/sweep_state.py:361-379 | whoever holds the token of attempt n changes nothing but attempt n itself, while it runs, as its owner and before its lease is over |
| SweepFencing.FenceHoldsExactly | src/soufflerie/datagen/sweep_state.py:361-379 | the fencing theorem: over every interleaving of numbered claims with anything else, no holder of another attempt's token can change a record at any point exactly if every claim carries the next number, repeats the record's own token, or finds nothing claimable |
| SweepFencing.RunTracksExactly | infra/sweep_execution.py:82-87 | over every interleaving tokens track counters throughout exactly when every claim meets that condition when it is made |
| SweepFencing.NextTokensTrack | infra/sweep_execution.py:82-87 | claims that all carry the token that came next at the start, once or many times, live or late, meet it |
| SweepFencing.LostLeaseIsPowerless | src/soufflerie/datagen/sweep_state.py:361-379 | over every run that meets it, whoever holds the token of another attempt than the record's changes nothing |
| SweepFencing.StaleClaimDefeatsFence | src/soufflerie/datagen/sweep_state.py:434-450 | without freshness it can: a concrete run |
| RunPublication.PublicationIsCrashSafe | src/soufflerie/datagen/run_artifact.py:618-673 | over every interleaving, crash and I/O error, a target is absent or a complete run and never changes |
| RunPublication.OpensExactly | src/soufflerie/datagen/run_artifact.py:675-735 | a directory opens as a run exactly if it holds metadata of that digest, the fields it names and a marker for it |
| RunPublication.TargetsAreWhole | src/soufflerie/datagen/run_artifact.py:618-673 | so that is what stands at every target, at every point of every run |
| RunPublication.OnlyCrashesLeaveStaging | src/soufflerie/datagen/run_artifact.py:635-673 | whoever returns or gives up leaves no staging directory behind |
| RunPublication.StepRefinesPublish | src/soufflerie/datagen/run_artifact.py:675-735 | what opens is exactly what was published, the published set only grows, and a new target holds its publisher's own fields and metadata |
| RunPublication.LonePublisherReturns | src/soufflerie/datagen/run_artifact.py:618-673 | an undisturbed publisher finishes, also when the digest was published before |
| SolveTransaction.DurableForever | src/soufflerie/datagen/sweep_state.py:498-524 | a verified success survives every further operation of every worker |
| SolveTransaction.ExecuteSolve | infra/solve_execution.py:141-238 | whatever others do between its steps, a returned reference is the digest of a durable verified success; undisturbed on its case, whatever others do elsewhere, it ends exactly one attempt as its outcome says and leaves exactly its own operations on the case; if its work outlasts the lease it raises and leaves its attempt running; and it answers every claim that is refused or finds nothing |
| SolveTransaction.Settled | infra/solve_execution.py:167-175 | with nothing to claim the answer is the recorded success, whose artifact always verifies, or a retryable refusal |
| SolveTransaction.RefusalsAreFinal | infra/solve_execution.py:228-236 | a store refusal is reported as an integrity or an invariant failure, never a retryable one |
| ResumePlans.SortedAscending | src/soufflerie/datagen/sweep_state.py:620 | sorting distinct cases orders them strictly and keeps them all |
| ResumePlans.PrecedesExactly | src/soufflerie/datagen/sweep_state.py:620 | the order is that of characters at the first difference, beginnings first |
| ResumePlans.SelectPartitions | src/soufflerie/datagen/sweep_state.py:616-639 | every expected case is in exactly one of the four lists |
| ResumePlans.SuccessesPreserved | infra/sweep_execution.py:62-69 | whatever happens between two plans, the later keeps every success and digest of the earlier |
| ResumePlans.PreservedExactly | infra/sweep_execution.py:62-69 | the check passes exactly if every case that had succeeded still has, with the same digest |
| ResumePlans.BuildResumePlan | src/soufflerie/datagen/sweep_state.py:601-641 | the loop's lists are exactly the partition of the reaped records; refused exactly on no or repeated cases |
| SweepRounds.RoundInputs | infra/sweep_execution.py:72-104 | one payload and owner per case: the i-th names the i-th case, carries the token and owner of its next attempt, and forces a failure exactly for the named case; while tokens track counters, each is granted that attempt if it runs first, within the lease |
| SweepRounds.CallsForce | infra/sweep_execution.py:144-168 | only the first round forces a failure, and only of the named case |
| SweepOrchestrator.Rounds | infra/sweep_execution.py:150-175 | up to three rounds, each submitting exactly the claimable cases; every plan keeps the successes of the one before; attempts and resumed cases are those of the calls |
| SweepRounds.InputsAreFresh | infra/sweep_execution.py:82-87 | every payload of a whole call, run by its worker first and within the lease, is granted the attempt its token numbers |
| SweepRounds.RoundsTrack | infra/sweep_execution.py:150-175 | when the claims of each round carry the tokens it submitted, every call is fit to run when it is made, every claim is in number, and tokens track counters after the rounds |
| SweepOrchestrator.RunRound | infra/sweep_execution.py:150-175 | one round submits exactly the claimable cases and plans again, keeping every success |
| SweepSummaries.FailuresAccounted | infra/remote_execution.py:530-537 | failures never exceed attempts, and equal retries when every case has succeeded |
| SweepSummaries.AcceptedExactly | infra/remote_execution.py:509-550 | what the validator asks, by the facts of the summary, and nothing else |
| SweepSummaries.OneRecordCounts | infra/sweep_execution.py:189-195 | what one record counts for: its state, its attempts, those beyond the first, its failures |
| SweepSummaries.CountsAdd | infra/sweep_execution.py:189-195 | and records count for what their parts count together |
| SweepSummaries.ReferencesDistinct | infra/remote_execution.py:526-527 | the references of a plan have different digests |
| SweepSummaries.ReferencesOrdered | infra/sweep_execution.py:182-184 | and come in the order of their cases |
| SweepSummaries.SummaryAcceptedExactly | infra/remote_execution.py:510-550 | the validator accepts the summary exactly when no case succeeded between the final plan and the reading of the records |
| SweepOvertaken.OvertakenExactly | infra/sweep_execution.py:176-239 | the summary a sweep reports tells its course, and is accepted exactly when no case succeeded between the last plan and the reading |
| SweepOvertaken.OvertakenSummaryRejected | infra/sweep_execution.py:107-239 | for every design: a sweep with idle workers reports every case as initial and resumed and three attempts each, and one late worker gets it rejected |
| SweepOvertaken.RejectedSummary | infra/remote_execution.py:510-550 | a reachable instance: eight smoke cases, twenty-four attempts |
| SweepRounds.NothingLeftToClaim | infra/sweep_execution.py:150-175 | if no case starts active and every worker ends durably, three rounds leave every case succeeded or failed |
| SweepWorkers.WorkEnds | infra/solve_execution.py:141-238 | a payload fit to run, worked by its owner within the lease, ends its case, however the other workers are interleaved |
| SweepWorkers.CallCanBeWorked | infra/sweep_execution.py:150-175 | for every outcome of the solver, the payloads of a call can all be worked |
| SweepWorkers.WorkedSweepEnds | infra/sweep_execution.py:107-175 | rounds that do exactly the work they submitted claim with its tokens and end every submitted case, so the whole sweep finishes |
| SweepOrchestrator.SummaryIsTrue | infra/sweep_execution.py:176-239 | references are exactly the durable runs, the validator accepts, failures equal retries on full success |
| SweepOrchestrator.OrchestrateSweep | infra/sweep_execution.py:107-239 | with arbitrary work during each submission, no success is ever lost, the summary always passes its validator and tells counts, references, initial, resumed and skipped cases as they were, all in order; a failure is forced exactly as the request asks; if claims carry the tokens submitted, every submitted payload is fit to run and tokens track counters at the end; nothing stays claimable if workers end |
| JobRecords.ContractsExactly | src/soufflerie/service/contracts.py:85-112 | what the event and status contracts ask of each kind and phase, and nothing else |
| JobRecords.CreatedRecord | src/soufflerie/service/jobs.py:246-258 | a new record shows nothing and has logged one event, stamped with the time |
| JobRecords.StartedRecord | src/soufflerie/service/jobs.py:323-329 | starting is refused exactly for a job that is over; otherwise it logs the record as it leaves it |
| JobRecords.ProgressedRecord | src/soufflerie/service/jobs.py:331-346 | when progress is accepted, logged, or refused with which error, and the record it leaves |
| JobRecords.CompletedRecord | src/soufflerie/service/jobs.py:348-363 | exactly a running job completes, with a result made out to it, and the record it leaves |
| JobRecords.FailedRecord | src/soufflerie/service/jobs.py:365-375 | a job that is not over fails with the code and the retryable flag reported and its own correlation; another is left alone |
| JobRecords.RetainedExactly | src/soufflerie/service/jobs.py:447-459 | a finished record is as it was until an hour after its end, and from then on has expired with nothing to show; no other expires |
| JobRecords.StartedExactly | src/soufflerie/service/jobs.py:323-329 | starting keeps the event contract and order exactly for a queued job |
| JobRecords.ProgressedExactly | src/soufflerie/service/jobs.py:331-346 | progress keeps the event contract and order exactly for a running job |
| JobRecords.CompletedSound | src/soufflerie/service/jobs.py:348-363 | completion logs a valid terminal event last |
| JobRecords.FailedSound | src/soufflerie/service/jobs.py:365-375 | failure logs a valid terminal event last, from queued or running, and nothing once the job is over |
| JobRecords.ExpiredSound | src/soufflerie/service/jobs.py:447-459 | expiry drops the payload and the events and keeps the record's identity |
| JobStore.ExpireAllSound | src/soufflerie/service/jobs.py:461-463 | the sweep expires exactly the records past their retention, an hour by `JobRecords.RetainedExactly`, and leaves active jobs and bindings sound |
| JobStore.TrimSound | src/soufflerie/service/jobs.py:464-466 | trimming drops only expired jobs, only while the store is full, and makes room if it can |
| JobStore.SweptSound | src/soufflerie/service/jobs.py:461-466 | sweeping keeps bindings in correspondence with unexpired keyed records |
| JobStore.SweptOldestFirst | src/soufflerie/service/jobs.py:461-466 | a sweep keeps the order of what it keeps, and drops the oldest expired jobs first |
| JobStore.SweptRetains | src/soufflerie/service/jobs.py:461-466 | a finished job stays through every sweep within the hour after its end, with its binding |
| JobStore.AddSound | src/soufflerie/service/jobs.py:246-258 | a new job keeps every store invariant and adds one active job |
| SolveJobs.SolveJobManager.ExpireAndTrim | src/soufflerie/service/jobs.py:461-466 | the two loops are the sweep |
| SolveJobs.PromiseExactly | src/soufflerie/service/jobs.py:222-237 | the promise counts exactly the batches that the jobs ahead fill, one more, and an hour |
| SolveJobs.AnswerExactly | src/soufflerie/service/jobs.py:212-245 | by the facts of the store: the same job or a conflict under a key in use, full exactly when slots and queue or the store are full, otherwise a job of its own with its promise |
| SolveJobs.KeyPattern | src/soufflerie/service/jobs.py:42 | a valid idempotency key is one to sixty-four letters, digits and punctuation characters of the four allowed, the first a letter or a digit |
| SolveJobs.SolveJobManager.Decide | src/soufflerie/service/jobs.py:218-247 | a replay returns the bound job, a conflict, a full store or a repeated identifier is refused without asking admission; otherwise the controller is asked once, and a new job gets its promised expiry |
| SolveJobs.SolveJobManager.Submit | src/soufflerie/service/jobs.py:197-263 | keeps capacity, retention, bindings and history; the admission controller counts a solve exactly when a job is created, and every other answer but its own refusal leaves it untouched |
| SolveService.Service.Serve | src/soufflerie/service/app.py:448-483 | over every run of a service the solves ever admitted are the jobs ever created, day by day and within each day's budget |
| SolveJobs.SolveJobManager.Start | src/soufflerie/service/jobs.py:323-329 | changes exactly the started record |
| SolveJobs.SolveJobManager.RecordProgress | src/soufflerie/service/jobs.py:331-346 | changes exactly the record, or nothing on refused or repeated progress |
| SolveJobs.SolveJobManager.Complete | src/soufflerie/service/jobs.py:348-363 | changes exactly the completed record, or nothing |
| SolveJobs.SolveJobManager.Fail | src/soufflerie/service/jobs.py:365-375 | changes exactly the failed record, or nothing |
| SolveJobs.SolveJobManager.Status | src/soufflerie/service/jobs.py:265-269 | every polled status meets the status contract; a finished job answers with its record until an hour after its end, and expired from then on |
| JobRetention.RetainedForAnHour | src/soufflerie/service/jobs.py:447-466 | after everything that can happen within the hour, submissions, sweeps, steps and polls, a finished job answers with the record it ended with, and its key still answers for it |
| JobRetention.ExpiredAfterAnHour | src/soufflerie/service/jobs.py:447-459 | from the end of the hour on, whatever has happened, it is found expired with nothing to show, or gone |
| JobStreams.OpenEvents | src/soufflerie/service/jobs.py:271-281 | refuses exactly negative, unknown, expired and leading cursors |
| JobStreams.EventStream | src/soufflerie/service/jobs.py:377-403 | under any interleaving, delivers exactly the events after the cursor, in order, and stops early only on expiry, trimming or departure |
| JobSchedule.RunKeepsFloor | src/soufflerie/service/jobs.py:295-312 | jobs wait only while the semaphore is full, over every run |
| JobSchedule.NeverStuck | src/soufflerie/service/jobs.py:295-312 | the schedule never stops: a job can start, or one is due to end, or time can go on |
| JobSchedule.StartsWithin | src/soufflerie/service/jobs.py:222-237 | a job with m unfinished jobs before it starts within m divided by the width, rounded down, timeouts |
| JobSchedule.PromiseKept | src/soufflerie/service/jobs.py:222-237 | a job is over one timeout later, so its retention ends by the promised expiry |
| JobSchedule.EveryRunKeepsPromises | src/soufflerie/service/jobs.py:295-312 | the same for every arrival pattern and all run times, and executor calls never exceed the width |
| JobPromises.UnfinishedActive | src/soufflerie/service/jobs.py:222-237 | the queued and running records that the manager counts are at least the jobs that are not over |
| JobPromises.SlottedManager.Submit | src/soufflerie/service/jobs.py:197-263 | a created job is admitted to the schedule behind the jobs the manager counts, and promised the expiry that goes with them |
| JobPromises.SlottedManager.Complete | src/soufflerie/service/jobs.py:295-321 | a result ends the job in record and schedule at once; a refused one frees the slot and leaves a failure to record |
| JobPromises.SlottedManager.PromisesKept | src/soufflerie/service/jobs.py:222-237 | in the manager's own records, the retention of every finished job ends by the expiry promised at its creation |
| TokenBuckets.IdleIsFull | src/soufflerie/service/admission.py:459-463 | a bucket idle for a window is full, so forgetting it changes nothing |
| TokenBuckets.EvictionUnobservable | src/soufflerie/service/admission.py:339-383 | over every run the pruned table decides as the limiter that never forgets, except where it is full |
| TokenBuckets.RateBound | src/soufflerie/service/admission.py:339-383 | in any span a client is admitted at most its tokens and the refill of the span |
| TokenBuckets.AdmissionsBounded | src/soufflerie/service/admission.py:339-383 | a client is admitted at most capacity times one plus the span over the window |
| TokenBuckets.OthersLeaveBucket | src/soufflerie/service/admission.py:339-383 | requests of other clients keep a client's bucket as it is until it expires |
| TokenBuckets.LimitedAdviceExactly | src/soufflerie/service/admission.py:376-382 | over every run of other clients' requests, a client that waits as advised is admitted exactly when its bucket is still held or the table has room |
| TokenBuckets.LimitedUntilAdvised | src/soufflerie/service/admission.py:376-382 | until a second before the advised wait is over the client is still refused, whatever it and others ask in between |
| TokenBuckets.LimitedAdviceLeast | src/soufflerie/service/admission.py:376-382 | of the whole numbers of seconds that a client can wait while nobody else asks, those from the advised one on are enough, and no other |
| RetryAdvice.AdviceReliableExactly | src/soufflerie/service/admission.py:376-382 | for every rate refusal and every return as advised, the client is admitted after every run of other clients' requests exactly if it returns within one window of the refusal |
| RetryAdvice.AdviceCanFail | src/soufflerie/service/admission.py:376-382 | a run in which a client waits as advised and finds the table full |
| RetryAdvice.FullAdviceNeverReliable | src/soufflerie/service/admission.py:355-364 | whenever a client returns after a full-table refusal, some run of others leaves the table full |
| TokenBuckets.FullAdviceSuffices | src/soufflerie/service/admission.py:355-364 | waiting the advised seconds after a full-table refusal suffices if nobody touches the table |
| TokenBuckets.FullUntilAdvised | src/soufflerie/service/admission.py:355-364 | and until a second before that wait is over the table is still full |
| Admission.AnswersAreUnpruned | src/soufflerie/service/admission.py:339-383 | everything the controller has ever answered is what the unbounded limiter would have |
| Admission.NextDayAdviceSuffices | src/soufflerie/service/admission.py:483-486 | of the whole numbers of seconds, those from the advised one on reach the next day, and no other |
| Admission.Consume | src/soufflerie/service/admission.py:339-383 | the imperative steps make the pure decision; each refusal comes with the least whole seconds, at least one, of the missing token, the first expiry or the window |
| Admission.AdmissionController.AdmitPrediction | src/soufflerie/service/admission.py:264-279 | decides by the rate alone, answers with its advice and keeps the record of all answers |
| Admission.AdmissionController.AdmitSolve | src/soufflerie/service/admission.py:281-312 | admits exactly within budget, clock and rate, and answers each refusal with its own reason and advice; only admissions count, and no day ever exceeds its count or accelerator seconds |
| Admission.AdmissionController.RatesKept | src/soufflerie/service/admission.py:264-312 | in every stretch of everything ever asked of the controller, a client's admissions stay within its capacity times one plus the span over the window, for predictions and for solves |
| Admission.AdmissionController.Snapshot | src/soufflerie/service/admission.py:314-327 | looking prunes, and no answer ever shows it; it fails exactly when a clock has gone back |
| LineageGraph.GreedyIsLeast | src/soufflerie/artifacts.py:518-530 | always taking the smallest ready digest gives the least topological order |
| LineageGraph.GreedyCompleteExactly | src/soufflerie/artifacts.py:518-530 | it places everything exactly when there is no cycle |
| LineageOrder.Order | src/soufflerie/artifacts.py:518-528 | the loop over counts and a ready heap computes that order |
| Lineage.Index | src/soufflerie/artifacts.py:471-480 | accepts exactly unique digests and identifiers, and blames the first repetition |
| Lineage.IndexIgnoresOrder | src/soufflerie/artifacts.py:471-480 | the index does not depend on the order of the input |
| Lineage.CheckParents | src/soufflerie/artifacts.py:484-513 | accepts exactly the nodes whose parents exist, have their declared types and satisfy the rule, and blames the first fault |
| Lineage.BuildEdges | src/soufflerie/artifacts.py:482-516 | the child sets and counts are those of the graph |
| LineageVerification.VerifyLineage | src/soufflerie/artifacts.py:459-531 | succeeds exactly on well-typed acyclic graphs, reports a cycle exactly on well-typed cyclic ones and otherwise the first fault, and returns the greedy order |
| LineageVerification.AcceptedOrderIsLeast | src/soufflerie/artifacts.py:459-531 | the order is the same for every ordering of the input and no later than any topological order |
| LineageVerification.DefaultRulesExactly | src/soufflerie/artifacts.py:196-207 | which kinds the default rules know, and which parents each may and must have |
| LineageVerification.DefaultPolicyIsAcyclic | src/soufflerie/artifacts.py:196-207 | under the default rules typing alone rules out cycles |
| TensorRanges.ProductJoins | src/soufflerie/artifacts.py:1001 | the size of a shape is multiplicative |
| TensorRanges.ItemSizes | src/soufflerie/artifacts.py:98-107 | bytes per element |
| TensorRanges.ScanExactly | src/soufflerie/artifacts.py:1007-1014 | the sorted scan passes exactly when every byte ahead lies in exactly one range |
| TensorRanges.ScanPassesExactly | src/soufflerie/artifacts.py:1007-1014 | the scan gets through exactly the tilings, up to wherever they end |
| TensorRanges.TilingIsDisjoint | src/soufflerie/artifacts.py:1007-1014 | ranges of an accepted file share no byte |
| TensorRanges.CheckRanges | src/soufflerie/artifacts.py:969-1015 | accepts exactly the tilings of the data region by fitting ranges within both byte caps, and each refusal is characterized |
| JsonLimits.CheckLimits | src/soufflerie/artifacts.py:672-690 | the explicit-stack walk accepts exactly the values within the depth and key limits, and blames the limit exceeded |
| Connectivity.FluidConnectsInletToOutlet | src/soufflerie/geometry.py:342-370 | true exactly when a four-connected fluid path joins the first column to the last within the inner rows |
| Connectivity.ConnectedExactly | src/soufflerie/geometry.py:342-370 | connected means a walk over fluid off the bottom and top rows, from the first column to the last, each step to one of four neighbours |
| Connectivity.ExhaustedMeansDisconnected | src/soufflerie/geometry.py:353-370 | an exhausted search leaves no path |
| Resampling.WeightsFillBin | src/soufflerie/datagen/run_artifact.py:168-175 | the weights of an output are nonnegative and sum to the bin width |
| Resampling.OverlapsFillCell | src/soufflerie/datagen/run_artifact.py:168-175 | the weights of an input over all outputs sum to one |
| Resampling.Conserves | src/soufflerie/datagen/run_artifact.py:152-183 | outputs times the bin width sum to the inputs |
| Resampling.ConservesUpTo | src/soufflerie/datagen/run_artifact.py:152-183 | up to every bin edge outputs times the bin width sum to what the inputs hold below it, which fixes every output |
| Resampling.Bounded | src/soufflerie/datagen/run_artifact.py:152-183 | an output stays within the bounds of its inputs |
| Resampling.AreaResampleAxis | src/soufflerie/datagen/run_artifact.py:152-183 | the loop resamples either axis, and fails exactly on a field too small |
| Resampling.AreaAverage | src/soufflerie/datagen/run_artifact.py:186-198 | both axes together: every entry of the result, the total per output cell area, and the bounds |

## Left out

- Rounding, overflow, infinities and values that are not numbers: real arithmetic throughout; a division by zero density is `None`.
- Array data types, contiguity, device launches and cell-level parallelism: a kernel is a function of one cell.
- Hashing, HMAC, canonical JSON bytes and schema parsing: digests are opaque values. A run digest is the pair of its case and payload, so equal run digests mean equal cases.
- Lineage.Index: the rule that an artifact identifier is a prefix of its digest is not needed and not assumed; identifiers are arbitrary numbers.
- Files, fsync, symbolic links and encodings: the file system is atomic renames and crashes between effects.
- SweepState.LocalSweepStateStore.ClaimCase: the case lock and the atomic replacement of one record are why one method is one step; lock failures are not modelled.
- SweepOrchestrator.OrchestrateSweep: between submissions nobody else acts; dataset building, byte and wall-clock totals and the evidence digest are not modelled.
- SolveTransaction.ExecuteSolve: the numerical solve is a parameter: a result, a typed failure or any other exception.
- SolveJobs.SolveJobManager.Submit: job records are values in a map, not shared objects; the identifier factory never repeats the identifier of a dropped job; the event loop, tasks and semaphore appear in `JobSchedule` instead.
- SolveJobs.SolveJobManager.Submit: which refusal the controller gives is stated by `Admission.AdmissionController.AdmitSolve`, not repeated.
- JobSchedule.EveryRunKeepsPromises: steps and hand-over of a slot take no time; finishing, failing and timing out are one move, and a job may be admitted behind more than the unfinished jobs. The number of records in state running is not bounded by the width, because a failure is recorded after its slot is given up; executor calls are.
- SolveJobs.SolveJobManager.Complete: each locked step reads the clock once.
- SolveService.Service.Serve: every submission comes with a new identifier, as the identifier factory gives it; readers of event streams do not submit and are left to `JobStreams.EventStream`. The web layer's refusal while the service is not ready is not modelled.
- JobPromises.SlottedManager.Submit: shutdown, which cancels waiting and running jobs, is not part of the schedule.
- SweepWorkers.WorkedSweepEnds: no expected case may be active at the first plan, because a worker of an earlier sweep need not end.
- JobStreams.EventStream: waiting and heartbeats are turns in which nothing is delivered.
- Admission.AdmissionController.AdmitSolve: client keys are opaque; proxy headers and address parsing are not modelled.
- TensorRanges.CheckRanges: header parsing, names and declared descriptors are not modelled.
- JsonLimits.CheckLimits: the parser, duplicate keys and non-finite constants are not modelled.
- Resampling.AreaAverage: the casts to and from single precision are not modelled.
- The inlet ramp, Strouhal estimate, rendering, command line, web layer, training and validation pipelines.
