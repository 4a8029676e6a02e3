# OpenTitan utilities: models and proofs

A Dafny model of five pieces of the OpenTitan tooling, with proofs of what they are for.

| part | modules | source |
|---|---|---|
| SECDED code generator | `Bits`, `ParityWidth`, `Secded`, `HammingCode`, `Combinations`, `HsiaoCode`, `IdealFanIn` | util/design/secded_gen.py |
| dvsim job scheduler | `JobGraph`, `JobTables`, `JobLookup`, `Apportion`, `DispatchPass`, `PassTurns`, `LateQueues`, `JobOutcomes`, `Scheduling`, `CoverageRun` | util/dvsim/Scheduler.py |
| SPI bootstrap, host and boot ROM | `SpiFrames`, `SpiBootstrap` | util/fpga/cw_spiflash.py, sw/device/boot_rom/bootstrap.c |
| wildcard expansion | `WildcardText`, `Wildcards`, `WildcardSubst` | util/dvsim/utils.py |
| Keccak constants, multi-registers | `KeccakRc`, `MultiReg` | util/design/keccak_rc.py, util/reggen |

`Basics` holds `Option` and `Distinct`. `dafny verify dfyconfig.toml` checks everything.

## Main results

- **Error correction.** For every data word and every error pattern of at most two bits, the emitted
  encoder and decoder correct one flip and report two, for every list the Hsiao generator can return
  with a sufficient width (`HsiaoCode.FinishedIsSecded`) and for the Hamming generator
  (`HammingCode.HammingExact`). The generated assertions state the same, but only for nearly
  one-hot data.
- **The Hamming generator's widths.** `verify` accepts every `m` at or above the minimum. Among the
  widths with `2^(m-1) >= k+m` the generator is correct if and only if `2^(m-2) < k+m`. The minimum width
  always qualifies, and so does the next one when the minimum is used up exactly (k=4, m=5). For wider
  codes the list is too long, the overall parity mask gets its own position twice, the sum carries,
  and the position drops out (`HammingCode.LooseLayout`).
- **Ideal fan-in.** `ideal_fanin` is exact: no k different odd tuples do better
  (`IdealFanIn.FanInLowerBound`), and whenever the retry loop is entered some shuffle passes its test
  (`IdealFanIn.RetryCanSucceed`, by an exchange argument on set families). So with a fair source of
  randomness the generator always ends (`IdealFanIn.FairEnds`).
- **Scheduler.** One invariant, `Scheduling.Scheduler.Valid`, is kept by every operation. It says that
  the tables and `item_to_status` agree, that an item has a status only when its dependencies have
  finished, that an item without one still waits for a dependency, that each item is launched at most
  once and only if it may run, and that nothing passes or fails without a launcher saying so. Hence there are no
  stuck runs, and `run` ends with every item finished. Without an interrupt every item that is launched without
  failing ends with its launcher's answer, and every other item is killed for a reason (`JobOutcomes.Outcomes`). Polling starves no target: one with running
  items is polled within as many rounds as there are targets (`Scheduling.PolledWithin`).
- **Slots.** A dispatch pass launches exactly the sum, over the targets, of the smaller of its share and
  the items in its queue that may run (`DispatchPass.AllTakenCount`). Hence, if no launch fails, more jobs
  run than `max_parallel` if and only if that sum exceeds the free slots (`LateQueues.OverrunExact`,
  `Scheduling.Scheduler.Dispatch`). If every turn finds its share, that is when the weight that comes late does not
  round away (`LateQueues.OverrunWhenFull`). Weight comes late when a cancellation fills a queue that was empty as the
  total was taken; without late weight `max_parallel` is a bound (`LateQueues.NoOverrun`).
- **Late weight.** It never comes from a calm state, in which nobody would be queued in a target with an
  empty queue even if all queues were served to the end, whatever the number of slots and whichever launches
  fail (`LateQueues.CalmNoneLate`). From every other state it comes as soon as the shares exceed what
  could be served (`LateQueues.LateExact`, `EnoughIsRoomy`). Late weight need not break the bound: with as
  many free slots as there are items nothing does (`LateQueues.EnoughSlots`).
- **More jobs than allowed.** `CoverageRun.RunsTooMany` drives a scheduler with three slots from its
  constructor to more than three running jobs, with a deploy list of two configurations with coverage.
- **Missing key.** In a layered graph some sequence of launches, cancellations and final answers ends with a
  failing lookup of the finished item's configuration in the next target, if and only if some item before the
  last target has no dependant (`JobLookup.CoveredExact`), as in GUI mode (`JobLookup.GuiModeFails`).
- **Bootstrap.** Under arbitrary detectable corruption in both directions the device accepts a prefix
  of the frames, in order and each once, and at the end at most the last data frame is missing: exactly
  when the last transfer before the end frame was of that frame and corrupted it
  (`SpiBootstrap.LastLostIff`). No error is reported then; corrupted acknowledgements alone never lose
  anything.
- **Wildcards.** The left-to-right rescan gives the normal form of the string: what replacing wildcards by
  their values, in any order, leads to (`Wildcards.ExpandIsNormalForm`). It fails exactly when a bad chain of
  names can be reached. Expanding a dictionary in place against itself gives the same
  dictionary in every key order, also where a value is a list or a nested dictionary and what it prints as
  is expanded only in part (`WildcardSubst.DictConfluent`).

## Where the code and its documentation differ

- util/dvsim/utils.py says that wildcard names may contain a backslash; its regular expression accepts letters,
  digits and underscores only, and so does the model.
- The frame number has 31 bits for counting, but the four-byte flash offset overflows first: sending
  works if and only if `chunks * 2008 < 2^32` (`SpiFrames.FramesExist`). Below that bound the 24 bits of
  the frame number that the boot ROM compares are enough.
- The comment in util/fpga/cw_spiflash.py says that the all-0xFF frame avoids a corrupted last frame halting the
  bootstrap; the last data frame is nevertheless never confirmed.

## Assumptions

- The scheduler's items form layers: dependencies in scope lie in the previous target of the same
  configuration, and every later item has one (`JobGraph.Layers`, the shape built at
  util/dvsim/SimCfg.py:483-495). Every operation after construction also assumes that somebody depends on
  every item before the last target (`JobGraph.Covered`), which is exactly what keeps the lookup at
  util/dvsim/Scheduler.py:279 from failing.
- A launcher answers any of `D`, `P`, `F`, `K`. Which launches fail is an arbitrary set (`broken`); each
  item is launched at most once. For termination each job answers `D` a finite number of times, unknown to
  the scheduler (`patience`).
- The digests of the frames of one image differ pairwise and from the all-zero word; a corrupted frame
  fails its digest check; a corrupted acknowledgement is not the digest of a frame of the image. Only
  finitely many transfers are corrupted: the script of faults may be any finite list.
- Braces in strings to be expanded occur only in complete wildcards, and `eval_cmd` only if it is ignored.

## Model

| member | source | states |
|---|---|---|
| `ParityWidth.MinParitySize` | util/design/secded_gen.py:84-90 | the result is the smallest width in 3..10 with 2^(m-1) >= k+m, and -1 exactly when there is none |
| `ParityWidth.CoverageGrows` | util/design/secded_gen.py:84-90 | every wider code also covers k, so comparing with the minimum is a sound test |
| `Secded.CalcBitmasks` | util/design/secded_gen.py:121-131 | the loops compute, per parity bit, the sum of the powers of two of its codes, plus its own position for the decoder |
| `Secded.AddCode` | util/design/secded_gen.py:124-126 | one code adds its power of two to the mask once per occurrence |
| `Secded.FaninMaskBit` | util/design/secded_gen.py:124-126 | for increasing tuples the sum carries nothing: bit i of mask j is set exactly when code i names j |
| `Secded.DecMaskBit` | util/design/secded_gen.py:121-131 | a decoder mask selects exactly the bits that feed the parity bit, and the parity bit itself |
| `Secded.Encode` | util/design/secded_gen.py:229-236 | the sequence of assignments to `data_o`, each reading the word as updated so far, gives `EncodeWord` |
| `Secded.EncodeSettled` | util/design/secded_gen.py:229-236 | an assigned parity bit is never changed by a later assignment, and the data stays in front |
| `Secded.CleanSyndrome` | util/design/secded_gen.py:229-262 | a word as encoded has syndrome zero, also where a parity bit is computed from other parity bits |
| `Secded.SyndromeFlip` | util/design/secded_gen.py:256-262 | flipping bit i of any word adds column i to the syndrome |
| `Secded.CalcSyndromeBit` | util/design/secded_gen.py:239-241 | the number printed for a code has exactly the bits the code names |
| `Secded.LiteralIsColumn` | util/design/secded_gen.py:265-268 | the literal the syndrome is compared with for data bit i is the column of bit i |
| `Secded.NoError` | util/design/secded_gen.py:244-281 | an untouched codeword decodes to its data with no error reported |
| `Secded.OneError` | util/design/secded_gen.py:244-281 | one flipped bit, data or parity, is corrected, reported as a single error, and its column is the syndrome put out |
| `Secded.TwoErrors` | util/design/secded_gen.py:244-281 | two flipped bits are reported as a double error, the data is put out as received, and the syndrome is the sum of the two columns |
| `Secded.EncodedParity` | util/design/secded_gen.py:229-236 | the codeword starts with the data and each parity bit is set exactly when an odd number of the bits feeding it are |
| `Secded.AnyErrors` | util/design/secded_gen.py:244-281 | whatever the error pattern, the syndrome put out is the sum of its columns, and exactly the data bits whose column that is are flipped |
| `Secded.HandlesUpToTwo` | util/design/secded_gen.py:690-704 | all generated assertions, in both directions, for every error pattern of weight at most two |
| `Secded.SecdedFromColumns` | util/design/secded_gen.py:690-704 | columns that differ pairwise, with odd parity (Hsiao) or all feeding the last parity bit (Hamming), are enough for the assertions on every data word |
| `HammingCode.GenerateHamming` | util/design/secded_gen.py:477-515 | the nested loops return `HammingCodes`: data positions by increasing number, then the codes for the final parity bit |
| `HammingCode.Pow2IsPow2` | util/design/secded_gen.py:285-286 | the bit trick accepts every power of two |
| `HammingCode.IsPow2Exponent` | util/design/secded_gen.py:285-286 | the bit trick accepts nothing but powers of two |
| `HammingCode.IncludesIsBit` | util/design/secded_gen.py:494-505 | back-tracking to a multiple and testing for odd is bit p of the position; the last parity bit takes all |
| `HammingCode.PositionsCount` | util/design/secded_gen.py:485-488 | how many data positions there are below a bound, by the powers of two below it |
| `HammingCode.PositionsExact` | util/design/secded_gen.py:485-488 | the data positions are, in order, all but the powers of two and the last |
| `HammingCode.CodesExact` | util/design/secded_gen.py:485-515 | for any width the list names, position by position, the bits of the position and the overall parity bit, and then only that |
| `HammingCode.FittingLayout` | util/design/secded_gen.py:477-515 | when 2^(m-2) < k+m <= 2^(m-1) there are exactly k data columns |
| `HammingCode.ColumnIsNumber` | util/design/secded_gen.py:491-512 | each codeword bit's column is the binary form of its position under the overall parity |
| `HammingCode.FittingIsSecded` | util/design/secded_gen.py:477-515 | on those widths the code corrects one error and detects two |
| `HammingCode.LooseLayout` | util/design/secded_gen.py:477-515 | on larger widths the list reaches the last parity bit and the carry clears its own position in its mask |
| `HammingCode.LooseIsNotSecded` | util/design/secded_gen.py:477-515 | on larger widths the code is not SECDED |
| `HammingCode.HammingExact` | util/design/secded_gen.py:477-515 | among widths with 2^(m-1) >= k+m: SECDED if and only if 2^(m-2) < k+m |
| `HammingCode.MinimumWidthWorks` | util/design/secded_gen.py:84-90 | with the width proposed by `min_paritysize` the Hamming code is SECDED, for every k |
| `Combinations.CombosSound` | util/design/secded_gen.py:425 | the candidates of a level are increasing tuples of that size over range(m) |
| `Combinations.CombosComplete` | util/design/secded_gen.py:425 | and all of them |
| `Combinations.CombosDistinct` | util/design/secded_gen.py:425 | each once |
| `Combinations.CombosSorted` | util/design/secded_gen.py:425 | the tuples come in lexicographic order |
| `Combinations.CombosCount` | util/design/secded_gen.py:425 | their number is the binomial coefficient |
| `Combinations.OddSubsets` | util/design/secded_gen.py:84-90 | the odd-size subsets of size three or more number 2^(m-1) - m, which is why 2^(m-1) >= k+m is the right bound |
| `HsiaoCode.CalcFanin` | util/design/secded_gen.py:110-118 | the counters equal the number of occurrences of each parity bit |
| `HsiaoCode.IdealFanin` | util/design/secded_gen.py:93-107 | the loop computes the level-by-level bound `IdealFrom` that the two fan-in theorems are about |
| `HsiaoCode.LevelFanin` | util/design/secded_gen.py:425-430 | a whole level loads every parity bit equally, binomial(m-1, s-1) times |
| `HsiaoCode.LevelDivides` | util/design/secded_gen.py:99-101 | the rounding up on a whole level is exact |
| `HsiaoCode.DoubleCount` | util/design/secded_gen.py:110-118 | counting ones by parity bit and by code gives the same total |
| `HsiaoCode.WithinIdeal` | util/design/secded_gen.py:450-457 | the test passes exactly when no parity bit exceeds the ideal fan-in |
| `HsiaoCode.FindSubset` | util/design/secded_gen.py:436-460 | given that some shuffle fits, the loop ends with the front of the first one that does: the required number of different tuples, within the bound |
| `HsiaoCode.PartOfLevel` | util/design/secded_gen.py:431-463 | completing the last level finishes the code, whatever the shuffles are |
| `HsiaoCode.WholeLevel` | util/design/secded_gen.py:427-430 | taking a whole level keeps the generator's invariant or finishes the code |
| `HsiaoCode.GenerateHsiao` | util/design/secded_gen.py:390-470 | for all shuffles with which it ends: different odd tuples of size three or more, every fan-in within the ideal, k of them if 2^(m-1) >= k+m and otherwise all there are; whole levels in order, then the front of the first shuffle that fits |
| `HsiaoCode.FullLevelsSorted` | util/design/secded_gen.py:419-430 | the whole levels come by the size of their tuples, each in lexicographic order |
| `HsiaoCode.HsiaoIsSecded` | util/design/secded_gen.py:390-470 | every list of k different odd tuples of size three or more is a SECDED code |
| `HsiaoCode.FinishedIsSecded` | util/design/secded_gen.py:390-470 | a finished run with 2^(m-1) >= k+m yields k codes that correct one error and detect two |
| `IdealFanIn.DeficitBound` | util/design/secded_gen.py:93-107 | a list of different tuples is missing no more ones than the full lower levels are |
| `IdealFanIn.WeightLowerBound` | util/design/secded_gen.py:93-107 | the fewest ones k different odd tuples can have |
| `IdealFanIn.FanInLowerBound` | util/design/secded_gen.py:93-107 | in any k different odd tuples some parity bit occurs at least `ideal_fanin(k, m)` times |
| `IdealFanIn.CanSwap` | util/design/secded_gen.py:436-460 | if a is used more often than b, some set can trade a for b and stay different from the others |
| `IdealFanIn.Exchange` | util/design/secded_gen.py:436-460 | one trade moves one unit of fan-in and changes nothing else |
| `IdealFanIn.Balance` | util/design/secded_gen.py:436-460 | any family of s-sets can be traded into one of the same size with every fan-in within the average rounded up |
| `IdealFanIn.GoodShuffle` | util/design/secded_gen.py:445-448 | every level has a shuffle whose front loads no parity bit more than the average rounded up |
| `IdealFanIn.RetryCanSucceed` | util/design/secded_gen.py:419-463 | whenever the retry loop is reached some shuffle passes its test |
| `IdealFanIn.FairEnds` | util/design/secded_gen.py:436-460 | if every reordering comes up sooner or later, the retry loop ends wherever it is reached |
| `JobGraph.InitialSound` | util/dvsim/Scheduler.py:225-239 | before anything is queued exactly the items of the first target wait for nothing |
| `JobGraph.EnqueueSound` | util/dvsim/Scheduler.py:234-239 | queueing an item that waits for nothing keeps the dependency invariant |
| `JobGraph.LaunchSound` | util/dvsim/Scheduler.py:454-458 | launching keeps it, launches nothing twice and nothing that may not run |
| `JobGraph.FinishSound` | util/dvsim/Scheduler.py:379-387 | finishing an item frees exactly the items that waited for it last, all of them still scheduled |
| `JobGraph.MayRunSettled` | util/dvsim/Scheduler.py:310-334 | once an item's dependencies have finished, no later change alters whether it may run |
| `JobGraph.NothingActiveAllDone` | util/dvsim/Scheduler.py:225-308 | no stuck runs: with nothing queued or dispatched every item has finished |
| `JobGraph.WorkMonotone` | util/dvsim/Scheduler.py:115-170 | statuses moving forward never increase the remaining work, and lower it as soon as one item moves or one `D` is used up |
| `JobTables.EnqueueTables` | util/dvsim/Scheduler.py:234-239 | moving an item from scheduled to queued keeps tables and statuses in agreement |
| `JobTables.CancelTables` | util/dvsim/Scheduler.py:512-527 | so does moving a scheduled, queued or popped item to killed |
| `JobTables.HoldTables` | util/dvsim/Scheduler.py:437-446 | so does popping the head of a queue |
| `JobTables.StartTables` | util/dvsim/Scheduler.py:454-456 | so does moving a popped item to running |
| `JobTables.FinishTables` | util/dvsim/Scheduler.py:362-381 | so does moving a running item to the set its final status names |
| `JobTables.SizesAddUp` | util/dvsim/Scheduler.py:68-109 | per target every item is in exactly one of six tables and the sizes add up to the number of items |
| `JobTables.DoneCount` | util/dvsim/Scheduler.py:484-491 | the finished sets reach the total exactly when every item of the target has finished |
| `JobTables.DependantsListed` | util/dvsim/Scheduler.py:275-283 | the dependants of an item that has just finished are all still listed under the next target and its configuration, so the lookup succeeds if there is one |
| `JobTables.KeyPresentIff` | util/dvsim/Scheduler.py:184-198 | a target and configuration can be looked up if and only if one of their items has no status yet |
| `JobLookup.LookupFailsIff` | util/dvsim/Scheduler.py:275-279 | the lookup fails exactly when there is a next target and all its items of that configuration have a status |
| `JobLookup.ReachedKept` | util/dvsim/Scheduler.py:115-170 | every state of such a run keeps the dependency invariant, launches nothing twice and nothing that may not run |
| `JobLookup.NeverFails` | util/dvsim/Scheduler.py:275-279 | from any state that keeps the invariants, the lookup of an item that somebody depends on succeeds, however the item finishes |
| `JobLookup.DelayedFails` | util/dvsim/Scheduler.py:251-290 | delaying an item without dependants until all else up to its target has finished ends in a failing lookup |
| `JobLookup.CoveredExact` | util/dvsim/Scheduler.py:251-290 | in a layered graph some run, of launches, cancellations and final answers in any order, leads to a finishing item whose lookup fails, if and only if some item before the last target has no dependant |
| `JobLookup.GuiModeFails` | util/dvsim/SimCfg.py:475-479 | two builds and the one run that GUI mode keeps: some run leads to a failing lookup |
| `Apportion.ShareMonotone` | util/dvsim/Scheduler.py:430-435 | the running allotment never goes down, so no target gets a negative number of slots |
| `Apportion.ShareNearest` | util/dvsim/Scheduler.py:431-432 | for every sum of weights the allotment is the share rounded to the nearest integer, ties to the even one |
| `Apportion.NearestUnique` | util/dvsim/Scheduler.py:431-432 | there is only one such integer |
| `DispatchPass.GivenNearest` | util/dvsim/Scheduler.py:430-435 | up to every target the slots given are the nearest integer to their share of the weights, so each target gets the difference of two of them |
| `Apportion.RoundWithLateWeight` | util/dvsim/Scheduler.py:400-435 | the allotments add up to at least the free slots, and to exactly them if and only if the weight that came late rounds away |
| `DispatchPass.SameMayRun` | util/dvsim/Scheduler.py:310-334 | whether an item may run depends only on which items have passed, so a pass cannot change it |
| `DispatchPass.ServedCount` | util/dvsim/Scheduler.py:437-446 | a turn takes exactly its share of the items that may run, or all there are |
| `DispatchPass.FoundArrivals` | util/dvsim/Scheduler.py:437-446 | at its turn a queue has grown exactly by the scheduled items whose dependencies are gone, the last of them by being cancelled rather than by a failed launch |
| `PassTurns.FollowsNext` | util/dvsim/Scheduler.py:407-461 | a turn of the scheduler is the next turn of a pass on values, whichever launches fail: statuses, queue and launched items agree |
| `DispatchPass.TakenCount` | util/dvsim/Scheduler.py:400-446 | any number of turns launches the sum of the smaller of share and items that may run |
| `DispatchPass.AllTakenCount` | util/dvsim/Scheduler.py:400-446 | so does the whole pass, whatever the queues hold |
| `DispatchPass.SizeBound` | util/dvsim/Scheduler.py:400-446 | that sum is at most the share of all weight found, and equal to it if and only if every turn finds enough that may run |
| `PassTurns.GoneNext` | util/dvsim/Scheduler.py:437-461 | after a turn exactly those have finished that had before, were cancelled, failed to launch, or were killed with what they depend on |
| `PassTurns.InPassNext` | util/dvsim/Scheduler.py:437-461 | the statuses after a turn are those the pass on values says |
| `LateQueues.Foretold` | util/dvsim/Scheduler.py:437-461 | what happens to an item in a pass, being queued, cancelled, failing or killed, is what would happen if all queues were served to the end |
| `LateQueues.CalmNoneLate` | util/dvsim/Scheduler.py:404-430 | from a calm state no empty queue fills up before its turn, whatever the number of slots and whichever launches fail |
| `LateQueues.Fulfilled` | util/dvsim/Scheduler.py:437-461 | if the shares exceed what could be served and nothing comes late, what would happen to an item does |
| `LateQueues.LateExact` | util/dvsim/Scheduler.py:404-430 | weight comes late never from a calm state and, with shares that exceed what could be served, from exactly the other states |
| `LateQueues.EnoughIsRoomy` | util/dvsim/Scheduler.py:404-432 | there is always a number of slots for which the shares do, so only calm states are safe for every number of slots |
| `LateQueues.OverrunExact` | util/dvsim/Scheduler.py:396-446 | a pass launches more items than slots are free if and only if the smaller of share and items that may run add up to more |
| `LateQueues.OverrunWhenFull` | util/dvsim/Scheduler.py:404-435 | when every turn finds its share, that is when the late weight does not round away |
| `LateQueues.NoOverrun` | util/dvsim/Scheduler.py:404-435 | without late weight no pass launches more items than slots are free |
| `LateQueues.EnoughSlots` | util/dvsim/Scheduler.py:396-446 | with as many free slots as there are items no pass launches more than that, late weight or not |
| `LateQueues.ClearPass` | util/dvsim/Scheduler.py:404-446 | if every queued item may run and no launch fails, a pass finishes nobody and finds the queues as they were |
| `LateQueues.OneQueuePass` | util/dvsim/Scheduler.py:430-446 | one queue alone, with a slot for each of its items, is launched whole and in order |
| `JobOutcomes.AnswerAccounted` | util/dvsim/Scheduler.py:359-388 | a final answer keeps the account of who was killed and why |
| `JobOutcomes.PassAccounted` | util/dvsim/Scheduler.py:393-461 | so does a dispatch pass: whom it kills failed to launch, may not run, or depends over killed items on a failed launch |
| `JobOutcomes.AllAccounted` | util/dvsim/Scheduler.py:115-170 | when all have finished, every item that was launched without failing has its launcher's answer and the others were killed for a reason |
| `JobOutcomes.LaunchedIffMayRun` | util/dvsim/Scheduler.py:310-334 | if no launch fails, exactly the items that may run are launched |
| `Scheduling.GetNextItem` | util/dvsim/Scheduler.py:22-45 | the next element on the circle and its index; an error exactly for the empty list |
| `Scheduling.AddToScheduled` | util/dvsim/Scheduler.py:172-182 | each item once, under its own target and configuration, however often it is named; lists and keys in the order of the items |
| `Scheduling.SumDictLists` | util/dvsim/Scheduler.py:16-19 | in every reachable state the list lengths of a target add up to its items without a status |
| `Scheduling.TotalSizes` | util/dvsim/Scheduler.py:88-94 | the totals are the numbers of items per target |
| `Scheduling.LoggedNext` | util/dvsim/Scheduler.py:354-381 | polling an item that has not answered finally keeps: answers recorded, nobody polled after a final answer |
| `Scheduling.Scheduler.constructor` | util/dvsim/Scheduler.py:50-113 | from any layered list of items: tables that agree and follow its order, polling at its start, the first target's items free to go; and the whole invariant if every item before the last target has a dependant |
| `Scheduling.Scheduler.Census` | util/dvsim/Scheduler.py:68-109 | in every reachable state scheduled, queued, running, passed, failed and killed are disjoint and add up to the total |
| `Scheduling.Scheduler.OkToEnqueue` | util/dvsim/Scheduler.py:292-308 | true exactly when every dependency in scope has finished |
| `Scheduling.Scheduler.OkToRun` | util/dvsim/Scheduler.py:310-334 | true exactly when all dependencies in scope passed, or at least one where that is enough; its lookup and assertion cannot fail |
| `Scheduling.Scheduler.GetSuccessors` | util/dvsim/Scheduler.py:251-290 | exactly the scheduled items that waited for this one last, in the order in which they are scheduled; an error exactly when its configuration is gone from the next target, never if it has a dependant |
| `Scheduling.Scheduler.GetFirst` | util/dvsim/Scheduler.py:264-290 | for no item: exactly the items of the first target, configuration by configuration in the order of the list |
| `Scheduling.Scheduler.RemoveFromScheduled` | util/dvsim/Scheduler.py:184-198 | removes the item from its list, and the list when it is empty |
| `Scheduling.Scheduler.EnqueueAll` | util/dvsim/Scheduler.py:234-239 | queues the freed items, in their order, at the end of one queue, keeping the invariant |
| `Scheduling.Scheduler.EnqueueSuccessors` | util/dvsim/Scheduler.py:225-239 | after it nobody free is left waiting, and only new items became queued, in the order in which they were scheduled |
| `Scheduling.Scheduler.EnqueueFirst` | util/dvsim/Scheduler.py:142 | the items of the first target are queued in their order, and nobody is launched or killed yet |
| `Scheduling.Scheduler.CancelItem` | util/dvsim/Scheduler.py:512-524 | a scheduled, queued or popped item becomes killed and leaves its list |
| `Scheduling.Scheduler.CancelSuccessors` | util/dvsim/Scheduler.py:241-249 | the worklist ends, only items without a status are killed, the invariant holds again, so nobody is left waiting for a killed item alone |
| `Scheduling.Scheduler.KillItem` | util/dvsim/Scheduler.py:529-536 | a running item becomes killed, and only items without a status with it |
| `Scheduling.Scheduler.Conclude` | util/dvsim/Scheduler.py:359-388 | a final answer takes the item off its running list, files it, steps the index back and queues what it freed, in order |
| `Scheduling.Scheduler.PollOne` | util/dvsim/Scheduler.py:354-389 | polls the circularly next running item; a final answer becomes its status, `D` changes nothing; less work is left either way |
| `Scheduling.Scheduler.PollTarget` | util/dvsim/Scheduler.py:352-389 | polls until the target is empty or the polls are used up, counts them, polls only items that were running, and leaves the other running lists alone |
| `Scheduling.Scheduler.Poll` | util/dvsim/Scheduler.py:336-391 | terminates after exactly min(max_poll, running) polls, each of an item that was running at entry; reports a change exactly when a job finished or none is running; every target with running items is polled or comes nearer |
| `Scheduling.PolledWithin` | util/dvsim/Scheduler.py:349-356 | a target with running items is polled within as many rounds as there are targets, even if others take all polls of a round |
| `Scheduling.Scheduler.TakeNext` | util/dvsim/Scheduler.py:439-446 | pops the head: it may run, or it is killed and its successors are queued |
| `Scheduling.Scheduler.TakeRunnable` | util/dvsim/Scheduler.py:437-446 | first come, first served: a front part of the queue is gone, of it exactly the items that may run are taken, in order, and nothing is taken off once the slots are filled |
| `Scheduling.Scheduler.LaunchItem` | util/dvsim/Scheduler.py:455-461 | the item is launched and running; if launching fails it and everything after it is killed and the running lists are as before |
| `Scheduling.Scheduler.LaunchAll` | util/dvsim/Scheduler.py:454-461 | launches exactly the given items in order; those whose launch fails are killed, and with them only items that had no status; running grows by the others |
| `Scheduling.Scheduler.DispatchTarget` | util/dvsim/Scheduler.py:437-461 | serves one queue in order with exactly the minimum of its slots and its items that may run; exactly the popped items that may not run are cancelled, then the others launched |
| `Scheduling.Scheduler.TakeTurn` | util/dvsim/Scheduler.py:407-461 | one turn: the share of all weights up to its own less what was handed out, kept in step with the pass on values |
| `Scheduling.Scheduler.DispatchSlots` | util/dvsim/Scheduler.py:400-461 | the shares add up to the formula for the weight at the start plus the weight that came late; the turns are a pass on values, what it took is launched and what it left is still queued |
| `Scheduling.Scheduler.Dispatch` | util/dvsim/Scheduler.py:393-461 | launches exactly the sum above and running grows by those that succeed; if none fails, more than `max_parallel` run if and only if the sum exceeds the free slots; from every calm state `max_parallel` is kept, whichever launches fail; with a free slot and a queued item some item moves on |
| `Scheduling.Scheduler.Kill` | util/dvsim/Scheduler.py:463-476 | one call leaves every item finished, the scheduled ones included |
| `Scheduling.Scheduler.IdleIsDone` | util/dvsim/Scheduler.py:225-308 | with empty queues and nothing running every item has finished |
| `Scheduling.Scheduler.IdleUnlessQueued` | util/dvsim/Scheduler.py:345-346 | when nothing is running, some queue has an item to dispatch or all have finished |
| `Scheduling.Scheduler.CheckIfDone` | util/dvsim/Scheduler.py:478-510 | true exactly when every item has finished |
| `Scheduling.Scheduler.Round` | util/dvsim/Scheduler.py:143-155 | a pass of the main loop ends the run with every item finished, or leaves strictly less work; without an interrupt it kills nobody without a reason, with one it ends the run and launches and polls nobody; every target with running items is polled or comes nearer |
| `Scheduling.Scheduler.Run` | util/dvsim/Scheduler.py:115-170 | terminates with a final status for exactly the items in scope, at the latest with the first interrupt; without one, every item launched without failing has its launcher's final answer, and every other item was killed because its launch failed, it may not run, or it depends over killed items on a failed launch |
| `CoverageRun.CoverageLayers` | util/dvsim/SimCfg.py:483-495 | two configurations with coverage have the layered shape |
| `CoverageRun.Overruns` | util/dvsim/Scheduler.py:404-446 | with three free slots, three runs that may run behind one that may not, every pass launches more than three jobs |
| `CoverageRun.RunsTooMany` | util/dvsim/Scheduler.py:393-461 | from the constructor, over dispatch passes and final answers, a scheduler with `max_parallel` 3 and no failing launch comes to have more than three jobs running |
| `SpiFrames.LeRoundTrip` | util/fpga/cw_spiflash.py:12-34 | decoding gives back every value that can be encoded |
| `SpiFrames.LeRoundTripBytes` | util/fpga/cw_spiflash.py:12-34 | encoding gives back every byte string |
| `SpiFrames.LittleEndianByte` | util/fpga/cw_spiflash.py:12-22 | byte i is digit i to the base 256, the lowest first |
| `SpiFrames.FrameRoundTrip` | util/fpga/cw_spiflash.py:63-98 | a frame can be made exactly when number and offset fit; it has FRAME_SIZE bytes, carries its digest and decodes to number, offset and padded payload |
| `SpiFrames.MarkerIsSum` | util/fpga/cw_spiflash.py:287-288 | for every frame number that can occur the end marker adds 2^31 |
| `SpiFrames.MarkedBits` | util/fpga/cw_spiflash.py:287-288 | the end frame's number has bit 31 set and every other bit unchanged |
| `SpiFrames.FramesExist` | util/fpga/cw_spiflash.py:80-81 | all frames up to the end frame can be made if and only if chunks * 2008 < 2^32, and which is the first that cannot |
| `SpiFrames.DataFrameFields` | util/fpga/cw_spiflash.py:255-257 | data frame i carries number i, offset i * PAYLOAD_SIZE and chunk i |
| `SpiFrames.EndFrameFields` | util/fpga/cw_spiflash.py:286-288 | the end frame carries the next number with the marker, the offset behind the image and an empty payload |
| `SpiBootstrap.ReceiveData` | sw/device/boot_rom/bootstrap.c:122-184 | the device takes a data frame exactly when it is the expected one, and then holds one chunk more |
| `SpiBootstrap.SmallNumber` | sw/device/boot_rom/spiflash_frame.h:26 | the 24 compared bits determine the frame number of every frame that can be made |
| `SpiBootstrap.WriteExtends` | sw/device/boot_rom/bootstrap.c:155-168 | writing chunk n at its offset extends the flash from n chunks of the image to n+1, the first write after an erase |
| `SpiBootstrap.ReceiveEnd` | sw/device/boot_rom/bootstrap.c:170-174 | the device takes the end frame exactly when it has all data frames; it is then done and holds the image |
| `SpiBootstrap.TransferData` | util/fpga/cw_spiflash.py:262 | after any transfer the device has a prefix of the frames, and the acknowledgement tells which exactly when it is not corrupted |
| `SpiBootstrap.AttemptStep` | util/fpga/cw_spiflash.py:260-282 | the sender leaves the retry loop for frame n only when the device has frame n-1, and no round is without progress |
| `SpiBootstrap.Retry` | util/fpga/cw_spiflash.py:260-282 | the retry loop ends with frames 0..n-1 or 0..n accepted, in order and each once |
| `SpiBootstrap.SendFrame` | util/fpga/cw_spiflash.py:258-285 | the same for the first frame, which waits for nothing |
| `SpiBootstrap.SendFrom` | util/fpga/cw_spiflash.py:255-285 | after the last block at most the last data frame is missing |
| `SpiBootstrap.BootstrapOutcome` | util/fpga/cw_spiflash.py:246-288 | the device finishes if and only if the last data frame and the end frame arrive; then it has accepted all frames once and its flash is the image followed by 0xFF |
| `SpiBootstrap.LastLostIff` | util/fpga/cw_spiflash.py:255-285 | the last data frame is missing exactly when the last transfer of the loop was of that frame and corrupted it |
| `SpiBootstrap.FinishesIff` | util/fpga/cw_spiflash.py:246-288 | as a condition on the faults: the device finishes unless that happens or the transfer of the end frame is corrupted |
| `SpiBootstrap.AckFaultsHarmless` | util/fpga/cw_spiflash.py:264-275 | if only acknowledgements are corrupted the device always finishes |
| `SpiBootstrap.LosesLast` | util/fpga/cw_spiflash.py:255-288 | corrupting the one transfer of the last data frame loses it |
| `SpiBootstrap.LastFrameCanBeLost` | util/fpga/cw_spiflash.py:286-288 | for every non-empty image one corrupted frame makes the sender finish and the device not |
| `SpiBootstrap.TransfersBounded` | util/fpga/cw_spiflash.py:246-288 | N chunks and F faulty transfers take at most N + 1 + 2F transfers |
| `SpiBootstrap.ReadBlock` | util/fpga/cw_spiflash.py:251-256 | the n-th read gives chunk n, and nothing exactly at the end of the file |
| `SpiBootstrap.SendBlock` | util/fpga/cw_spiflash.py:258-283 | the loop with its early exits is `SendFrame` |
| `SpiBootstrap.SendBlocks` | util/fpga/cw_spiflash.py:247-285 | the loop over the file is `SendFrom`, and stops early exactly when a frame cannot be made |
| `SpiBootstrap.Run` | util/fpga/cw_spiflash.py:232-288 | the whole program is `SendFrom` and the end frame; it fails exactly when the image is too large |
| `WildcardText.TokenizeRender` | util/dvsim/utils.py:129 | the regular expression reads back every list of tokens it could have come from |
| `WildcardText.RenderTokenize` | util/dvsim/utils.py:129 | no character of any string is lost in tokens |
| `WildcardText.SearchFindsFirst` | util/dvsim/utils.py:138-146 | the search finds the leftmost wildcard, at its place |
| `WildcardText.MatchExact` | util/dvsim/utils.py:129 | in any string a match is a brace, one or more name characters and a closing brace |
| `WildcardText.SearchExact` | util/dvsim/utils.py:140 | in any string the search finds the leftmost match |
| `WildcardText.NameChars` | util/dvsim/utils.py:129 | names are made of letters, digits and underscores |
| `Wildcards.ExpandConcat` | util/dvsim/utils.py:119-219 | expansion works part by part, the leftmost error first |
| `Wildcards.ExpandSettles` | util/dvsim/utils.py:119-219 | a result contains only ignored wildcards and, with `ignore_error`, unknown ones |
| `Wildcards.SettledExpands` | util/dvsim/utils.py:119-219 | expanding a result again changes nothing |
| `Wildcards.ExpandReaches` | util/dvsim/utils.py:208-216 | a result comes from the string by replacing wildcards by their values, one at a time |
| `Wildcards.ExpandIsNormalForm` | util/dvsim/utils.py:119-219 | expansion gives v if and only if such replacements, in any order, lead to v and leave nothing to replace |
| `Wildcards.FailsIffBadWalk` | util/dvsim/utils.py:153-206 | expansion fails exactly when a chain of names repeats one, meets an unknown one without `ignore_error`, or meets a value that cannot be printed |
| `Wildcards.FailureHasWalk` | util/dvsim/utils.py:153-206 | the error raised names the end of a chain that stops for the reason given |
| `Wildcards.LenientFailures` | util/dvsim/utils.py:153-206 | with `ignore_error` expansion fails exactly when a cycle or an unprintable value can be reached, and reports one that is there |
| `Wildcards.CircularIffCycle` | util/dvsim/utils.py:153-157 | with `ignore_error`, and no unprintable value within reach, the circular error is raised exactly when a cycle of names that are not ignored can be reached |
| `Wildcards.SeenIrrelevant` | util/dvsim/utils.py:208-211 | the list of seen names decides only about failure |
| `Wildcards.ReplaceKeeps` | util/dvsim/utils.py:296-332 | replacing parts of a value by their expansions changes no expansion that succeeds |
| `Wildcards.PartsKeep` | util/dvsim/utils.py:296-332 | a partly expanded value expands to what the value itself expanded to |
| `Wildcards.ReplaceHidesNothing` | util/dvsim/utils.py:296-332 | nor does it hide a failure: a bad chain leaves the value only through parts that stay |
| `Wildcards.StepKeepsTokens` | util/dvsim/utils.py:326-331 | one step in place, whole or in part, keeps success, failure and value of every expansion |
| `WildcardSubst.ValueFine` | util/dvsim/utils.py:98-116 | a printed value, nested lists and the keys of dictionaries included, has braces only in complete wildcards if its strings have |
| `WildcardSubst.JoinFine` | util/dvsim/utils.py:112-113 | the tokens of joined strings are the tokens of each, separated by spaces |
| `WildcardSubst.DecimalReads` | util/dvsim/utils.py:109-110 | numbers are printed in decimal without leading zeros, with a sign if negative |
| `WildcardSubst.JoinConcat` | util/dvsim/utils.py:112-113 | joining puts one space between neighbours |
| `WildcardSubst.PrintedValue` | util/dvsim/utils.py:98-116 | strings print as themselves, lists as their items and dictionaries as their keys; exactly values with something else in them cannot be printed |
| `WildcardSubst.MeaningPrints` | util/dvsim/utils.py:191-206 | a name that is set stands for what its value prints as |
| `WildcardSubst.LookUp` | util/dvsim/utils.py:148-211 | a wildcard is left, replaced by a text that comes from its value by replacements and has none left, or an error, as the recursive meaning says; a None value counts as not set |
| `WildcardSubst.Subst` | util/dvsim/utils.py:119-219 | the scan with its restarts terminates, equals the recursive meaning, errors included, and gives a normal form of the string |
| `WildcardSubst.NormalFormFound` | util/dvsim/utils.py:119-219 | a string that has a normal form is expanded to it |
| `WildcardSubst.ValueMeaning` | util/dvsim/utils.py:304-331 | substituting in any value replaces some parts of what it prints as by their expansions and leaves the others (lists in lists, keys, numbers) |
| `WildcardSubst.SubstExact` | util/dvsim/utils.py:304-331 | substitution gives w if and only if every string outside lists in lists, at any depth of dictionaries, is replaced by its expansion, and keys, positions and everything else are kept |
| `WildcardSubst.EachExpands` | util/dvsim/utils.py:304-331 | if it succeeds every such string can be expanded |
| `WildcardSubst.SomeFails` | util/dvsim/utils.py:304-331 | if it fails one of them cannot, and the error is its |
| `WildcardSubst.SubstitutedAllSettles` | util/dvsim/utils.py:304-331 | afterwards nothing is left to expand in any of them |
| `WildcardSubst.SubstFine` | util/dvsim/utils.py:304-331 | substitution at any depth keeps values well formed, set or not set, and printable or not |
| `WildcardSubst.StoreKeeps` | util/dvsim/utils.py:326-331 | writing the new value into the dictionary keeps it well formed and changes no expansion, although it may be only partly expanded |
| `WildcardSubst.DictConfluent` | util/dvsim/utils.py:296-332 | for every key order the dictionary becomes what the original makes of every value, or fails exactly when one of them fails |
| `WildcardSubst.DictMeaning` | util/dvsim/utils.py:296-332 | for every key order each string becomes its expansion against the original dictionary, and this fails exactly when one of them has none |
| `WildcardSubst.OrderIrrelevant` | util/dvsim/utils.py:304 | two orders of the same keys give the same dictionary, or both fail |
| `WildcardSubst.FindAndSubstitute` | util/dvsim/utils.py:296-332 | the loop that rewrites the dictionary does that, and leaves nothing to expand |
| `WildcardSubst.SubstituteValue` | util/dvsim/utils.py:305-331 | every string in strings, lists and dictionaries becomes its expansion, everything else is left |
| `WildcardSubst.SubstituteItems` | util/dvsim/utils.py:310-327 | of a list, strings and dictionaries are substituted, anything else is kept |
| `WildcardSubst.SubstituteFields` | util/dvsim/utils.py:304-308 | the recursive call on a nested dictionary: its values against the outermost one, its keys kept |
| `WildcardSubst.StrayBracesLoop` | util/dvsim/utils.py:138-216 | with stray braces the loop can turn one string into another and back: there is a next round after any number of rounds |
| `KeccakRc.StepIsFips` | util/design/keccak_rc.py:44-49 | shift and conditional exclusive or is one step of Algorithm 5 of section 3.2.5 of FIPS 202 |
| `KeccakRc.PeriodDivides255` | util/design/keccak_rc.py:40-51 | the register is back at its start after 255 steps |
| `KeccakRc.Periodic` | util/design/keccak_rc.py:63-65 | indexing modulo 255 gives the unbounded stream |
| `KeccakRc.StreamIsRc` | util/design/keccak_rc.py:36-51 | entry t of the stream is rc(t), for every t |
| `KeccakRc.MakeTable` | util/design/keccak_rc.py:36-51 | the 256 table entries are rc(0) .. rc(255) |
| `KeccakRc.RoundConstant` | util/design/keccak_rc.py:60-65 | bit 2^j - 1 is rc(j + 7 round) and every other bit is zero, for every round number |
| `KeccakRc.RoundConstants` | util/design/keccak_rc.py:58-66 | the whole list, as Algorithm 6 of section 3.2.5 of FIPS 202 defines it |
| `MultiReg.ExtractIsDigits` | util/reggen/bits.py:19-29 | mask and shift read the digits from lsb to msb |
| `MultiReg.MakeMulti` | util/reggen/field.py:224-263 | the error is raised exactly when the copies do not fit; otherwise the copies, in order |
| `MultiReg.CopyAt` | util/reggen/field.py:254-257 | copy i is the field moved up by i slots of msb + 1 bits |
| `MultiReg.CopiesApart` | util/reggen/field.py:233-257 | every copy is a valid range inside the register and no two overlap |
| `MultiReg.PackExtract` | util/reggen/bits.py:28-29 | a value packed into a copy is what is extracted from it |
| `MultiReg.MultiRegister.constructor` | util/reggen/multi_register.py:96-118 | the registers cover the count in groups, each at its address, and a compact one never fails to replicate |
| `MultiReg.MultiRegister.MakeReg` | util/reggen/multi_register.py:110-118 | register c holds group c, the last group cut off at the count |
| `MultiReg.MultiRegister.EachIndexOnce` | util/reggen/multi_register.py:107-121 | each index 0..count-1 is in exactly one register, and `next_offset` is behind all of them |

## Left out

- HsiaoCode.GenerateHsiao: k = 0 is excluded: the source then uses a variable it never set. The shuffles are a parameter; runs that never meet a fitting shuffle, which a fair source of randomness excludes, have no result to speak of.
- WildcardSubst.Subst: requires braces only in complete wildcards, because with stray braces the scan may not end; names computed from stray braces are therefore not covered. The `eval_cmd` branch (runs a shell command) and the environment are not modelled: environment values count as dictionary values.
- WildcardSubst.FindAndSubstitute: values are trees, so one nested dictionary shared by two keys is not modelled; printable values that are neither lists nor dictionaries (tuples, sets) are not either.
- Scheduling.Scheduler.Dispatch: the bound on running items carries a proviso, because it is false without it; the exact condition is on the queues that the pass finds.
- LateQueues.LateExact: from a state that is not calm, late weight is promised for shares that exceed what could be served; with smaller shares it depends on the order within the queues.
- Scheduling.Scheduler.Run: item lists in which some item before the last target has no dependant are excluded, because there the source may stop with an error (`JobLookup.CoveredExact`). Termination is relative to launchers that answer `D` finitely often; real launchers, signals, timers and the status printer are not modelled. Targets are numbered in the order in which they are first met. Interrupts are a parameter: before which rounds one comes.
- Scheduling.Scheduler.Valid: includes that every item before the last target has a dependant; what the scheduler does after the lookup has raised its error is not modelled.
- Floating point in `ideal_fanin` and `_dispatch`: exact arithmetic is used, so allotments for huge `max_parallel` are not those of 64-bit floats.
- SystemVerilog and C text, the formal testbench files and clang-format in util/design/secded_gen.py: only the meaning of the emitted assignments is modelled.
- SHA-256, pins, delays and the SPI driver of util/fpga/cw_spiflash.py: the hash is a parameter with the assumptions above. Flash write errors of the boot ROM are not modelled.
- The end frame and the last data frame getting lost: no retry exists in the source, so delivery itself is not provable.
- Names, descriptions, access modes and enumerations of fields, and the parsing of bit ranges in util/reggen: only bits, indices and addresses are modelled.
- util/reggen/reg_block.py, util/design/sparse-fsm-encode.py, topgen, tlgen, vendoring, documentation and report generation: templates, file walking and external tools.
