# ktools in Dafny

ktools is a catastrophe-loss pipeline. `eve` deals events to processes, `gulcalc` samples
ground-up losses, `fmcalc` applies policy terms, `summarycalc` aggregates the losses and writes
an index beside its stream, `aalcalc` and `leccalc` compute average losses and exceedance
curves, and `kat` merges the results of the processes. This project models the parts of the
pipeline where the logic is hard, keeps the program's loops, vectors and fields, and proves what
each part is for.

Losses, probabilities and amounts are `real`. Loops are methods, an object that updates its
fields is a class, and every such method is proved equal to a specification about which the
theorems are proved.

## The modules

| file | what it is about |
|---|---|
| DateCodec | dates to day numbers and back (`occurrencetobin`) |
| NumberTheory | divisors, primes, powers, Fermat's little theorem, roots of 1 modulo a prime |
| PrimeTest | modular powers, Miller-Rabin, trial division, next prime (`primetest`, `getrands`) |
| EventPartition | blocks, dealing and the shuffling deal (`eve`) |
| KatMerge | the merge in event order (`kat`), and `eve` followed by `kat` |
| RealSums | sums of losses in whole, by group, over a list of positions |
| FinancialStructs, CalcRules, RuleLaws, RuleEffects | the record of an aggregate, the 30 calculation rules, their exact laws, and what each pays and books |
| Hierarchy, PolicyTable | the hierarchy of aggregates built for an event, and the table of profiles it is built from |
| FinancialModel, BuiltProgramme, LayerFlow, ProgrammeLaws | the recursion over levels and layers, why the hierarchy fits it and the tables it comes from, where the losses of a layer come from, and what a whole run keeps |
| OutputRecords | what is written for the items of the top level: under which output, and how much |
| BackAllocation, AllocationLaws, AllocatedItems | allocation rule 2: spreading losses over items, rule 1, which replaces it for a single level, and what an item is given |
| AllocationFlow, AllocatedOutput | where back allocation finds shares to go by, and exactly when what it writes is complete, with and without zero-skipping |
| RunAllocation, Dofm | back allocation of a calculated sample, and a whole event from hierarchy to output |
| Counterexamples | programmes, run through the calculation, on which zero-skipping and the layer ledger fail |
| Exceedance, LossTables, LossTableLaws | ranked losses, the exceedance curve at requested return periods, and the loss tables it is made of (`leccalc`) |
| GulSampling | choosing a bin, inverting the distribution inside it, splitting the insured value (`gulcalc`) |
| GulStream | the buffered item stream and its reader (`gulcalc`, `gultocsv`) |
| SummaryIndex, AverageLoss, IndexWalk, SummaryLaws | the summary stream and its index, the walk over the sorted index, the two together, and what they come to in terms of the losses (`summarycalc`, `aalcalc`) |

## Main results

- **Calculation rules.** Ground-up loss is what is payable plus what deductibles took plus what
  limits cut off. A direct rule keeps it if and only if a guard on the record holds, which is the
  guard of the branch that loses it, and increases it if and only if the record takes one branch
  of rule 8. The loss of any rule stays non-negative if and only if a second guard holds. What
  every rule pays is given by the bands of the loss: nothing up to its deductible and attachment,
  a share of the loss above, a share of its limit from there on.
- **Whole programmes.** In a run of direct rules no level and layer accounts for more than the
  ground-up loss of the event, and it accounts for all of it if and only if every record on the way
  up passes its guard. So it does with rules 6, 12, 16, 10 without a flat deductible and 100, and
  limit rules 1, 3, 4, 5, 9, 14, 33 applied where nothing is carried over a limit. Layers above a
  single-layer level keep a ledger with rules 2, 3, 14, 20, 22-25, 34; a no-op layer keeps it if
  and only if nothing was paid before.
- **Levels and layers.** In a finished run every aggregate is handed the sums over its children on
  the same layer of the level below, or on its first layer where the level below does not have it.
- **Whole events.** The hierarchy is built, and for every sample the results above and below hold,
  whatever the samples before it left in the vectors.
- **Hierarchy.** A level is built exactly if and only if no aggregate has more layers than one
  that appeared before it. The no-op padding makes the top level uniform whatever order its rows
  are added in; with uniform levels the item lists partition the event's items at every level.
- **Back allocation** gives every item a share of its aggregate's loss in proportion to what the
  level below gave it. The records written are those of the places that have something to write,
  each once, in order, under the output that the cross reference has for the item; under every
  output they add up to the parts of the items that have it. It never writes more than the losses of the top level, and writes all of
  them if and only if shares are found for every record with a loss and every item that gets some
  has an output. Zero-skipping writes the same records if and only if no such loss is written from
  the shares of a record that had neither loss nor retained loss. All of this is told from the
  losses, retained losses and item lists before any allocation. Programmes that retain nothing
  meet both conditions; in one that retains a deductible and releases it at the next level,
  zero-skipping loses the released loss.
- **eve and kat.** The merge prints every row once for any files, and in event order for files of
  dealt events even after files are exhausted.
- **Numbers and dates.** No prime is ever rejected, the trial division is exact, and the date
  codec is a bijection that walks the calendar.
- **Curves.** The return-period table is the curve of the ranked losses at the requested periods,
  the straight line between the points of neighbouring ranks;
  its losses never increase, and the aggregate curve is never below the occurrence curve. A
  negative period among them, and nothing else, keeps the writer from ending.
- **Sampling.** The square root is always defined and the damage always lies in the bin and solves
  the one quadratic with the bin's probability and mean, wherever the mean is; its density is not
  negative exactly for means in the middle third.
- **Streams.** The item stream is read back exactly if and only if its first record is not of
  event 0 and item 0, wherever the buffer was flushed, and no write leaves the buffer. Every
  line of the summary index leads to its summary's samples, both ways of indexing agree, and the
  walk over the sorted index adds up what was written to all the streams.

## Where the code and its documentation differ

Deductibles and prior limits are documented in docs/md/fmprofiles.md:120-163.

- Losses exactly at their prior limits are not to be adjusted upwards. The code raises them: it
  cannot tell such a record from one that never met a limit. `RuleLaws.MaximumStaysInRoom` says
  exactly when a maximum deductible stays within the room under the prior limits,
  `RuleLaws.MaximumBreachesLimit` gives a loss limited to 80 that becomes 95.
- A minimum deductible is to raise the effective deductible to the minimum. With a carried
  over-limit the code takes the increase from the over-limit first and does not record that part
  (`RuleLaws.MinimumIsReached` says when the documented result holds, `RuleLaws.MinimumMissed`
  gives a record on which it does not).
- Deductibles are to be additive. Rules 10, 11 and 13 do not add a plain deductible to the effective
  one (`RuleLaws.PlainDeductible`, `RuleLaws.PlainDeductibleMissed`).
- A maximum deductible is to lower the effective deductible. One that applies although the effective
  deductible is below it is charged in full, so a loss can become negative (`RuleLaws.LossSignLaw`,
  `RuleLaws.MaximumGoesNegative`).
- The over-limit is what limits have cut off. Rule 8 leaves an over-limit it has eaten into on the
  books (`RuleLaws.GroundUpLaw`, `RuleLaws.Rule8Creates`).
- The under-limit is what a loss falls short of its limit. Rules 5 and 15, whose limit is a part of
  the loss, measure it from the fraction itself (`RuleLaws.PercentRoom`, `RuleLaws.PercentRoomMissed`).
- A no-op layer hands on its whole loss and none of what the layers before retained
  (`ProgrammeLaws.NoopLedger`, `Counterexamples.NoopBreaksLedger`).

## Model

| member | source | states |
|---|---|---|
| DateCodec.DecodeEncode | src/occurrencetobin/occurrencetobin.cpp:56-79 | every valid date from 1 March of year 0 on is read back from its day number |
| DateCodec.EncodeDecode | src/occurrencetobin/occurrencetobin.cpp:56-79 | every day number from 0 on decodes to a valid date whose number it is |
| DateCodec.NextDayNumber | src/occurrencetobin/occurrencetobin.cpp:56-61 | consecutive calendar dates have consecutive numbers |
| DateCodec.DecodeWalksCalendar | src/occurrencetobin/occurrencetobin.cpp:63-79 | counting up day numbers from 0 walks the calendar one day at a time |
| DateCodec.NumberingStarts | src/occurrencetobin/occurrencetobin.cpp:56-61 | the numbers count from 1 March of year 0 |
| DateCodec.ScaledYearStart | src/occurrencetobin/occurrencetobin.cpp:66-66 | the window the constant 14780 has to hit; year 303 of the cycle needs 14775 of it |
| DateCodec.YearLength | src/occurrencetobin/occurrencetobin.cpp:60-60 | a March-based year has 366 days exactly if it ends in a leap February |
| DateCodec.Convert | src/occurrencetobin/occurrencetobin.cpp:133-143 | a valid date can be read back from the row written, and the year check stays silent on it |
| DateCodec.OccDoit | src/occurrencetobin/occurrencetobin.cpp:107-146 | rows are converted in order up to the first whose period is too large, which is reported |
| NumberTheory.Fermat | src/gulcalc/primetest.cpp:41-42 | a to the n-1 is 1 modulo a prime n: the last test of the witness is sound |
| NumberTheory.RootsOfOne | src/gulcalc/primetest.cpp:37-38 | modulo a prime 1 has no square roots but 1 and n-1: the other test is sound |
| NumberTheory.PrimeAbove | src/gulcalc/getrands.h:115-121 | there is a prime above any number, so the search for the next one ends |
| PrimeTest.Power | src/gulcalc/primetest.cpp:6-18 | the power modulo mod, for any positive exponent |
| PrimeTest.ProductFits | src/gulcalc/primetest.cpp:13-14 | with 32-bit arguments no product of the exponentiation leaves 64 bits |
| PrimeTest.PrimeIsStrong | src/gulcalc/primetest.cpp:20-44 | a prime is a strong probable prime to every base it does not divide |
| PrimeTest.StrongHasNoBadRoot | src/gulcalc/primetest.cpp:34-42 | a strong probable prime meets neither condition on which witness returns true |
| PrimeTest.NoBadRootIsStrong | src/gulcalc/primetest.cpp:34-42 | a number that meets neither is a strong probable prime |
| PrimeTest.StrongMeans | src/gulcalc/primetest.cpp:20-44 | a strong probable prime in the terms of number theory, for the one way to take the twos out of n - 1 |
| PrimeTest.Witness | src/gulcalc/primetest.cpp:20-44 | true exactly if n is not a strong probable prime to base a, and then n is composite |
| PrimeTest.SixKDivisor | src/gulcalc/primetest.cpp:53-55 | a composite number without divisor 2 or 3 has a divisor 6k-1 or 6k+1 the loop reaches |
| PrimeTest.IsPrimeTest | src/gulcalc/primetest.cpp:46-72 | never rejects a prime, exact below 1373653; above it accepts exactly the strong probable primes to the bases tried that 2 and 3 do not divide |
| PrimeTest.GetP2 | src/gulcalc/getrands.h:115-121 | terminates; skips no prime; the least prime above its argument when that is below 1373653 |
| PrimeTest.GetP1 | src/gulcalc/getrands.h:114-114 | the same from half the buffer size |
| EventPartition.ChunkBounds | src/eve/eve.cpp:130-136 | block bounds are ordered and sizes differ by at most one |
| EventPartition.EmitEvents | src/eve/eve.cpp:127-146 | a process emits its block in order |
| EventPartition.BlocksAreTheInput | src/eve/eve.cpp:127-146 | the blocks of all processes concatenate to the input |
| EventPartition.DoShuffle | src/eve/eve.cpp:105-125 | the dealing loop emits the positions congruent to the process number |
| EventPartition.DealingPartitions | src/eve/eve.cpp:105-125 | every position is dealt to exactly one process |
| EventPartition.DealtIds | src/eve/eve.cpp:105-125 | of the ids 1 to n a process gets exactly those congruent to it, ascending |
| EventPartition.PassedIsFinal | src/eve/eve.cpp:72-83 | a position is final once the shuffle has passed it |
| EventPartition.DrawnIsFinal | src/eve/eve.cpp:72-83 | what ends up at a position is what the draw picks out of the part not yet passed |
| EventPartition.DrawsDecideOrder | src/eve/eve.cpp:66-95 | different draws shuffle different events into different orders |
| EventPartition.RandomiseEvents | src/eve/eve.cpp:66-95 | emitting while shuffling emits what dealing the fully shuffled list would |
| EventPartition.ShuffledDealPartitions | src/eve/eve.cpp:66-95 | all processes together emit a permutation of the events |
| KatMerge.NoClash | src/kat/kat.cpp:115-137 | of two waiting ids of different residues inside the window, the one whose turn it is is smaller |
| KatMerge.GapGrows | src/kat/kat.cpp:122-136 | erasing an exhausted file keeps every other file inside the window of the rotation |
| KatMerge.Drain | src/kat/kat.cpp:118-135 | a file prints its rows up to the expected id and keeps the rest |
| KatMerge.DetermineOrder | src/kat/kat.cpp:101-110 | exactly the files that take part are ordered, by residue |
| KatMerge.DoItSort | src/kat/kat.cpp:69-140 | terminates and prints every row of every file that does not begin with event 0 once, for any files; ascending event ids for dealt files |
| KatMerge.EveFilesAreDealt | src/kat/kat.cpp:65-69 | files of events dealt by eve, with any ids missing, are dealt files |
| RealSums.GroupsCompose | src/fmcalc/fmcalc.cpp:379-404 | grouping losses twice is grouping them by the group's group |
| RealSums.SumAtIsSumWhere | src/fmcalc/fmcalc.cpp:149-151 | summing over an aggregate's item list is summing over the items it owns |
| CalcRules.CapDeductible | src/fmcalc/fmcalcrules.cpp:853-870 | the closed form of a maximum deductible in terms of carried over- and under-limit |
| CalcRules.RaiseDeductible | src/fmcalc/fmcalcrules.cpp:890-915 | the closed form of a minimum deductible |
| CalcRules.ApplyMinMaxRule | src/fmcalc/fmcalcrules.cpp:683-1010 | rules 7, 8, 10, 11, 13, 19, 21, 26, 35, 36 are deductible, bound and limit in one formula |
| CalcRules.ApplyMinimumThenLimit | src/fmcalc/fmcalcrules.cpp:767-819 | the closed form of rule 8 |
| CalcRules.ApplyLayerRule | src/fmcalc/fmcalcrules.cpp:1199-1385 | whatever rules 2, 3, 14, 20, 22-25, 34 pay (`RuleEffects`), paid plus retained is what the layer was given |
| RuleLaws.GroundUpLaw | src/fmcalc/fmcalcrules.cpp:526-1691 | a direct rule increases ground-up loss if and only if the record takes one branch of rule 8, and keeps it if and only if its guard holds |
| RuleLaws.LossSignLaw | src/fmcalc/fmcalcrules.cpp:526-1691 | the loss after any rule is non-negative if and only if its guard holds |
| RuleLaws.SoundLaw | src/fmcalc/fmcalcrules.cpp:526-1691 | a direct rule hands on a sound record if and only if the loss stays non-negative and the under-limit covered |
| RuleLaws.MinMaxChange | src/fmcalc/fmcalcrules.cpp:943-1010 | the choice between maximum, minimum and plain deductible never creates loss, and when it loses some |
| RuleLaws.MaximumStaysInRoom | src/fmcalc/fmcalcrules.cpp:845-882 | a maximum deductible raises the loss by no more than the room under prior limits if and only if there is any room or over-limit |
| RuleLaws.MaximumBreachesLimit | src/fmcalc/fmcalcrules.cpp:845-882 | a loss exactly at its limit that a maximum deductible raises above it |
| RuleLaws.MinimumIsReached | src/fmcalc/fmcalcrules.cpp:883-925 | when the documented result of a minimum deductible holds, exactly |
| RuleLaws.MinimumMissed | src/fmcalc/fmcalcrules.cpp:890-915 | a record whose effective deductible stops short of the minimum |
| RuleLaws.PlainDeductible | src/fmcalc/fmcalcrules.cpp:876-879 | rules 10, 11 and 13 record what they deduct if and only if they deduct nothing |
| RuleLaws.PlainDeductibleMissed | src/fmcalc/fmcalcrules.cpp:876-879 | a record on which each of the three deducts 10 and records none of it |
| RuleLaws.PercentRoom | src/fmcalc/fmcalcrules.cpp:644-666 | rules 5 and 15 measure the under-limit from their limit if and only if it is the fraction itself or the carried room is within both |
| RuleLaws.PercentRoomMissed | src/fmcalc/fmcalcrules.cpp:644-666 | a loss at its limit that rule 5 books as above it |
| RuleLaws.LedgerLaw | src/fmcalc/fmcalcrules.cpp:571-584 | a ledger rule accounts for every unit: paid plus retained is what it was given |
| RuleLaws.Rule8Creates | src/fmcalc/fmcalcrules.cpp:767-819 | a record on which rule 8 accounts for more than the ground-up loss |
| RuleLaws.MaximumGoesNegative | src/fmcalc/fmcalcrules.cpp:845-882 | a record whose loss a maximum deductible makes negative |
| RuleEffects.AttachmentPays | src/fmcalc/fmcalcrules.cpp:556-586 | rules 2, 17 and 18 pay nothing up to deductible and attachment, a share of the loss above, and the share of the limit from deductible, attachment and limit on |
| RuleEffects.UnlimitedLayerPays | src/fmcalc/fmcalcrules.cpp:1495-1522 | rule 34 pays the same without a limit |
| RuleEffects.ReversedFranchisePays | src/fmcalc/fmcalcrules.cpp:1199-1216 | rule 20 pays a loss up to its deductible whole and a larger one not at all |
| RuleEffects.SharePays | src/fmcalc/fmcalcrules.cpp:1291-1315 | rules 22 and 25 place a share of the loss, limited or not, in two more shares |
| RuleEffects.LimitedSharePays | src/fmcalc/fmcalcrules.cpp:1316-1338 | rule 23 limits the loss itself and places it in two shares |
| RuleEffects.ExcessOfSharePays | src/fmcalc/fmcalcrules.cpp:1339-1365 | rule 24 puts a share of the loss into a layer and places that in two more shares |
| RuleEffects.LimitRulePays | src/fmcalc/fmcalcrules.cpp:529-555 | rules with a deductible and a limit pay nothing, the excess, or the limit |
| RuleEffects.FranchisePays | src/fmcalc/fmcalcrules.cpp:587-618 | rule 3 pays nothing below the franchise and the loss from the first unit above it, up to the limit |
| RuleEffects.DeductiblePays | src/fmcalc/fmcalcrules.cpp:669-682 | rules 6, 12 and 16 take their deductible, or the loss if that is less |
| RuleEffects.DeductibleIsBooked | src/fmcalc/fmcalcrules.cpp:526-1691 | what a deductible takes joins the effective deductible |
| RuleEffects.CutOffIsBooked | src/fmcalc/fmcalcrules.cpp:526-1691 | what a limit cuts off replaces the over-limit |
| RuleEffects.RoomIsBooked | src/fmcalc/fmcalcrules.cpp:526-1691 | the under-limit is the room up to the limit, or the carried room where that ends lower |
| RuleEffects.MaximumEffects | src/fmcalc/fmcalcrules.cpp:853-870 | a maximum deductible releases what is above it to the loss while there is room, and then to the over-limit |
| RuleEffects.MinimumEffects | src/fmcalc/fmcalcrules.cpp:890-915 | a minimum deductible takes its increase from the over-limit and then from the loss, and books only the second part |
| RuleEffects.BoundedRuleEffects | src/fmcalc/fmcalcrules.cpp:683-1010 | which deductible, bounds and limit each of the rules 7, 10, 11, 13, 19, 21, 26, 35 and 36 uses |
| RuleEffects.Rule8Effects | src/fmcalc/fmcalcrules.cpp:767-819 | rule 8: a plain deductible or an increase up to the minimum, and then a limit |
| Hierarchy.CreateNode | src/fmcalc/fmcalc.cpp:751-768 | a new aggregate gets one node in each of its layers; the lookup keeps the last layer's position |
| Hierarchy.AppendItems | src/fmcalc/fmcalc.cpp:770-778 | items join the known aggregate in each of its layers, nothing else changes |
| Hierarchy.BuildLevel | src/fmcalc/fmcalc.cpp:748-779 | every recorded position is one; the level is exact if layer counts shrink in order of appearance, misplaced otherwise |
| Hierarchy.ExactIsNotMisplaced | src/fmcalc/fmcalc.cpp:748-779 | the two outcomes exclude each other, so the condition is necessary |
| Hierarchy.CreateMisplaces | src/fmcalc/fmcalc.cpp:763-767 | a new aggregate with more layers than an earlier one is recorded at the wrong position |
| Hierarchy.PartitionUp | src/fmcalc/fmcalc.cpp:764-776 | a partition of the items below is carried up to one of the items above |
| Hierarchy.BuildHierarchy | src/fmcalc/fmcalc.cpp:712-780 | uniform layers: at every level lookups find aggregates in every layer and item lists partition the items |
| PolicyTable.FmCalc.AddTcRow | src/fmcalc/fmcalc.cpp:836-862 | one cell reaches the row's layer and holds its profile, the extents grow, nothing else changes |
| PolicyTable.FmCalc.InitPolicyTc | src/fmcalc/fmcalc.cpp:925-948 | the table holds, for every cell, the reach and the latest profile of the rows run |
| PolicyTable.ParsePolicyTc | src/fmcalc/fmcalc.cpp:863-919 | a no-op row is added for exactly the missing aggregates and layers of the top level |
| PolicyTable.TopIsUniform | src/fmcalc/fmcalc.cpp:887-922 | every aggregate of the top level ends up with exactly the layers 1 to the maximum, in whatever order rows are added |
| PolicyTable.ProfileOrNoop | src/fmcalc/fmcalc.cpp:904-919 | a cell of the top level holds its own profile if it has one and the no-op otherwise |
| PolicyTable.CellHoldsLastRow | src/fmcalc/fmcalc.cpp:925-948 | a cell of a level that is run holds the profile of the last row given for it |
| PolicyTable.InitKeepsLevel | src/fmcalc/fmcalc.cpp:932-946 | the rows of level 0 do not disturb the levels above it |
| PolicyTable.TopLayersAgree | src/fmcalc/fmcalc.cpp:887-922 | in the hierarchy's terms: the top level is uniform |
| BuiltProgramme.BuiltFits | src/fmcalc/fmcalc.cpp:712-780 | a hierarchy that is right meets every condition of the level and layer recursion |
| BuiltProgramme.NodesFollowPolicies | src/fmcalc/fmcalc.cpp:751-768 | an aggregate has a node in exactly the layers its list of profiles has, with the profile listed there |
| BuiltProgramme.ItemsFollowTable | src/fmcalc/fmcalc.cpp:712-750 | from level to level an item goes where the table of the level sends the aggregate it was in |
| BuiltProgramme.CalculatedIsInput | src/fmcalc/fmcalc.cpp:593-605 | the vectors a sample leaves are what back allocation starts from |
| FinancialModel.Reset | src/fmcalc/fmcalc.cpp:367-377 | although it stops at the first record without a policy, every record of the event starts fresh |
| FinancialModel.Accumulate | src/fmcalc/fmcalc.cpp:379-411 | every aggregate is handed the sums over its children |
| FinancialModel.CarryRetained | src/fmcalc/fmcalc.cpp:413-419 | every record is handed what the layer before retained |
| FinancialModel.DoFmCalcNormal | src/fmcalc/fmcalcrules.cpp:1693-1706 | terms are applied to every record of the event that has a loss or a retained loss |
| FinancialModel.Advance | src/fmcalc/fmcalc.cpp:354-421 | the vector of a level and layer is its terms applied to what it is handed, whatever an earlier sample left |
| FinancialModel.StartSample | src/fmcalc/fmcalc.cpp:793-814 | level 0 holds the ground-up losses of its items, although lookups are skipped for repeated aggregates |
| FinancialModel.Calculation.CalculateLayer | src/fmcalc/fmcalc.cpp:337-421 | one more place is settled, every earlier one stays, later ones can still be reset |
| FinancialModel.Calculation.DoFmCalcR | src/fmcalc/fmcalc.cpp:657-678 | terminates with every level and layer settled and level 0 untouched |
| FinancialModel.Calculation.constructor | src/fmcalc/fmcalc.cpp:783-786 | a new set of vectors is ready for the first sample |
| FinancialModel.Calculation.RunSample | src/fmcalc/fmcalc.cpp:790-819 | a sample is calculated whole and leaves the vectors ready for the next |
| FinancialModel.DoneStays | src/fmcalc/fmcalc.cpp:348-351 | settled vectors do not depend on later ones |
| LayerFlow.FedBy | src/fmcalc/fmcalc.cpp:344-421 | in a finished run an aggregate's record is its terms applied to the sums over its children on the same layer of the level below, or on its first layer where it does not have it |
| LayerFlow.NoTermsKeep | src/fmcalc/fmcalc.cpp:344-411 | a level without terms keeps the loss of every layer |
| LayerFlow.StartOf | src/fmcalc/fmcalc.cpp:799-814 | an aggregate of level 0 has the losses of its items and the insured value of the last of them |
| ProgrammeLaws.HandedTotal | src/fmcalc/fmcalc.cpp:393-403 | handing losses up keeps the ground-up loss |
| ProgrammeLaws.LevelLaw | src/fmcalc/fmcalcrules.cpp:1693-1706 | a level of direct rules that create nothing never increases the total, and keeps it if and only if every record keeps its own |
| ProgrammeLaws.TameKeeps | src/fmcalc/fmcalcrules.cpp:669-682 | rules 6, 12, 16, 100 and 10 without flat deductible keep any sound record's ground-up loss |
| ProgrammeLaws.LevelGood | src/fmcalc/fmcalc.cpp:379-421 | a level of a one-limit programme keeps total, soundness and freedom from limits |
| ProgrammeLaws.GroundUpBound | src/fmcalc/fmcalc.cpp:337-421 | no place of a run of direct rules exceeds the event's ground-up loss; it reaches it if and only if every record on the way up passes its guard |
| ProgrammeLaws.GroundUpConserved | src/fmcalc/fmcalc.cpp:337-421 | where limits are applied with nothing carried over one, the aggregates account for exactly the ground-up loss, nothing negative |
| ProgrammeLaws.OneLimitConserves | src/fmcalc/fmcalc.cpp:337-421 | so they do, whatever the losses, for programmes with one limit on any way up |
| ProgrammeLaws.LayerLedger | src/fmcalc/fmcalc.cpp:354-421 | what all layers paid plus what the last retains is what the aggregate was handed |
| ProgrammeLaws.NoopLedger | src/fmcalc/fmcalcrules.cpp:1701-1702 | the ledger survives a no-op layer if and only if the layers before paid nothing |
| Counterexamples.NoopBreaksLedger | src/fmcalc/fmcalcrules.cpp:1701-1702 | a run in which a layer pays 50 of 100 and the no-op after it 100 |
| BackAllocation.PrepareRecord | src/fmcalc/fmcalc.cpp:139-160 | a record looked at gets its items' ground-up total and room for their proportions |
| BackAllocation.ShareOut | src/fmcalc/fmcalc.cpp:195-224 | an aggregate's items share its proportion, the others keep theirs, although the vector is overwritten as it is read |
| BackAllocation.Allocate | src/fmcalc/fmcalc.cpp:179-237 | every item has its share of its own aggregate's proportion, whatever the order of aggregates |
| BackAllocation.AllocateStep | src/fmcalc/fmcalc.cpp:181-236 | an aggregate's items are untouched until its turn |
| BackAllocation.AllocateLevel | src/fmcalc/fmcalc.cpp:126-238 | a level is allocated, or copied down when it has no loss |
| BackAllocation.ComputeItemProportions | src/fmcalc/fmcalc.cpp:115-239 | every level follows from the one below |
| OutputRecords.OutputLaw | src/fmcalc/fmcalc.cpp:607-643 | every place that has something to write is written once, in order, under its item's output and with its part of the loss; under every output the parts of its items add up |
| BackAllocation.WriteRecord | src/fmcalc/fmcalc.cpp:607-643 | the items of a record that have something to write, each once, in order, under the output of the cross reference and with its part of the loss |
| BackAllocation.WriteLevel | src/fmcalc/fmcalc.cpp:593-652 | by rule 2, the output is the same as if the proportions had been computed before the first record |
| BackAllocation.WriteByGuls | src/fmcalc/fmcalc.cpp:491-538 | the same by rule 1, in proportion to the ground-up losses of the record's items |
| BackAllocation.WriteTop | src/fmcalc/fmcalc.cpp:487-645 | rule 2, but rule 1 where there is a single level; what is written is right place by place and output by output |
| AllocationLaws.SharesAddUp | src/fmcalc/fmcalc.cpp:179-237 | under an aggregate the proportions add up to loss over total loss |
| AllocationLaws.RunShares | src/fmcalc/fmcalc.cpp:118-238 | so they do after every level, for programmes with positive children |
| AllocationLaws.RunProps | src/fmcalc/fmcalc.cpp:215-221 | the item proportions of every aggregate with a loss sum to 1 |
| AllocationLaws.ProportionsAreAllocation | src/fmcalc/fmcalc.cpp:118-238 | the iterated proportions are the direct allocation of each level's losses down to the items |
| AllocatedItems.ItemsGetAllocation | src/fmcalc/fmcalc.cpp:607-630 | the part of an aggregate's loss that goes to an item is what the direct allocation gives it |
| AllocatedItems.PartsInProportion | src/fmcalc/fmcalc.cpp:215-221 | the parts of a record's loss are to each other as what they are taken from |
| AllocationFlow.CopiesIsKept | src/fmcalc/fmcalc.cpp:163-177 | which levels keep the proportions below follows from the losses, threshold included |
| AllocationFlow.RunState | src/fmcalc/fmcalc.cpp:126-238 | which items have a share after each level, and what the shares add up to, follows from the losses |
| AllocationFlow.RunSource | src/fmcalc/fmcalc.cpp:215-233 | the item proportions of a record are those of the last level below where its place had shares |
| AllocationFlow.SkippingKeepsShares | src/fmcalc/fmcalc.cpp:137-162 | zero-skipping leaves the proportions of all items as they were |
| AllocatedOutput.OutputConserves | src/fmcalc/fmcalc.cpp:593-642 | the item losses written never exceed the losses of the top level, and add up to them if and only if every record with a loss is whole |
| AllocatedOutput.SkippingRefines | src/fmcalc/fmcalc.cpp:594-605 | zero-skipping writes the same records if and only if no loss is written from the shares of a record it skips |
| AllocatedOutput.RulesAgree | src/fmcalc/fmcalc.cpp:487-488 | at level 1 allocation rules 1 and 2 write the same |
| AllocatedOutput.ByGulsConserves | src/fmcalc/fmcalc.cpp:491-538 | rule 1 conserves the losses of a single level on the same condition |
| AllocatedOutput.ChildrenSuffice | src/fmcalc/fmcalc.cpp:118-238 | where every loss has a child with a loss, nothing is lost, with or without zero-skipping |
| RunAllocation.Gate | src/fmcalc/fmcalcrules.cpp:1693-1706 | a record that is handed neither loss nor retained loss ends without a loss |
| RunAllocation.CalculatedIsGiven | src/fmcalc/fmcalc.cpp:593-605 | a calculated sample meets what the laws of back allocation ask for |
| RunAllocation.HandledNonNegative | src/fmcalc/fmcalcrules.cpp:1693-1706 | losses stay non-negative where the terms on the way up are direct and hand on sound records |
| RunAllocation.RunHasChildren | src/fmcalc/fmcalc.cpp:379-421 | in a run that retains nothing every loss has a child with a loss, down to the items |
| RunAllocation.RunAllocates | src/fmcalc/fmcalc.cpp:593-642 | back allocation of a run of a programme without retaining rules writes the top losses in full |
| RunAllocation.RunSkips | src/fmcalc/fmcalc.cpp:594-605 | and zero-skipping writes the same records |
| Counterexamples.SkippingLosesLoss | src/fmcalc/fmcalc.cpp:227-232 | a run whose released loss the plain allocation gives to an item and zero-skipping to none |
| Dofm.AllocatedResettable | src/fmcalc/fmcalc.cpp:367-377 | what back allocation leaves in the vectors, the next sample clears |
| Dofm.DoSample | src/fmcalc/fmcalc.cpp:790-823 | a sample is calculated and written, place by place and output by output, with its laws, and the next can be run |
| Dofm.DoFm | src/fmcalc/fmcalc.cpp:687-834 | the hierarchy of an event is right; every sample calculated on it is accounted for, and written under its sample number, place by place, within its losses |
| Exceedance.Rank | src/leccalc/aggreports.cpp:424-424 | the rank of a period is the first whose return period is not above it |
| Exceedance.GetLossIsCurve | src/leccalc/aggreports.cpp:139-163 | what the writer reads off between two ranks is the curve of the ranked losses |
| Exceedance.CurveIsLinear | src/leccalc/aggreports.cpp:151-158 | between the return periods of two ranks the curve is the straight line between their losses |
| Exceedance.CurveAtKnot | src/leccalc/aggreports.cpp:149-149 | at the return period of a rank the curve is the loss of the rank |
| Exceedance.CurveRunsOut | src/leccalc/aggreports.cpp:145-147 | where the losses have run out, and at return period 0, it is 0 |
| Exceedance.WriteReturnPeriodOut | src/leccalc/aggreports.cpp:190-238 | a rank takes exactly the periods down to its own, and none at all once a negative one is next |
| Exceedance.WriteTail | src/leccalc/aggreports.cpp:440-450 | past the last loss every turn takes periods or comes nearer to the next |
| Exceedance.WriteReturnPeriods | src/leccalc/aggreports.cpp:414-451 | every requested period not above the maximum once, in order, with the loss on the curve, down to the first negative one, which is never met |
| Exceedance.WriteRanks | src/leccalc/aggreports.cpp:423-438 | without requested periods every rank, with the mean of the losses down to it |
| Exceedance.CurveIsMonotone | src/leccalc/aggreports.cpp:139-163 | a longer return period never has a smaller loss |
| Exceedance.TableDescends | src/leccalc/aggreports.cpp:202-238 | the losses written never increase down the table |
| Exceedance.TableRows | src/leccalc/aggreports.cpp:202-238 | every row is a requested period not above the maximum |
| Exceedance.TableIsTail | src/leccalc/aggreports.cpp:202-238 | there is a row for every requested period from the first one on that is not above the maximum |
| Exceedance.PerSampleTotal | src/leccalc/aggreports.cpp:423-428 | the losses of all samples add up to those of the whole |
| Exceedance.CurveDominates | src/leccalc/aggreports.cpp:139-163 | losses that are nowhere smaller give a curve that is nowhere lower |
| Exceedance.SortSorts | src/leccalc/aggreports.cpp:416-416 | the ranking is a descending permutation |
| LossTables.LecTables.DoLecOutputAggSummary | src/leccalc/leccalc.cpp:124-136 | the tables hold the sum and the maximum of every summary, sample and period seen |
| LossTables.LecTables.ProcessInputFile | src/leccalc/leccalc.cpp:164-216 | positive losses of events that occur are counted once for every occurrence, and the summaries of those events noted |
| LossTables.SumAtLeastMax | src/leccalc/leccalc.cpp:132-134 | a key's sum is at least its maximum |
| LossTableLaws.InputMembers | src/leccalc/leccalc.cpp:164-216 | a loss counts for a key exactly if it is a positive loss of that summary and sample whose event occurs in the period |
| LossTableLaws.InputSum | src/leccalc/leccalc.cpp:124-136 | the sum of a key is that of its losses, each once for every occurrence of its event in the period |
| LossTableLaws.MaxForIs | src/leccalc/leccalc.cpp:133-134 | the maximum of a key is one of its losses and none of them is larger |
| LossTableLaws.TwoTables | src/leccalc/leccalc.cpp:124-136 | sample -1 goes to the table of the mean, every other to that of the samples |
| LossTableLaws.NotedSummaries | src/leccalc/leccalc.cpp:164-216 | a summary is noted exactly if it has an event that occurs |
| LossTableLaws.LossesAre | src/leccalc/aggreports.cpp:832-843 | the losses ranked for a summary are those of its keys, each once |
| LossTables.RankingDominates | src/leccalc/aggreports.cpp:414-416 | losses that dominate one by one still dominate after each list is ranked on its own |
| LossTables.FullUncertainty | src/leccalc/aggreports.cpp:832-843 | the table written is that of the summary's losses |
| LossTables.AggregateDominates | src/leccalc/aggreports.cpp:832-843 | for any input and return period the aggregate curve is at least the occurrence curve |
| GulSampling.CdfAtEnd | src/gulcalc/gulcalc.cpp:196-203 | the quadratic gives the whole bin the bin's probability |
| GulSampling.MeanIsKept | src/gulcalc/gulcalc.cpp:199-201 | its density has the bin's mean |
| GulSampling.SampleMoments | src/gulcalc/gulcalc.cpp:189-201 | the quadratic of a sample has the probability and the mean of its bin |
| GulSampling.MomentsDetermine | src/gulcalc/gulcalc.cpp:189-201 | no other quadratic has |
| GulSampling.DensityAtEnds | src/gulcalc/gulcalc.cpp:199-201 | the density at the ends is non-negative exactly for means up to 2/3 and from 1/3 of the width |
| GulSampling.DensityBetween | src/gulcalc/gulcalc.cpp:199-201 | and then it is non-negative throughout the bin |
| GulSampling.SqrtIsDefined | src/gulcalc/gulcalc.cpp:204-204 | the square root is never taken of a negative number, wherever the mean is |
| GulSampling.RootInBin | src/gulcalc/gulcalc.cpp:204-204 | the chosen root lies in the bin |
| GulSampling.RootSolves | src/gulcalc/gulcalc.cpp:199-204 | the chosen root solves the quadratic |
| GulSampling.RootMonotone | src/gulcalc/gulcalc.cpp:204-204 | a larger random number never gives a smaller damage |
| GulSampling.LinearResidual | src/gulcalc/gulcalc.cpp:190-194 | how far the linear branch is from the quadratic: not at all for a mean exactly in the middle |
| GulSampling.MiddleMeans | src/gulcalc/gulcalc.cpp:190-191 | the means that take the linear branch |
| GulSampling.MiddleIsNear | src/gulcalc/gulcalc.cpp:189-191 | the linear branch is taken for means within half of a hundred-thousandth of the width from the midpoint |
| GulSampling.GetGul | src/gulcalc/gulcalc.cpp:181-207 | the damage lies in the bin and inverts the quadratic with the bin's probability and mean, or the straight line where the mean is near the midpoint |
| GulSampling.SelectBin | src/gulcalc/gulcalc.cpp:880-908 | the loop stops at the first bin that holds the random number |
| GulSampling.SampleItem | src/gulcalc/gulcalc.cpp:859-909 | every draw gives a loss from the bin it hits; those that reach the threshold are written in order |
| GulSampling.WrittenNumbers | src/gulcalc/gulcalc.cpp:244-255 | sample i is written under number i, in order, if it reaches the threshold |
| GulSampling.OutputMean | src/gulcalc/gulcalc.cpp:714-736 | the mean and the variance of the bins taken at their means |
| GulSampling.MeanIsSum | src/gulcalc/gulcalc.cpp:714-731 | the mean is the sum of the losses at the bin means weighed by their probabilities |
| GulSampling.VarianceIsSpread | src/gulcalc/gulcalc.cpp:714-736 | the variance is the mean square distance from the mean |
| GulSampling.VarianceNonNegative | src/gulcalc/gulcalc.cpp:732-734 | the variance of a distribution function is not negative, so it is never clamped |
| GulSampling.SplitTiv | src/gulcalc/gulcalc.cpp:208-228 | losses above the insured value share it in proportion to each other and add up to it |
| GulSampling.SetMaxLoss | src/gulcalc/gulcalc.cpp:286-316 | the largest subperil losses share the maximum evenly, which becomes the total, and the others are cleared |
| GulStream.ItemWriter.ItemOutputGul | src/gulcalc/gulcalc.cpp:581-613 | the stream grows by the record's cells and no write leaves the buffer of bufsize + 16 bytes |
| GulStream.ItemWriter.WriteAll | src/gulcalc/gulcalc.cpp:1035-1036 | after the last flush the output has the whole stream |
| GulStream.OneHeaderPerList | src/gulcalc/gulcalc.cpp:581-613 | consecutive records of one event and item make one list: the end of the list before, their header once, a cell for each |
| GulStream.ReadStream | src/gultocsv/gultocsv.cpp:72-83 | the nested loops read what a two-state reader does |
| GulStream.RoundTrip | src/gultocsv/gultocsv.cpp:72-83 | the records come back if and only if the first is not of event 0 and item 0 |
| GulStream.WriteAndRead | src/gulcalc/gulcalc.cpp:581-613 | for event ids from 1 on, writer and reader together give back the records |
| SummaryIndex.SummarySet.WriteSamples | src/summarycalc/summarycalc.cpp:314-336 | the samples written, and an offset that keeps pace with them |
| SummaryIndex.SummarySet.WriteBlock | src/summarycalc/summarycalc.cpp:303-342 | the stream gains a block and the index the offset it starts at |
| SummaryIndex.SummarySet.OutputSummarySet | src/summarycalc/summarycalc.cpp:297-344 | an event adds a block for every summary with exposure, or for all of them |
| SummaryLaws.EmittedAre | src/summarycalc/summarycalc.cpp:314-336 | the mean is written as sample -1 and the samples from 1 on, in order, if they have a loss or zeros are asked for |
| SummaryLaws.EventBlocksAre | src/summarycalc/summarycalc.cpp:297-344 | an event gets a block for every summary with exposure, or for all of them, in order |
| SummaryIndex.ReadsBlock | src/aalcalc/aalcalc.cpp:656-664 | a block is read back as it was written |
| SummaryIndex.IndexIsRight | src/summarycalc/summarycalc.cpp:308-311 | at every offset recorded stands the header of its summary, and reading on gives its samples |
| SummaryIndex.IndexEventsFromStream | src/aalcalc/summaryindex.cpp:67-115 | the rescan indexes every header, and fails exactly if an event has no periods |
| SummaryIndex.IndexEventsFromIndex | src/aalcalc/summaryindex.cpp:117-155 | the index file leads to the headers it names; events without periods are skipped |
| SummaryIndex.IndexMatchesRescan | src/aalcalc/summaryindex.cpp:67-155 | the lines of the index lead to exactly the headers the rescan finds |
| SummaryIndex.BothIndexes | src/aalcalc/summaryindex.cpp:174-184 | both ways build the same map when all events have periods, and the rescan fails otherwise |
| SummaryIndex.ReadSummary | src/aalcalc/aalcalc.cpp:655-664 | the samples at an offset |
| AverageLoss.AalCalc.DoCalcByPeriod | src/aalcalc/aalcalc.cpp:335-355 | the positive losses of a line join the sums of their samples |
| AverageLoss.AalCalc.DoCalcEnd | src/aalcalc/aalcalc.cpp:287-332 | the sums of a period and their squares are added to the summary, and cleared |
| AverageLoss.AalCalc.DoIt | src/aalcalc/aalcalc.cpp:613-677 | every summary and period is finalised exactly once |
| AverageLoss.AverageAnnualLoss | src/aalcalc/aalcalc.cpp:576-677 | the totals of every summary are the direct sums over its periods and samples of the cell losses and their squares |
| SummaryLaws.EmittedLineSum | src/aalcalc/aalcalc.cpp:335-355 | of a summary as it is written the average counts the positive mean and every sample's positive loss |
| SummaryLaws.TotalsAre | src/aalcalc/aalcalc.cpp:287-332 | the total of a summary, and that of the squares, is over all its periods and samples |
| SummaryLaws.CellSumIs | src/aalcalc/aalcalc.cpp:335-355 | a cell is the sum over the lines of its summary and period |
| AverageLoss.NewKeyUntouched | src/aalcalc/summaryindex.cpp:53-63 | in index order the lines of a summary and period stand together |
| AverageLoss.CauchySchwarz | src/aalcalc/aalcalc.cpp:440-443 | the square of a sum is at most the number of cells times the sum of squares |
| AverageLoss.VarianceNonNegative | src/aalcalc/aalcalc.cpp:432-445 | the number whose root is the standard deviation is never negative, for samples and mean; with a single cell it is 0 divided by 0 |
| IndexWalk.LessIsTotalOrder | src/aalcalc/summaryindex.cpp:53-63 | the key order is the strict total order the map needs |
| IndexWalk.LinesInOrder | src/aalcalc/summaryindex.cpp:216-225 | the lines written from the sorted map are in the order the walk needs |
| IndexWalk.IndexedSum | src/aalcalc/summaryindex.cpp:96-102 | the offsets under a key are those of its summary's headers, once for every occurrence in the period |
| IndexWalk.IndexFiles | src/aalcalc/summaryindex.cpp:157-189 | all files go into one map, each by its index or a rescan, up to the first that cannot be indexed |
| IndexWalk.TableSum | src/aalcalc/summaryindex.cpp:157-189 | under each file the map holds what the headers of that file contribute |
| IndexWalk.WalkAddsUpTheStreams | src/aalcalc/aalcalc.cpp:621-671 | the cell the walk adds up is the sum of the losses written to all the streams |
| SummaryLaws.WrittenSumIs | src/aalcalc/summaryindex.cpp:96-102 | what the streams contribute to a cell is the losses of their blocks, each once for every occurrence of its event in the period |

## Left out

- Floating point: losses, probabilities and amounts are exact reals, so rounding is not captured; square roots are exact.
- Integer overflow outside the products of `power` and the unsigned conversion in `kat`.
- Text: file formats, header lines and the parsing of lines; rows and index lines are records.
- Standard library internals: the random generator (draws are arguments), std::sort (an insertion sort stands in), zlib.
- The stepped calculation (applycalcrule_stepped and dofmcalc_stepped), net-value mode, allocation rules 1 and 3, and item proportions above layer 1.
- Weighted periods, ensembles, wheatsheaf tables and the TVaR of requested return periods.
- Caches that only save work: next_vec_idx in the financial module, and the vector of random numbers in getrands.h.
- The correlated and coverage outputs of gulcalc, which repeat the item output.
- The running maximum of the exposure value in the average loss output.
- BackAllocation.AllocateRecord: where an aggregate has nothing to go by, the code takes the proportions at the same position one level below without checking that there is one; a missing one counts as none here. The option that recomputes proportions for every record is not modelled.
- BackAllocation.WriteTop: models the output of layer 1 at the top level; an item without an entry in the cross reference is not written, as in the code.
- DateCodec.OccDoit: the fields of a row are taken to be positive, so division rounds the same way in both languages.
- PrimeTest.IsPrimeTest: that the bases tried leave no composite number above 1373653 is a fact of computation by others and is not proved.
- PrimeTest.GetP2: above 1373653 the number found passes the test, and no prime is skipped.
- Exceedance.WriteTail: the code reads the next requested period even when there is none left; the read is guarded here.
- Exceedance.WriteReturnPeriods: needs the requested periods in descending order, which is how returnperiodtobin writes them (src/returnperiodtobin/returnperiodtobin.cpp:54-64); where the code would go round for ever, at a negative period, the method stops and says so.
- GulSampling.SampleItem: needs the last bin to end at 0.00000003 or above, so that a clamped random number is not negative; distributions end at 1.
- GulSampling.GetGul: the function sqrt is an argument known only to give the non-negative square root.
- PolicyTable.ParsePolicyTc: the final sort is left out; the results about the table hold for rows added in any order.
- KatMerge.DoItSort: the position in the list of files is an index, so that stepping back from position 0 is defined.
- Dofm.DoFm: needs uniform layers at every level, without which the hierarchy is not right (`Hierarchy.BuildLevel`); writes layer 1 only.
- FinancialModel.Calculation.DoFmCalcR: needs every aggregate and layer of the event to have a profile; a missing one stops the loops of the code early.
