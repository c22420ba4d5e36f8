# TwinForge: models and proofs of its PLC-logic algorithms

TwinForge converts PLC programs between vendors' formats. This project models the five places
where it decides something by a stateful algorithm, and proves what each of them is for.

1. **Two evaluators of one rung** (`examples/check_smbp_grid_vs_il.py`). The same rung is stored
   as a ladder grid and as Instruction List. `LadderGrid` sweeps the grid column by column, with a
   union-find over the rows of each column; `InstructionList` is the accumulator machine with its
   two stacks and its write memory; `IlParser` turns the stored lines into its program. The script
   compares the two by trying environments. `ContactRungs` gives rungs a meaning of their own:
   series-parallel contact networks of any size, inversions, exclusive ors and outputs on the way,
   and branches, where an output that is read back is seen by what comes after it. `RungPrograms`
   and `RungDrawings` prove that program and drawing compute that meaning, `RungEquivalence` and
   `RungComparison` that no environment tells the two forms apart, and exactly when the names they
   report differ. `GridPaths` shows that power is reachability, `GridProperties` that the order of
   the stored cells does not matter, `GridElements` what each kind of cell and block pin does in any
   grid, `BlockListings` how the listing of a function block is read. `BlockRungs`,
   `BlockRungListings` and `BlockRungComparison` repeat the comparison for rungs with a block.
2. **FBD execution order** (`src/twinforge/analysis/execution_order.py`). `TopologicalSort` is the
   wave-by-wave sort, `ExecutionOrder` and `ExecutionOrderPass` the evidence it is fed with and the
   pass over all diagrams, which updates diagrams in place.
3. **Promotion repository** (`src/twinforge/assembly/promotion_repository.py`,
   `src/twinforge/assembly/sqlite_promotion_repository.py`). `PromotionRepository` and
   `PromotionBatches` hold the state machine and its invariants, `PromotionStore` the class over two
   indexes, `RecordCodec` and `SqlitePromotion` the SQLite adapter as a refinement of it.
4. **Drum pattern block** (`examples/CODESYS/scripts/drum_pattern_editor.py`). `DrumPattern` prints,
   finds, parses and merges; `DrumShapes` says exactly which lines are read; `DrumReading`,
   `DrumSpans`, `DrumText`, `DrumBlock` and `DrumRoundTrip` show that these undo each other and leave
   other drums alone, and `DrumRuns` that they keep doing so over any sequence of saves.
5. **Logix call scanner** (`src/twinforge/analysis/software_calls.py`). `CallScanner` has the three
   loops, `CallPrinting` the printer they invert, for operands given by a grammar of
   quoted texts and groups.

Loops of the original are loops here, and objects it updates in place are classes; each such method
is proved equal to, or characterised by, a recursive function or predicate about which the lemmas
speak. `dafny verify dfyconfig.toml` checks everything.

## What the proofs found

Each point names the lemma with a failing input and the one with the exact condition.

- Two kinds of rung make the checker report a mismatch of names. One has a contact without a
  descriptor: Instruction List parsing counts the blank name as an atom, the grid
  model passes it over (`RungComparison.BlankContactDiffers`). The other has a contact that reads a
  target the rung has already written: the parser then takes that output for an internal temporary
  (`RungComparison.ReadBackDiffers`). For the rungs of `RungComparison.CheckRung` these are the only
  two. The grid sweep, too, can still stop at a blank contact after the check of the grid has passed
  (`GridProperties.BlankContactFaults`, `GridProperties.CheckedGridFaults`).
- Merging a drum does not leave "everything else in the list" as it is. Around a block that is
  replaced, or put into a section that is there, the lines are written back with `\n`, so that the
  text is kept exactly when it was so made (`DrumRoundTrip.SectionRewritten`,
  `DrumRoundTrip.HoleText`, `DrumRoundTrip.SlotText`). In front of a new section the text keeps its
  line breaks, but more than two at its end are cut to two, and a blank declaration is dropped
  (`DrumRoundTrip.ThirdBreakCut`, `DrumRoundTrip.SectionText`). Merging the same block
  again then changes text with other line breaks once more (`DrumRoundTrip.CrLfRewritten`,
  `DrumRoundTrip.MergeTwice`).
- `valid_drum_name` accepts a name with one trailing line break, because `$` matches before it
  (`DrumRoundTrip.BrokenNameAccepted`). Such a drum could never be found again
  (`DrumRoundTrip.AcceptedNames`); the dialog strips the name first.
- A wave of the topological sort releases exactly one level of longest dependency chains, so blocks
  are ordered by (level, position). The result depends on the order in which the set of blocks is
  iterated exactly when two blocks of one level stand at one position
  (`ExecutionOrder.EitherOrder`, `ExecutionOrder.UniqueExactly`).
- When an already known asset is re-applied with new evidence but no new generation, the answer is
  UNCHANGED and the new evidence is not stored (`PromotionBatches.EvidenceLost`,
  `PromotionBatches.EvidenceStored`); the retained evidence still never shrinks.

## Model

| member | source | states |
|---|---|---|
| RungComparison.CheckRung | examples/check_smbp_grid_vs_il.py:378-404 | for every drawn and listed rung (series-parallel networks, inversions, exclusive ors, outputs on the way, branches) and any list of environments the verdict is "match", except that a contact with a blank descriptor or one that reads back a written target makes it "keys/atoms differ" |
| RungComparison.BlankContactDiffers | examples/check_smbp_grid_vs_il.py:230-235 | a rung with a blank contact for which the names differ |
| RungComparison.ReadBackDiffers | examples/check_smbp_grid_vs_il.py:134-142 | a rung with no blank contact for which the names differ, because it reads back what it wrote |
| RungComparison.Compare | examples/check_smbp_grid_vs_il.py:392-400 | under one environment no output differs between the two evaluators |
| RungComparison.ListingNames | examples/check_smbp_grid_vs_il.py:73-145 | parsing a rung's listing reports as atoms the contacts that are not read back; it reports all the rung's outputs exactly when no contact reads one back |
| RungComparison.DrawingNames | examples/check_smbp_grid_vs_il.py:230-249 | the grid check reports exactly the rung's outputs, and its contacts' names except a blank one |
| RungComparison.ProgramUnwritten | examples/check_smbp_grid_vs_il.py:136-141 | an instruction of a rung's program reads what an earlier one wrote exactly when a contact of the rung reads back a target |
| RungComparison.ProgramKeys | examples/check_smbp_grid_vs_il.py:142-144 | the keys recorded by a rung's program are exactly its outputs |
| BlockRungComparison.CheckBlockRung | examples/check_smbp_grid_vs_il.py:378-404 | for every rung in which a network feeds the first pin of a timer, counter, drum or WriteVarBasic block and the block's first output a rung, and any list of environments, the verdict is "match", except that reading back a written target makes it "keys/atoms differ" |
| BlockRungComparison.BlockListingNames | examples/check_smbp_grid_vs_il.py:73-145 | the names and the wiring parsed from such a rung's listing; all its outputs exactly when nothing is read back |
| BlockRungComparison.BlockDrawingNames | examples/check_smbp_grid_vs_il.py:230-249 | the grid check reports exactly the outputs, the pin and the atoms of such a rung, the wired block output among them |
| BlockRungs.BlockGridMatchesProgram | examples/check_smbp_grid_vs_il.py:391-400 | sweeping the drawing and running the program of such a rung record the same map |
| BlockRungs.SweepOfBlock | examples/check_smbp_grid_vs_il.py:322-333 | the sweep records the pin as the network closes, and what is behind the block as the block's output fires it |
| BlockRungs.BlockProgramRecords | examples/check_smbp_grid_vs_il.py:183-189 | so does the program, which feeds the pin and loads the output |
| BlockRungs.BlockDrawingSound | examples/check_smbp_grid_vs_il.py:299-336 | the sweep of such a drawing never stops at a fault when its names are defined |
| BlockRungListings.BlockListingParses | examples/check_smbp_grid_vs_il.py:93-129 | the listing from BLK to END_BLK is read as that program; the pins and outputs it notes are the wiring of the drawing |
| BlockRungListings.LinesInBlock | examples/check_smbp_grid_vs_il.py:101-127 | lines that are no pins and name no block output read alike inside and outside a block |
| RungEquivalence.GridMatchesProgram | examples/check_smbp_grid_vs_il.py:391-400 | the program of a rung runs without a fault, and any map the grid sweep records for the drawing equals the map the program records, key by key |
| RungEquivalence.SameOutputs | examples/check_smbp_grid_vs_il.py:391-400 | the same, starting from the parsed text of a rung that reads back none of its targets |
| RungEquivalence.ListingParses | examples/check_smbp_grid_vs_il.py:73-145 | parsing the nested LD/AND/OR/AND(/OR( text of a rung gives its program and, as atoms, the contacts that are not read back |
| RungEquivalence.ContactRead | examples/check_smbp_grid_vs_il.py:113-133 | each spelling of a contact line (plain, N, R, F, comparison, grouped, AND(N) is read as the one instruction it stands for |
| RungPrograms.JoinedComputes | examples/check_smbp_grid_vs_il.py:160-174 | the code of a joined network combines the accumulator with the network's value and leaves both stacks alone |
| RungPrograms.CodeRecords | examples/check_smbp_grid_vs_il.py:176-189 | the code of an output tree with MPS/MRD/MPP records each output as a run of the rung energises it, reading back what the rung has written, and keeps what the run writes |
| RungPrograms.ProgramRecords | examples/check_smbp_grid_vs_il.py:148-190 | a whole program records exactly the rung's outputs, each true exactly when a run of the rung energises it, and ends with the written targets the run leaves; targets read back are covered |
| RungPrograms.StageRecords | examples/check_smbp_grid_vs_il.py:160-189 | N inverts the power, XOR differs it, an output records it and hands it on, each as the stage of the rung means |
| ContactRungs.RunsFires | examples/check_smbp_grid_vs_il.py:134-142 | unless a target is read back, what is written in a run does not matter to what the rung energises |
| ContactRungs.RungKeptKeys | examples/check_smbp_grid_vs_il.py:187-189 | a run leaves exactly the targets of the rung written, besides those written before |
| RungDrawings.NetPower | examples/check_smbp_grid_vs_il.py:257-296 | in the drawing of a network the right node carries power exactly when the left node does and the network closes |
| RungDrawings.RungPower | examples/check_smbp_grid_vs_il.py:257-296 | a drawn output cell is under power exactly when the rung fires that output |
| RungDrawings.StagePower | examples/check_smbp_grid_vs_il.py:299-321 | the power behind a drawn inversion, exclusive or or output that hands power on is what the stage passes, and its output is energised exactly under power |
| RungDrawings.DrawingRecords | examples/check_smbp_grid_vs_il.py:257-296 | what the sweep records for a drawing is what the rung fires |
| RungDrawings.DrawingKeys | examples/check_smbp_grid_vs_il.py:318-321 | the sweep of a drawing records exactly the rung's outputs |
| RungDrawings.DrawingSound | examples/check_smbp_grid_vs_il.py:299-336 | the sweep of a drawing never stops at a fault when the environment defines its atoms |
| GridPaths.PowerIsReachability | examples/check_smbp_grid_vs_il.py:257-336 | without Not and Xor cells a node carries power exactly when a conducting path leads to it from the rail, a Short cell or a wired block output |
| GridPaths.PathPowered | examples/check_smbp_grid_vs_il.py:273-295 | every node on a conducting path carries power |
| GridPaths.PoweredReached | examples/check_smbp_grid_vs_il.py:273-295 | power at a node always comes along such a path |
| GridProperties.OrderIrrelevant | examples/check_smbp_grid_vs_il.py:257-296 | permuting the stored cells changes neither the recorded results nor whether the sweep succeeds, if block names are distinct |
| GridProperties.SamePower | examples/check_smbp_grid_vs_il.py:268-296 | permuting the stored cells changes the power of no node |
| GridProperties.GridModel | examples/check_smbp_grid_vs_il.py:230-249 | the reported atoms and outputs are exactly those some cell names; it fails exactly on a pin its block type lacks |
| GridProperties.CellModel | examples/check_smbp_grid_vs_il.py:232-248 | the share of one cell in that report |
| GridProperties.CheckedGridFaults | examples/check_smbp_grid_vs_il.py:299-336 | after the check the sweep faults at a cell exactly when it is of an unsupported kind or a looked-up contact has a blank descriptor |
| GridProperties.BlankContactFaults | examples/check_smbp_grid_vs_il.py:232-234 | a grid that passes the check and still stops the sweep |
| GridProperties.RecordedKeysAreListed | examples/check_smbp_grid_vs_il.py:230-249 | the sweep records exactly the outputs the check lists, but for those of cells ending left of the rail |
| GridElements.RailPower | examples/check_smbp_grid_vs_il.py:264-269 | the left rail feeds the rows from the first down to the last that holds a cell, and no other |
| GridElements.ElementPower | examples/check_smbp_grid_vs_il.py:299-321 | in any grid the right node of a cell nothing else drives has power exactly as its kind says, for each of the sixteen kinds: from the power at its left and the value of the name it looks up |
| GridElements.ElementFaults | examples/check_smbp_grid_vs_il.py:299-336 | a cell stops the sweep exactly when its kind is unsupported or a name it needs is missing; contacts need theirs only under power, Xor always |
| GridElements.BlockFaults | examples/check_smbp_grid_vs_il.py:322-333 | a block with defined outputs stops the sweep exactly when it is wired to a pin its type does not have |
| GridElements.PinRows | examples/check_smbp_grid_vs_il.py:45-50 | each wired input pin is recorded with the power at the left of its block, IN, Execute and R on the first row, U and S on the second, CU and CD on the third and fourth |
| GridElements.OutputRows | examples/check_smbp_grid_vs_il.py:45-50 | where only a block ends, exactly its true wired outputs have power, on the rows of their pins and two columns right of it, or four for WriteVarBasic |
| LadderGrid.RunGrid | examples/check_smbp_grid_vs_il.py:257-296 | the sweep fails exactly when some visited cell is at fault; otherwise every output is the OR over its cells' powers and every pin the power at its last block |
| LadderGrid.DriveColumn | examples/check_smbp_grid_vs_il.py:268-275 | the raw values of a column are exactly the rows driven by the rail, by cells ending there or by block outputs |
| LadderGrid.JoinColumn | examples/check_smbp_grid_vs_il.py:276-295 | after joining rows every node of the column holds the OR of the raw values over its connected component |
| LadderGrid.JoinRows | examples/check_smbp_grid_vs_il.py:283-290 | the vertical links of a column give exactly the joins its Up and Down cells name, over all driven rows |
| LadderGrid.GroupRows | examples/check_smbp_grid_vs_il.py:291-293 | each group is true exactly when one of its rows is |
| LadderGrid.VisitCell | examples/check_smbp_grid_vs_il.py:270-275 | visiting one cell adds exactly what it drives and what it records |
| LadderGrid.Transfer | examples/check_smbp_grid_vs_il.py:299-321 | what each kind of cell drives, which output it accumulates, and when it faults |
| LadderGrid.FeedBlock | examples/check_smbp_grid_vs_il.py:322-333 | a block records the power at each wired input pin and drives each wired output on the row of that pin |
| RowJoins.Joins.Find | examples/check_smbp_grid_vs_il.py:278-281 | find terminates on the forest, returns the root and adds a missing row as its own root |
| RowJoins.Joins.Join | examples/check_smbp_grid_vs_il.py:287-290 | joining neighbouring rows keeps the forest and merges exactly their two components |
| RowJoins.JoinForest | examples/check_smbp_grid_vs_il.py:278-290 | redirecting one root to another keeps the parent links acyclic |
| RowJoins.JoinGap | examples/check_smbp_grid_vs_il.py:285-290 | after a redirect two rows share a root exactly when they are connected by the enlarged set of links |
| RowJoins.SpanWithGap | examples/check_smbp_grid_vs_il.py:285-290 | which rows become connected when one more link is added |
| InstructionList.RunIl | examples/check_smbp_grid_vs_il.py:148-190 | the interpreter's loop computes the machine's run, with a fault for a missing atom, an empty stack or closing an LD( group |
| InstructionList.RunFollowsBrackets | examples/check_smbp_grid_vs_il.py:169-182 | whether and how a run fails depends only on its brackets, and the recorded keys only on the program |
| InstructionList.BalancedFragment | examples/check_smbp_grid_vs_il.py:169-182 | a well-bracketed fragment never underflows, leaves both stacks as found and does not look below its start |
| InstructionList.GroupLaw | examples/check_smbp_grid_vs_il.py:169-174 | a bracketed group ANDs, ORs or differs the saved accumulator with the value its content has on its own |
| InstructionList.LoadLaw | examples/check_smbp_grid_vs_il.py:152-161 | LD takes a constant, else what the rung has written, else the environment, negated if so marked, and faults on a name that is in none |
| InstructionList.LineLaw | examples/check_smbp_grid_vs_il.py:160-168 | AND and OR against LD on the same operand, which they leave unread under a false or a true accumulator, and XOR, which always reads it |
| InstructionList.WriteThenRead | examples/check_smbp_grid_vs_il.py:187-189 | after any run that ends in a write, the target reads back under any environment: as stored by ST, negated by STN, as before under S and R; no other target changes |
| InstructionList.PerformLaw | examples/check_smbp_grid_vs_il.py:183-186 | an operation shows the OR of the powers it has seen, a block pin the last power it was fed |
| InstructionList.SavedLaw | examples/check_smbp_grid_vs_il.py:177-182 | MPS, any number of well-bracketed branches with MRD between them, and MPP run through; the MPP and a further MRD give back the accumulator saved by the MPS |
| InstructionList.EveryReadRestores | examples/check_smbp_grid_vs_il.py:160-182 | in any run that starts with nothing saved, whatever brackets surround it, every MRD and MPP has its matching MPS and restores the accumulator saved there |
| InstructionList.DepthIsHeight | examples/check_smbp_grid_vs_il.py:177-182 | the height of the saved stack at each point of a run is the number of MPS less the number of MPP before it |
| InstructionList.Frame | examples/check_smbp_grid_vs_il.py:169-182 | a run that succeeds does the same on top of any deeper stacks |
| InstructionList.ExecAppend | examples/check_smbp_grid_vs_il.py:160-189 | running two programs in a row is running their concatenation |
| IlParser.ParseIl | examples/check_smbp_grid_vs_il.py:73-145 | the parser reads line by line, reports exactly the written keys that are not internal temporaries, and fails exactly on an unknown operator |
| IlParser.InternalTargets | examples/check_smbp_grid_vs_il.py:136-141 | the internal temporaries are exactly the targets read after being written |
| IlParser.RungKeys | examples/check_smbp_grid_vs_il.py:142-144 | the outputs are all recorded keys except writes to internal temporaries |
| IlParser.AtomsAreInputs | examples/check_smbp_grid_vs_il.py:102-133 | the reported atoms are those read before being written, plus the RISINGn blocks |
| IlParser.ParseThenRun | examples/check_smbp_grid_vs_il.py:73-190 | an environment on the reported atoms never leaves one undefined; the run fails only on its brackets and records exactly the outputs and the internal writes |
| IlParser.EdgesIgnored | examples/check_smbp_grid_vs_il.py:117-131 | an R or F mark does not reach a constant, a comparison or an output of the surrounding block; constants are no atoms, outputs are noted under the block |
| BlockListings.BlockParses | examples/check_smbp_grid_vs_il.py:93-129 | the listing of a function block between BLK and END_BLK is read as a load and a feed per input pin and a load and a store per output; pins and outputs are noted under the block's name in order, and output names become its atoms |
| TopologicalSort.TopologicalOrder | src/twinforge/analysis/execution_order.py:86-99 | terminates; no order exactly when some set of blocks waits on itself; otherwise a permutation that puts dependencies first, sorted by (longest chain, position) |
| TopologicalSort.NoOrderWhenStuck | src/twinforge/analysis/execution_order.py:91-93 | a set of blocks that waits on itself rules out every order, not only this one |
| TopologicalSort.LevelIsLongestChain | src/twinforge/analysis/execution_order.py:90-98 | the wave of a block is the length of the longest dependency chain below it |
| TopologicalSort.LevelsUnique | src/twinforge/analysis/execution_order.py:90-98 | the waves are determined by the dependencies alone |
| TopologicalSort.LayeredUnique | src/twinforge/analysis/execution_order.py:91 | where no two blocks of one wave share a position, the order does not depend on the order of iteration |
| TopologicalSort.SwapTied | src/twinforge/analysis/execution_order.py:91 | two blocks of one wave at one position may change places in the order |
| TopologicalSort.SortedPlaced | src/twinforge/analysis/execution_order.py:91 | a wave is sorted by position, stably |
| TopologicalSort.LayeredByRow | src/twinforge/analysis/execution_order.py:91 | of two blocks of one wave the one in the smaller row comes first, in one row the one in the smaller column |
| ExecutionOrder.ResolvedIsTrustworthy | src/twinforge/analysis/execution_order.py:102-167 | a diagram this run resolves has all links resolved, and its order lists each block once and respects every link, every execAfter and every shared-variable pair |
| ExecutionOrder.CandidateExactly | src/twinforge/analysis/execution_order.py:107-121 | a diagram is looked at exactly when it is FBD, not excluded, not resolved under a basis still in use, and made of annotations and at least two blocks |
| ExecutionOrder.MisnamedExactly | src/twinforge/analysis/execution_order.py:67-83 | an unresolved override is reported exactly when such a diagram has a block whose execAfter names itself, no block or several |
| ExecutionOrder.AmbiguousExactly | src/twinforge/analysis/execution_order.py:130-146 | two writers are reported exactly when the overrides resolve, output pins of two blocks refer to one symbol, and no pin of any block is of the four unresolved kinds |
| ExecutionOrder.ResolvedExactly | src/twinforge/analysis/execution_order.py:147-166 | with sound names, pins and complete evidence a diagram is resolved, into a sequence of its blocks that respects every link and override, exactly when there is one, and otherwise reported as cyclic |
| ExecutionOrder.EvidentExactly | src/twinforge/analysis/execution_order.py:40-64 | the evidence is complete exactly when all links are resolved, each symbol one block writes and another reads has its link, and every block has a position |
| ExecutionOrder.Unresolved | src/twinforge/analysis/execution_order.py:107-112 | a diagram that is not resolved stays as it was, but for a result of the withdrawn basis, which is cleared |
| ExecutionOrder.DependenciesFirst | src/twinforge/analysis/execution_order.py:156-163 | in an accepted order a block comes after everything it depends on |
| ExecutionOrder.ResolvedByPosition | src/twinforge/analysis/execution_order.py:149-163 | in a diagram just resolved, of two blocks with equally long dependency chains the one in the smaller row comes first, in one row the one in the smaller column |
| ExecutionOrder.OutcomeUnique | src/twinforge/analysis/execution_order.py:107-166 | the verdict, the new state and the issue of a diagram are determined by the diagram, unless it is resolved and two blocks of one level share a position |
| ExecutionOrder.UniqueExactly | src/twinforge/analysis/execution_order.py:107-166 | a resolved diagram has one possible result exactly when no two blocks of one level share a position |
| ExecutionOrder.EitherOrder | src/twinforge/analysis/execution_order.py:86-99 | two unlinked blocks at one position may be resolved in either order |
| ExecutionOrder.SecondVisit | src/twinforge/analysis/execution_order.py:107-166 | visiting a diagram again changes nothing and reports the same issue, also after a stale result was cleared |
| ExecutionOrderPass.ExecutionOverrides | src/twinforge/analysis/execution_order.py:67-83 | fails exactly when some execAfter names no block, several, or its own; otherwise gives exactly the named pairs |
| ExecutionOrderPass.DependencyGraph | src/twinforge/analysis/execution_order.py:40-64 | refuses exactly when a link is unresolved or a shared-variable pair has no link; otherwise gives exactly the linked pairs |
| ExecutionOrderPass.LinkGraph | src/twinforge/analysis/execution_order.py:42-51 | the graph of the links alone, refused exactly when one is unresolved |
| ExecutionOrderPass.IsAmbiguous | src/twinforge/analysis/execution_order.py:137-146 | true exactly when two blocks write one symbol |
| ExecutionOrderPass.ResolveDiagram | src/twinforge/analysis/execution_order.py:107-166 | one diagram's fields and issue after its visit, for every branch |
| ExecutionOrderPass.ResolveRoutineDiagrams | src/twinforge/analysis/execution_order.py:102-167 | the issues of a routine in diagram order, and every diagram visited once with its own index |
| ExecutionOrderPass.IssuesExactly | src/twinforge/analysis/execution_order.py:102-167 | the issues of a routine are those of its diagrams, each under its own index and scope, in the order of the diagrams |
| ExecutionOrderPass.ResolveFbdExecutionOrder | src/twinforge/analysis/execution_order.py:170-185 | the same over all routines of programs and function blocks, with the exclusions of each kind |
| ExecutionOrderPass.ExcludedByScope | src/twinforge/analysis/execution_order.py:175-185 | a network is left out exactly when it is listed for the kind of unit, program or function block, that it belongs to |
| ExecutionOrderPass.ResolveTwice | src/twinforge/analysis/execution_order.py:170-185 | a second run with the same exclusions changes no diagram and reports the same list of issues |
| ExecutionOrderPass.SameAllIssues | src/twinforge/analysis/execution_order.py:170-185 | two successive visits of all units report equal issues and end in equal states |
| PromotionRepository.StepConsistent | src/twinforge/assembly/promotion_repository.py:123-212 | a batch keeps the two indexes mutual inverses that agree with the records; a rejected batch leaves the whole state as it was |
| PromotionRepository.RunConsistent | src/twinforge/assembly/promotion_repository.py:87-212 | so does every sequence of accepted and rejected batches |
| PromotionRepository.RunExtends | src/twinforge/assembly/promotion_repository.py:161-196 | over any run an asset keeps its core fields and identity, generations only grow by suffixes, and evidence never shrinks |
| PromotionRepository.PlanSound | src/twinforge/assembly/promotion_repository.py:125-187 | a planned batch has distinct assets and identities, and every item may be committed |
| PromotionRepository.CommitConsistent | src/twinforge/assembly/promotion_repository.py:189-196 | committing such a plan keeps the indexes mutual inverses |
| PromotionBatches.BatchIsSequence | src/twinforge/assembly/promotion_repository.py:123-212 | a batch is accepted exactly when its assets and identities are distinct and its records are accepted one at a time, with the same final state |
| PromotionBatches.Reapply | src/twinforge/assembly/promotion_repository.py:167-191 | applying an accepted batch again answers UNCHANGED for every item and changes nothing |
| PromotionBatches.EvidenceStored | src/twinforge/assembly/promotion_repository.py:173-194 | the evidence of an accepted record is stored exactly when the asset is new, its history has grown, or the evidence was stored before |
| PromotionBatches.EvidenceLost | src/twinforge/assembly/promotion_repository.py:177-191 | new evidence without a new generation is accepted, answered UNCHANGED and not stored |
| PromotionBatches.CommitLookup | src/twinforge/assembly/promotion_repository.py:189-194 | what is stored under each asset after a commit |
| PromotionBatches.PlanOneFrame | src/twinforge/assembly/promotion_repository.py:145-187 | committing one record does not change the verdict on a record of another asset and identity |
| PromotionStore.InMemoryPromotionRepository.Apply | src/twinforge/assembly/promotion_repository.py:123-212 | the method makes the state machine's step and answers with its items sorted by asset |
| PromotionStore.InMemoryPromotionRepository.PlanBatch | src/twinforge/assembly/promotion_repository.py:125-187 | planning reads the state, reports the first error in batch order and changes nothing |
| PromotionBatches.AcceptedExactly | src/twinforge/assembly/promotion_repository.py:145-187 | a record is accepted exactly when no other asset holds its identity and it either names an asset unknown to the plant or agrees with the stored one in identity and core fields, continues its history and keeps its evidence; it keeps the stored asset and is UNCHANGED exactly when its history has not grown |
| PromotionBatches.RefusedExactly | src/twinforge/assembly/promotion_repository.py:145-187 | a refused record is refused for the first of the six checks that fails, and with that error |
| PromotionBatches.FirstFault | src/twinforge/assembly/promotion_repository.py:129-187 | a refused batch is refused for what is wrong with its first faulty record, a repeated asset before a repeated identity before its own checks, and changes nothing |
| PromotionBatches.ItemsAnswerRecords | src/twinforge/assembly/promotion_repository.py:198-212 | each answered item carries the asset id and the identity of its batch record |
| PromotionBatches.PlantGrows | src/twinforge/assembly/promotion_repository.py:189-196 | after an accepted batch the plant's list is the old one followed by the assets not stored before, in batch order |
| PromotionBatches.RunAddsOnce | src/twinforge/assembly/promotion_repository.py:189-196 | over any run the plant's list grows at its end only, by assets that were neither stored nor in the plant, each once |
| PromotionStore.InMemoryPromotionRepository.CommitBatch | src/twinforge/assembly/promotion_repository.py:189-196 | the commit loop updates both indexes and the plant as the step says |
| PromotionStore.InMemoryPromotionRepository.Records | src/twinforge/assembly/promotion_repository.py:108-110 | the records are listed once each, sorted by asset id |
| PromotionStore.InMemoryPromotionRepository.IdentityLookup | src/twinforge/assembly/promotion_repository.py:116-121 | lookup by identity finds exactly the record that holds it |
| PromotionStore.Open | src/twinforge/assembly/promotion_repository.py:87-106 | opening succeeds exactly on records with distinct assets and identities, and then holds exactly these, consistently |
| RecordCodec.RoundTrip | src/twinforge/assembly/sqlite_promotion_repository.py:109-164 | decoding an encoded record gives back everything but the core fields that are not encoded |
| RecordCodec.SameDocument | src/twinforge/assembly/sqlite_promotion_repository.py:109-137 | encoding does not see the fields it drops |
| SqlitePromotion.SqlitePromotionRepository.Apply | src/twinforge/assembly/sqlite_promotion_repository.py:32-65 | on a table that stores a state, apply answers as the in-memory step does and then stores the stepped state; a failure leaves the table as it was |
| SqlitePromotion.ApplyAll | src/twinforge/assembly/sqlite_promotion_repository.py:32-65 | any sequence of applies gives the same answers and stores the same state as the in-memory run |
| SqlitePromotion.StrippedStep | src/twinforge/assembly/sqlite_promotion_repository.py:37-45 | validation reads nothing the encoding drops: a step from decoded records has the same outcome and the same table |
| SqlitePromotion.SqlitePromotionRepository.WriteAll | src/twinforge/assembly/sqlite_promotion_repository.py:45-59 | the upsert loop over an older table never breaks the UNIQUE identity column and ends in the table of the new state |
| SqlitePromotion.SqlitePromotionRepository.Load | src/twinforge/assembly/sqlite_promotion_repository.py:37-42 | every stored row decodes, to exactly the stripped records |
| SqlitePromotion.SqlitePromotionRepository.GetByIdentityKey | src/twinforge/assembly/sqlite_promotion_repository.py:75-84 | lookup by identity returns the stripped record the in-memory lookup returns |
| SqlitePromotion.SameRecordPerAsset | src/twinforge/assembly/sqlite_promotion_repository.py:67-73 | so does lookup by asset |
| DrumRoundTrip.MergeThenParse | examples/CODESYS/scripts/drum_pattern_editor.py:59-137 | from any declaration, parsing a drum after merging its block gives the step count clamped to 1..8, the same eight words and the stripped names |
| DrumRoundTrip.SaveAndLoad | examples/CODESYS/scripts/drum_pattern_editor.py:59-137 | the same through the three routines themselves |
| DrumRuns.RunReadsBack | examples/CODESYS/scripts/drum_pattern_editor.py:59-137 | from a declaration without markers, after any saves of any drums in any order, each drum reads back the pattern it was saved with last |
| DrumRuns.LastSaveReads | examples/CODESYS/scripts/drum_pattern_editor.py:59-137 | the same from any declaration that already holds blocks, one for each drum |
| DrumRuns.UnsavedReads | examples/CODESYS/scripts/drum_pattern_editor.py:116-137 | a drum that none of the saves is for keeps the pattern its block had |
| DrumRuns.SaveOne | examples/CODESYS/scripts/drum_pattern_editor.py:116-137 | one save keeps a declaration of lines and one block for each drum such a declaration, with the saved block in it and every other block as it was |
| DrumRoundTrip.OtherDrumsKept | examples/CODESYS/scripts/drum_pattern_editor.py:116-137 | merging one drum leaves the parse result of every other drum whose block stands apart from the replaced lines |
| DrumRoundTrip.MergeSplices | examples/CODESYS/scripts/drum_pattern_editor.py:116-137 | every line outside the replaced block is kept in order and the block stands in the hole; a new section may change only blank lines before it |
| DrumRoundTrip.MergeTwice | examples/CODESYS/scripts/drum_pattern_editor.py:116-137 | merging the same block again changes no line, and no character exactly unless a new section was added to text with other line breaks |
| DrumRoundTrip.HoleText | examples/CODESYS/scripts/drum_pattern_editor.py:122-127 | where a block is replaced, the text before and after it is kept exactly when it has no line break but "\n" and its last line has one |
| DrumRoundTrip.SlotText | examples/CODESYS/scripts/drum_pattern_editor.py:128-133 | where a block goes into an existing section, all the text is kept exactly when it has no line break but "\n" and ends in one |
| DrumRoundTrip.SectionText | examples/CODESYS/scripts/drum_pattern_editor.py:134-137 | in front of a new section the declaration is kept exactly when it ends in at most two "\n", or is empty if it is blank |
| DrumRoundTrip.SectionRewritten | examples/CODESYS/scripts/drum_pattern_editor.py:128-133 | a section with CR LF whose text is not kept |
| DrumRoundTrip.ThirdBreakCut | examples/CODESYS/scripts/drum_pattern_editor.py:135-136 | a declaration ending in three line breaks that is not kept |
| DrumRoundTrip.CrLfRewritten | examples/CODESYS/scripts/drum_pattern_editor.py:134-137 | a declaration with CR LF for which the second merge changes the text |
| DrumRoundTrip.MergedBlockFound | examples/CODESYS/scripts/drum_pattern_editor.py:76-86 | after a merge the block found is the merged one, whatever dangling or misordered markers stand around it |
| DrumRoundTrip.AcceptedNames | examples/CODESYS/scripts/drum_pattern_editor.py:46-51 | a name accepted by the check round-trips exactly when it does not end in a line break |
| DrumRoundTrip.BrokenNameAccepted | examples/CODESYS/scripts/drum_pattern_editor.py:46-51 | an accepted name that ends in a line break |
| DrumSpans.OtherDrumKept | examples/CODESYS/scripts/drum_pattern_editor.py:76-113 | exchanging lines without a drum's markers outside its block leaves what is parsed for it |
| DrumSpans.MarkersDiffer | examples/CODESYS/scripts/drum_pattern_editor.py:43-44 | no marker of one drum is a marker of another, and no begin is an end |
| DrumBlock.BlockReads | examples/CODESYS/scripts/drum_pattern_editor.py:59-113 | the lines of a printed block, indented, read back as what was printed |
| DrumBlock.InsideInner | examples/CODESYS/scripts/drum_pattern_editor.py:59-73 | no line inside a printed block is a marker of any drum |
| DrumReading.BitsBack | examples/CODESYS/scripts/drum_pattern_editor.py:54-56 | a 16-bit word is printed in sixteen bits that read back as the word |
| DrumReading.DecimalBack | examples/CODESYS/scripts/drum_pattern_editor.py:64-70 | a printed number reads back as the number |
| DrumReading.ReadWord | examples/CODESYS/scripts/drum_pattern_editor.py:109-111 | a printed word line is read as its word and nothing else |
| DrumReading.ReadName | examples/CODESYS/scripts/drum_pattern_editor.py:101-104 | a printed name line is read as its bit and name |
| DrumReading.ReadCount | examples/CODESYS/scripts/drum_pattern_editor.py:105-108 | a printed count line is read as its count |
| DrumShapes.CountExactly | examples/CODESYS/scripts/drum_pattern_editor.py:105-108 | a line gives a step count exactly when it is the drum's `_NSTEPS`, a colon, INT, `:=`, digits and a semicolon, with any white space between and any text behind |
| DrumShapes.NameExactly | examples/CODESYS/scripts/drum_pattern_editor.py:101-104 | a line names a bit exactly when it is `// B`, digits, a colon, a blank and a name, which is stripped |
| DrumShapes.WordExactly | examples/CODESYS/scripts/drum_pattern_editor.py:109-111 | a line gives a word exactly when it starts with `2#` and bits, grouped or not; marks without a bit are the literal that cannot be read |
| DrumShapes.ParsedInRange | examples/CODESYS/scripts/drum_pattern_editor.py:89-113 | whatever stands in a block, what is parsed has one to eight steps, eight words and sixteen names |
| DrumShapes.EightWordsAre | examples/CODESYS/scripts/drum_pattern_editor.py:112 | missing words are zero and surplus words are dropped |
| DrumShapes.ClampedIs | examples/CODESYS/scripts/drum_pattern_editor.py:107 | the step count is kept between one and eight and changed only outside |
| DrumText.SplitJoined | examples/CODESYS/scripts/drum_pattern_editor.py:122-127 | joined lines without line breaks split into the same lines |
| DrumText.JoinSplitExactly | examples/CODESYS/scripts/drum_pattern_editor.py:122-127 | split lines join to the same text exactly when "\n" is the only line break |
| DrumText.UnlinesExactly | examples/CODESYS/scripts/drum_pattern_editor.py:122-127 | lines written back with "\n" give the same text exactly when it is made of lines ended by "\n" |
| DrumText.FrontSplits | examples/CODESYS/scripts/drum_pattern_editor.py:122-126 | the text of the first lines splits into exactly these lines |
| DrumPattern.FormatBlock | examples/CODESYS/scripts/drum_pattern_editor.py:59-73 | the printing loops give the begin marker, the named bits of the first sixteen, the count, the first eight words and the end marker, in this order |
| DrumPattern.BlockSpan | examples/CODESYS/scripts/drum_pattern_editor.py:76-86 | the search finds the last begin before the first end that follows one |
| DrumPattern.SpanInside | examples/CODESYS/scripts/drum_pattern_editor.py:76-86 | a found span lies inside the lines, begin before end |
| DrumPattern.ParseBlock | examples/CODESYS/scripts/drum_pattern_editor.py:89-113 | the parsing loop folds the readings of the block's lines; a literal of underscores only makes it fail |
| DrumPattern.MergeBlock | examples/CODESYS/scripts/drum_pattern_editor.py:116-137 | the block replaces the old one, else goes before the first closing line of the first constant section that has one, else into a new section |
| DrumPattern.SlotIs | examples/CODESYS/scripts/drum_pattern_editor.py:128-133 | a new block goes before the first closing line behind the first opening line, and there is no place for it only when no closing line follows an opening one |
| DrumBlock.ArrayHoldsWords | examples/CODESYS/scripts/drum_pattern_editor.py:67-72 | the declared bound of the array is one less than the number of its word lines |
| CallPrinting.ScanInvertsPrint | src/twinforge/analysis/software_calls.py:112-192 | scanning printed calls returns exactly those callees, operand tuples and texts, in order; operands are any sequence of characters, quoted texts and groups in parentheses, square brackets or braces, between them stands text in which every word ends and is followed by no parenthesis, and after them any text in which scanning finds no call |
| CallPrinting.WalkShown | src/twinforge/analysis/software_calls.py:168-192 | the text of an operand leaves the depths and the quote as it found them, though commas and foreign closers stand inside it |
| CallPrinting.OperandBalanced | src/twinforge/analysis/software_calls.py:148-192 | so does an operand with the white space around it |
| CallPrinting.OpenCall | src/twinforge/analysis/software_calls.py:129-135 | a name whose parenthesis is never closed is no call, and the scan goes on right behind the parenthesis |
| CallPrinting.CallsAreSlices | src/twinforge/analysis/software_calls.py:112-145 | for any text the calls found are disjoint slices of it, in order, each starting with its callee |
| CallPrinting.MatchJoined | src/twinforge/analysis/software_calls.py:148-165 | the parenthesis matched after joined operands is the one that closes the call, whatever follows |
| CallPrinting.SplitJoined | src/twinforge/analysis/software_calls.py:168-192 | splitting joined operands at the commas between them gives them back, stripped, and none for a lone blank one |
| CallPrinting.ScanOne | src/twinforge/analysis/software_calls.py:117-144 | one printed call at the front is found whole and the scan goes on behind it |
| CallPrinting.SkipFiller | src/twinforge/analysis/software_calls.py:117-135 | text in which every word ends and is followed by no parenthesis is passed over |
| CallScanner.ScanCalls | src/twinforge/analysis/software_calls.py:112-145 | the scanning loop terminates and computes the recursive scan |
| CallScanner.MatchingParenthesis | src/twinforge/analysis/software_calls.py:148-165 | the matching loop computes the recursive match and stays inside the text |
| CallScanner.SplitOperands | src/twinforge/analysis/software_calls.py:168-192 | the splitting loop computes the recursive split |

## Left out

- Tokenising Instruction List lines and normalising expressions: `IlParser` starts from lines already split into operator, modifier, group and operand, with expressions normalised.
- The sampling of environments beyond twelve atoms, and the feature counts of the report: `CheckRung` takes any list of environments instead.
- Rungs of other shapes, such as bridges between networks, several function blocks in one rung or blocks wired at more than one input or output pin, have no equivalence proof between the two evaluators; each evaluator is still modelled and characterised for all of them.
- BlockRungComparison.CheckBlockRung: takes contacts with names, which behind OUT_BLK start with `%` or are comparisons, because the parser takes a line without an operand for a pin and other names for outputs of the block.
- RungComparison.CheckRung: contacts named like a constant, an expression or an `N ` prefix are excluded, because Instruction List text cannot spell them, and so are comparisons that hold `:=`, because such a cell is an output.
- RungComparison.Compare: takes rungs that read back none of their targets, because for the others the verdict is given before any environment is tried.
- The `--vertical-on-left` negative control.
- `LD(` groups: opening one is modelled, closing one is the fault the dictionary lookup raises.
- ExecutionOrderPass.ResolveRoutineDiagrams: takes the diagrams of a routine to be distinct objects.
- ExecutionOrderPass.ResolveFbdExecutionOrder: takes no diagram object to be shared by two routines.
- ExecutionOrderPass.ResolveTwice: takes no diagram object to be shared by two routines.
- The traversal of programs and add-on instructions is flattened to a list of units, each with its scope, container name and routine name.
- `casefold` and `strip` of instance names: the model holds folded names and stripped `execAfter` targets.
- Iteration over sets and dictionaries is any listing of the members; where a result can depend on it, the exact condition is proved.
- `Plant.add_asset` is modelled as appending the asset; its other effects are not part of this model. Controllers and networks of the plant are represented by their ids.
- Text of error messages: each error is a constructor with the same case distinction.
- SQLite locking, WAL mode, timeouts and connection errors: a transaction is one atomic step over a table with its two key constraints.
- JSON text: `dumps` followed by `loads` is taken as the identity on documents; dates are opaque text with an exact round trip; the device type is the text of its value.
- RecordCodec.RoundTrip: the fields of an asset that are not encoded are dropped, as in the original, so the result is the stripped record.
- Regular expressions of the drum editor are replaced by scanners for the same shapes; digits are ASCII digits, and the opening and closing lines of a constant section are arbitrary line predicates.
- DrumRoundTrip.OtherDrumsKept: asks that the other drum's markers stand neither in the replaced lines nor on both sides of them, because a block nested in another is read as part of it.
- DrumRuns.RunReadsBack: asks that no line of a printed block closes a section, which holds for the pattern of the editor, because a printed line starts with white space and then `//`, a drum name followed by `_`, a digit or `]`.
- DrumPattern.FormatBlock: takes at least eight words and sixteen names; shorter lists raise an index error in the original.
- The CODESYS dialog, the usage text and everything that needs the CODESYS objects.
- The recursive syntax walk over Structured Text, and the call-site records built from scanned calls.
- CallScanner.ScanCalls: character classes are parameters with the few facts needed of them, so that any Unicode table fits.
- Command lines, XML reading, report builders, live discovery and the remaining export scripts.
