# Goto-chain removal, modelled in Dafny

This project models the goto-chain removal pass of the Redex Android bytecode
optimizer (`RemoveGotosPass`). The pass works on each method body that has
code. It rebuilds the control-flow graph (CFG) and looks, in block order, for
a *mergeable* block B. B is mergeable when:

- it has exactly one successor C;
- its last entry is an unconditional goto;
- C is not B;
- C has exactly one predecessor;
- C either has no successor or ends in a goto itself.

To merge, the pass erases C from the instruction stream. It then inserts C's
entries, except C's first entry (its branch-target marker), right after B's
goto, and erases the goto. It counts one removed goto and starts again, until
no block is mergeable. The pass reports the total over all methods as the
metric `num_goto_removed`.

The modules follow the program's structure:

- `Wrappers` holds `Option`, used where the source returns a possibly-null block pointer.
- `IR` holds the instruction stream. A method body is an `IRCode` object whose
  `entries` sequence is edited in place by `Erase` and `InsertAfter`.
  `DexMethod` holds a possibly-null `IRCode`.
- `ControlFlow` holds the CFG as a value. Blocks are named by their index in
  stream order. Each block is a half-open range of stream positions with
  successor and predecessor index lists. `WellFormed` describes a CFG that
  tiles the stream.
- `GotoChains` is the specification on values:
  - what a goto is and how many a stream holds;
  - the mergeable rule and the first mergeable block;
  - `Splice`, the effect of one merge on the stream;
  - `ProcessedBody`, the fixed point reached by repeated merges, with the number of merges;
  - the totals over a list of bodies.
- `RemoveGotosPass` is the imperative pass:
  - the worker class `RemoveGotos` with its counter and its methods, each proved against the value specification;
  - the entry points `Run` (one method) and `RunPass` (every method of a program).

The CFG builder is not part of this model. It is a function parameter `build`
constrained by `BuilderContract`:

- the graph is well formed for the stream;
- a goto only ever ends a block;
- a block ending in a goto leads only to blocks that open with the branch-target marker of the label the goto names.

This last clause is why one merge removes exactly one goto. Gotos carry their
target label and branch-target markers carry their label, so the builder sees
where every goto jumps. Two bodies whose entries differ only in their labels
can therefore have different graphs.

## Model

| member | source | states |
|---|---|---|
| IR.IRCode.Erase | opt/remove_gotos/RemoveGotos.cpp:98-101 | erasing an entry removes exactly that position and returns the position of the entry that followed it |
| IR.IRCode.InsertAfter | opt/remove_gotos/RemoveGotos.cpp:106-108 | inserting after a position puts the new entry right behind it and returns its position |
| GotoChains.HasGoto | opt/remove_gotos/RemoveGotos.cpp:41-43 | a block whose last entry is a goto has a goto in its range, so the search that follows always succeeds |
| GotoChains.IsGoto | opt/remove_gotos/RemoveGotos.cpp:35-39 | defines a goto: an instruction entry whose opcode is one of the three goto encodings, whatever its target label |
| GotoChains.GotoCountAppend | opt/remove_gotos/RemoveGotos.cpp:35-39 | the goto count of two streams laid end to end is the sum of their counts |
| GotoChains.GotoCountDrop | opt/remove_gotos/RemoveGotos.cpp:35-39 | dropping one entry lowers the goto count by one exactly when that entry is a goto |
| GotoChains.GotoCountPermutation | opt/remove_gotos/RemoveGotos.cpp:35-39 | two streams with the same entries, counted with multiplicity, have the same goto count |
| GotoChains.GotoCountPair | opt/remove_gotos/RemoveGotos.cpp:35-39 | a two-entry stream counts one for each of its entries that is a goto |
| GotoChains.NoGotoIffZero | opt/remove_gotos/RemoveGotos.cpp:35-39 | the goto count is zero if and only if no entry of the stream is a goto |
| ControlFlow.BlocksOrdered | opt/remove_gotos/RemoveGotos.cpp:61 | in a well-formed graph an earlier block ends no later than a later block begins |
| ControlFlow.BlocksDisjoint | opt/remove_gotos/RemoveGotos.cpp:67-68 | two distinct blocks share no stream position, so a block and its successor other than itself are disjoint |
| ControlFlow.SolePredecessor | opt/remove_gotos/RemoveGotos.cpp:53-57 | a successor with exactly one predecessor has the block that jumps to it as that predecessor |
| GotoChains.Mergeable | opt/remove_gotos/RemoveGotos.cpp:62-69 | defines the mergeable rule: one successor, a goto as last entry, a successor other than the block itself with exactly one predecessor, and that successor either without successors or ending in a goto |
| GotoChains.FirstMergeable | opt/remove_gotos/RemoveGotos.cpp:58-75 | the result is the least mergeable block index at or after the start, and None exactly when no block there is mergeable |
| RemoveGotosPass.RemoveGotos.FindMergeableBlock | opt/remove_gotos/RemoveGotos.cpp:58-75 | the scan builds the graph of the current body and returns the first mergeable block in block order, or None when there is none |
| RemoveGotosPass.RemoveGotos.FindGoto | opt/remove_gotos/RemoveGotos.cpp:45-51 | given a range holding a goto, returns the position of its first goto, with no goto before it in the range |
| GotoChains.MergeablePlan | opt/remove_gotos/RemoveGotos.cpp:62-69 | for a mergeable block in a valid graph, the successor index is in range, the two blocks are disjoint, the goto is the block's last and only goto, and the successor opens with a target marker |
| GotoChains.CutKeepsBlock | opt/remove_gotos/RemoveGotos.cpp:96-104 | after the successor block is cut out, the block's range shifts by the successor's length when the successor came first, and its only goto is still its last entry |
| GotoChains.Splice | opt/remove_gotos/RemoveGotos.cpp:94-109 | one merge makes the stream exactly two entries shorter |
| GotoChains.SpliceShape | opt/remove_gotos/RemoveGotos.cpp:94-109 | a merge leaves the stream as: entries before the goto, the successor's tail, then the rest with the successor removed, in both layouts of goto and successor |
| GotoChains.SpliceMultiset | opt/remove_gotos/RemoveGotos.cpp:94-109 | a merge is a permutation of the stream minus the goto and the successor's first entry |
| GotoChains.SpliceGotoCount | opt/remove_gotos/RemoveGotos.cpp:94-109 | a merge removes the goto, plus one more goto only when the successor's first entry is one |
| GotoChains.SpliceEffect | opt/remove_gotos/RemoveGotos.cpp:94-109 | when the successor opens with a target marker, a merge removes exactly one goto and keeps the count of every entry that is neither a goto nor a target marker |
| RemoveGotosPass.RemoveGotos.EraseBlock | opt/remove_gotos/RemoveGotos.cpp:96-102 | erasing the successor block yields its entries after the first, in order, and leaves the stream without the block |
| RemoveGotosPass.RemoveGotos.ReplaceEntry | opt/remove_gotos/RemoveGotos.cpp:105-109 | inserting the collected entries one by one after the goto and then erasing it replaces the goto by exactly those entries |
| RemoveGotosPass.RemoveGotos.ReplaceGoto | opt/remove_gotos/RemoveGotos.cpp:104-109 | the goto found in the block is its last entry, and it is replaced by the collected entries |
| RemoveGotosPass.RemoveGotos.Merge | opt/remove_gotos/RemoveGotos.cpp:94-109 | the in-place merge leaves the stream equal to the value-level splice of the old stream |
| GotoChains.Merged | opt/remove_gotos/RemoveGotos.cpp:92-109 | merging the mergeable block found in a valid graph makes the stream two entries shorter |
| GotoChains.MergedCounts | opt/remove_gotos/RemoveGotos.cpp:92-109 | merging a mergeable block removes exactly one goto and keeps every entry other than gotos and target markers |
| GotoChains.NextRound | opt/remove_gotos/RemoveGotos.cpp:86-112 | one round changes the body exactly when the graph has a mergeable block, and then shortens it by two |
| GotoChains.RoundPlan | opt/remove_gotos/RemoveGotos.cpp:86-112 | the block a round finds has one successor in range, the pair meets the merge plan, and the round's body is the splice of that pair |
| GotoChains.ProcessedBody | opt/remove_gotos/RemoveGotos.cpp:86-113 | defines the loop's outcome on values: the body reached by repeating rounds until no block is mergeable, with the number of rounds that merged |
| GotoChains.ProcessedIsFixedPoint | opt/remove_gotos/RemoveGotos.cpp:86-112 | the processed body has no mergeable block in the graph built for it |
| GotoChains.ProcessedCounts | opt/remove_gotos/RemoveGotos.cpp:86-112 | processing shortens the body by two entries and removes one goto per counted merge, and keeps every entry other than gotos and target markers |
| GotoChains.ProcessIdempotent | opt/remove_gotos/RemoveGotos.cpp:86-112 | processing an already processed body changes nothing and counts no merge |
| RemoveGotosPass.RemoveGotos.constructor | opt/remove_gotos/RemoveGotos.cpp:33 | a new worker has counted no removed goto |
| RemoveGotosPass.RemoveGotos.ProcessMethod | opt/remove_gotos/RemoveGotos.cpp:78-113 | the loop leaves the method's body at the fixed point of the old body and adds the number of merges to the counter |
| RemoveGotosPass.RemoveGotos.NumGotoRemoved | opt/remove_gotos/RemoveGotos.cpp:118 | returns the worker's counter |
| RemoveGotosPass.Run | opt/remove_gotos/RemoveGotos.cpp:122-126 | one method is processed to its fixed point and the result is the number of gotos removed from it |
| RemoveGotosPass.RunPass | opt/remove_gotos/RemoveGotos.cpp:128-143 | every method with code is processed to its fixed point, methods without code are skipped, and the reported total is the sum of the per-body counts |
| GotoChains.TotalRemoved | opt/remove_gotos/RemoveGotos.cpp:135-142 | defines the reported total: the per-body merge counts summed over the bodies in walk order |
| GotoChains.TotalRemovedSnoc | opt/remove_gotos/RemoveGotos.cpp:135-142 | adding one more body to the walk adds the count of that body |
| GotoChains.TotalRemovedAppend | opt/remove_gotos/RemoveGotos.cpp:135-142 | the total over two lists of bodies walked one after the other is the sum of their totals |
| GotoChains.TotalRemovedIsGotosLost | opt/remove_gotos/RemoveGotos.cpp:128-143 | the reported total equals the number of gotos that disappear from the program |
| GotoChains.SecondPassRemovesNothing | opt/remove_gotos/RemoveGotos.cpp:128-143 | a second run of the pass over its own output reports zero |

## Left out

- Tracing and opcode counting for trace output are not modelled. They only print.
- Building the class scope from the stores and walking its methods are not modelled. `RunPass` takes the methods as a sequence in walk order.
- The pass manager's metric is not modelled. `RunPass` returns the value the pass would report.
- The configuration argument is unused by the pass and is not modelled.
- Graph construction lives in ControlFlow.h, which is not part of this model. It is the `build` parameter, constrained by `BuilderContract`.
- The graph cached inside the code object is not modelled. `FindMergeableBlock` returns the graph it built instead.
- Entries are values, not pointers. The vector of entry pointers collected while the successor is erased becomes a sequence of entry values.
- RemoveGotosPass.Run: returns an unbounded count. The narrowing of the 64-bit counter to a C `int` is not modelled; realistic bodies stay far below that bound.
- RemoveGotosPass.RemoveGotos.NumGotoRemoved: the counter is a `nat`, so 64-bit wrap-around is not modelled.
- RemoveGotosPass.RunPass: requires that no two methods share a code object, which holds for method bodies in a program.
- The check at line 80 that a method handed to `ProcessMethod` has code becomes a precondition, so the model does not abort where the source does. `RunPass` skips methods without code, as run_pass does at line 136. `Run`, like run, does not check, so its precondition passes that duty to its caller.
