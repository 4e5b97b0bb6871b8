# 5bit in Dafny

5bit is a small machine, compiler and database on one alphabet of 32 tokens.
This project models its core and proves what that core is for.

- **The machine and its compilers.** `Interp` gives the meaning of token
  programs: balanced regions, three-way IF, LOOP and BREAK, CALL and RET, a step
  budget, and stores gated by a grant table. `Walker.Machine` is the object that
  runs them. `Backend` and `Assembler.Compiler` turn the same tokens into linear
  code with labels and patched relative jumps; `Native` runs that code over bytes,
  a value stack, a return stack and an arena. `NativeRuns.NativeAgrees` is the
  compiler's correctness. `Structured` gives programs built from the source's
  builders a meaning on slots, used for the scheduler, the column comparator and
  the compiler that is itself a 5bit program, whose output `Lowered` executes.
- **The B+tree.** `BTreeIndexes.BTreeIndex` works on node records in a grid, with
  the parser's habit of returning the last child's id as one key more; it refines
  a sorted map.
- **Storage, durability, concurrency.** `AllocDisk` and `AllocGrids` are the two
  files, the re-entrant lock, the cache and compaction. `Cas`, `Transactions` and
  `Replication` are state machines whose steps are single disk effects, with
  interleavings or crashes between any two; `TransactionalGrids` and the other
  classes are the same operations run through. `LogFraming` is the log files.
- **Text and numbers.** `TokenParser` is the five-context parser; `WordCodec`,
  `Ownership` and `Evaluator` stand on it; `ShuntingYard` is infix evaluation
  against expression trees; `Packing` and `Packers` are the byte packers.

How the model is cut:

- Integers are unbounded where Python's are. The backend's 64-bit words, its
  stack of 1024 values, its 256 outputs and its 4096 slots are the domain of the
  compiler theorem, watched by `fits`, a field of the walker's state no step
  reads; `last`, `stale`, `layers`, `history` and `log` in the protocol machines
  are observers of the same kind.
- The compiler theorem's domain (`Domain.Sound`) is: no DIV, LOADX or STOREX,
  BREAK only inside a LOOP of the same program, IF with at least one region,
  RECORD only at the top level of a program, slots from 0 to 4095, regions
  balanced; and (`NativeRuns.ArenaOk`) initial slots and grants from 0 to 4095,
  slot values and grant holders plus one 64-bit words, the holder from -2^63 to
  2^63 - 2, where -1 is read as having every slot nobody has (`Arena.AsRead`).
  Outside it the two machines can differ.
- Instructions keep their sizes, and jump displacements are real bytes; the other
  bytes are abstract in `Native`, and real in `Lowered`.
- A digest is any function to 32 bytes, the file lock a mutex, one write to a
  file one step. Clocks and random ids are parameters, new each time.
- Where a promise fails, the code is kept, a lemma gives the input, and a theorem
  says exactly when it holds: `Cas.UnseededLoses` and `Cas.ConservedExactly`;
  `Transactions.WindowHidesCommit` and `TransactionReads.WindowExact`;
  `Transactions.ReplayGoesBack` and `TransactionReads.CutShortExact`;
  these two, with any crashes, and `TransactionTrace.ReadsCommittedExactly`;
  `TransactionReads.ZeroVanishes` and `TransactionReads.CommitReads`;
  `Transactions.TestsAgree` and `TransactionReads.CommitExact`;
  `Replication.HaltAfterCrash` and `Replication.PrefixExactly`;
  `Sentinel.SentinelCollides` and `NativeRuns.NativeAgrees`;
  `Ungranted.MinusOneWrites` and `NativeRuns.NativeAgrees`;
  `LogFraming.TearSwallows` and `LogFraming.TearHides`;
  `Scheduler.FixedBudget` and `Scheduler.SchedulerFinishes`.
  The comment at python/griddb_transactions.py:262-264 promises that no process
  reads a committed but unapplied value; `WindowHidesCommit` is a run in which one
  does, and the code is what is modelled.

`dafny verify dfyconfig.toml` checks the whole project.

## Model

| member | source | states |
|---|---|---|
| Lexicon.DigitsValue | python/binary_grid_db.py:300-329 | The decimal digits written for a natural number determine it, for every size. |
| Lexicon.ReadEncoded | python/griddb_interp.py:332-349 | An encoded integer, wherever it stands in a stream, reads back as itself and the reader stops just past its END. |
| Lexicon.StoredReadsBack | python/griddb_interp.py:351-362 | A slot record holding one integer reads back as that integer, zero digits and sign included. |
| Readers.ScanInt | python/griddb_interp.py:332-349 | The reader's loop gives the value and end position of the number at a position, or the partial one where the digits stop. |
| Readers.ScanInts | python/griddb_interp.py:351-362 | The loop over a record returns all of its integers. |
| Readers.FindClose | python/griddb_interp.py:370-379 | The depth-counting loop finds the close of the region, or reports that it is unbalanced. |
| Readers.CollectArms | python/griddb_interp.py:261-266 | The loop collects up to three consecutive region bodies and the position after them. |
| Interp.ExecConfined | python/griddb_interp.py:173-231 | Whatever the tokens, a walk stops within one tick of its budget, keeps every slot whose grant is not the holder's, and takes back no output. |
| Interp.CallConfined | python/griddb_interp.py:156-165 | The same for a called program, nested calls included. |
| Interp.LoopConfined | python/griddb_interp.py:277-287 | The same for LOOP, however often it turns and however it ends. |
| Interp.UngrantedRunsTouchNothing | c/fivebit_interp.c:214-370 | A holder with no grant at all leaves the grid exactly as it was, for every program and every ending. |
| Budgets.CallCut | python/griddb_interp.py:173-177 | The step budget bounds a run and does nothing else: with a smaller one the same run goes as before if it ends in time, and else stops at that tick, out of gas. |
| Walker.Machine.Run | python/griddb_interp.py:167-171 | A run sets the step count, and nothing else, to zero, and ends in the state and outcome the walk's meaning gives. |
| Walker.Machine.Invoke | python/griddb_interp.py:156-165 | CALL: the callee's walk, RET and the end of the record alike; a missing program is an error. |
| Walker.Machine.Walk | python/griddb_interp.py:178-231 | The token loop, on the fields of the machine, is the walk's meaning from any state. |
| Walker.Machine.Turn | python/griddb_interp.py:181-230 | One turn: verb, number, operator, EMIT, region, end of record, or a skipped token. |
| Walker.Machine.Perform | python/griddb_interp.py:234-329 | Every verb's branch, with its errors. |
| Walker.Machine.WriteSlot | python/griddb_interp.py:288-296 | STORE writes exactly when the holder has the live grant, refuses otherwise. |
| Walker.Machine.Branch | python/griddb_interp.py:246-276 | Three-way IF takes the region of the sign, or none when it is absent. |
| Walker.Machine.Repeat | python/griddb_interp.py:277-287 | LOOP ticks before each turn and ends only by BREAK, RET, refusal or error. |
| Native.Le32RoundTrip | python/griddb_backend.py:31 | Four little-endian bytes give back any signed 32-bit displacement. |
| Assembler.Asm.Label | python/griddb_backend.py:39 | A label records where it stands. |
| Assembler.Asm.JumpTo | python/griddb_backend.py:40-42 | A jump or call is emitted with four bytes to patch and its fixup. |
| Assembler.Asm.Link | python/griddb_backend.py:46-47 | Every fixup is patched with the distance to its label; a missing label is an error. |
| Assembler.Compiler.CompileAll | python/griddb_backend.py:81-94 | The compiler, updating its code, fixups, labels and loop stack in place, makes the linked image of the specification, or fails where it does. |
| Assembler.Compiler.BodyCode | python/griddb_backend.py:96-122 | The index loop over the tokens emits a body's code. |
| Assembler.Compiler.VerbFor | python/griddb_backend.py:124-170 | Every verb's code, STORE's guard and trap included. |
| Assembler.Compiler.Branches | python/griddb_backend.py:148-161 | Three arms between their labels. |
| Assembler.Compiler.Looping | python/griddb_backend.py:162-166 | A loop between its labels, BREAK jumping to the inner one. |
| Linking.BodyGood | python/griddb_backend.py:96-122 | Compiling a body only appends: code, labels and fixups already there stay, new labels are fresh and lie inside the new code. |
| Linking.ResolveLinks | python/griddb_backend.py:46-47 | After patching, every 32-bit displacement, added to the address after it, is the address of its label. |
| Linking.ObjectLinks | python/griddb_backend.py:81-94 | The same for a whole compiled set of programs. |
| Domain.CompilerNext | python/griddb_backend.py:96-122 | In the domain, the compiler and the walker agree on where the next construct starts. |
| Domain.HeaderSkipped | python/griddb_backend.py:66-70 | Skipping a program's header lands where the walker has read it. |
| Arena.GuardRuns | python/griddb_backend.py:131-147 | STORE's native code, for every holder: it writes the cell when the guard admits the holder, and otherwise restores the entry stack and returns the sentinel. |
| Arena.GuardAdmits | python/griddb_backend.py:133-137 | The guard lets a holder write exactly when it has the slot's grant, or is -1 and nobody has. |
| Ungranted.MinusOneWrites | python/griddb_backend.py:131-190 | A program and its run as holder -1: the walker refuses it for want of a grant; compiled, it writes the slot and reports no refusal. |
| Gates.CallGated | python/griddb_interp.py:288-296 | The grants gate writes and do nothing else: with fewer of them the same run goes as before, or is refused. |
| Gates.RefusedWhenWritten | python/griddb_interp.py:288-296 | A run that changes a slot is refused when that slot's grant is taken away. |
| Arena.EmitOutRuns | python/griddb_backend.py:110-116 | EMIT's native code appends to the output cells and counts. |
| Arena.IfHeadRuns | python/griddb_backend.py:153-155 | The two conditional jumps and the last one take the arm of the sign. |
| BackendCorrect.SimExec | python/griddb_backend.py:96-122 | Native code of a body simulates the walker's walk of it: same stack, output, slots, position, or the same refusal, RET or BREAK. |
| BackendCorrect.SimVerb | python/griddb_backend.py:124-170 | The simulation, verb by verb. |
| BackendCorrect.SimLoop | python/griddb_backend.py:162-166 | A native loop does turn for turn what LOOP does, BREAK landing on the loop's end label. |
| BackendCorrect.SimIf | python/griddb_backend.py:148-161 | The native three-way branch simulates IF, absent arms falling through. |
| BackendCorrect.SimProgram | python/griddb_backend.py:89-92 | A called program simulates a CALL, the return stack back in place. |
| NativeRuns.EntryRuns | python/griddb_backend.py:81-86 | The prologue saves registers, points at the arena and calls the entry program. |
| NativeRuns.ExitRuns | python/griddb_backend.py:87-88 | The epilogue gives the caller back the three registers the prologue saved, r13, r14 and r15, and its stack; rbx is not among them. |
| NativeRuns.NativeAgrees | python/griddb_backend.py:81-190 | Compiler correctness: for every program set in the domain, every holder and everything the arena holds, whenever the walker, with the grants as the guard reads them, finishes, normally or by a refused write, within the native ranges, the linked image returns with the same output and slots; its return value is the sentinel exactly when the write was refused or the last value pushed or popped was -2^63. The guard reads the grants as they are for every holder but -1, and gives that one every slot nobody has. |
| Compiles.Compiles | python/griddb_backend.py:81-122 | Every set of programs in the domain whose entry and calls are loaded compiles and links, into at most forty bytes a token. |
| Compiles.LoadedAgree | python/griddb_backend.py:81-190 | The same with conditions on the programs alone: nothing is assumed of the compiler's output. |
| Sentinel.LeastWalks | python/griddb_interp.py:178-231 | A program that computes -2^63 within 64 bits and emits it finishes normally in the walker. |
| Sentinel.SentinelCollides | python/griddb_backend.py:185-190 | Natively, that program is reported as refused. |
| Structured.BlockWalks | python/griddb_interp.py:178-231 | The flat tokens of a structured block, walked with some budget, do what the block means on slots, tick for tick. |
| Structured.ProgramWalks | python/griddb_interp.py:82-112 | A program built from blocks, called, leaves the slots, output, stack and remaining budget its meaning gives. |
| Scheduler.DependencesIncrease | python/sched5bit.py:38-122 | Every read-after-write dependence takes at least one cycle. |
| Scheduler.LatestIsLeast | python/sched5bit.py:38-122 | No assignment that respects the dependences runs any operation earlier. |
| Scheduler.LongestChain | python/sched5bit.py:38-122 | An operation's cycle is the length of a dependence chain ending at it. |
| Scheduler.ChainsAreShorter | python/sched5bit.py:38-122 | No chain ending there is longer. |
| Scheduler.LookBackRuns | python/sched5bit.py:38-87 | One look back on the walker raises the ready cycle exactly when there is a dependence, on either operand. |
| Scheduler.InnerLoops | python/sched5bit.py:89-122 | The inner loop ends with the operation's cycle. |
| Scheduler.WorkClosed | python/sched5bit.py:89-122 | An upper and a lower bound of the program's ticks in closed form, both quadratic in the operations. |
| Scheduler.FixedBudget | python/sched5bit.py:124-140 | The runner's fixed budget is enough for any list of 1490 operations and for no list of 1768, which the arrays still hold. |
| Scheduler.SchedulerRuns | python/sched5bit.py:89-140 | Run on the walker over any operation list the arrays hold, the program leaves every operation's cycle in its cell and the longest in MAXC, in exactly Ticks(ops) steps. |
| Scheduler.SchedulerFinishes | python/sched5bit.py:124-140 | It finishes exactly when those steps are within the budget; else it ends out of gas. |
| Comparator.ZeroMeansEqual | python/griddb_native_compare.py:44-78 | Count of differing lanes and sum of differences vanish exactly for equal rows. |
| Comparator.BuildColumnComparator | python/griddb_native_compare.py:44-78 | The builder's loop unrolls the columns into the token record of the structured program. |
| Comparator.ComparatorRuns | python/griddb_native_compare.py:44-78 | For every lane count and all values the program emits the two distances, keeps every slot but its scratch, and takes at most 16 steps a lane and ten more. |
| Comparator.ExactMatchRuns | python/griddb_native_compare.py:81-88 | The match program emits 1 for a zero count, 0 for a positive one, nothing for a negative one. |
| Comparator.ExactMatchDecides | python/griddb_native_compare.py:44-88 | One after the other, the last value emitted is 1 exactly when the rows are equal. |
| Compiler5b.EmitByteSeq | python/griddb_compiler5b.py:31-39 | The fragment builder's loop makes the structured program that appends those bytes. |
| Compiler5b.FragmentRuns | python/griddb_compiler5b.py:31-39 | A fragment, run, appends its bytes to OUT in order, nine steps each, and disturbs neither source nor cursor. |
| Compiler5b.OpRuns | python/griddb_compiler5b.py:89-111 | The chain of three-way tests appends the lowering of the operator token. |
| Compiler5b.TokenRuns | python/griddb_compiler5b.py:60-87 | One source token is read, counted and lowered. |
| Compiler5b.CompilerRuns | python/griddb_compiler5b.py:47-134 | Run on the walker over any source the array holds, the compiler leaves in OUT exactly the lowerings of its tokens one after another, and their length in OUT_N. |
| Compiler5b.CompilerFits | python/griddb_compiler5b.py:113-134 | With the 400 OUT cells its runner grants it finishes exactly when the code is at most 400 bytes long, and is refused otherwise. |
| Lowered.WordCombine | python/griddb_compiler5b.py:9-14 | Wrapping each operand first or only the result makes no difference modulo 2^64. |
| Lowered.ExecutesPostfix | python/griddb_compiler5b.py:9-14 | The processor over the lowered source does to words what postfix evaluation does to integers, up to the first end or fault. |
| Lowered.CompiledReturns | python/griddb_compiler5b.py:136-153 | Calling the compiled code returns exactly when postfix evaluation reaches its end with one value; it returns that value modulo 2^64, and the value itself exactly when it fits a signed word. |
| BTree.PlugGood | python/griddb_index.py:468-493 | Replacing a subtree by one with the same key bounds keeps the tree's order, fan-out and uniform depth. |
| BTree.ClimbGood | python/griddb_index.py:495-604 | Carrying a split up the path, through any number of internal splits to a new root, keeps them. |
| BTreeContents.PutLookup | python/griddb_index.py:324-347 | Inserting or replacing one key changes what is found under that key only. |
| BTreeContents.PutIsUpdate | python/griddb_index.py:324-347 | It keeps the contents sorted and is a map update. |
| BTreeContents.SelectExact | python/griddb_index.py:405-438 | A scan's result holds exactly the live ids with start <= key < stop. |
| BTreeContents.GoodSorted | python/griddb_index.py:405-438 | The leaves of a good tree, left to right, hold strictly increasing keys. |
| BTreeContents.ContentsAround | python/griddb_index.py:442-466 | Descending by the clamped child index finds the one leaf a key can be in. |
| BTreeStore.ParseEncode | python/griddb_index.py:253-301 | A node written and read: leaves come back as they were, an internal node with its last child's id as one key more. |
| BTreeStore.NodeRoundTrip | python/griddb_index.py:253-301 | The same from tokens, through the record parser. |
| BTreeStore.PlugStored | python/griddb_index.py:303-315 | Rewriting one node's record changes the stored tree at that node only. |
| BTreeSteps.SplitHolds | python/griddb_index.py:495-604 | After a leaf split and its climb the grid holds a good tree with the leaf chain whole and the new entry in place. |
| BTreeSteps.LeavesApart | python/griddb_index.py:495-532 | No two leaves share an id, so the chain visits each leaf once and ends. |
| BTreeSteps.UniformDepth | python/griddb_index.py:534-604 | All leaves of a good tree stand at one depth. |
| BTreeSteps.ScanLeaf | python/griddb_index.py:423-431 | One leaf's loop collects its live ids in range and says when the range is over. |
| BTreeIndexes.BTreeIndex.FindLeaf | python/griddb_index.py:442-466 | The descent reaches the stored leaf the key belongs to, with the nodes passed. |
| BTreeIndexes.BTreeIndex.Get | python/griddb_index.py:349-373 | Get is lookup in the index's contents: the id, -1 after a delete, nothing when absent. |
| BTreeIndexes.BTreeIndex.SoftDelete | python/griddb_index.py:375-403 | A present key's id becomes -1; otherwise nothing changes. |
| BTreeIndexes.BTreeIndex.Put | python/griddb_index.py:324-347 | Put is the map update of the contents, and the stored tree stays good. |
| BTreeIndexes.BTreeIndex.PutIntoLeaf | python/griddb_index.py:468-493 | Replace, insert, or insert and split. |
| BTreeIndexes.BTreeIndex.SplitLeaf | python/griddb_index.py:495-532 | An overfull leaf is halved, relinked and its first upper key promoted. |
| BTreeIndexes.BTreeIndex.Promote | python/griddb_index.py:495-606 | The new node hangs under its parent or a new root. |
| BTreeIndexes.BTreeIndex.InsertIntoInternal | python/griddb_index.py:534-606 | An internal node takes the key, and splits in turn when overfull. |
| BTreeIndexes.BTreeIndex.RangeScan | python/griddb_index.py:405-438 | Along the chain from the start's leaf, exactly the live ids in range, in key order. |
| Packing.NumDigits | python/binary_grid_db.py:813-838 | Units of a given width are determined by the number they spell. |
| Packing.PackNum | python/binary_grid_db.py:813-838 | The packed bytes spell the tokens' number, shifted by the padding. |
| Packing.UnpackPack | python/binary_grid_db.py:813-875 | Unpacking as many tokens as were packed gives them back. |
| Packers.Turn | c/fivebit_grid.c:322-328 | Taking in a unit through an accumulator of any sufficient width loses nothing: bits dropped at the top are no longer needed. |
| Packers.PackToBytes | python/binary_grid_db.py:813-838 | The bit-list packer makes the bytes and padding of the packing. |
| Packers.PackTokensC | c/fivebit_grid.c:322-333 | The loop with the 32-bit accumulator makes the same bytes and padding. |
| Packers.UnpackFromBytes | python/binary_grid_db.py:841-875 | The unpacker gives all whole tokens outside the padding, or the number asked for. |
| Packers.PackUnits | python/griddb_rungs.py:31-53 | A rung carries a whole number of groups exactly; a wrong rung or count is an error. |
| Packers.UnpackUnits | python/griddb_rungs.py:56-73 | Unpacking undoes any packing into the same rung. |
| Packers.ComposeSums | python/griddb_rungs.py:78-96 | The rungs of a count add up to it, for every count. |
| Packers.PackComposed | python/griddb_rungs.py:99-107 | Any stream becomes the rungs of its length, and nothing else. |
| Packers.UnpackComposed | python/griddb_rungs.py:110-115 | The rungs give the stream back. |
| Packers.ComposedToBytes | python/griddb_rungs.py:120-139 | Rungs of any widths serialise to the bytes and padding of the reference packer. |
| Packers.PackThroughRungs | c/fivebit_rungs.c:21-66 | Packing through the ladder and packing directly are the same. |
| Packers.BytesToComposed | python/griddb_rungs.py:142-159 | Bytes too short are refused; else the tokens streamed out are packed again. |
| AllocDisk.WriteIsAtomic | python/griddb_alloc.py:192-270 | A write's disk effects, the growth of the table among them: until the table entry nothing shows, then exactly the new record; other records read as before throughout. |
| AllocDisk.DeleteHides | python/griddb_alloc.py:381-391 | Deleting hides one record and no other. |
| AllocDisk.CompactKeeps | python/griddb_alloc.py:393-421 | Every record reads after compaction as before. |
| AllocDisk.CompactCanonical | python/verify_compact.py:84-93 | Two grids that read alike compact to the same files, whatever their histories. |
| AllocDisk.CompactOnce | python/griddb_alloc.py:393-421 | Compacting twice is compacting once. |
| AllocDisk.CompactDense | python/griddb_alloc.py:398-403 | The compacted data region is the survivors' bytes in ascending id order, without a gap. |
| AllocGrids.AllocGrid.Write | python/griddb_alloc.py:224-270 | Append and point; a lock held on entry is held on return. |
| AllocGrids.AllocGrid.WriteIf | python/griddb_alloc.py:272-284 | Writes exactly when the entry is where the caller read it. |
| AllocGrids.AllocGrid.Read | python/griddb_alloc.py:286-333 | Cached or not, a read gives what the files say. |
| AllocGrids.AllocGrid.Delete | python/griddb_alloc.py:381-391 | A free entry is left alone; else the entry becomes a tombstone. |
| AllocGrids.AllocGrid.Compact | python/griddb_alloc.py:393-421 | Compaction takes over the rebuilt files; closing gives back one level of the lock; a cache that was kept has the right tokens, and its offsets are right exactly for records that did not move. |
| AllocGrids.AllocGrid.Rebuilt | python/griddb_alloc.py:393-421 | The rebuild loop writes the live records, and only those, into fresh files. |
| AllocGrids.AllocGrid.Acquire | python/griddb_alloc.py:157-163 | Re-entrant: the file lock is taken with the first level only. |
| AllocGrids.AllocGrid.Release | python/griddb_alloc.py:165-172 | The file lock goes with the last level only. |
| Cas.NoLostUpdate | python/griddb_concurrency_cas.py:24-36 | Over every interleaving of every step of any number of clients, each counter is its start, or 0, plus the deposits that have landed, when no two clients share an account without a record. |
| Cas.ConservedExactly | python/griddb_concurrency_cas.py:24-36 | That holds under every schedule if and only if every account without a record has at most one client with a deposit to make. |
| Cas.RecordOnceWritten | python/griddb_concurrency_cas.py:29-33 | An account has a record exactly when it started with one or a deposit has landed, whoever shares what. |
| Cas.AllDeposited | python/griddb_concurrency_cas.py:39-57 | When all clients have returned, each counter has moved by exactly the deposits asked for. |
| Cas.ReadsWholeVersion | python/griddb_alloc.py:286-333 | A reader that has only read the table entry still gets one whole version of its account, or nothing if it saw a free entry. |
| Cas.OffsetsNeverRepeat | python/griddb_alloc.py:224-270 | No version is put where another has been, so an unchanged entry means an unchanged record. |
| Cas.SwapsWhenUnchanged | python/griddb_alloc.py:272-284 | A swap goes through exactly when no version has come since the read it rests on. |
| Cas.OneWriter | python/griddb_alloc.py:157-172 | At most one client is inside the lock, nested write included. |
| Cas.NoDeadlock | python/griddb_alloc.py:157-172 | Until all have returned some client can go on. |
| Cas.UnseededLoses | python/griddb_concurrency_cas.py:30-32 | Wherever two clients share an account without a record there is a schedule with two deposits counted and one on the counter. |
| Transactions.LogIsHistory | python/griddb_transactions.py:233-254 | In every reachable state, the writes recovery would replay are those of the transactions that reached their COMMIT marker, whole and in order. |
| Transactions.HistoryOnlyGrows | python/griddb_transactions.py:182-188 | A committed transaction stays committed. |
| Transactions.RecoveryRestores | python/griddb_transactions.py:233-259 | After any run with crashes between any two disk effects, in earlier recoveries too, a recovery let finish leaves every record reading as the committed transactions replayed in order, and no DIRTY record. |
| Transactions.DirtyNamesLast | python/griddb_transactions.py:197-210 | A DIRTY record that can be read names the last committed transaction. |
| Transactions.OpenSeesCommitted | python/griddb_transactions.py:284-296 | While a transaction is open the grid reads as all committed ones, unless a crash fell between a COMMIT marker and its DIRTY record, or inside a replay, since the last recovery. |
| Transactions.BeginOpens | python/griddb_transactions.py:261-296 | begin finishes a torn predecessor and hands out such a grid. |
| Transactions.CommitShows | python/griddb_transactions.py:182-210 | A commit let finish leaves no DIRTY record and a grid that reads as the replay of all committed transactions, itself included. |
| Transactions.TestsAgree | python/griddb_transactions.py:204-207 | The delete tests of commit and of replay agree for readers exactly when the record is not three tokens from D0 to something other than RECORD. |
| Transactions.WindowHidesCommit | python/griddb_transactions.py:182-201 | A concrete run: a crash right after the COMMIT marker, and the next begin does not see that transaction. |
| Transactions.ReplayGoesBack | python/griddb_transactions.py:247-254 | A concrete run: a crash inside a replay, and the next begin sees an older value. |
| TransactionReads.FoldReads | python/griddb_transactions.py:247-254 | What such a replay reads as, record by record: the tokens of the last committed write, or nothing if that write is empty or three tokens from D0 on; unwritten records as before. |
| TransactionReads.CommitReads | python/griddb_transactions.py:182-210 | From any state at all, a commit let finish leaves each record as its last pending write says, or without one if that is empty or the three tokens of a delete, and every other record as it was. |
| TransactionReads.ZeroVanishes | python/griddb_transactions.py:204-207 | A record put as a single number can be read after the commit unless the number is 0: then it is deleted. |
| TransactionReads.CommitExact | python/griddb_transactions.py:204-254 | From any state at all, a commit let finish leaves the grid of all committed transactions exactly when every record it writes is last written by anything but three tokens from D0 to something other than RECORD, and every other record read right already. |
| TransactionReads.CommitFromSettled | python/griddb_transactions.py:204-254 | From a grid that was right: exactly when no record it writes is last written so. |
| TransactionReads.WindowExact | python/griddb_transactions.py:182-201 | After a crash between COMMIT marker and DIRTY record, in any run, begin hands out a grid with all committed transactions exactly when every record already reads as the last one would leave it. |
| TransactionReads.WindowFromSettled | python/griddb_transactions.py:182-201 | From a grid that was right before that commit: exactly when the transaction changes nothing that can be read. |
| TransactionReads.CutShortExact | python/griddb_transactions.py:233-296 | After a crash at any point of a recovery, from any reachable grid, begin hands out such a grid exactly when each record is rewritten by the torn transaction, or shows after its last replayed write what it shows after its last committed one, or was not replayed and was right before. |
| TransactionReads.CutShortFromSettled | python/griddb_transactions.py:233-296 | From a grid that was right: exactly when each replayed record shows after its last replayed write what it shows after its last committed one. |
| TransactionReads.CutShortSafe | python/griddb_transactions.py:233-296 | No point of a recovery is a bad one to crash at exactly when every committed write to a record shows what the last one to it does. |
| TransactionTrace.GridReads | python/griddb_transactions.py:182-296 | At every moment of every run, whatever crashes fell in it, each record reads as the latest commit or replay that got as far as writing it left it. |
| TransactionTrace.ReadsCommittedExactly | python/griddb_transactions.py:261-296 | At every moment of every run the grid reads as the committed transactions exactly when each record's latest writer left it as the last committed write to it does. |
| TransactionalGrids.TransactionalGrid.Recover | python/griddb_transactions.py:233-259 | Undisturbed, the method is the machine's recovery from first effect to last. |
| TransactionalGrids.TransactionalGrid.FinishDirty | python/griddb_transactions.py:261-282 | Replays the torn transaction's entries and removes the record, or does nothing. |
| TransactionalGrids.TransactionalGrid.Begin | python/griddb_transactions.py:284-296 | Refused while a transaction is open, else the machine's begin. |
| TransactionalGrids.TransactionalGrid.Put | python/griddb_transactions.py:160-164 | One pending entry in the log and in memory. |
| TransactionalGrids.TransactionalGrid.Delete | python/griddb_transactions.py:166-171 | One pending tombstone. |
| TransactionalGrids.TransactionalGrid.Swap | python/griddb_transactions.py:173-180 | Two pending entries. |
| TransactionalGrids.TransactionalGrid.Commit | python/griddb_transactions.py:182-210 | Marker, DIRTY record, writes, DIRTY record removed. |
| TransactionalGrids.TransactionalGrid.Rollback | python/griddb_transactions.py:190-195 | The pending entries stay in the log and are never applied. |
| ShuntingYard.ShuntTree | python/binary_grid_db.py:962-996 | Reading any bracketed tree puts out its early part and leaves its late operators on the stack, whatever stands below and follows. |
| ShuntingYard.RunsTree | python/binary_grid_db.py:1005-1037 | The stack machine pushes a tree's value, or stops at its first error, whatever float arithmetic does. |
| ShuntingYard.ResolveTree | python/binary_grid_db.py:1040-1073 | NUM S NUM becomes one number; a negative scale anywhere is an error. |
| ShuntingYard.PrintedValue | python/binary_grid_db.py:934-1037 | Printing any tree with at least the parentheses precedence and associativity call for, and evaluating it, gives its value, down to which error comes first. |
| ShuntingYard.BracketedValue | python/binary_grid_db.py:900-910 | Adding just the needed parentheses to any tree is enough. |
| ShuntingYard.FloatsMatter | python/binary_grid_db.py:1005-1033 | Floats come into a tree's value exactly when evaluating it in integers first fails at a negative exponent. |
| Evaluator.CalculatesTree | python/binary_grid_db.py:1405-1414 | The same from the tokens of the expression, through the parser. |
| Evaluator.ResolveScaled | python/binary_grid_db.py:1040-1073 | The pairing loop. |
| Evaluator.ToRpn | python/binary_grid_db.py:962-1003 | The two-stack loop, mismatched parentheses included. |
| Evaluator.RunStack | python/binary_grid_db.py:1005-1033 | The stack machine's loop. |
| Evaluator.EvaluateParsed | python/binary_grid_db.py:920-1037 | The whole evaluation, special cases for nothing and for one number included. |
| Evaluator.InsertExpression | python/binary_grid_db.py:1405-1414 | Parse, close, evaluate. |
| TokenParser.FeedInteger | python/binary_grid_db.py:503-523 | An encoded integer goes through the parser as one number, signed digit by signed digit. |
| TokenParser.RecordOfNumbers | python/binary_grid_db.py:583-626 | A record of integers reads back as those integers. |
| TokenParser.Parser.NumberValue | python/binary_grid_db.py:516-519 | The sum of digits times powers of ten is their positional value. |
| TokenParser.Parser.Accept | python/binary_grid_db.py:583-732 | One token, in all five contexts, errors included. |
| TokenParser.Parser.Finalize | python/binary_grid_db.py:743-754 | What is pending comes out as its context reads it. |
| WordCodec.CharFollows | python/binary_grid_db.py:353-387 | After each character the parser stands in the context of the encoder's depth and shows that character. |
| WordCodec.WordFollows | python/binary_grid_db.py:343-391 | A word anywhere in a stream adds its text and leaves the parser at the top. |
| WordCodec.ReassembleKeepsText | python/binary_grid_db.py:756-770 | Joining adjacent words and dropping empty ones changes no text. |
| WordCodec.WordRoundTrip | python/binary_grid_db.py:343-391 | The encoder accepts exactly the texts whose characters are each taken for one with a token or a digit, and what comes back is the text exactly when each is taken for itself, as all of ASCII is. |
| WordCodec.EncodeText | python/binary_grid_db.py:343-391 | The encoder's loop with its depth. |
| WordCodec.ReassembleWords | python/binary_grid_db.py:756-770 | The merging loop. |
| WordCodec.ReconstructAll | python/griddb_alloc.py:370-379 | The joining loop. |
| Ownership.GrantsExclusive | python/griddb_ownership.py:89-108 | In an accepted log, between two write grants of a slot stands a revoke by the first holder. |
| Ownership.StreamRoundTrip | python/griddb_ownership.py:197-234 | Reading the tokens of any sequence of grant records, legal or not, gives the events back exactly. |
| Ownership.ValidatesWhenAccepted | python/griddb_ownership.py:237-244 | The guard lets a grant stream through exactly when every event would have been accepted in order, and returns the table they build. |
| Ownership.OwnershipEncoder.EncodeGrantW | python/griddb_ownership.py:141-149 | Refused with no token and no change while the slot is held; else log, table and stream grow together. |
| Ownership.OwnershipEncoder.EncodeGrantR | python/griddb_ownership.py:151-162 | Always encoded. |
| Ownership.OwnershipEncoder.EncodeRevoke | python/griddb_ownership.py:164-172 | Only the holder ends its grant. |
| Ownership.OwnershipEncoder.WriteWithGrant | python/griddb_ownership.py:175-187 | The grid is written exactly when the holder has the slot. |
| Ownership.ExtractGrantEvents | python/griddb_ownership.py:197-234 | The index loop over the parser's output. |
| Ownership.ValidateOwnership | python/griddb_ownership.py:237-244 | Extract and replay. |
| LogFraming.ReadsFrame | python/griddb_transactions.py:101-135 | A whole frame, whatever follows, reads as its entry. |
| LogFraming.TornFrame | python/griddb_transactions.py:111-125 | A frame cut anywhere reads as nothing. |
| LogFraming.ReadsPrefix | python/griddb_wal.py:184-240 | Reading any byte prefix of a log file gives exactly the entries wholly inside it. |
| LogFraming.ReadsEverything | python/griddb_replication.py:85-130 | Reading the whole file gives everything appended. |
| LogFraming.TearSwallows | python/griddb_transactions.py:71-135 | Bytes appended after a frame torn past its token count are not read until as many have come as are missing, and then as the torn entry's own. |
| LogFraming.TearHides | python/griddb_transactions.py:71-135 | So the reader of a torn log sees exactly what was whole before the tear if and only if less was appended than the torn entry misses. |
| LogFraming.TearInMagic | python/griddb_transactions.py:101-109 | A frame torn inside its magic cuts the reader off: no frame appended after it is ever read. |
| LogFraming.FormatsStartOnce | python/griddb_transactions.py:44-64 | The three log formats meet what those statements ask of a format. |
| LogFraming.Log.Append | python/griddb_transactions.py:71-84 | The file grows by one frame. |
| LogFraming.Log.ReadEntries | python/griddb_transactions.py:93-135 | The offset loop. |
| Replication.SinceIs | python/griddb_replication.py:80-83 | A pull gets the stretch of the log after the cursor. |
| Replication.AlwaysAPrefix | python/griddb_replication.py:352-385 | Without crashes the replica is at every moment the log up to its cursor, bad entries or not. |
| Replication.WholePullHeals | python/griddb_replication.py:335-385 | Whatever crashes came before, a pull that runs to its end with no bad entry makes the replica the log up to its cursor. |
| Replication.ReplicaReads | python/griddb_replication.py:335-385 | With any crashes, each record of the replica reads at every moment as in the log up to the end of the latest stretch applied that wrote it. |
| Replication.PrefixExactly | python/griddb_replication.py:335-385 | So the replica is the log up to its cursor exactly when every record written between the cursor and the furthest entry ever applied reads at the cursor as where it stands. |
| Replication.OneCrashExactly | python/griddb_replication.py:335-385 | After one crash since the last whole pull: exactly when every record written from the cursor to where the crash left the replica, and not written again since, reads the same at both. |
| Replication.HaltAfterCrash | python/griddb_replication.py:368-379 | A concrete run: a crash before the cursor is saved, then a pull that halts, and the replica is no prefix of the log. |
| Replication.Replica.Sync | python/griddb_replication.py:352-385 | Entries are applied up to the first bad one, the cursor stays at the last good one and is saved. |

## Left out

- HTTP, sockets, streaming, command lines, benchmarks, demos and the transformer examples: input and output, floats or foreign libraries.
- Real x86-64 encodings in the backend: instruction sizes and displacements are kept, other bytes are abstract.
- The operating system's stack, Python's recursion limit and trace strings of the machine.
- Reopening a B+tree whose root has split: the loader always takes node 0 for the root, so the index is modelled from its creation on.
- BTreeIndexes.BTreeIndex.FindLeaf: the source repeats the descent in get, delete and range_scan; the model has it once.
- HashIndex: its puts do not replace older entries, and keys with digits do not survive parsing.
- String keys of the B+tree are converted to integers before they reach the tree; that conversion is not modelled, and the node grid is the map AllocGrid is proved to be.
- TransactionalGrids.TransactionalGrid.Put: transactions are taken not to write the reserved record 99999999, and record ids not to be negative; writes outside transactions are not mixed in.
- An exception inside the apply loop that is not a crash removes the DIRTY record early; exceptions of the file system are not modelled.
- Transactions.OpenSeesCommitted: one direction, with a condition on the crashes alone; the exact condition, TransactionTrace.ReadsCommittedExactly, is on what the records were left as.
- NativeRuns.NativeAgrees: what the image does when the walker runs out of budget or ends in an error is not modelled.
- AllocGrids.AllocGrid.Compact: the other operations are stated for a cache with right offsets; what they do with an old one that compaction left is not modelled.
- AllocGrid's scan, stats and bytes-freed count, and moving the compacted files into place, which is not atomic.
- Packers.PackTokensC: the output buffer is returned as a sequence.
- Ownership.Replay: a read grant without an offset, which only hand-made event lists have, is not modelled; threads are serialised by the encoder's lock.
- ShuntingYard.Apply: once a negative exponent has made a float, arithmetic on it is any function of its operands; float rounding is not modelled.
- CHECKSUM's payload, record bookkeeping and the display symbols of operators.
- WordCodec.WordRoundTrip: which characters outside ASCII are digits, and what their upper case is, is a parameter.
- LogFraming.TearSwallows: frames torn between the magic and the end of the token count, where the count is made of later bytes.
- Cas.AllDeposited: one direction; the other half of ConservedExactly is about deposits that have landed, not about finished runs.
- Transactions.Next: an entry of the log is appended in one step; a tear in the middle of one is in LogFraming only.
- Replication.Replica.Sync: the digest covers the packed form of an entry and not its token list; the payload is one value here, and the positioned grid's un-padding is left out.
- Checkpointing and truncation of the grid log, and its hash chain.
- Checksums, Manhattan and decimal arithmetic helpers, disassembly, and the C schedulers.
- Lowered.CompiledReturns: straight-line code for single digits only; the multi-digit seed compiler in python/griddb_selfhost.py emits the same instructions.
