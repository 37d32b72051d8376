# Packet filters and packet capture in libpcap, verified

This project models the part of libpcap that does the thinking and proves what it is for.

**The filter compiler.** A filter expression becomes a graph of blocks by backpatching: unresolved branch targets are
threaded through the very fields that will hold them (`Codegen`, `Compare`, `Encap`, `Arith`, `Relations`). The graph
is closed with a block that returns the snapshot length and one that returns 0, improved by the optimizer, and laid
out as an array of instructions whose branch offsets are eight bits wide (`Layout`). `Pcap.Compile` states the whole:
the array, run by the packet filter machine (`Bpf`, `Insns`), gives the verdict of the filter for every packet.

**The optimizer.** Levels, dominators, edge dominators and closures found in one sweep each (`Levels`, `Dominators`,
`Closure`), predecessor lists (`Predecessors`), liveness and dead stores (`Liveness`), hash-consed value numbers
(`ValueTable`, `Numbering`, `Propagation`), branch peepholes (`Peephole`, `PeepPass`), jump threading (`Threading`),
pulling tests up their OR and AND chains (`Chains`, `Pullup`), and interning of equal blocks (`Intern`). `Optimizer`
makes each of these a pass on a whole graph, `Rounds` puts the passes together in the order of the code,
`Pcap.CompileOptimized` runs them before layout, and `Roots.CompileRooted` with `opt_root` after them.

**Capture.** The zero-copy handoff of two shared buffers as a state machine of kernel and reader (`ZeroCopy`), the
resumable read loop (`Capture`), the in-place byte swap of NFLOG packets (`Nflog`), and the list of devices in order
of merit (`IfList`).

## How to read it

* A packet is a function from 32-bit offsets to bytes with a captured and a wire length. A machine state is 18 words:
  the scratch memory, A and X, numbered as the optimizer numbers its atoms. A statement may reject the packet on the
  spot (a load out of range, a division by zero); that is a result of its own, `None`, for which `bpf_filter` returns
  0.
* Words are bit vectors of 32 bits, so that all arithmetic wraps around as in C. `Numbers` and `Bits` say what each
  operation, test and load is as arithmetic on numbers, and bit by bit; what filters mean is stated in these terms.
* Blocks live in a pool, a sequence in a field of the class at work; a block pointer is a position in it. `Flow.Graph`
  is the value that a pool holds, and `Flow.Run` what a packet does in it. Acyclic means that some rank falls along
  every edge (`Flow.Ranked`).
* Meaning is kept for packets that got through (no statement rejected them): the optimizer removes loads whose values
  are not used, so that a rejected packet may be accepted afterwards.
* `Decisions` is the middle level: blocks that load all they test form a decision diagram on the packet alone.
* Two rules of the optimizer go wrong for some packets, and these are the only exceptions to what `Rounds.Optimize`
  and `Pcap.CompileOptimized` promise. `Hazards` says which: the passes return the steps that they made, each with the
  graph before and after it, what was done and by which findings of the analyses (`Hazards.Justified`), each beginning
  with the graph that the one before it ended with (`Hazards.LeadsOn`). `Hazards.Hits` says when a packet meets a step
  where its rule errs. The contracts give conditions on the filter alone under which nothing is excepted.
* Methods are the passes of the program, on the fields that they update; what they compute is said by predicates and
  functions, about which the lemmas are proved.

## What turned out false

* `or_pullup` and `and_pullup` may reject packets that were accepted: equal value numbers of the accumulator do not
  mean equal loads (`Spoiling.PullSpoils`). `Optimizer.PullGraph` gives the exact condition, `Optimizer.PlainAlike`
  with `Pullup.PullSafe` a kind of filter that always meets it.
* The rule that `jset #ffffffff` always branches is wrong for A = 0 (`Peephole.AllOnesErr`); `Peephole.JsetGoes` is
  exact. `Relations.AllOnesSpoils` says what it does to `ether[0:4] & 0xffffffff = 0`, `Optimizer.MaskFound` with
  `Pcap.OtherMasks` which filters it leaves alone, `ip[0] & 0xf != 5` among them (`Relations.OptionsMask`).
* `opt_root` drops the statements of every block that it passes by after the first, even if a test below needs them
  (`Roots.LoadLost`); `Roots.RootRun` is exact, and `Roots.NothingLost` a condition that can be told from liveness.
* `pcap_lookupdev` says that there are no network devices when the list begins with a loopback. There may be some that
  are not up or not running (`IfList.LoopbackHides`); `IfList.NoneFound` says exactly when.
* `gen_vlan` and `gen_mpls` do not check the range of the number: an id above 4095 matches no frame
  (`Encap.LargeIds`), and of a label only the low 20 bits count (`Encap.LowLabel`). Numbers of 2^31 and more are taken
  for none.

## Model

| member | source | states |
|---|---|---|
| Bpf.ExecAllConcat | tcpdump/jni/libpcap/bpf/net/bpf_filter.c:261-590 | Running a list of statements and then another is running the two as one list; a load out of range anywhere rejects the packet. |
| Bits.LoadNumber | tcpdump/jni/libpcap/bpf/net/bpf_filter.c:267-310 | An absolute load succeeds exactly if the offset and its 4, 2 or 1 bytes lie within the captured length, as numbers; it then gives the number that the bytes of the packet make, the first on top. |
| Bits.IndexedNumber | tcpdump/jni/libpcap/bpf/net/bpf_filter.c:354-405 | An indexed load is the absolute load at the sum of the numbers, and fails where the sum or the bytes from it on run past the captured part; nothing wraps around. |
| Bits.MshNumber | tcpdump/jni/libpcap/bpf/net/bpf_filter.c:407-418 | The header length is four times the low half of the byte, if it was captured. |
| Bits.AluNumbers | tcpdump/jni/libpcap/bpf/net/bpf_filter.c:495-581 | Each operation as arithmetic on numbers from 0 to 2^32 - 1: sums, differences and products modulo 2^32, quotients and remainders, and, or and exclusive or bit by bit, shifts as multiples and quotients of powers of 2; only divisions by 0 and shifts by 32 or more fail. |
| Bits.HoldsNumbers | tcpdump/jni/libpcap/bpf/net/bpf_filter.c:460-493 | Each test as a comparison of these numbers, and the bit test as some bit that both have. |
| Codegen.Compiler.NewBlock | tcpdump/jni/libpcap/gencode.c:384-395 | A new block is its own head, has no targets, and no other block changes. |
| Codegen.Compiler.Backpatch | tcpdump/jni/libpcap/gencode.c:565-581 | Exactly the blocks on the list, threaded through `jt`/`jf` as each `sense` selects, get the target on that side; everything else is untouched. |
| Codegen.Compiler.Merge | tcpdump/jni/libpcap/gencode.c:587-599 | Only the last link of the first list changes, to the head of the second: the lists are concatenated. |
| Codegen.Compiler.GenAnd | tcpdump/jni/libpcap/gencode.c:642-652 | The true exits of the first operand are resolved to the entry of the second, its false exits join the false list of the second, and no other block changes. |
| Codegen.Compiler.GenOr | tcpdump/jni/libpcap/gencode.c:654-663 | The dual: false exits of the first operand go to the entry of the second, true lists are joined. |
| Codegen.JoinRepresents | tcpdump/jni/libpcap/gencode.c:642-663 | After either splice the two threaded lists of the result hold every unresolved side of the joined graph exactly once. |
| Codegen.JoinLayered | tcpdump/jni/libpcap/gencode.c:642-663 | Joining two disjoint acyclic tests is acyclic again. |
| Codegen.JoinMeans | tcpdump/jni/libpcap/gencode.c:642-663 | For every packet and every state the joined graph decides what conjunction (disjunction), read left to right with loads that reject on the spot, decides. |
| Codegen.Compiler.GenNot | tcpdump/jni/libpcap/gencode.c:665-670 | Flipping one `sense` bit exchanges the two lists, so the same blocks now stand for the negation. |
| Codegen.Compiler.Gen | tcpdump/jni/libpcap/gencode.c:642-670 | For every filter tree the calls, left operand first, leave an acyclic graph that means the tree, made of its tests, in the blocks added to the pool and in no others. |
| Codegen.Compiler.FinishParse | tcpdump/jni/libpcap/gencode.c:601-640 | Every open true exit gets the block that returns the snapshot length, every open false exit the block that returns 0; the root is the entry of the test. |
| Codegen.CompiledRun | tcpdump/jni/libpcap/gencode.c:601-640 | From its root the closed graph returns the snapshot length for what the filter accepts, 0 for what it refuses, and rejects on the spot what a load rejects. |
| Compare.GenNcmp | tcpdump/jni/libpcap/gencode.c:772-796 | The test says exactly whether all of the field was captured and how the masked value compares, turned round only for the tests without an opposite. |
| Compare.GenMcmp | tcpdump/jni/libpcap/gencode.c:717-725 | Accepts exactly the packets whose masked field was captured and has the value, whatever the registers hold; without a mask the field is the number of its bytes in network order (Bits.LoadNumber). |
| Compare.GenBcmp | tcpdump/jni/libpcap/gencode.c:727-764 | For byte strings of any length the chain of word, half-word and byte tests accepts exactly the packets whose bytes, one by one, were captured and are those of the string, and decides every packet that is long enough; there is no test for no bytes. |
| Compare.CapturedBytes | tcpdump/jni/libpcap/gencode.c:727-764 | However the string is cut into pieces, the loads succeed if and only if the string fits between the offset and the captured length, as numbers; no offset that wraps around is taken for captured. |
| Layout.Assembler.CountStmts | tcpdump/jni/libpcap/optimize.c:1889-1899 | Counts what the blocks that are newly reached take up, with the extra jumps that are flagged so far. |
| Layout.Assembler.EmitBranch | tcpdump/jni/libpcap/optimize.c:2114-2153 | On success the branch, at once or through an extra jump, arrives at both successors within eight bits; on failure exactly one long-jump flag that was clear is set, of a side that has more than 255 instructions to skip. |
| Layout.Assembler.ConvertCodeR | tcpdump/jni/libpcap/optimize.c:2004-2155 | Lays out what is reached and not yet placed, in front of what is; every placed block keeps its place, and the room left is exactly what the blocks still to come need; it fails only at a branch that goes too far, and flags that. |
| Layout.Assembler.IcodeToFcode | tcpdump/jni/libpcap/optimize.c:2176-2204 | Succeeds after one attempt more than flags are set in the end; the array has exactly the counted length, the root stands at 0, and every branch and extra jump is forward and lands on the first instruction of its successor. |
| Layout.LaidRun | tcpdump/jni/libpcap/optimize.c:2004-2155 | Running the array from the place of a block is running the graph from that block, for every packet; no run leaves the array. |
| Layout.FlaggedZeros | tcpdump/jni/libpcap/optimize.c:2118-2146 | A failed attempt uses up one flag for good: the measure that bounds the attempts. |
| Pcap.Compile | tcpdump/jni/libpcap/gencode.c:429-523 | End to end without the optimizer: for every filter, packet and initial state the array returns the snapshot length, 0, or rejects, as the filter does. |
| Pcap.CompileOptimized | tcpdump/jni/libpcap/gencode.c:429-523 | End to end through the optimizer and layout. The steps are those of bpf_optimize in its order (Rounds.Optimized), a chain of graphs from one that decides the filter to the one the array runs, and each has done its work by what the analyses find on its graph (Hazards.Justified). The array gives the verdict of the filter for every packet that no load of the filter rejects and that hits no peephole or pull-up step where its rule errs. There is no such hit in safe rounds, none for tests of fields, and where no mask can be found to be all ones only packets too short for some test can hit one. It fails only for a filter that divides, where the numbers that are found divide a constant by the constant 0. |
| Roots.OptRoot | tcpdump/jni/libpcap/optimize.c:1631-1653 | The new root is the first block on the way from the old one whose branches differ, or a leaf; it executes the statements of the old root and its own, a leaf none, and every other block stays as it is. |
| Roots.RootRun | tcpdump/jni/libpcap/optimize.c:1631-1653 | A packet that gets through has the same result after opt_root if and only if it does not meet lost statements: those of blocks passed by after the first. |
| Roots.NothingLost | tcpdump/jni/libpcap/optimize.c:1631-1653 | No packet meets lost statements where these set nothing that is in use at the new root. |
| Roots.OwnNothingLost | tcpdump/jni/libpcap/optimize.c:1631-1653 | Nor where every test loads what it tests, as before statements are rewritten. |
| Roots.LoadLost | tcpdump/jni/libpcap/optimize.c:1631-1653 | A failing input: two tests with equal branches and a mask of the byte that the second loads; after opt_root the mask is of the byte that the first loads, and a packet that was refused is accepted. |
| Roots.CompileRooted | tcpdump/jni/libpcap/gencode.c:502-508 | End to end with opt_root as the last step: of the packets that no load rejects and that hit no hazard before it, the array gives exactly those the verdict of the filter that do not meet lost statements; a filter said to reject all packets accepts none of them. |
| Relations.GenRel | tcpdump/jni/libpcap/gencode.c:6921-7047 | For any filter of field tests and relations joined by and, or and not: fails exactly if some relation needs more registers than are free; otherwise all are free again and the tests say, for every packet and whatever the registers hold, what the relations say of the values as numbers, from left to right. |
| Relations.CodeMeets | tcpdump/jni/libpcap/grammar.y:646-650 | The opcode of a relation holds exactly if its two values are so related as numbers: greater, at least, equal. |
| Relations.RelationMeans | tcpdump/jni/libpcap/grammar.y:434-436 | One relation, reversed or not: the verdict of its test is the comparison of the two values as unsigned numbers, and the test rejects no packet for which both exist. |
| Relations.RelatedFresh | tcpdump/jni/libpcap/optimize.c:1566-1581 | Such filters meet what the optimizer relies on, every test loading what it tests; they divide only if an expression does. |
| Relations.TestMild | tcpdump/jni/libpcap/optimize.c:838-872 | A relation whose masks are not all ones for some packet is one that the all-ones rule has nothing to do with: its masks are never found to be all ones. |
| Relations.CompileRel | tcpdump/jni/libpcap/gencode.c:429-523 | End to end without the optimizer: the array returns what the filter of relations says, and there is one exactly if 16 registers are enough. |
| Relations.CompileRelOptimized | tcpdump/jni/libpcap/gencode.c:429-523 | End to end with the optimizer: the same for every packet that the relations have values for on its way and that hits no hazard of a step; with no masks, or with other masks than all ones, a packet that no test rejects hits none. With enough registers it fails only at the division of a constant by the constant 0. |
| Relations.AllOnesSpoils | tcpdump/jni/libpcap/optimize.c:838-872 | The block that the all-ones rule errs on says what the relation `ether[0:4] & 0xffffffff = 0` says, and packets that meet it go where the others go. |
| Pcap.FieldsFresh | tcpdump/jni/libpcap/gencode.c:717-796 | Every filter made of gen_cmp, gen_mcmp, gen_ncmp and gen_bcmp consists of such tests of fields, and each loads what it tests. |
| Encap.Offsets.GenVlan | tcpdump/jni/libpcap/gencode.c:7900-8017 | Accepts exactly the frames with the bytes 81 00 or 91 00 (and the id, if one is given) at the current offsets, then moves them by 4; an error exactly when a label stack came before. |
| Encap.Offsets.GenMpls | tcpdump/jni/libpcap/gencode.c:8022-8089 | Accepts exactly the frames with the bytes 88 47 (first entry) or whose previous entry has the bottom-of-stack bit clear, with the 20-bit label if one is given; then moves the offset by 4. |
| Encap.FoundHolds | tcpdump/jni/libpcap/gencode.c:7900-8089 | The loads and comparisons of a term, at the offsets of the term, say of the bytes of the frame what the term means: 81 00 or 91 00 and the low 12 bits of the next two, 88 47 or a clear bottom bit and the top 20 bits of an entry. |
| Encap.Offsets.GenTerms | tcpdump/jni/libpcap/gencode.c:7900-8089 | For any number of terms joined by `and`: an error exactly if a tag comes after a label; otherwise exactly the frames that are long enough and have all tags and label entries, at offsets 4 apart. |
| Encap.CompileTerms | tcpdump/jni/libpcap/gencode.c:429-523 | The compiled array for such a filter returns the snapshot length exactly for those frames. |
| Encap.CompileTermsOptimized | tcpdump/jni/libpcap/gencode.c:429-523 | With the whole optimizer, pull-ups and peepholes included, in the order of bpf_optimize: frames that carry the stack are accepted, frames long enough for all its tests that do not are refused. |
| Encap.LargeIds | tcpdump/jni/libpcap/gencode.c:7901-7917 | An id above 4095 matches no frame. |
| Encap.LowLabel | tcpdump/jni/libpcap/gencode.c:8063-8066 | Of a label only the low 20 bits count. |
| Arith.Registers.AllocReg | tcpdump/jni/libpcap/gencode.c:7069-7085 | Returns the first register that is free, from the search position on and around the table, marks it and stays there; fails exactly when all 16 are in use. |
| Arith.Registers.FreeReg | tcpdump/jni/libpcap/gencode.c:7091-7096 | Frees that register only, and does not move the search position. |
| Arith.Gen | tcpdump/jni/libpcap/gencode.c:6967-7047 | Succeeds exactly if Need(e) registers are free; then the code leaves the value of the expression in its register, rejects the packet exactly when the value does not exist, keeps every register in use before, and only that one register more is in use. |
| Arith.GenLoad | tcpdump/jni/libpcap/gencode.c:6695-6776 | A load indexed by a computed value delivers the bytes at that offset of the link-layer header; the register for it is taken before the one of the index is returned. |
| Arith.GenArth | tcpdump/jni/libpcap/gencode.c:7023-7047 | Delivers left op right in 32-bit arithmetic; both operand registers are free again but for the one that is taken. |
| Arith.GenNeg | tcpdump/jni/libpcap/gencode.c:7005-7021 | Delivers the negated value, modulo 2^32, in the same register. |
| Arith.GenRelation | tcpdump/jni/libpcap/gencode.c:6921-6965 | The test compares the two values unsigned, equality by a difference of 0, reversed if asked; it loads what it tests, uses no operations but those of its operands and a subtraction, keeps their masks, and both registers are free again. |
| Levels.Leveler.FindLevels | tcpdump/jni/libpcap/optimize.c:188-222 | Levels are the lengths of the longest ways to a leaf, each block is on the list of its level once, all levels are below the number of blocks, and the root is strictly on top. |
| Levels.LevelBound | tcpdump/jni/libpcap/optimize.c:188-208 | A level is less than the number of blocks reached. |
| Dominators.Dominator.FindDom | tcpdump/jni/libpcap/optimize.c:228-256 | After one sweep down the levels the sets solve the dominator equations. |
| Dominators.DomExact | tcpdump/jni/libpcap/optimize.c:228-256 | a is in the set of b if and only if every way from the root to b visits a. |
| Dominators.Dominator.FindEdom | tcpdump/jni/libpcap/optimize.c:258-292 | The same sweep over edges, two edges to a block. |
| Dominators.EdomExact | tcpdump/jni/libpcap/optimize.c:258-292 | f is in the set of e if and only if every way from the root that takes e has taken f or is just taking it. |
| Dominators.DominatorsExact | tcpdump/jni/libpcap/optimize.c:228-292 | The sweep, described once for items that lead to items, is exact for any such graph. |
| Closure.Closer.FindClosure | tcpdump/jni/libpcap/optimize.c:301-323 | One sweep down the levels gathers the sets backwards. |
| Closure.ClosureExact | tcpdump/jni/libpcap/optimize.c:301-323 | a is in the set of b if and only if some way leads from a to b. |
| Predecessors.FindInEdges | tcpdump/jni/libpcap/optimize.c:1603-1629 | Each block gets every edge of a reached block that enters it, each once. |
| Decisions.GoRun | tcpdump/jni/libpcap/optimize.c:1328-1380 | For blocks that load what they test, a run from any machine state is the walk of a decision diagram. |
| Threading.FoldEdgeRight | tcpdump/jni/libpcap/optimize.c:1276-1326 | What fold_edge answers is the way every packet that took the edge goes at the child. |
| Threading.DominatorsTaken | tcpdump/jni/libpcap/optimize.c:1587-1592 | Edge dominators computed before the pass stay valid on the way up: a packet that comes along an edge of the block in work has taken every edge that dominates it. |
| Threading.Threader.SkipCommon | tcpdump/jni/libpcap/optimize.c:1337-1346 | A test with equal branches is skipped exactly when no exit value would be lost. |
| Threading.Threader.OptJ | tcpdump/jni/libpcap/optimize.c:1328-1380 | Terminates, as every move lowers the level of the target; moves only this edge and changes no packet's result; a test with equal branches is skipped unless an exit value is lost; and it stops only where every dominating edge that asks the same question, with the same operand, or as an equality test that was true of another constant, would lose an exit value (Threading.NoReason). |
| Threading.Threader.ThreadAll | tcpdump/jni/libpcap/optimize.c:1587-1592 | All edges, lowest level first: no packet that gets through sees a difference, and in the end no edge of any block in use can be moved on (Threading.Exhausted). |
| Pullup.Puller.CommonValue | tcpdump/jni/libpcap/optimize.c:1392-1401 | Finds the accumulator number that all predecessors share, exactly if they share one. |
| Pullup.Puller.FindPull | tcpdump/jni/libpcap/optimize.c:1403-1442 | The test that is pulled and its place are the ones the chain, its common target and the dominator sets select; none exactly if there is none. |
| Pullup.Puller.NoneToPull | tcpdump/jni/libpcap/optimize.c:1392-1442 | Where no test is selected there is none: no chain of tests down from the block, dominated by it and with its other target, has a number that comes in by all edges, stays up to some test, and comes back after others. |
| Pullup.Puller.RedirectIns | tcpdump/jni/libpcap/optimize.c:1447-1454 | Every edge that entered the first test enters the pulled one, whichever side it left by. |
| Pullup.Puller.constructor | tcpdump/jni/libpcap/optimize.c:1566-1601 | From levels, dominators, predecessor lists and accumulator numbers of a graph the state that pull-ups start from. |
| Pullup.Puller.Pullup | tcpdump/jni/libpcap/optimize.c:1383-1564 | Pulls exactly where such a chain exists, and its last test up to where the number was lost (Pullup.Pullable); keeps the graph acyclic, and a packet that got through fares as before if and only if it does not now meet, and is not rejected by, the pulled test (Spoils). |
| Chains.PulledChain | tcpdump/jni/libpcap/optimize.c:1444-1473 | At the chain itself: the same result if and only if the pulled test does not reject a packet that used to leave the chain before it. |
| Pullup.PullSafe | tcpdump/jni/libpcap/optimize.c:1383-1564 | If equal accumulator numbers mean equal loads, no packet is spoiled, at the top of the chain or inside it. |
| Optimizer.NewPuller | tcpdump/jni/libpcap/optimize.c:1566-1601 | All that pull-ups go by, found from the graph itself: levels, dominators, predecessors and the accumulator numbers that value numbering finds. |
| Optimizer.PullGraph | tcpdump/jni/libpcap/optimize.c:1383-1564 | On runs of the machine, from the analyses of the graph itself: one pull-up as they select it, or no change where they leave none to make; a packet that gets through sees no difference if and only if it does not hit that pull. |
| Optimizer.PlainAlike | tcpdump/jni/libpcap/optimize.c:1403-1442 | For tests of fields equal accumulator numbers do mean equal loads, so that no pull spoils a packet there. |
| Spoiling.EtherNumbers | tcpdump/jni/libpcap/optimize.c:1403-1442 | For `ether[0] > 0 and (len > 5 or ether[0] > ether[1000])`, as it is generated, the first and the third test leave the same number in the accumulator and the second another. |
| Spoiling.ThirdSelected | tcpdump/jni/libpcap/optimize.c:1383-1442 | or_pullup at the second test selects the third. |
| Spoiling.PullSpoils | tcpdump/jni/libpcap/optimize.c:1383-1473 | By what the analyses find, after that pull a packet of 100 bytes that the generated graph accepts is no longer accepted. |
| ValueTable.Table.F | tcpdump/jni/libpcap/optimize.c:537-567 | Equal (code, v0, v1) triples get equal numbers and different ones different numbers, for any hash function; constants are flagged with their value; old numbers keep what they denote. |
| ValueTable.DenKept | tcpdump/jni/libpcap/optimize.c:537-567 | New numbers never change the packet-determined value that an old number denotes. |
| Numbering.Numberer.OptStmt | tcpdump/jni/libpcap/optimize.c:923-1110 | The new number denotes what the statement computes; the rewritten statement leaves A, X and memory as the original would; what it becomes is fixed by the known constants; it fails exactly at a division of a constant by the constant 0; at most two numbers are used. |
| Numbering.StoreRight | tcpdump/jni/libpcap/optimize.c:569-576 | A store of a number that its atom has already may go. |
| Numbering.FoldRight | tcpdump/jni/libpcap/optimize.c:582-641 | Folding two constants yields what the machine would compute, modulo 2^32. |
| Numbering.ZeroX | tcpdump/jni/libpcap/optimize.c:1049-1066 | With 0 in the accumulator, adding X copies X and the multiplicative operations leave 0, for every X for which they do not reject. |
| Numbering.ZeroDropsIs | tcpdump/jni/libpcap/optimize.c:995-1004 | The operations that are dropped for an operand 0 are those that it leaves without effect for every accumulator, but for `sub`. |
| Numbering.ZeroWinsIs | tcpdump/jni/libpcap/optimize.c:1005-1009 | Those that become a load of 0 are those that give 0 with it for every accumulator. |
| Numbering.ZeroCopiesIs | tcpdump/jni/libpcap/optimize.c:1045-1058 | Those that become a copy of X for an accumulator of 0 are those that give X then, for every X. |
| Numbering.DividesIs | tcpdump/jni/libpcap/optimize.c:582-641 | The divisions are exactly the operations that fail for an operand 0. |
| Numbering.IndRight | tcpdump/jni/libpcap/optimize.c:934-947 | With X constant an indexed load that succeeds is the absolute load at the sum. |
| Propagation.Propagator.EntryValues | tcpdump/jni/libpcap/optimize.c:1172-1195 | On entry an atom has the number on which all predecessors agree, and none otherwise. |
| Propagation.Propagator.OptBlks | tcpdump/jni/libpcap/optimize.c:1566-1581 | Over the whole graph: the numbers on entry are those on which all blocks before agree, every statement becomes what its numbers make of it, packets that get through get the same result if no statement reads an atom without a number, the numbers never run out, and it stops only where a constant is divided by the constant 0 (Propagation.Stops). |
| Propagation.FoundRight | tcpdump/jni/libpcap/optimize.c:1172-1207 | Wherever a run comes, every atom with a number holds the value that the number denotes. |
| Propagation.FoundRun | tcpdump/jni/libpcap/optimize.c:1172-1207 | From any block, with right numbers on entry, the rewritten graph returns what the original returns. |
| Propagation.SelfKnown | tcpdump/jni/libpcap/optimize.c:569-576 | A block that loads what it tests reads nothing unknown. |
| Propagation.RoomFor | tcpdump/jni/libpcap/optimize.c:1971-1981 | With maxval = 3 * (statements + blocks), two numbers to a statement and one to a block always fit, for every block in turn. |
| Liveness.ExecReads | tcpdump/jni/libpcap/optimize.c:331-399 | atomuse and atomdef are right: what a statement does depends on the atoms it uses and changes only the one it defines. |
| Liveness.UseExact | tcpdump/jni/libpcap/optimize.c:331-373 | The uses are exact: an atom is among them if and only if, with some constant, the result of the statement depends on it. |
| Liveness.BranchUseExact | tcpdump/jni/libpcap/optimize.c:453-466 | So are those of branches. |
| Liveness.Usage.ComputeLocalUd | tcpdump/jni/libpcap/optimize.c:412-468 | use and kill are what is read before it is written and written before it is read, and only this block's sets change. |
| Liveness.Usage.FindUd | tcpdump/jni/libpcap/optimize.c:473-496 | One sweep up the levels solves the liveness equations of the whole graph. |
| Liveness.UnusedUnread | tcpdump/jni/libpcap/optimize.c:473-496 | States that agree on the atoms in use at a block give the same result from it. |
| Liveness.OptDeadstores | tcpdump/jni/libpcap/optimize.c:1112-1154 | Turns exactly the statements that are dead at their place to NOP, and says whether there were any. |
| Liveness.StripIs | tcpdump/jni/libpcap/optimize.c:1112-1154 | A statement is deleted if and only if whoever reads its atom later in the block does so after it was set again, and so does what is in use at the end; all others stay. |
| Liveness.StripKeeps | tcpdump/jni/libpcap/optimize.c:1112-1154 | Without them a packet that got through still does, and agrees on what is used afterwards. |
| Liveness.StrippedRun | tcpdump/jni/libpcap/optimize.c:1136-1154 | Removing the dead stores of all blocks changes no result of a packet that gets through. |
| Peephole.FindLast | tcpdump/jni/libpcap/optimize.c:668-686 | The last of two or more remaining operations, or the first entry of the list. |
| Bpf.SubMoves | tcpdump/jni/libpcap/optimize.c:789-850 | Subtracting on one side is adding on the other, modulo 2^32. |
| Peephole.MergeGoes | tcpdump/jni/libpcap/optimize.c:789-862 | Merging `sub` or `and` into an equality test, when A is not used afterwards, sends every state to the same successor. |
| Peephole.MergeIs | tcpdump/jni/libpcap/optimize.c:789-862 | Which operation is merged into which test, case by case, and when all stays as it is. |
| Peephole.JsetGoes | tcpdump/jni/libpcap/optimize.c:863-872 | The `jset #ffffffff` rule keeps the successor if and only if A is not 0 or the branches are equal; `jset #0` always does. |
| Peephole.AllOnesErr | tcpdump/jni/libpcap/optimize.c:838-872 | A failing input: of `ether[0:4] & 0xffffffff = 0` the merge and the rule make a branch that packets with a first word of 0 take the wrong way. |
| Peephole.RulesGo | tcpdump/jni/libpcap/optimize.c:873-914 | With X or A constant, the simplified branch goes where the original goes. |
| Peephole.RulesAre | tcpdump/jni/libpcap/optimize.c:863-914 | What the later rules make of the comparison and of both branches, case by case. |
| Peephole.OptPeep | tcpdump/jni/libpcap/optimize.c:789-915 | The rules applied in the order of the code: the result is exactly what the rules give, same atoms but for an unused A, the same successor, except exactly where the all-ones rule errs, and it was applied exactly where that is said; nothing more is read before the block, and statements are only deleted. |
| PeepPass.NoArithmetic | tcpdump/jni/libpcap/optimize.c:789-862 | After arithmetic as the last operation value numbering never flags A as a constant, so that merging and deciding do not meet. |
| PeepPass.Peeper.PeepAll | tcpdump/jni/libpcap/optimize.c:1566-1581 | All blocks from the root down, each with the constants and the liveness found for it. |
| PeepPass.PeepedRun | tcpdump/jni/libpcap/optimize.c:789-915 | Over whole runs, on rewritten or unchanged statements: the peepholes change no result of a packet that gets through, unless the all-ones rule errs on it. |
| Intern.Interner.EqSlist | tcpdump/jni/libpcap/optimize.c:1739-1756 | Lists are equal if and only if they are apart from deleted statements. |
| Intern.RelinkRun | tcpdump/jni/libpcap/optimize.c:1799-1809 | Sending every edge to an equal block changes no run from any block. |
| Intern.RelinkSlack | tcpdump/jni/libpcap/optimize.c:1799-1809 | A pass that moves an edge uses up part of a measure, as every edge moves to a higher block. |
| Intern.Interner.InternBlocks | tcpdump/jni/libpcap/optimize.c:1769-1810 | Terminates, changes no run from any block, and ends with no two distinct reachable blocks alike. |
| Optimizer.ThreadGraph | tcpdump/jni/libpcap/optimize.c:1566-1592 | Levels, edge dominators, liveness, numbers and jump threading together, on any graph whose blocks load what they test: by what is found no edge can be moved on any more, no packet that gets through sees a difference, and every test stays as it is. |
| Optimizer.PeepGraph | tcpdump/jni/libpcap/optimize.c:1566-1581 | Numbers, liveness and peepholes together, as one step whose evidence is what was found on this graph: no difference but where the all-ones rule errs, at a block where it was applied; every block still loads what it tests. |
| Optimizer.MaskFound | tcpdump/jni/libpcap/optimize.c:838-872 | A mask in X that is set in the block to something else than all ones for some packet is never found to be all ones, whatever the numbers on entry. |
| Optimizer.RewriteGraph | tcpdump/jni/libpcap/optimize.c:1566-1581 | Numbering with rewriting, every statement becoming what its numbers make of it, then the peepholes on that, as one step with the numbers found: no packet that gets through sees a difference but where the all-ones rule errs; it fails only where the numbers found divide a constant by the constant 0. |
| Optimizer.StripGraph | tcpdump/jni/libpcap/optimize.c:1112-1154 | Liveness and dead stores of a whole graph: in every block in use exactly the statements whose value is never read have gone (Liveness.DeadGone); no packet that gets through sees a difference, and every block still loads what it tests. |
| Rounds.Round | tcpdump/jni/libpcap/optimize.c:1655-1680 | A round of opt_loop in its order: the peepholes, dead stores, jump threading, and then a try to pull at every block on both sides, by the level lists of the graph with which the round began; each step has done its work on the graph that the one before it left. |
| Rounds.OptLoop | tcpdump/jni/libpcap/optimize.c:1655-1680 | Rounds as long as the last has changed the graph and not as many have been made as given; their steps, one after another, lead from the first graph to the last. |
| Rounds.Optimize | tcpdump/jni/libpcap/optimize.c:1685-1710 | Branch rounds, then rewriting, dead stores and interning, in this order and each done (Rounds.Optimized): the steps lead from the graph to the result, packets that get through and hit none of them where it errs see no difference, and no two blocks in use are alike. It gives up only after the rounds, where the numbers found divide a constant by the constant 0 (Rounds.GaveUp). |
| Hazards.ImprovesTwice | tcpdump/jni/libpcap/optimize.c:1655-1680 | Passes add up: their steps lead on from one graph to the next, a packet that hits neither sees no difference after both, and what makes the hits of each impossible makes those of both impossible. |
| Optimizer.FoundNumbered | tcpdump/jni/libpcap/optimize.c:1276-1326 | The numbers that value numbering finds have what fold_edge relies on: equal numbers, equal values. |
| ZeroCopy.Reader.PcapNextZbufShm | tcpdump/jni/libpcap/pcap-bpf.c:272-301 | Takes the buffer after the last one exactly if its generations differ. |
| ZeroCopy.Reader.PcapAckZbuf | tcpdump/jni/libpcap/pcap-bpf.c:408-418 | Gives that buffer, and no other, back to the kernel. |
| ZeroCopy.MovesInv | tcpdump/jni/libpcap/pcap-bpf.c:272-418 | Every step of the kernel and of the reader keeps the invariant of the handoff, generation wrap-around included. |
| ZeroCopy.HandoffSafe | tcpdump/jni/libpcap/pcap-bpf.c:272-418 | In every state of every interleaving: each fill is taken once and in order, the buffer held is neither the kernel's nor being written, and a waiting buffer is the next fill. |
| Capture.Handle.Refill | tcpdump/jni/libpcap/pcap-bpf.c:853-871 | An empty buffer is acknowledged before the next is asked for, and what arrives is added to what is to be delivered. |
| Capture.AlignedEnd | tcpdump/jni/libpcap/pcap/bpf.h:101 | From a multiple of the alignment, the rounded length leads to the least multiple at or after the end of the packet. |
| Capture.Handle.Step | tcpdump/jni/libpcap/pcap-bpf.c:940-1052 | The packet at the position, which is a multiple of the alignment, goes to the callback if it passes; the next is looked for at the least multiple of the alignment at or after its end. |
| Capture.Handle.Walk | tcpdump/jni/libpcap/pcap-bpf.c:935-1055 | Up to cnt packets, or all, with a check for a break before each: a break is seen at the first check after it; before the first packet it is reported, with -2, and cleared, later it is left for the next call; fewer than cnt only if the buffer is empty or a break is due. |
| Capture.Handle.Read | tcpdump/jni/libpcap/pcap-bpf.c:819-1056 | Takes the next answer of the kernel only when nothing is left, delivers as many packets as it returns, an error (-1 or -2) delivers none; no break is overlooked, and none reported that was not asked for; what it delivered and what is left are what the answers taken so far held. |
| Capture.Handle.Calls | tcpdump/jni/libpcap/pcap-bpf.c:819-1056 | Over any calls with any counts and any breaks: the callback got, in order and once, exactly the packets that pass the filter of a prefix of all the packets in the answers taken so far, as many as the calls returned; the rest is still in the buffer. |
| Capture.BeforeEnd | tcpdump/jni/libpcap/pcap-bpf.c:966-975 | Positions before the end of the buffer are packets, even if the last lacks its padding. |
| Nflog.SwapNflogHeader | tcpdump/jni/libpcap/pcap-common.c:1309-1362 | The buffer becomes what the walk over the TLVs makes of it, in place; it stays as it is with less than 4 bytes or a version other than 0. |
| Nflog.WalkSwaps | tcpdump/jni/libpcap/pcap-common.c:1330-1361 | Each byte of a TLV header that the walk comes to changes places with its neighbour. |
| Nflog.WalkKeeps | tcpdump/jni/libpcap/pcap-common.c:1330-1361 | Every other byte stays as it is. |
| Nflog.StartsApart | tcpdump/jni/libpcap/pcap-common.c:1330-1361 | The headers do not overlap and lie wholly within what was captured, for any captured length. |
| Nflog.HeaderConverts | tcpdump/jni/libpcap/pcap-common.c:1309-1362 | After a header of 4 bytes with version 0, for every list of TLVs with lengths of 4 to 65532, the encoding of the other byte order becomes that of this one, values unchanged. |
| Nflog.PaddingWraps | tcpdump/jni/libpcap/pcap-common.c:1344-1361 | The padded size falls below a header, and ends the walk, exactly for lengths of 0 and those above 65532, whose 16-bit sum wraps. |
| IfList.GetFigureOfMerit | tcpdump/jni/libpcap/inet.c:128-161 | The merit by its bits; for unit numbers below 2^29 the parts do not run into each other: the state counts most, then loopback, then the unit. |
| IfList.UnitIs | tcpdump/jni/libpcap/inet.c:142-153 | The unit is the decimal number that the name ends in, its last character not counting as a digit if it is none, modulo 2^32. |
| IfList.MeritIs | tcpdump/jni/libpcap/inet.c:154-160 | The merit has the bits of the unit, and bit 31, 30 and 29 also if the device is not running, not up, a loopback; the unit of `any` is 2^29 - 1. |
| IfList.Devices.AddOrFindIf | tcpdump/jni/libpcap/inet.c:180-440 | A known device is found; an unknown one is put before the first that is worse, unless it cannot be opened; the list keeps unique names, the order of merit and, within a merit, the order of addition. |
| IfList.InsertKeeps | tcpdump/jni/libpcap/inet.c:366-435 | Insertion before the first worse device keeps the list sorted and stable. |
| IfList.Devices.AddAddrToDev | tcpdump/jni/libpcap/inet.c:654-755 | The address goes to the end of that device's list; nothing else changes. |
| IfList.Devices.AddAddrToIflist | tcpdump/jni/libpcap/inet.c:599-646 | Every address that was added is on the list of the device it was given to, in order. |
| IfList.Devices.LookupDev | tcpdump/jni/libpcap/inet.c:838-878 | The first device, and none exactly if the list is empty or begins with a loopback; then no device is up, running, not a loopback and of a unit number below 2^29. |
| IfList.NoneFound | tcpdump/jni/libpcap/inet.c:852-866 | For unit numbers below 2^29: no device is returned if and only if every network device is in a worse state than some loopback. |
| IfList.LoopbackHides | tcpdump/jni/libpcap/inet.c:852-866 | The comment that there are no other devices then is wrong: a loopback that runs hides a network device that is down. |

## Left out

* Pointers: blocks, statements, devices and addresses are positions in sequences or sequences, not linked heap
  records; mark bits and the dominator and liveness bit vectors are sets, and lists linked through blocks (levels,
  predecessors, hash chains) are sequences. Aliasing between records is therefore not captured; sharing of blocks is.
- Codegen.Compiler.Gen: the grammar is replaced by the order of the calls that its actions make, left operand first.
- Layout.Assembler.IcodeToFcode: blocks whose statements jump among themselves (802.11 header lengths, `protochain`,
  Geneve) are not modelled; a block has a plain list of statements. Array offsets are unbounded numbers.
- Pcap.CompileOptimized: packets that a load of the filter rejects are excluded, as the optimizer may accept them, and
  so are those that hit a hazard. That tests load what they test is asked of the filter, as all tests of the generator
  do. `opt_root` is not among the steps; `Roots.CompileRooted` has it.
- Roots.LoadLost: the graph is written out, as interning may leave it; that some filter leads to it is not claimed.
- Rounds.Round: the passes run one after another, each over the whole graph and with its own analyses; `opt_blk` does
  the first two block by block, and the code goes on with the numbers, liveness, dominators and predecessors that it
  found earlier in the round.
- Rounds.OptLoop: the number of rounds is bounded by a parameter; whether `opt_loop` ends by itself is not claimed.
- Rounds.Optimize: statements are rewritten in one round, as the result need not load what it tests any more.
  `opt_root` comes after it, in `Roots`.
- Propagation.Propagator.OptBlks: `opt_blk` goes on to the peepholes and the dead stores of a block before it leaves
  it; here these are passes of their own. It also drops all statements of a block nothing of which is used and that
  leaves A and X as they were, which is left out. Nothing is claimed when a statement reads an atom that has no number
  (`known` is false), since two unknowns count as equal in `vstore`.
- Numbering.Numberer.OptStmt: shifts by 32 or more, undefined in C, reject the packet in the machine and fold to 0;
  the rewriting of `0 / X` is right only where the division does not reject. The flag `done` is not set by rewrites of
  statements here.
- ValueTable.Table.F: the hash function is a parameter, as nothing depends on it but speed.
- Peephole.OptPeep: covers the merging and deciding of branches; the first half of `opt_peep`, which moves registers
  and recognizes `tcp[k]`, is left out.
- Liveness.Usage.FindUd: leaves return constants, as all that the generator emits do; `ret a` is not modelled.
- Pullup.Puller.Pullup: dominators and predecessor lists are those of the graph as it is; after a move in the same
  round the code goes on with those from the start of the round.
- Pullup.PullSafe: that equal numbers mean equal loads is a hypothesis; `Optimizer.PlainAlike` proves it for tests of
  fields.
- Spoiling.PullSpoils: the blocks are written out; `Spoiling.AsGenerated` says that they are what the generator joins.
  The peepholes and dead stores that come first in a round are not applied.
- Arith.GenLoad: loads from the link-layer header of Ethernet only; other protocols add an offset and a protocol
  check.
- Arith.GenRelation: without the protocol checks of the operands, which the code joins to the test.
- Relations.GenRel: the tests of fields in it are given as the filters that the generator makes of them.
- Relations.AllOnesSpoils: the block is what rewriting and dead stores leave of the relation after several rounds;
  that they leave it is not proved, only that it says the same.
- Arith.Gen: constants, the packet length, loads from the link-layer header, and operations. Registers are freed as
  the code does, not checked for double use.
- Encap.Offsets.GenTerms: Ethernet without the kernel's VLAN metadata, LLC or Geneve; tests of protocols inside the
  stack are left out. Offsets wrap around at 2^32, as in the code.
- Compare.GenBcmp: fields at a constant offset; offsets behind headers of variable length are left out.
- Capture.Handle.Read: the kernel's answers are an arbitrary list and calls of `pcap_breakloop` may come before any
  check (`signals`); time stamps, FDDI padding and the AIX and SunOS cases are left out. A filter change between calls
  is not modelled.
- ZeroCopy.HandoffSafe: memory is sequentially consistent; the rotation ioctl and select in pcap_next_zbuf are left
  out.
- Nflog.SwapNflogHeader: the check of the packet's version and the walk are modelled; which link types call it is not.
- IfList.GetFigureOfMerit: `atoi` of more than 32 bits, undefined in C, keeps the low bits, and an empty name counts
  as unit 0. Whether a device can be opened is an input; descriptions and the kinds of addresses are left out.
- IfList.Devices.LookupDev: the copy of the name into a buffer of fixed size is left out.
* Memory exhaustion and the long jump out of the compiler at an error, apart from the errors named above.
* Per-link-type tables, host and port tests, ATM and SS7: many branches and little depth.
* Device activation, interface enumeration and every other system call; printing of programs; name look-ups.
