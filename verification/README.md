# A verified model of ABY's circuits and protocols

ABY evaluates circuits between two parties that keep their inputs from each other. This project models the five
parts of it that carry correctness, and proves what they are for:

* **Circuit builders.** `BooleanCircuit` appends gates to a growing arena and returns wire ids. The arena is
  modelled with depths, use counts, layer queues and AND counts (`Circuit`, `Builder`). On it stand the ripple and
  prefix adders, the carry-save network, the multiplier in its four modes, subtractor, comparators, arg-min and
  arg-max, the vectorised multi-MUX, the Hamming weight and the universal gate. Each builder is proved for every
  width to compute the number it promises, with round bounds for the logarithmic ones and exact AND counts for the
  ripple circuits, the size-optimised multiplier and the Hamming weight. `pow` and `log` on floating point are exact
  powers and logarithms of naturals here.
* **GMW.** Two `BoolSharing` objects are stepped layer by layer: triples from oblivious transfers, local gates,
  masked openings, the exchange of padded buffers as one stream, byte-wise evaluation, reference-counted values.
  `GmwRun.ExecCircuit` goes from any built circuit to its plain outputs, for all inputs and all randomness.
* **Yao.** A garbling `YaoServer` and an evaluating `YaoClient`: half-gate ANDs, free XOR, inversion by
  permutation bit, universal gates with row reduction, client keys through random oblivious transfers whose
  answers lag one round behind. Encryption is an arbitrary function of key and identifier, so the theorems hold
  without probability. `YaoRun.ExecCircuit` is the end-to-end statement.
* **Arithmetic sharing.** Products from correlated transfers, multiplication triples, opened multiplications, and
  the two-round conversion of Boolean shares, pipelined over adjacent layers.
* **Look-up tables.** SP-LUT sharing evaluates circuits of truth tables with precomputed transfers in which the
  parties take turns as the sender: `SetupLUT` with its stash, and `LutRun` with one party always waiting for what
  the other one puts off until its next turn. `LutSetup.ExecCircuit` goes from the table of sizes that the builder
  keeps to plain outputs, with every transfer used once and nothing left unsent. `OpLut` has the rotated tables of
  the GMW variant, whose order of use is not the order in which gates are built. Circuits of truth tables have a
  gate type of their own (`LutCircuit`).

Oblivious transfer is ideal: the receiver holds the one of two values that its bit has chosen. Random values are
arbitrary parameters. Classes hold the fields that the originals update; loops that only work on vectors are
methods on values, and the class methods call them. A party's state between two steps is described by a predicate
that relates every field to one table of shares or keys of the whole run (`World`, `Run`), which is a solution of
the gate equations; that such a table exists and is unique is proved separately.

What the values of a gate are in terms of those of its operands is spelled out once for each gate type
(`Meaning.GateMeans`, `LutMeaning.GateMeans`) and is part of the end-to-end statements; numbers, sums, remainders and
counts that contracts mention have laws of their own in the table below.

Two places where the code does not do what one might expect:

* The server collects the bits of the client's outputs in the order in which they were built, while the client
  counts them in the order of evaluation. Whether an output is decoded right depends on the bit that is read instead
  of its own. Each permutation bit has a form that the circuit determines, a polynomial of bits that are drawn at
  random (`YaoForms.FormOf`). All outputs decode in every run if and only if, at each place, the wire that was
  collected and the wire that is read have the same form: `YaoDecoding.DecodesIff`, for every circuit and every key
  length that can tell the operands of its universal gates apart, which is every length if there are none. Outputs
  that were built layer by layer always do (`YaoForms.LayersAgree`). `YaoOutputs.OutOfOrderMisdecoded` gives a circuit
  that decodes wrongly in every run, and `YaoOutputs.OutOfOrderIsGarblable` shows that it is one the builder can
  produce.
* The list of client inputs that the server keeps while garbling is not cleared before the online phase.
  `YaoServerParty.ClientList` shows why the deliveries are right all the same.

## Model

| member | source | states |
|---|---|---|
| `Circuit.ParentSchedule` | src/abycore/circuit/abycircuit.cpp:59-128 | Every parent has a smaller id, and becomes usable no later than the layer of the gate that reads it. |
| `Circuit.ValuesUnique` | src/abycore/circuit/abycircuit.cpp:131-146 | The gate equations of a circuit have exactly one solution, so any table of values that satisfies them is the plain evaluation. |
| `Meaning.EvalMeant` | src/abycore/circuit/abycircuit.cpp:59-128 | Spelled out for every kind of gate, what its values are in terms of those of its operands: XOR, AND, inversion, groups of a vector AND, positions of a combiner, the four bits of a universal gate, inputs, constants, outputs. |
| `Circuit.TableBitOf` | src/abycore/circuit/booleancircuits.cpp:876-897 | A truth table made of four bits c0 to c3 yields, at operands a and b, bit 2a + b. |
| `Circuit.RoundsAre` | src/abycore/circuit/booleancircuits.cpp:50-70 | The interaction rounds of all kinds of gates in both sharings, in numbers. |
| `Bits.WrapIsMod` | src/abycore/circuit/booleancircuits.cpp:1054-1091 | What is left of a number when its upper bits are dropped is the number modulo a power of two. |
| `Bits.NumLow` | src/abycore/sharing/arithsharing.cpp:715-736 | Bit vectors are little-endian: the first bit counts once, all others twice as much as without it. |
| `Circuit.GateValCong` | src/abycore/circuit/abycircuit.cpp:59-128 | The value of a gate depends on the values of earlier gates only: appending gates never changes an evaluation. |
| `Circuit.QueueMembers` | src/abycore/circuit/booleancircuits.cpp:834-857 | A layer queue holds exactly the gates of that layer and kind, each once, in build order. |
| `Builder.NusedAppend` | src/abycore/circuit/abycircuit.cpp:791-793 | Use counts that were right stay right when a gate is appended and each of its inputs is counted once per occurrence: they are the registered uses of the longer circuit. |
| `Builder.EnqueueOk` | src/abycore/circuit/booleancircuits.cpp:834-857 | Queue update: grows the level table when needed, puts the gate into the queue of its layer and leaves all others as they are. |
| `Builder.CountAndOk` | src/abycore/circuit/booleancircuits.cpp:142-178 | The table of AND gates by vector length stays free of duplicates and counts exactly the triples of the circuit. |
| `Builder.BooleanCircuit.PutGate` | src/abycore/circuit/abycircuit.cpp:59-128 | Appending a gate: old gates, values and depths stay, use counts, queues and AND counts are brought up to date, and the new gate has the value and depth that its operands determine, with one interaction round for inputs (two for those of the evaluator in Yao sharing), outputs and AND gates where the sharing needs it. |
| `Builder.BooleanCircuit.Sound` | src/abycore/circuit/abycircuit.cpp:59-128 | At any time the arena is a well-formed circuit, and the values tracked by the builder are its plain evaluation. |
| `Builder.BooleanCircuit.MarkInputsAsUsed` | src/abycore/circuit/abycircuit.cpp:791-793 | One registered use for every occurrence of an input. |
| `Builder.BooleanCircuit.PutVectorANDGate` | src/abycore/circuit/booleancircuits.cpp:142-178 | Every value of the choice wire governs a group of consecutive values of the vector wire. |
| `Builder.BooleanCircuit.PutStructurizedCombinerGate` | src/abycore/circuit/abycircuit.cpp:264-285 | Which value of which input each position of the result holds. |
| `Addition.AddBitsCorrect` | src/abycore/circuit/booleancircuits.cpp:999-1050 | The bits an adder produces stand for a + b exactly with the carry, and modulo 2^n without it. |
| `Addition.CombineBlocks` | src/abycore/circuit/booleancircuits.cpp:1015-1038 | Group generate and propagate of two adjacent blocks combine by AND and XOR. |
| `Addition.BlockSplit` | src/abycore/circuit/booleancircuits.cpp:1015-1038 | Where the loop splits the aligned block around a position, also for widths that are no power of two. |
| `Adders.PutSizeOptimizedAddGate` | src/abycore/circuit/booleancircuits.cpp:920-960 | Ripple adder: for every width the result is a + b, exact with carry and modulo 2^n without, with one AND gate per value for every carry that is needed. |
| `Adders.PutPrefixLevel` | src/abycore/circuit/booleancircuits.cpp:1015-1038 | One in-place level: every position moves from its block of size 2^i to the one of size 2^(i+1), with plain or vector ANDs. |
| `Adders.PutPrefixNetwork` | src/abycore/circuit/booleancircuits.cpp:1008-1040 | After all levels the generate bits are the carries, within ceil(log2 n) rounds. |
| `Adders.PutDepthOptimizedAddGate` | src/abycore/circuit/booleancircuits.cpp:999-1050 | Prefix adder: the same sum as the ripple adder for every width, with or without carry, every output usable 1 + ceil(log2 n) rounds after its inputs. |
| `CarrySaveSpec.CarrySaveCorrect` | src/abycore/circuit/booleancircuits.cpp:1054-1091 | The two outputs of a carry-save adder add up to its three inputs modulo 2^n. |
| `CarrySaveSpec.ReplaceThree` | src/abycore/circuit/booleancircuits.cpp:1411-1450 | Replacing three rows by the two outputs of a carry-save adder keeps the total. |
| `CarrySaveSpec.TotalSplit` | src/abycore/circuit/booleancircuits.cpp:1397-1473 | The total of rows: nothing for none, the number for one, and the sum of the totals of two ranges. |
| `CarrySave.PutCsa` | src/abycore/circuit/booleancircuits.cpp:1416-1443 | One adder of the network: three live rows leave, two join, nothing outside the vectors is read, the total is kept, and other rows stay where they are. |
| `CarrySave.DrainCarries` | src/abycore/circuit/booleancircuits.cpp:1416-1428 | The carry loop stops, keeps the total of the live rows and the count in wires, leaves fewer than three carries, and takes one round for each time that it reaches carries of its own. |
| `CarrySave.DrainSurvivors` | src/abycore/circuit/booleancircuits.cpp:1430-1443 | The survivor loop stops, keeps the total of the live rows and the count in wires, leaves fewer than three survivors, and takes one round for each time that it reaches survivors of its own. |
| `CarrySave.FinishRemainder` | src/abycore/circuit/booleancircuits.cpp:1445-1466 | The last three or four rows go through rem and leave the pair of the last adder as the only live rows. |
| `CarrySave.LastPair` | src/abycore/circuit/booleancircuits.cpp:1467-1473 | At the exit of the network two rows are live, and they are those of the last adder. |
| `CarrySave.PutCSNNetwork` | src/abycore/circuit/booleancircuits.cpp:1397-1473 | For any number of rows from two on, the network terminates and returns exactly two rows whose sum equals the sum of all rows modulo 2^L, after the rounds that its two queues take and with L - 1 AND gates for each of k - 2 adders. |
| `CarrySaveRounds.NetLog` | src/abycore/circuit/booleancircuits.cpp:1415-1468 | These rounds are at most the square of ceil(log2 k). |
| `CarrySaveRounds.NetAdders` | src/abycore/circuit/booleancircuits.cpp:1415-1468 | They are never more than the adders, k - 2. |
| `CarrySaveRounds.DrainLog` | src/abycore/circuit/booleancircuits.cpp:1416-1428 | Consuming a queue of at most 2^e rows three at a time, with one coming back each time, takes at most e rounds. |
| `ProductSpec.RowsProduct` | src/abycore/circuit/booleancircuits.cpp:1306-1331 | The gated and shifted rows add up to a * b modulo 2^resultbitlen. |
| `Multiplier.PutProductRows` | src/abycore/circuit/booleancircuits.cpp:1323-1338 | School-method rows: each bit product that reaches the result is computed by one AND, the rest are zeros; the ANDs are counted. |
| `Multiplier.ProductAndsAre` | src/abycore/circuit/booleancircuits.cpp:1323-1338 | The rows of a product of full width take n * n AND gates, those of a product as wide as its operands n * (n + 1) / 2. |
| `Multiplier.ProductAndsCount` | src/abycore/circuit/booleancircuits.cpp:1323-1338 | For a result of any length, one AND gate for every pair of bits whose product reaches it. |
| `Multiplier.CollectRows` | src/abycore/circuit/booleancircuits.cpp:1286-1322 | Rows of the vector-AND mode, with the roles of a and b swapped, again add up to the product. |
| `Multiplier.PutWideAddGate` | src/abycore/circuit/booleancircuits.cpp:1377-1395 | Tree of ripple adders, in place and with odd rows carried over: the sum of all rows modulo 2^L, within ceil(log2 k) ripple adders one after the other and with the AND gates of k - 1 of them. |
| `Multiplier.PutMulGate` | src/abycore/circuit/booleancircuits.cpp:1275-1353 | For every width from two on and every resultbitlen, in all four modes, the result is a * b modulo 2^resultbitlen, with a bound on its rounds and, for the size-optimised one with plain ANDs, the exact number of its AND gates; for width one the single product bit. |
| `ComparisonSpec.CombineCompare` | src/abycore/circuit/booleancircuits.cpp:1579-1600 | A block compares like its upper part unless that part is equal. |
| `ComparisonSpec.GtIsGreater` | src/abycore/circuit/booleancircuits.cpp:1545-1606 | The bitwise comparison from the top bit down holds exactly when the number is greater. |
| `ComparisonSpec.SubBitsCorrect` | src/abycore/circuit/booleancircuits.cpp:1476-1522 | Difference bits are a - b modulo 2^n, and a borrow is left exactly when a < b. |
| `Compare.PutSUBGate` | src/abycore/circuit/booleancircuits.cpp:1476-1522 | Borrow-ripple subtractor: a - b modulo 2^n, for operands of one width or padded to max_bitlength, with n - 1 AND gates per value. |
| `Compare.PutSizeOptimizedGTGate` | src/abycore/circuit/booleancircuits.cpp:1545-1558 | Ripple comparator: one exactly when a > b, with one AND gate per value and position. |
| `Compare.PutGTLevel` | src/abycore/circuit/booleancircuits.cpp:1579-1600 | One in-place level of the tree, although the equality of node 0 is never defined. |
| `Compare.PutDepthOptimizedGTGate` | src/abycore/circuit/booleancircuits.cpp:1560-1606 | Comparison tree: one exactly when a > b, usable 1 + ceil(log2 n) rounds after its inputs. |
| `Compare.PutMUXGate` | src/abycore/circuit/booleancircuits.cpp:1754-1763 | a where the selector is one, b where it is zero, wire by wire. |
| `ReduceSpec.FoldSplit` | src/abycore/circuit/circuit.h:46-63 | For an associative operation the fold of a list is the operation on the folds of its parts. |
| `ReduceSpec.BinaryAccumulate` | src/abycore/circuit/circuit.h:46-63 | The tree fold of binary_accumulate equals the left fold for every associative operation and every list length, and is the element itself for a list of one. |
| `ReduceSpec.FoldOne` | src/abycore/circuit/circuit.h:46-63 | The fold of one element is that element; with the fold of two parts, this determines it. |
| `ReduceSpec.FoldAdds` | src/abycore/circuit/circuit.h:46-63 | Folded with addition, numbers become their sum. |
| `ReduceSpec.ArgBestLeftmost` | src/abycore/circuit/booleancircuits.cpp:2031-2097 | The leftmost extreme: as numbers, no element is smaller (greater), and every earlier one is strictly greater (smaller). |
| `ReduceSpec.ArgBestSplit` | src/abycore/circuit/booleancircuits.cpp:2045-2090 | Choosing between the winners of two adjacent blocks, preferring the left one on a tie, yields the winner of both. |
| `Extremes.PutBestLevel` | src/abycore/circuit/booleancircuits.cpp:2045-2090 | One in-place level of the reduction, with the odd element carried over. |
| `Extremes.PutMinIdxGate` | src/abycore/circuit/booleancircuits.cpp:2031-2097 | For any non-empty list: the minimum and the id of its leftmost occurrence, within ceil(log2 k) comparisons and selections one after the other. |
| `Extremes.PutMaxIdxGate` | src/abycore/circuit/booleancircuits.cpp:2143-2207 | For any non-empty list: the maximum and the id of its leftmost occurrence, within ceil(log2 k) comparisons and selections one after the other. |
| `HammingSpec.HammingSplit` | src/abycore/circuit/booleancircuits.cpp:2894-2959 | How the recursion splits n inputs: AND counts and widths of the parts add up to n - popcount(n) and floor(log2 n) + 1. |
| `HammingSpec.OnesAre` | src/abycore/circuit/booleancircuits.h:495-501 | The count of ones is the number of positions that hold a one. |
| `HammingSpec.PopcountIs` | src/abycore/circuit/booleancircuits.h:495-501 | The population count of a number is the number of ones among the bits that spell it. |
| `Hamming.PutFullAdderGate` | src/abycore/circuit/booleancircuits.cpp:2804-2846 | Sum and carry of three bits with a single AND gate. |
| `Hamming.PutADDChainGate` | src/abycore/circuit/booleancircuits.cpp:2849-2878 | Chain of full adders with carry in: the exact sum, one AND per position. |
| `Hamming.PutHammingWeightGateRec` | src/abycore/circuit/booleancircuits.cpp:2894-2959 | For every n: the number of ones in floor(log2 n) + 1 bits with exactly n - popcount(n) AND gates. |
| `Hamming.PutHammingWeightGate` | src/abycore/circuit/booleancircuits.h:495-501 | The number of ones among the first bitlen wires, with bitlen - popcount(bitlen) AND gates per SIMD value. |
| `MultiMux.Flatten` | src/abycore/circuit/booleancircuits.cpp:2723-2740 | Every wire of every share finds a place of its own in the transposed vector. |
| `MultiMux.PutTransposedMux` | src/abycore/circuit/booleancircuits.cpp:2741-2752 | Transposed operands under one vector AND: group j follows bit j of the selector. |
| `MultiMux.ExtractShares` | src/abycore/circuit/booleancircuits.cpp:2754-2769 | Strided extraction undoes the transposition, share by share and value by value. |
| `MultiMux.PutMultiMUXGate` | src/abycore/circuit/booleancircuits.cpp:2723-2769 | For any number of shares and widths, in every SIMD lane every output share is sa or sb as the selector bit of that lane says. |
| `Universal.PutUniversalGateCircuit` | src/abycore/circuit/booleancircuits.cpp:876-897 | Four table bits and two operands: op_id & 1 for 00, bit 1 for 01, bit 2 for 10 and bit 3 for 11. |
| `GmwSpec.TripleProduct` | src/abycore/sharing/boolsharing.cpp:509-589 | ComputeMTs: from ideal oblivious transfers in both directions, C0 ^ C1 = (A0 ^ A1)(B0 ^ B1), for single bits and for strings. |
| `GmwSpec.AndSharesXor` | src/abycore/sharing/boolsharing.cpp:968-1084 | Opening both operands with a triple yields shares of the AND, the server alone adding the product of the openings. |
| `GmwSpec.SharesExist` | src/abycore/sharing/boolsharing.cpp:703-848 | For all inputs and all randomness there are share tables that satisfy the equations of all gates. |
| `GmwSpec.SharesXorToPlain` | src/abycore/sharing/boolsharing.cpp:591-848 | For every circuit, all inputs and all randomness, the XOR of both shares of every gate is its plain evaluation. |
| `GmwSpec.StartBound` | src/abycore/sharing/boolsharing.cpp:118-128 | Positions padded to a byte after every layer never exceed the number of AND gates plus eight per layer. |
| `GmwSpec.TriplesDisjoint` | src/abycore/sharing/boolsharing.cpp:830-888 | Two different AND gates never share a triple. |
| `GmwSpec.TriplesSuffice` | src/abycore/sharing/boolsharing.cpp:118-128 | No gate of any run reaches beyond the numgates + 8 * maxdepth triples set aside. |
| `GmwSpec.TriplesWithinLayer` | src/abycore/sharing/boolsharing.cpp:1086-1117 | The triples of a gate lie between the byte boundary where its layer starts and the next one. |
| `TripleVectors.ComputeMTs` | src/abycore/sharing/boolsharing.cpp:509-589 | The loops over the vectors (own product, received string, own pad) leave C as the share of A * B, bitwise or string by string. |
| `TripleVectors.OpenTriples` | src/abycore/sharing/boolsharing.cpp:830-888 | SelectiveOpen and SelectiveOpenVec: operands are XORed onto the next triples, all others stay as they are. |
| `TripleVectors.EvaluateMTs` | src/abycore/sharing/boolsharing.cpp:968-1084 | The bytewise evaluation of a layer, up to its padding, leaves every opened position with its share and touches nothing beyond. |
| `GmwLayer.FullLayer` | src/abycore/sharing/boolsharing.cpp:1086-1117 | A layer, padded to a byte, ends exactly where the next one starts, within the triples set aside. |
| `GmwLayer.OpenStep` | src/abycore/sharing/boolsharing.cpp:830-888 | One more gate of the layer is opened at its own position, earlier openings stay. |
| `GmwLayer.LayerResults` | src/abycore/sharing/boolsharing.cpp:1086-1117 | The result vector holds the shares of all AND gates of the layer at the positions where they are read back. |
| `GmwSchedule.ParentDone` | src/abycore/aby/abyparty.cpp:400-453 | A parent has been evaluated before its consumer: on an earlier layer, or locally on the same one. |
| `GmwSchedule.LocalReady` | src/abycore/sharing/boolsharing.cpp:591-651 | When a local gate is evaluated all its operands are, and it has not been evaluated before. |
| `GmwSchedule.InteractiveReady` | src/abycore/sharing/boolsharing.cpp:653-700 | Everything an interactive gate reads is there once the local gates of its layer are done. |
| `GmwSchedule.LayerComplete` | src/abycore/aby/abyparty.cpp:400-453 | Local and interactive queue together are exactly the gates of the layer. |
| `GmwSchedule.RestAtStart` | src/abycore/circuit/abycircuit.cpp:791-793 | At the start the uses to come are exactly the registered ones. |
| `GmwSchedule.RestStep` | src/abycore/sharing/sharing.cpp:233-240 | When a gate makes its uses, exactly its parents, with multiplicity, disappear from the uses to come. |
| `GmwSchedule.AllDone` | src/abycore/sharing/sharing.cpp:233-240 | After the last layer everything is evaluated and no use is left. |
| `Channel.SendValues` | src/abycore/aby/abyparty.cpp:478-514 | All buffers of a round travel as one stream. |
| `Channel.ReceiveValues` | src/abycore/aby/abyparty.cpp:516-562 | If the sizes a party waits for are those of the buffers that were sent, cutting the stream returns these buffers. |
| `GmwMessage.SliceOpenings` | src/abycore/sharing/boolsharing.cpp:1215-1262 | The bytes of D and E that are sent for a layer carry the openings of all its gates. |
| `GmwMessage.PlaceOpenings` | src/abycore/sharing/boolsharing.cpp:1264-1301 | Written to the same offsets, the received bytes are the openings of the other party. |
| `GmwParty.BoolSharing.UsedGate` | src/abycore/sharing/sharing.cpp:233-240 | One use less; the value is freed exactly when no registered use is left. |
| `GmwParty.BoolSharing.EvaluateXORGate` | src/abycore/sharing/boolsharing.cpp:703-716 | The share of an XOR gate, and one use of each operand. |
| `GmwParty.BoolSharing.EvaluateINVGate` | src/abycore/sharing/boolsharing.cpp:762-785 | The server flips its share, the client keeps it. |
| `GmwParty.BoolSharing.EvaluateConstantGate` | src/abycore/sharing/boolsharing.cpp:718-743 | The server holds the constant, the client zero. |
| `GmwParty.BoolSharing.EvaluateStructCombine` | src/abycore/sharing/boolsharing.cpp:1444-1480 | The share of a structurised combiner, one use for each of its inputs. |
| `GmwParty.BoolSharing.SelectiveOpen` | src/abycore/sharing/boolsharing.cpp:830-888 | Operands are opened with triples of the right length, the gate is noted for the end of the layer. |
| `GmwParty.BoolSharing.ShareValues` | src/abycore/sharing/boolsharing.cpp:745-760 | A random mask is sent, the masked input is kept as own share. |
| `GmwParty.BoolSharing.ReconstructValue` | src/abycore/sharing/boolsharing.cpp:813-828 | The share of an output is appended to what is sent. |
| `GmwParty.BoolSharing.EvaluateLocalOperations` | src/abycore/sharing/boolsharing.cpp:591-651 | After the local queue all its gates hold their shares, use counts are exact, nothing else has changed. |
| `GmwParty.BoolSharing.EvaluateInteractiveOperations` | src/abycore/sharing/boolsharing.cpp:653-700 | After the interactive queue all inputs, outputs and AND gates of the layer are opened or awaited. |
| `GmwParty.BoolSharing.GetDataToSend` | src/abycore/sharing/boolsharing.cpp:1215-1262 | The buffers of a layer: input masks, output shares, and D and E for every vector length, padded to bytes. |
| `GmwParty.BoolSharing.GetBuffersToReceive` | src/abycore/sharing/boolsharing.cpp:1264-1301 | The sizes a party waits for are those of the buffers its peer sends, in the same order. |
| `GmwParty.BoolSharing.EvaluateANDGate` | src/abycore/sharing/boolsharing.cpp:1086-1117 | All AND gates of the layer take their shares from the results, and every position is padded to a byte. |
| `GmwParty.BoolSharing.AssignInputShares` | src/abycore/sharing/boolsharing.cpp:1176-1192 | The other party's inputs: the masks received, in the order in which they were sent. |
| `GmwParty.BoolSharing.AssignOutputShares` | src/abycore/sharing/boolsharing.cpp:1194-1213 | Own outputs: own share XOR received share. |
| `GmwParty.BoolSharing.FinishCircuitLayer` | src/abycore/sharing/boolsharing.cpp:929-966 | At the end of a layer the party is at the start of the next one: all gates so far evaluated to their shares, counts exact, buffers empty. |
| `GmwRun.RunLayer` | src/abycore/aby/abyparty.cpp:400-453 | One layer of both parties, from layer start to layer start. |
| `GmwRun.StoredSharesXor` | src/abycore/sharing/boolsharing.cpp:929-966 | At every layer boundary the two stored shares of a gate XOR to its plain value. |
| `GmwRun.StoredTogether` | src/abycore/sharing/sharing.cpp:233-240 | A value is stored exactly as long as uses of it are to come, and in the same layers by both parties. |
| `GmwRun.EvaluateCircuit` | src/abycore/aby/abyparty.cpp:400-453 | All layers: own outputs are the plain ones, and everything that was ever used has been freed. |
| `GmwRun.ExecCircuit` | src/abycore/aby/abyparty.cpp:186-273 | For every circuit a builder produced, all inputs and all randomness: setup, triples and all layers end with the plain outputs at both parties, plain meaning what Meaning.GateMeans spells out gate by gate. |
| `Garbling.AndCorrect` | src/abycore/sharing/yaoserversharing.cpp:612-705 | Half-gate AND: the evaluator obtains the key of the product, for all keys, permutation bits, R with last bit one and all pads. |
| `Garbling.UnivCorrect` | src/abycore/sharing/yaoserversharing.cpp:730-787 | Universal gate with row reduction: the evaluator obtains the key of bit 2a + b of the table, for all tables. |
| `Garbling.TransferCorrect` | src/abycore/sharing/yaoserversharing.cpp:863-918 | From the two masked keys, swapped by the correction bit, the client unmasks exactly the key of its input bit. |
| `YaoSpec.KeysExist` | src/abycore/sharing/yaoserversharing.cpp:330-442 | For all inputs and all randomness there are tables and keys that satisfy the equations of all gates. |
| `YaoSpec.ActiveCorrect` | src/abycore/sharing/yaoclientsharing.cpp:260-445 | Whole circuit: last bit of every output key is zero, and the evaluator's key is outKey ^ (value ^ pi) * R, for any encryption. |
| `YaoSpec.XorActive` | src/abycore/sharing/yaoclientsharing.cpp:260-288 | Free XOR and inversion keep that relation. |
| `YaoOrder.PlaceAt` | src/abycore/sharing/yaoserversharing.cpp:366-428 | At every position of the evaluation order the counters of both parties stand at the place of the gate. |
| `YaoOrder.OperandsVisited` | src/abycore/sharing/yaoserversharing.cpp:205-219 | All operands of a gate have been visited before it. |
| `YaoOrder.InteractivePlace` | src/abycore/sharing/yaoclientsharing.cpp:214-258 | A gate of an interactive queue finds what it draws behind that of all earlier gates. |
| `YaoOrder.TotalDrawn` | src/abycore/sharing/yaoserversharing.cpp:330-364 | Going through all layers uses up every precomputed supply exactly. |
| `YaoMessage.OutputDecodes` | src/abycore/sharing/yaoserversharing.cpp:994-1009 | Permutation bit XOR last bit of the active key is the plain output. |
| `YaoServerParty.CreateGarbledTable` | src/abycore/sharing/yaoserversharing.cpp:612-705 | The steps of the garbler (mask buffers indexed by permutation bits, output key built up in place and normalised at the end) arrive at the two half gates, the key and the permutation bit of the specification, which AndCorrect evaluates. |
| `YaoServerParty.GarbleUniversalGate` | src/abycore/sharing/yaoserversharing.cpp:730-787 | The steps of the garbler (both output keys in a buffer, entries selected by the exclusive or of two indices) arrive at the reduced rows of the specification, from which an evaluator with any keys obtains the key of bit 2a + b. |
| `YaoServerParty.GarbleXor` | src/abycore/sharing/yaoserversharing.cpp:545-582 | Keys and permutation bits are XORed, value by value. |
| `YaoServerParty.YaoServer.PrecomputeGC` | src/abycore/sharing/yaoserversharing.cpp:366-428 | Garbling a queue stores keys for all its gates and appends their tables, in order. |
| `YaoServerParty.YaoServer.CreateGarbledCircuit` | src/abycore/sharing/yaoserversharing.cpp:330-364 | All layers are garbled, then the bits of the client's outputs are collected. |
| `YaoServerParty.YaoServer.CollectClientOutputShares` | src/abycore/sharing/yaoserversharing.cpp:789-797 | Permutation bits of the client's outputs, in build order. |
| `YaoServerParty.ClientList` | src/abycore/sharing/yaoserversharing.cpp:863-918 | The inputs whose keys are delivered head the list of client inputs, although garbling has left entries in it that are never removed. |
| `YaoServerParty.DeliverKeys` | src/abycore/sharing/yaoserversharing.cpp:863-918 | The masked key pairs for all corrections of a round, in the order of the gates. |
| `YaoServerParty.YaoServer.EvaluateInteractiveOperations` | src/abycore/sharing/yaoserversharing.cpp:221-264 | Own input keys are put into the message, client inputs and awaited outputs are noted. |
| `YaoServerParty.YaoServer.FinishCircuitLayer` | src/abycore/sharing/yaoserversharing.cpp:863-971 | From one layer start to the next: client keys masked, outputs assigned, counters moved. |
| `YaoClientParty.EvaluateAnds` | src/abycore/sharing/yaoclientsharing.cpp:289-364 | Evaluating the garbled tables of a gate yields its active keys. |
| `YaoClientParty.EvaluateUnivs` | src/abycore/sharing/yaoclientsharing.cpp:366-421 | Evaluating the universal gates yields their active keys. |
| `YaoClientParty.AssignClientKeys` | src/abycore/sharing/yaoclientsharing.cpp:639-671 | Client keys that arrive are unmasked for the gates whose corrections were sent one round before. |
| `YaoClientParty.YaoClient.EvaluateLocalOperations` | src/abycore/sharing/yaoclientsharing.cpp:164-212 | After the local queue all its gates have their active keys; the table index is the garbler's at every gate. |
| `YaoClientParty.YaoClient.EvaluateInteractiveOperations` | src/abycore/sharing/yaoclientsharing.cpp:214-258 | Inputs are noted, outputs decoded or put into the message. |
| `YaoClientParty.YaoClient.FinishCircuitLayer` | src/abycore/sharing/yaoclientsharing.cpp:593-617 | From one layer start to the next: keys assigned, corrections become awaited keys. |
| `YaoOutputs.SameOrder` | src/abycore/sharing/yaoserversharing.cpp:789-797 | For outputs built layer by layer, the order of collection is the order of decoding. |
| `YaoForms.KeyHasForm` | src/abycore/sharing/yaoserversharing.cpp:545-582 | In every run the key of a wire is the exclusive or of the keys of inputs, AND gates and universal gates that the circuit fixes for it: XOR gates add keys, inversions keep them, constants have none. |
| `YaoForms.PiHasForm` | src/abycore/sharing/yaoserversharing.cpp:430-475 | In every run the permutation bit of a wire is the value of the polynomial that the circuit fixes for it: inversions flip, XORs add up, universal gates apply their truth table and add a bit of the pad, server inputs and AND gates have bits of their own. |
| `YaoForms.AtomBitsUpTo` | src/abycore/sharing/yaoserversharing.cpp:730-786 | The bit that the pad adds is the same for all universal gates whose operands have the same keys, and is otherwise free: their encryption has no gate identifier. |
| `YaoForms.FormsSuffice` | src/abycore/sharing/yaoclientsharing.cpp:423-446 | If every bit that the client reads has the form of the output's own bit, all its outputs decode to their plain values, in every run of every circuit. |
| `YaoForms.LayersAgree` | src/abycore/sharing/yaoserversharing.cpp:789-797 | Outputs built layer by layer satisfy that condition. |
| `YaoForms.DecodesPlain` | src/abycore/sharing/yaoclientsharing.cpp:423-446 | If the client's outputs were built layer by layer, each one decodes to its plain value. |
| `YaoDecoding.ApartTags` | src/abycore/sharing/yaoserversharing.cpp:1011-1023 | If there are more wire keys than pairs of operands of universal gates, keys exist with which different operands have different keys. |
| `YaoDecoding.Realised` | src/abycore/sharing/yaoserversharing.cpp:612-786 | Any choice of the bits of server inputs, AND gates and pads occurs in a run of any such key length: keys, encryptions and pads with these bits exist. |
| `YaoDecoding.DecodesIff` | src/abycore/sharing/yaoclientsharing.cpp:423-446 | For every circuit and every key length kappa with (2u)^2 < 2^(kappa-1), where u is the number of values of its universal gates: the client's outputs decode in every run if and only if each bit that is read has the form of the output's own bit. Without universal gates that is every key length. |
| `YaoDecoding.AnyLength` | src/abycore/sharing/yaoclientsharing.cpp:423-446 | For circuits without universal gates, the condition on the length of keys holds for every length. |
| `YaoShortKeys.ShortKeysDecode` | src/abycore/sharing/yaoserversharing.cpp:730-786 | With keys of one bit the condition is not necessary: a circuit of the sharing whose two outputs have different forms and decode in every run. |
| `YaoOutputs.OutOfOrderIsGarblable` | src/abycore/sharing/yaoserversharing.cpp:789-797 | The counterexample is a circuit that the sharing garbles. |
| `YaoOutputs.OutOfOrderMisdecoded` | src/abycore/sharing/yaoclientsharing.cpp:423-446 | A circuit with two outputs built in the other order: in every run the client decodes the constant wrongly. |
| `YaoRun.ExpectedSizes` | src/abycore/sharing/yaoserversharing.cpp:973-992 | In every round both parties wait for exactly what the other one sends. |
| `YaoRun.RunLayer` | src/abycore/aby/abyparty.cpp:400-453 | One round of both parties, from layer start to layer start. |
| `YaoRun.ExecCircuit` | src/abycore/aby/abyparty.cpp:186-273 | For every circuit a builder produced, all inputs, keys and randomness: the server learns its plain outputs, and the client too if the forms of its outputs agree, in particular if these were built layer by layer; plain means what Meaning.GateMeans spells out gate by gate. |
| `ArithTriples.ProductShares` | src/abycore/ot/arithmtmasking.h:56-178 | Accumulated masks of the sender plus accumulated words of the receiver are a * b modulo 2^l, for every l. |
| `ArithTriples.ArithMTMasking.Mask` | src/abycore/ot/arithmtmasking.h:56-115 | The nested loops of the sender: each product's correlations masked in place, the sum of all its masks stored. |
| `ArithTriples.ArithMTMasking.UnMask` | src/abycore/ot/arithmtmasking.h:120-178 | The nested loops of the receiver: at each product the sum over all its transfers, of the unmasked word where the bit is one and minus the mask elsewhere. |
| `ArithTriples.ShareProducts` | src/abycore/ot/arithmtmasking.h:56-178 | A block of products at any position: afterwards both parties hold shares, modulo 2^l, of input times the number that the choice bits spell; all others are untouched. |
| `ArithTriples.ChoiceValueIs` | src/abycore/ot/arithmtmasking.h:120-178 | The choice bits of a product stand for the number that they spell. |
| `ArithTriples.MaskSumIs` | src/abycore/ot/arithmtmasking.h:88-102 | The masks of a product are summed from the first to the last. |
| `ArithTriples.TakenSumIs` | src/abycore/ot/arithmtmasking.h:149-170 | So are the receiver's words. |
| `ArithTriples.RowIs` | src/abycore/ot/arithmtmasking.h:56-178 | The transfers of product k begin at k times l. |
| `Words.ModIs` | src/abycore/ot/arithmtmasking.h:56-178 | What a word keeps of an integer is the remainder modulo 2^l. |
| `Words.XorBit` | src/abycore/ot/arithmtmasking.h:56-178 | XOR of words, bit by bit. |
| `ArithParty.TripleCorrect` | src/abycore/sharing/arithsharing.cpp:211-228 | Own products plus two shared cross products are a triple modulo 2^l. |
| `ArithParty.MulShares` | src/abycore/sharing/arithsharing.cpp:522-601 | Opening x - a and y - b and evaluating with the triple yields shares of x * y modulo 2^l. |
| `ArithParty.ArithSharing.ComputeMTsFromOTs` | src/abycore/sharing/arithsharing.cpp:211-228 | C becomes A * B plus both transferred sums, at every index. |
| `ArithParty.ArithSharing.SelectiveOpen` | src/abycore/sharing/arithsharing.cpp:522-542 | The prepared triple words turn into differences in place, index by index, for one more gate. |
| `ArithParty.ArithSharing.EvaluateMTs` | src/abycore/sharing/arithsharing.cpp:574-604 | The results of all triples opened in this layer, with the product of the openings at the server only. |
| `ArithParty.ArithSharing.EvaluateMULGate` | src/abycore/sharing/arithsharing.cpp:606-618 | Each gate reads back exactly the results of the triples it has opened. |
| `ArithRun.GenerateTriples` | src/abycore/sharing/arithsharing.cpp:75-110 | Two batches of products with swapped roles leave both parties with triples at every index. |
| `ArithRun.MultiplyLayer` | src/abycore/sharing/arithsharing.cpp:544-572 | A whole layer of multiplications, any number of gates of any size: all results are shares of the products, nothing else changes. |
| `ConversionSpec.CellShares` | src/abycore/sharing/arithsharing.cpp:715-736 | One cell of the conversion: the random word of the server and what the client unmasks are shares of the weighted bit. |
| `ConversionSpec.LayerCellAt` | src/abycore/sharing/arithsharing.cpp:706-714 | Both parties visit the cells of a layer in the same order, so local and global indices agree. |
| `ConversionSpec.SumShares` | src/abycore/sharing/arithsharing.cpp:726-757 | Summed over the bit positions of a gate, the cells are shares of the number on the wires. |
| `ArithConversion.ServerGates` | src/abycore/sharing/arithsharing.cpp:684-761 | The loops of the server: both messages of every cell at their index, which open to the bit and to its negation at their weight less the random word, and the sums of its random words as values. |
| `ArithConversion.ClientGates` | src/abycore/sharing/arithsharing.cpp:763-816 | The loops of the client: the chosen message of every cell unmasked and summed up. |
| `ArithConversion.LayerConverted` | src/abycore/sharing/arithsharing.cpp:684-816 | The messages of a layer, kept and summed up, are shares, modulo 2^l, of the numbers that the XORs of the wires' shares spell. |
| `ConversionSpec.WireSumIs` | src/abycore/sharing/arithsharing.cpp:715-736 | The weighted bits of a gate add up to the number that the XORs of the shares on its wires spell. |
| `ArithConversion.ConversionSharing.EvaluateCONVGate` | src/abycore/sharing/arithsharing.cpp:464-505 | First round: the server counts the bits of a gate, the client appends its corrected bits. |
| `ArithConversion.ConversionSharing.AssignServer` | src/abycore/sharing/arithsharing.cpp:657-664 | The received round is consumed, its answer is prepared, index and counters move together. |
| `ArithConversion.ConversionSharing.AssignClient` | src/abycore/sharing/arithsharing.cpp:665-681 | The second round of the layer before is consumed, then this layer is put aside: gates, index and counter. |
| `ConversionRun.Exchange` | src/abycore/sharing/arithsharing.cpp:843-920 | In every round each party waits for exactly as many bits or words as the other one sends. |
| `ConversionRun.RunLayer` | src/abycore/sharing/arithsharing.cpp:657-816 | One layer overlaps two rounds: the conversions of the layer before are completed, those of this layer are pending with both indices in step. |
| `ConversionRun.RunConversions` | src/abycore/sharing/arithsharing.cpp:657-816 | For every sequence of layers, back-to-back ones included, all conversions that a layer has followed are shares, modulo 2^l, of the numbers that the XORs of the shares on their wires spell. |
| `LutSpec.ChosenEntry` | src/abycore/sharing/splut.cpp:852-861 | The entry at the position the receiver has chosen is the table entry at the joint index, under the share of the sender and the transferred word. |
| `LutSpec.SharesExist` | src/abycore/sharing/splut.cpp:648-660 | For all inputs and all randomness there are shares that satisfy the equations of the gates. |
| `LutSpec.SharesXorToPlain` | src/abycore/sharing/splut.cpp:774-1219 | The two shares of every wire, truth tables with any numbers of inputs and outputs included, add up to its plain value; an output is the plain value. |
| `LutCircuit.PlaceInLayer` | src/abycore/sharing/splut.cpp:828-866 | A table gate finds its transfers behind those of the gates before it on all layers with the same sender, and the transfers that are prepared suffice. |
| `LutTables.UpdateChoices` | src/abycore/sharing/splut.cpp:564-590 | Receiver: its shares of the index, masked with the choices made in advance, one update per value. |
| `LutTables.Answer` | src/abycore/sharing/splut.cpp:852-861 | The loop that fills position u ^ t in step t fills every position once, with the entry that belongs there. |
| `LutTables.AnswerGate` | src/abycore/sharing/splut.cpp:822-866 | Sender: a random share as the value of the gate, and for every value the permuted and masked table. |
| `LutTables.OpenGate` | src/abycore/sharing/splut.cpp:1156-1199 | Receiver: the chosen entries unmasked and put to the places of their values; the result is its share. |
| `LutLayer.LayerKnown` | src/abycore/sharing/splut.cpp:733-766 | With tables, received inputs and own outputs assigned, a party holds all values of the layer. |
| `LutParty.SetupLUT.EvaluateLocalOperations` | src/abycore/sharing/splut.cpp:422-447 | The XOR, constant, inversion and splitter gates of a layer, which are its local gates here, hold the shares of the party, made of the stored shares of their operands: XOR, the constant and the inversion at the server only, a range. |
| `LutParty.SetupLUT.EvaluateTTGate` | src/abycore/sharing/splut.cpp:536-603 | A table gate: a sender waits for as many updates as the receiver prepares, and either notes the gate. |
| `LutParty.SetupLUT.EvaluateInteractiveOperations` | src/abycore/sharing/splut.cpp:485-534 | All interactive gates of a layer: tables, own and other inputs, and outputs by destination. |
| `LutParty.SetupLUT.GetDataToSend` | src/abycore/sharing/splut.cpp:1261-1402 | A receiver sends its stash, the answers of the layer before and its own messages; a sender sends nothing and stashes its shares. |
| `LutParty.SetupLUT.GetBuffersToReceive` | src/abycore/sharing/splut.cpp:1405-1448 | A party waits for exactly the buffers that the other one sends, in order and size. |
| `LutParty.SetupLUT.Receive` | src/abycore/sharing/splut.cpp:1405-1448 | The stream of the other party fills the buffers that wait for it. |
| `LutParty.SetupLUT.EvaluateTTGates` | src/abycore/sharing/splut.cpp:774-880 | The gates visited group by group find the messages that were written in queue order; every class ends with its layer used up. |
| `LutParty.SetupLUT.AssignOutputShares` | src/abycore/sharing/splut.cpp:1240-1259 | Own shares and received ones are added, which completes the values of the layer. |
| `LutParty.SetupLUT.FinishCircuitLayer` | src/abycore/sharing/splut.cpp:733-766 | The end of a layer is the start of the next one, with the roles exchanged. |
| `LutParty.SetupLUT.CompleteLayer` | src/abycore/sharing/splut.cpp:733-766 | From the stream a party takes the buffers of one layer, completes it and leaves the rest, which belongs to the next layer. |
| `LutRun.NextLayer` | src/abycore/sharing/splut.cpp:1281-1343 | The first part of the message of the receiver of a layer completes the layer before for the sender; the rest is what the sender waits for on this layer. |
| `LutRun.StoredSharesXor` | src/abycore/sharing/splut.cpp:606-713 | At any time the values both parties have stored of a gate add up to its plain value, although one party is a layer ahead. |
| `LutRun.EvaluateCircuit` | src/abycore/sharing/splut.cpp:1670-1672 | After one round more than there are layers all outputs are plain, nothing is left in a stash or buffer, and both parties have used up all transfers in step. |
| `LutSizes.UpdateTruthTableSizes` | src/abycore/circuit/booleancircuits.cpp:744-830 | Gates in any order of layers: the table of sizes stays rectangular, has every size once, and its entries hold exactly the tables of every layer. |
| `LutSizes.SavedStrung` | src/abycore/circuit/booleancircuits.cpp:776-785 | What was saved for a class in build order is what the gates of the layer take in the order of their evaluation. |
| `LutSizes.CountTransfers` | src/abycore/sharing/splut.cpp:218-227 | The numbers of transfers summed over the layers of either parity are what all layers with that sender use. |
| `LutSizes.MasksPerTransfer` | src/abycore/sharing/splut.cpp:281-282 | The random bits for results are as many as the transfers times the number of outputs. |
| `LutSetup.ClassesOf` | src/abycore/sharing/splut.cpp:172-215 | The classes taken from the table of sizes are distinct, cover all tables and come with their numbers of transfers. |
| `LutSetup.ExecCircuit` | src/abycore/sharing/splut.cpp:156-401 | For every circuit of truth tables, all inputs and all randomness: setup phase, all layers, plain outputs for both parties, plain meaning what LutMeaning.GateMeans spells out gate by gate. |
| `LutMeaning.PlainMeant` | src/abycore/circuit/abycircuit.cpp:463-490 | Spelled out for every kind of gate, what its values are in terms of those of its operands; a truth table yields the row whose number its inputs spell. |
| `LutMeaning.SplittersJoin` | src/abycore/circuit/abycircuit.cpp:181-211 | The splitters made of one gate, put behind each other, are that gate again. |
| `LutMeaning.SplitTable` | src/abycore/circuit/booleancircuits.cpp:701-719 | Part o of a table with several outputs is column o of the rows that its inputs spell. |
| `LutCircuit.SenderIs` | src/abycore/sharing/splut.cpp:96-96 | The server sends on even layers, the client on odd ones. |
| `LutSizes.StartExact` | src/abycore/circuit/booleancircuits.cpp:38-44 | The table of sizes the builder starts with is rectangular and exact for the empty circuit. |
| `LutSizes.OtherGate` | src/abycore/circuit/booleancircuits.cpp:725-735 | Gates that are no truth tables leave the table of sizes exact. |
| `OpLut.PrepareSetupPhaseOPLUT` | src/abycore/sharing/boolsharing.cpp:221-361 | From an entry of the table of sizes to both parties of its class, in step and with every table at the place of its value. |
| `OpLut.TableAligned` | src/abycore/sharing/boolsharing.cpp:221-255 | The k-th table of a class, after regrouping by layers, is the one of the k-th value that is opened. |
| `OpLut.CombineTables` | src/abycore/sharing/boolsharing.cpp:236-253 | The loop over the layers of an entry yields the tables of all layers in the order of their evaluation. |
| `OpLut.LookupXor` | src/abycore/sharing/boolsharing.cpp:296-316 | What both parties obtain adds up to the table entry at the index to which their shares add up. |
| `OpLut.Prepare` | src/abycore/sharing/boolsharing.cpp:264-360 | The server holds its masks; the client gets for every place the table rotated by both rotations and masked. |
| `OpLut.OpLutParty.SelectiveOpenOPLUT` | src/abycore/sharing/boolsharing.cpp:891-927 | A gate opens its indices with the rotations that come next and is noted for the end of the layer. |
| `OpLut.OpLutParty.EvaluateOPLUTGates` | src/abycore/sharing/boolsharing.cpp:1119-1173 | All gates of the layer look up their values in the entries that come next, at the opened positions. |
| `OpLut.RunLayers` | src/abycore/sharing/boolsharing.cpp:929-966 | Over all layers, whatever shares the parties hold of the operands: results are shares of the table's row at the number that the XORs of the operand shares spell, and all prepared tables are used up in step. |

## Left out

- Sockets, threads, timers and benchmarking; of the network only the order of buffers in a round is modelled.
- AES, hash functions, OT extension and base OTs: encryption is an arbitrary function and transfers are ideal.
- Paillier and DGK triple generation, triple files, circuit files, and print, assert and callback gates.
- Byte packing of vectors: bits are `bool`, keys are sequences of bits; padding to bytes is modelled where positions depend on it.
- Send buffers are sequences that grow with what is written, not buffers of a size fixed in advance; the messages of the Yao, arithmetic and SP-LUT parties are typed values instead of bytes.
- SIMD gates other than the structurised combiner, and conversions other than Boolean to arithmetic.
- The window in which the client receives garbled tables while it evaluates: all tables are there at the start.
- Reference counts of the Yao and arithmetic parties; those of GMW are modelled in full.
- Look-up-table adders and comparators, the N-out-of-1 variant of triple generation, barrel shifters, floating-point gates.
- The multiplication and the conversion part of arithmetic sharing are two classes, with separate gate values; input, output, ADD, INV and constant gates of arithmetic circuits are not modelled.
- The vector-length parameter of `ArithMTMasking` is always one there, as in the only use of the class.
- ArithConversion.LayerConverted: weights are exact powers of two at every bit position; the code shifts a signed long, which is defined up to position 62 only.
- Input gates with source ALL.
- Hamming.PutHammingWeightGate: the number of inputs is below 2^32, the range of the type that counts them.
- Compare.PutMUXGate: the scalar branch only; selection by one vector AND is modelled for the multi-MUX.
- YaoDecoding.DecodesIff: below the stated key length only the "if" half holds in general, which `YaoForms.FormsSuffice` states for every key length; `YaoShortKeys` has a circuit for which the other half fails there.
- Multiplier.PutMulGate: AND gates are counted for the size-optimised circuit with plain ANDs only.
- LutParty.SetupLUT.EvaluateLocalOperations: XOR, inversion, constants and splitters; conversions, other SIMD gates and reference counts are not modelled in SP-LUT sharing.
- LutSetup.ExecCircuit: the circuit comes with its queues and its table of sizes as the builder leaves them; of the builder of truth-table circuits only UpdateTruthTableSizes is modelled.
- LutParty.SetupLUT.EvaluateTTGates: the length of tables is read from the gates; the code reads it from the first class of a group before it looks whether the group has one.
- OpLut.RunLayers: one class of tables at a time; the other gates of a circuit show in the operand shares of every layer, and openings are exchanged without the framing of the round.
- Bristol export (abycircuit.cpp:557-789): unique ids, references to earlier ids only, and equal outputs of the netlist.
