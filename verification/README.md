# Roth-algebra ATPG and fault simulation, modelled in Dafny

This project models the core of an ATPG (automatic test pattern
generation) and fault-simulation toolkit and proves properties of the model.
The toolkit computes over the five-valued Roth algebra {ZERO, ONE, D, D_b, X}.
D means "1 in the good circuit, 0 in the faulty one", D_b the opposite, and X
is unassigned. The core has the following parts, one Dafny module each:

- `Roth` (`roth.dfy`): the algebra. It holds the constant AND/OR/XOR/NOT
  tables and the left fold a gate applies over its ordered fan-in list.
- `Text` (`text.dfy`): character helpers shared by the readers. These are
  `vectorContains`, whitespace splitting as done by `std::istringstream`
  and `str.split()`, decimal printing, and the lexicographic string order
  of `std::set<std::string>` and `sorted`.
- `PyEngine` (`pyengine.dfy`): the Python reference engine, covering:
  - `Roth.operate` and `Roth.invert` over the integer tables;
  - `Gate` construction and `Gate.evaluate`;
  - the `Circuit` resets, `set_inputs`, `get_outputs` and two-pass
    `add_gates`;
  - the frontier-with-deferral `Circuit.evaluate`;
  - `write_state`.
- `PyFaults` (`pyfaults.dfy`): the Python `Fault` and `BridgeFault`
  objects, and `FaultClass` objects with their indented report. A class
  refers to the classes it dominates by reference, so the classes live in
  a store indexed by object id.
- `PyStreams` (`pystreams.dfy`): decoding of one line of a command file
  (`read_commands`) and of a test-set file (`read_testset`).
- `Netlist` (`netlist.dfy`): the C++ ISCAS reader. Its first pass tokenises
  each line and counts, for every wire, the gates that consume it. Its
  second pass expands stems and branches: a fan-in with several consumers
  becomes a `_BRANCHk_` wire, driven by one BUFF per consumer.
- `Implication` (`implication.dfy`): the C++ event-driven implication engine.
  It covers fault injection, recursive gate evaluation with the fault-site
  override and D-frontier maintenance, the return-code merge, input
  implication, reset, and reading back the input values.
- `Podem` (`podem.dfy`): the serial PODEM primitives (objective, backtrace,
  success test) and the branch-and-bound recursion.
- `Flatten` (`flatten.dfy`): flattening a parsed circuit into fixed-size,
  index-based `CudaGate` records. Names map to their rank in a sorted set.
- `FaultSim` (`faultsim.dfy`): the serial bit-level fault simulator. For each
  test vector it makes 2N+1 runs: run 0 is fault-free, and run k holds
  signal (k-1)/2 stuck at (k-1)%2. It fills a detection matrix.

The model follows these conventions:

- Python exceptions become `Result`/`Outcome` values. An operation that
  mutates state returns the state as it is after the call together with
  the outcome, because several of them raise after mutating part of the
  state.
- Behaviour that C++ leaves undefined becomes a `requires`. Examples are
  `vector[]` out of range and reading an uninitialised array element.
- Hash-container iteration order becomes a parameter. This covers
  `unordered_map`, `unordered_set` and Python `set.pop()`: an explicit
  sequence, a chooser function, or a nondeterministic pick.
- Termination of the recursions that the source does not guarantee is
  witnessed by a ghost rank or level map. Where the source loops forever,
  the model returns `Diverges` or `Stuck`.

Some facts about the code are easy to overlook, and the model keeps each of them:

- The AND and OR tables are not associative
  (`Roth.AndOrAreNotAssociative`). A gate's value therefore depends on the
  order of its fan-ins (`Roth.AndFoldIsOrderSensitive`); only XOR is
  order-free (`Roth.XorCombineIsOrderFree`).
- `read_testset` keeps only lines of exactly three whitespace-separated
  tokens and skips every other line (resource/cframe.py:823-826). The
  `vectors N` / `inputs ...` / `INDEX: BITSTRING` files that
  fault_sim/gen_test_vectors.py:25-42 writes have two tokens per vector
  line, so that reader skips them.
- `read_commands` recognises a command by the raw prefix of the line
  (`startswith`), so leading whitespace hides a command
  (resource/cframe.py:706-729).
- `Fault` accepts any value, not only ZERO or ONE, and `BridgeFault`
  accepts any number of sites (resource/cframe.py:544-555 and 751-769).
- A `std::unordered_map<std::string, SignalType>` entry that
  `operator[]` creates holds ZERO, the first enumerator. An undefined
  wire therefore reads as ZERO in the implication engine and in PODEM
  (`Implication.UndefinedFaninDecidesAnd`).

## Model

| member | source | states |
|---|---|---|
| Roth.OrdIsInjective | src/cframe.h:17-23 | The enum ordinals ZERO=0 .. X=4 identify the values: equal ordinals mean equal values, and `FromOrd` inverts `Ord`. |
| Roth.NotIsInvolution | src/cframe.h:97 | `opNOT` swaps ZERO/ONE and D/D_b, fixes exactly X, and applying it twice gives the input back. |
| Roth.TablesAreSymmetric | src/cframe.h:73-95 | `op[a][b] == op[b][a]` for each of AND, OR and XOR, for all 25 pairs. |
| Roth.Identities | src/cframe.h:73-95 | ONE is a two-sided identity of AND; ZERO is one of OR and of XOR. |
| Roth.AbsorbingElements | src/cframe.h:73-95 | ZERO absorbs AND and ONE absorbs OR, even against X, D and D_b; X absorbs XOR on both sides. |
| Roth.UnknownOnlyFromUnknown | src/cframe.h:73-95 | A table yields X only when one of its operands is X. |
| Roth.XorIsAssociative | src/cframe.h:89-95 | XOR is associative over all 125 triples. |
| Roth.AndOrAreNotAssociative | src/cframe.h:73-87 | AND(AND(D,D_b),X)=ZERO but AND(D,AND(D_b,X))=X, and the same for OR with ONE: AND and OR are not associative. |
| Roth.AndFoldIsOrderSensitive | src/cframe.h:73-87 | The gate fold over [D,D_b,X] and over its rotation [X,D,D_b] differ for AND and for OR, so fan-in order matters. |
| Roth.BinaryRestrictionIsBoolean | src/cframe.h:73-97 | On {ZERO, ONE} the four tables are Boolean and, or, xor and not. |
| Roth.FoldAppend | resource/cframe.py:100-101 | Folding a concatenation folds the first part, then continues with the second. |
| Roth.XorFoldFactors | resource/cframe.py:100-101 | An XOR fold from any seed is the seed XOR the fold of the list from the identity. |
| Roth.XorAllIsOrderFree | src/cframe.h:89-95 | Any two permutations (equal multisets) of a fan-in list have the same XOR. |
| Roth.XorCombineIsOrderFree | src/cframe.h:89-95 | An XOR or XNOR gate's value does not depend on the order of its fan-ins. |
| Text.Contains | src/cframe.h:99-102 | `vectorContains(v, x)` is true iff x occurs in v. |
| Text.Split | fault_sim/cframe.cpp:40-46 | Every token of a whitespace split is non-empty and contains no separator. |
| Text.SplitKeepsContent | fault_sim/cframe.cpp:40-46 | Gluing the tokens back together gives the input minus exactly its separators. |
| Text.SplitJoin | fault_sim/cframe.cpp:40-46 | Splitting tokens joined by separators gives back the token list. |
| Text.NatToStringRoundTrip | fault_sim/cframe.cpp:150 | The decimal string of n (`std::to_string`) reads back as n. |
| Text.NatToStringIsInjective | fault_sim/cframe.cpp:150 | Different numbers print differently. |
| Text.StrLessTransitive | fault_sim/fframe.cpp:101-107 | The name order of a `std::set<std::string>` is transitive. |
| Text.StrLessTotal | fault_sim/fframe.cpp:101-107 | Any two distinct names are ordered one way or the other. |
| Text.StrLessIrreflexive | fault_sim/fframe.cpp:101-107 | No name is ordered before itself. |
| PyEngine.PyTableAgrees | resource/cframe.py:78-92 | Every entry of the Python integer tables is the ordinal of the C++ table entry. |
| PyEngine.InvertAgrees | resource/cframe.py:51-57 | The Python `invert` dictionary is the C++ `opNOT`. |
| PyEngine.PyFoldAgrees | resource/cframe.py:100-101 | `functools.reduce` over the integer tables computes the ordinal of the Roth left fold. |
| PyEngine.Operate | resource/cframe.py:60-106 | `operate` raises KeyError for an optype other than AND/OR/XOR and fails on an empty input. Otherwise it returns the left fold of that table over the inputs in the order given. |
| PyEngine.ParseGateTypeIsInverse | resource/cframe.py:142-152 | A type string is accepted iff it is the name of one of the eleven gate types. |
| PyEngine.NewGate | resource/cframe.py:154-182 | Construction raises KeyError for a type outside `Gate.types`. Otherwise the gate keeps its name, type, fan-in and fan-out, with value X and both flags false. |
| PyEngine.FaninValues | resource/cframe.py:209 | The fan-in values are read in order, and the first fan-in missing from the map raises KeyError. |
| PyEngine.GateOutput | resource/cframe.py:206-230 | The gate rules: AND/OR/XOR fold, NAND/NOR/XNOR invert the fold, BUFF copies fan-in 0, NOT inverts it, DFF/UNDEFINED give X, and INPUT keeps its value. An empty fan-in raises. |
| PyEngine.EvaluateGate | resource/cframe.py:189-236 | `evaluate` stores the computed value in the gate and leaves every other field alone. |
| PyEngine.GateOutputDependsOnFanin | resource/cframe.py:209-230 | A gate's computed value depends only on the values of its fan-ins. |
| PyEngine.ResetFlags | resource/cframe.py:270-273 | Every flag is cleared and nothing else changes. |
| PyEngine.ResetValues | resource/cframe.py:275-278 | Every value becomes X and nothing else changes. |
| PyEngine.ResetsCommuteAndAreIdempotent | resource/cframe.py:270-278 | Each reset is idempotent, and the two resets commute. |
| PyEngine.SetInputs | resource/cframe.py:280-297 | Needs only the input names to be keys. A length mismatch raises IndexError before anything changes. Otherwise input i gets value i (the last occurrence wins for a repeated name), and no other gate and no other field changes. |
| PyEngine.GetOutputs | resource/cframe.py:301-307 | Needs only the output names to be keys. The output values are returned in declared order. |
| PyEngine.AddGatesKeepsPorts | resource/cframe.py:309-339 | Even after a dangling fan-in, every primary input and output of the circuit `add_gates` leaves behind is a key, so `set_inputs` and `get_outputs` still apply to it. |
| PyEngine.InsertGates | resource/cframe.py:323-328 | The first pass appends INPUT gates and output-flagged gates to `inputs`/`outputs` in list order. It adds every gate under its name (the last one of a name wins) and keeps the gates it does not rename. |
| PyEngine.LinkFanin | resource/cframe.py:334-339 | Linking one gate's fan-in appends the gate's name to the fan-out of each fan-in in turn. It stops with a KeyError naming both signals at the first missing fan-in, keeping the appends already made. |
| PyEngine.LinkGates | resource/cframe.py:333-339 | The second pass links the gates in order and stops at the first dangling fan-in. |
| PyEngine.AddGates | resource/cframe.py:309-339 | `add_gates` succeeds iff every fan-in names a known or added gate. On success each fan-in edge f→g has g in f's fan-out. On failure the error names a dangling fan-in and its gate, and the gates are already in the map: the call is not atomic. Either way, an old gate no new gate replaces, and the last new gate of each name, keep every field except the fan-out list. That list only grows, by names of the new gates. |
| PyEngine.AddGatesKeepsWellFormed | resource/cframe.py:309-339 | A successful `add_gates` on a well-formed circuit leaves every name the circuit mentions resolvable. |
| PyEngine.Evaluate | resource/cframe.py:391-446 | On a well-formed circuit, `evaluate` changes only values and flags, and only the gates it evaluates change value: the primary inputs keep the values `set_inputs` gave them. It evaluates each gate at most once, never a primary input, and only after all its fan-ins are flagged. Unless a gate itself raised, each evaluated gate ends up holding its rule's value over its fan-ins' final values. Pass means every output is flagged. A leftover deferred gate raises "Feedback loop" (witnessed by an unflagged gate with an unflagged fan-in). An unflagged output raises "No path to primary output". |
| PyEngine.Expand | resource/cframe.py:404-437 | The frontier loop terminates with its invariant, with an empty frontier unless a gate evaluation raised. |
| PyEngine.Verdict | resource/cframe.py:439-446 | After the loop: a non-empty deferred set means a feedback loop; otherwise an unflagged output means no path; otherwise success. |
| PyEngine.ClosedAtEnd | resource/cframe.py:430-437 | When nothing is pending or deferred, the flagged gates are closed under fan-out. |
| PyEngine.StuckAtEnd | resource/cframe.py:419-423 | A gate still deferred at the end is unflagged and has an unflagged fan-in. |
| PyEngine.EvaluateStep | resource/cframe.py:425-437 | Evaluating a ready gate keeps the loop invariant and strictly shrinks the set of unflagged gates. |
| PyEngine.DelayStep | resource/cframe.py:419-423 | Deferring a gate with an unflagged fan-in keeps the loop invariant. |
| PyEngine.SkipStep | resource/cframe.py:414-417 | Dropping an already flagged gate keeps the loop invariant. |
| PyEngine.WriteState | resource/cframe.py:473-486 | `write_state` writes the header, then one line per gate in strictly increasing name order covering every gate, then `$`. Each line shows a digit for ZERO/ONE and the member name otherwise. |
| PyEngine.ValueTextIsInjective | resource/cframe.py:482-485 | The state line text determines the value. |
| PyFaults.FaultStringRoundTrip | resource/cframe.py:557-567 | `str(fault)` determines the fault: parsing the string back gives the stem, the branch and the value (when the stem contains no `->`). |
| PyFaults.FaultStringShowsBranch | resource/cframe.py:557-575 | `is_branch` holds iff the display string has the `stem->branch` form, whatever the branch name contains (for a stem without `->`). |
| PyFaults.NewFaultClass | resource/cframe.py:589-597 | A new object, with a fresh id, has the fault as its only equivalent and no dominated classes. Every existing class is unchanged. |
| PyFaults.AddEquivalent | resource/cframe.py:599-612 | A Fault is appended to this class's equivalents, and the representative stays first. Any other argument raises TypeError and changes nothing. No other class changes. |
| PyFaults.AddDominated | resource/cframe.py:614-627 | A FaultClass is appended to the dominated list as a reference (its id), not a copy. Any other argument raises TypeError and changes nothing. No other class changes. |
| PyFaults.RepresentativeIsStable | resource/cframe.py:599-612 | Any series of `add_equivalent` calls keeps `equivalent[0]`. |
| PyFaults.Write | resource/cframe.py:629-663 | The report opens with `H>` at level 0 or `level-D>` deeper, and every following line is indented past the header's padding. |
| PyFaults.EquivalentLines | resource/cframe.py:654-657 | Each non-representative equivalent gets one `E>` line, in order. |
| PyFaults.WriteDominated | resource/cframe.py:660-663 | Each dominated class is written one level deeper, so all its lines keep the current padding. |
| PyFaults.DominatedBlockIn | resource/cframe.py:660-663 | A class's report contains every line of the report of each class it dominates. |
| PyFaults.LaterEquivalentShows | resource/cframe.py:599-663 | A fault added to a class after another class took it as dominated appears, as an `E>` line one level deeper, in that other class's report: dominated classes are shared. |
| PyFaults.NewBridge | resource/cframe.py:751-769 | Only "AND" and "OR" are accepted (KeyError otherwise); the sites are kept and the flag starts false. |
| PyStreams.FieldsCount | resource/cframe.py:712 | Splitting at `(`, `,` and `)` gives one more field than there are separators. |
| PyStreams.RothOf | resource/cframe.py:33-37 | `Roth(n)` succeeds exactly for 0..4 and gives the member with that value. |
| PyStreams.DecodeCommandLine | resource/cframe.py:706-729 | A comment line yields nothing, and a line that yields something is not a comment. |
| PyStreams.AtMostOneCommand | resource/cframe.py:710-729 | A line yields at most one command, and a line starting with no keyword yields none. |
| PyStreams.CommandRoundTrip | resource/cframe.py:710-729 | Decoding the written form of any command, followed by any tail, gives back exactly that command. |
| PyStreams.DecodeSiteLine | resource/cframe.py:711-713 | A `fault_site` line yields `(Fault, parts[1], Roth(int(parts[2])))` or the error of decoding its arguments. |
| PyStreams.DecodeImplyLine | resource/cframe.py:715-717 | An `imply` line yields `(Imply, parts[1], Roth(int(parts[2])))` or the error of decoding its arguments. |
| PyStreams.SingleCharInt | resource/cframe.py:829-830 | `int(c)` of one character succeeds exactly on a digit. |
| PyStreams.DecodeTestChar | resource/cframe.py:826-830 | `x`/`X` is X, a digit below 5 is the member with that value, and anything else raises. |
| PyStreams.DecodeVector | resource/cframe.py:825-830 | The input column decodes character by character and succeeds iff every character does. |
| PyStreams.DecodeTestLine | resource/cframe.py:818-833 | A line that does not split into exactly three tokens is skipped. Otherwise the vector has one value per character of the second token. |
| PyStreams.TestLineRoundTrip | resource/cframe.py:818-836 | A written test line decodes to its vector, whatever the output column holds. |
| PyStreams.BadTestCharRaises | resource/cframe.py:826-830 | A character outside the alphabet raises instead of being skipped. |
| Netlist.Blank | fault_sim/cframe.cpp:15-30 | `(`, `)`, `,` and `=` become spaces and every other character is kept. |
| Netlist.TokenizeSplitsOnSeparators | fault_sim/cframe.cpp:35-49 | `tokenize_line` is a split on whitespace and the four punctuation characters, so no token contains either. |
| Netlist.WireNames | fault_sim/cframe.cpp:53-64 | The wire names of a line are among its tokens after the first. |
| Netlist.CountLine | fault_sim/cframe.cpp:74-97 | A skipped line changes nothing. An INPUT/OUTPUT line appends its wire to the inputs/outputs. A gate line appends the gate's output name to the consumer list of each fan-in, once per occurrence. |
| Netlist.WireCountCounts | fault_sim/cframe.cpp:68-101 | Over the whole file, a wire's consumer list has exactly one entry per use of it as a fan-in, and each entry is a gate reading it. |
| Netlist.PortsFromPortLines | fault_sim/cframe.cpp:86-89 | Every primary input or output listed was declared by an INPUT or OUTPUT line. |
| Netlist.BranchNameInjective | fault_sim/cframe.cpp:150-153 | Different branch numbers give different `w_BRANCHk_g` names. |
| Netlist.FirstFree | fault_sim/cframe.cpp:149-154 | The numbering loop stops at a name not yet taken, after every smaller number was taken. |
| Netlist.FreshBranchIsLeast | fault_sim/cframe.cpp:149-155 | The branch name chosen is new and has the smallest free number. |
| Netlist.BranchNameIsNotStem | fault_sim/cframe.cpp:150 | A branch name never equals its stem. |
| Netlist.BranchInputs | fault_sim/cframe.cpp:146-159 | Each fan-in with more than one consumer is replaced by a fresh branch name, and every other fan-in is kept. |
| Netlist.BranchInputsFresh | fault_sim/cframe.cpp:146-159 | A branch fan-in never repeats a fan-in placed before it. |
| Netlist.StemNamesDistinct | fault_sim/cframe.cpp:163-171 | The branch names of a stem are pairwise distinct, and none is the stem. |
| Netlist.AddBuffers | fault_sim/cframe.cpp:163-176 | Each branch name is recorded as a signal with state X and given a gate. Nothing else changes. |
| Netlist.AddBuffersGates | fault_sim/cframe.cpp:172-173 | With distinct names, each branch gets a BUFF whose only fan-in is the stem and whose only fan-out is its consumer. |
| Netlist.PopulateLineBuilds | fault_sim/cframe.cpp:123-185 | A gate line builds its gate with the branch fan-ins, and an INPUT line builds an INPUT gate. A single-consumer output fans out to its consumers directly. |
| Netlist.PopulateLineBranchesStem | fault_sim/cframe.cpp:163-176 | A stem with several consumers fans out to one BUFF per consumer, with distinct fresh names. |
| Netlist.PopulateLineKeepsBuilt | fault_sim/cframe.cpp:115-188 | Every signal a line creates is X, is recorded, and has a gate. |
| Netlist.Parse | fault_sim/cframe.cpp:195-223 | After both passes every signal is X and recorded, gates and states have the same names, the ports are those of the first pass, and there is no fault and an empty D-frontier. |
| Implication.MergeIsJoin | fault_sim/cframe.cpp:381-397 | The return-code merge is the least upper bound in an information order in which ERROR is the top. |
| Implication.MergeLaws | fault_sim/cframe.cpp:381-397 | The merge is commutative, associative and idempotent, so the code does not depend on fan-out order. |
| Implication.MergeProperties | fault_sim/cframe.cpp:502-518 | ERROR absorbs and NORMAL is neutral on both sides. MASKED against ACTIVATED/DETECTED is ERROR either way, and DETECTED is never downgraded. |
| Implication.SetCircuitFault | fault_sim/cframe.cpp:314-332 | The fault is accepted, and stored, iff its value is D or D_b and the location is a known signal. Otherwise nothing changes. |
| Implication.EvalOne | fault_sim/cframe.cpp:412-458 | The value a gate computes: folded types fold (and invert), NOT inverts fan-in 0, and BUFF or an unmatched type copies it. The D-input flag is set iff some read fan-in is D/D_b. A fan-in with no state entry reads ZERO. |
| Implication.UndefinedFaninDecidesAnd | fault_sim/cframe.cpp:411-464 | An AND gate with a fan-in that has no state entry computes ZERO (NAND: ONE), whatever the other fan-ins carry, and so never joins the D-frontier. |
| Implication.Override | fault_sim/cframe.cpp:469-490 | X or a non-site signal is stored as is. At a D site ZERO is kept with MASKED and anything else becomes D with ACTIVATED; a D_b site is the mirror image. |
| Implication.Settle | fault_sim/cframe.cpp:410-494 | Evaluating one gate changes only that gate. It is in the D-frontier iff its value is X with a D/D_b fan-in. A primary output with a D/D_b value returns DETECTED, and an unmatched type returns ERROR. |
| Implication.EvalGate | fault_sim/cframe.cpp:408-525 | `evaluateGateRecursive` changes only the gate and signals below it. Its code is at least the local code. When the value did not change it is exactly the local step, and it never touches a primary input. |
| Implication.DetectedAtOutput | fault_sim/cframe.cpp:492-494 | A primary output whose computed value is D/D_b makes the call return DETECTED (or ERROR from a merge). |
| Implication.EvalFanouts | fault_sim/cframe.cpp:497-520 | Re-evaluating the fan-outs only changes signals below the parent and never lowers the code. |
| Implication.AssignInput | fault_sim/cframe.cpp:350-374 | X or a non-site input is stored as is with NORMAL. At a D site 0 gives ZERO/MASKED and 1 gives D; at a D_b site 1 gives ONE/MASKED and 0 gives D_b. D/D_b at a primary output gives DETECTED, and ACTIVATED otherwise. |
| Implication.SetAndImply | fault_sim/cframe.cpp:336-404 | A value outside {0,1,X} or a name that is not a primary input returns ERROR with nothing changed. Otherwise the input is assigned and implied, and the other primary inputs keep their values. |
| Implication.SetAndImplyAtSite | fault_sim/cframe.cpp:352-374 | After the implication a primary input holds the value given when that value is X or the input is not the fault site. At the fault site a masking value is stored as given and reports MASKED (or ERROR); an activating value stores the fault effect D/D_b and reports ACTIVATED, DETECTED or ERROR. |
| Implication.ResetCircuit | fault_sim/cframe.cpp:529-533 | After `resetCircuit` every primary input is X. |
| Implication.InputValues | fault_sim/cframe.cpp:537-549 | The keys are exactly the primary inputs. D maps to ONE and D_b to ZERO, and the other values are kept. |
| Podem.ErrorAtPO | src/podem.cpp:6-13 | True iff some primary output is D or D_b. |
| Podem.NonControlling | src/podem.cpp:17-29 | ONE exactly for AND/NAND (either case), ZERO for everything else. |
| Podem.NonControllingIsNeutral | src/podem.cpp:17-29 | For a recognised folded gate type, the value is neutral: it leaves the other operand unchanged. |
| Podem.FirstX | src/podem.cpp:73-77 | The first X-valued name of a fan-in list, or none iff no fan-in is X. A name without a state entry reads ZERO and is never chosen. |
| Podem.Objective | src/podem.cpp:65-80 | While the fault site is X: the site with ONE for a D fault, ZERO otherwise. Else: the first X fan-in of the chosen D-frontier gate with that gate's non-controlling value. |
| Podem.Candidates | src/podem.cpp:46-52 | Every propagation objective is an X fan-in of its gate, paired with the gate's value. |
| Podem.AllObjectivesAreFanins | src/podem.cpp:42-54 | Every listed objective is an X-valued fan-in of a D-frontier gate, with that gate's non-controlling value. |
| Podem.MultipleObjectives | src/podem.cpp:33-61 | While the fault site is X: exactly the activation objective. Otherwise: the propagation objectives of the D-frontier in iteration order, cut at the cap. |
| Podem.ObjectiveIsFirstOfMany | src/podem.cpp:65-80 | The single objective is the first of the multiple objectives for the same D-frontier order. |
| Podem.Backtrace | src/podem.cpp:84-110 | A backtrace that ends does so at a primary input, which is X unless it is the starting signal. |
| Podem.BacktraceFollowsWalk | src/podem.cpp:84-110 | The backtrace follows the walk through first X fan-ins. It ends at the walk's end, with the value flipped once per NAND/NOR/XNOR/NOT passed, or diverges where the walk meets a gate with no X fan-in. |
| Podem.BacktraceParity | src/podem.cpp:90-106 | On a Boolean objective the decision is the objective inverted iff an odd number of bubble gates was passed. |
| Podem.Search | src/podem.cpp:235-274 | A non-empty answer means a fault effect at a primary output and holds the input values. Success at entry returns at once. An empty D-frontier with a non-X site gives the empty answer. A failed search leaves every primary input as it was. |
| Podem.Decide | src/podem.cpp:256-269 | A decision and the search under it (then its complement) keep the same guarantees. A failure is reported only for a decision on a primary input that was X, and that input is X again afterwards. |
| Podem.Retry | src/podem.cpp:263-273 | The complement decision, and the reset of the decision input to X on failure, restore every primary input; on failure the decision input reads X. |
| Flatten.SignalsSet | fault_sim/fframe.cpp:101-107 | The set holds exactly the names the circuit has a state for. |
| Flatten.MappingRange | fault_sim/fframe.cpp:111-113 | A member maps into [0, size) and a non-member maps to size. |
| Flatten.MappingMonotone | fault_sim/fframe.cpp:111-113 | The index follows the name order. |
| Flatten.MappingInjective | fault_sim/fframe.cpp:111-113 | Distinct members get distinct indices. |
| Flatten.TypeOf | fault_sim/fframe.cpp:28-48 | Each type name, upper or lower case, maps to its record type. DFF and unknown names map to none. |
| Flatten.Fill | fault_sim/fframe.cpp:28-74 | A record gets the type when it is recognised (otherwise the old one is kept), the two sizes, and the index of each fan-in and fan-out. The slots past the sizes are untouched. |
| Flatten.Cutoff | fault_sim/fframe.cpp:14-23 | The gates written are exactly those before the first one whose fan-in or fan-out exceeds 15. |
| Flatten.CreateStructureWrites | fault_sim/fframe.cpp:6-80 | Every gate visited before the early return has its record, at its own index, filled from it. |
| Flatten.CreateStructureKeeps | fault_sim/fframe.cpp:6-80 | A record that no written gate maps to is left as it was. |
| Flatten.CreateOutputs | fault_sim/fframe.cpp:84-97 | Slot i of the output array holds the index of output i, and the rest is untouched. |
| Flatten.OutputsDistinct | fault_sim/fframe.cpp:88-89 | Distinct primary outputs get distinct, in-range indices. |
| FaultSim.LNot | fault_sim/fault_simulation_serial.cpp:51 | C's `!`: 1 exactly for 0, and always 0 or 1. |
| FaultSim.NotAsWrittenDiffers | fault_sim/fault_simulation_serial.cpp:50-52 | A NOT gate whose fan-in is signal 1 holding 0 yields 0 as written, where an inverter yields 1. |
| FaultSim.BitFoldAgreesWithRoth | fault_sim/fault_simulation_serial.cpp:40-75 | On 0/1 states the bitwise fold equals the Roth fold of the fan-in values, and stays 0/1. |
| FaultSim.IntendedAgreesWithRoth | fault_sim/fault_simulation_serial.cpp:36-85 | With NOT reading its fan-in's state, every record type computes the Roth gate function restricted to 0/1. |
| FaultSim.EvalGate | fault_sim/fault_simulation_serial.cpp:36-85 | The switch computes the gate value. NOT applies `!` to the fan-in index as written, or to its state under the corrected rule. BUFF, INPUT and an unset type copy fan-in 0. |
| FaultSim.RunKeeps | fault_sim/fault_simulation_serial.cpp:18-96 | A signal visited once keeps the value it was given for the rest of the run. |
| FaultSim.RunIgnoresStart | fault_sim/fault_simulation_serial.cpp:15-96 | What a run writes does not depend on the uninitialised state it starts from. |
| FaultSim.RunStaysBinary | fault_sim/fault_simulation_serial.cpp:18-96 | With 0/1 vector bytes every state a run writes is 0 or 1. |
| FaultSim.RunSolvesGates | fault_sim/fault_simulation_serial.cpp:18-96 | After a run the forced signal holds its stuck value ((k-1)%2), and every other gate position holds its gate's value over the final state. |
| FaultSim.CorrectedRunIsRoth | fault_sim/fault_simulation_serial.cpp:32-96 | With the corrected NOT and 0/1 vectors, every unforced gate ends up holding the Roth value of its gate over its fan-ins. |
| FaultSim.DetectionLayout | fault_sim/fault_simulation_serial.cpp:108 | Index v*2N+k-1 lies in the matrix, and dividing and reducing it by 2N gives back v and k-1. |
| FaultSim.CompareOutputs | fault_sim/fault_simulation_serial.cpp:107-118 | The detection bit is 1 iff some primary output differs from the fault-free run. |
| FaultSim.CorrectOutputs | fault_sim/fault_simulation_serial.cpp:98-105 | The outputs of run 0 are recorded in output order. |
| FaultSim.SimulateRun | fault_sim/fault_simulation_serial.cpp:15-96 | One run: the inputs take the vector bytes, the gates are evaluated in traversal order, and the forced signal is overridden wherever it is visited. |
| FaultSim.OutputsIgnoreStart | fault_sim/fault_simulation_serial.cpp:11-15 | The outputs of a run are those of the run from an all-zero start. |
| FaultSim.DetectRow | fault_sim/fault_simulation_serial.cpp:13-119 | The 2N faulty runs of vector v fill row v of the matrix with the detection bits and leave every other entry unchanged. |
| FaultSim.FaultSimSerial | fault_sim/fault_simulation_serial.cpp:8-121 | Every entry v*2N+k-1 of the matrix is 1 iff the stuck-at fault of run k is detected by vector v, and every entry past the matrix is unchanged. |

## Left out

- The OpenMP-parallel PODEM variants and their shared task counters (src/podem.cpp:114-233 and from 278): their point is concurrency.
- File and stream plumbing: opening files, the line loops of `read_iscas`, `read_commands`, `read_bridges` and `read_testset`, the C++ file constructor's stream handling, copy/assign and destructor. Each reader is modelled on one line or on a list of lines.
- `Circuit.read_iscas`, `Circuit._tokenize` and `BridgeFault.read_bridges`: they depend on Python `re` token semantics and on file handling. The C++ reader is modelled instead.
- Printing and logging: `print_summary`, `print_state`, `printCircuitState`, `logging.debug`, the `#ifdef DEBUG` blocks, and the error messages the C++ code prints.
- `serialFaultSim`: it only forwards its arguments to `faultSim_serial`.
- FaultSim.FaultSimSerial: the `aCircuitInputs` argument is unused by the source and is not part of the model.
- FaultSim.FaultSimSerial: the source computes the matrix index `v*2N+k-1` in `int` without an overflow check. `SimReady` bounds the signals and outputs by 10240 but leaves the number of vectors unbounded, and the model uses unbounded integers, so the wrap-around of a matrix larger than `int` can index is not modelled.
- FaultSim.FaultSimSerial: a traversal order that repeats a signal is allowed by the model, but the lemmas that rely on each signal being visited once take `DistinctOrder` as a premise.
- FaultSim.SimReady: reading a state not yet written in the current run reads uninitialised memory. The model requires every fan-in to precede its gate in the traversal order, and `RunIgnoresStart` shows the start state is irrelevant under that condition.
- Flatten.Fill: a record whose type string is unmatched (DFF, UNDEFINED) keeps an indeterminate type in the source. The model keeps the previous value, `None` for a fresh record.
- PyFaults.Write: a dominance cycle makes the Python `write` recurse until Python raises RecursionError. The model requires a ghost rank that decreases from a class to each class it dominates.
- PyEngine.GetOutputs: `get_outputs` returns a lazy generator, which reads the output values only when iterated. The model returns the values at the time of the call.
- Podem.Search: the source recurses forever when a backtrace loops or the search never settles. The model returns `Stuck` there. Termination is witnessed by ghost rank and level maps that the source does not have.
- Podem.Objective and Podem.MultipleObjectives: the D-frontier's hash iteration order is a parameter (`first`, `order`), and `Search` takes a chooser.
- Podem.MultipleObjectives: `MAX_PARALLEL_OBJECTIVES` is a parameter, and its conversion to `size_t` is modelled for a 64-bit `size_t`.
- Implication.EvalGate: termination relies on an acyclic netlist, which the source does not check. The model requires a ghost rank map that strictly decreases from a gate to each of its fan-outs.
- Implication.StateOf: `theCircuitState[n]` and `theCircuit[n]` insert a value-initialised entry for a missing name. The model reads that entry's value (ZERO, or an empty gate) without recording the insertion. The code only writes gate outputs and primary inputs, which have entries already, so the inserted entry keeps reading the same value.
- Netlist.Parse: every non-skipped line must have at least two tokens. The source indexes `tokens[1]` without checking, which is undefined behaviour for shorter lines.
- Netlist.CountLine: the source routes lines by the raw prefix `INPUT`/`OUTPUT` but reads names from `tokens[0]`. The model keeps this mismatch literally rather than normalising it.
- PyEngine.Evaluate: the final values are not proved independent of the frontier's pop order. Each evaluated gate is proved to hold its rule's value over its fan-ins' final values.
- PyEngine.Evaluate: requires a well-formed circuit, in which every port, fan-in and fan-out name is a key. On a dangling name (the state a failed `add_gates` leaves) Python raises KeyError part-way through, after the flags are reset and some gates may already be evaluated (resource/cframe.py:407-409, 420, 432 and 445). That partial mutation is not modelled. Nor is the short-circuit of the lazy `False in (...)` test, which reaches a missing fan-in only when every fan-in listed before it is flagged.
- PyEngine.Expand: requires the same well-formed circuit as PyEngine.Evaluate, for the same reason.
- PyStreams.PyInt: Python `int()` is modelled for ASCII decimal digits with surrounding whitespace and an optional sign. Underscores and non-ASCII digits are not modelled.
- Text.CIsSpace: `std::isspace` is modelled for the "C" locale only. Under another locale it may classify more characters as space.
- FaultSim.CompareOutputs: `myCorrectOutputs` is declared once per test vector and is only read after run 0 has filled it. The model passes the run-0 outputs explicitly.

## Findings

| source | as written | input that shows it | evidently intended | confidence | as-written member | corrected member |
|---|---|---|---|---|---|---|
| fault_sim/fault_simulation_serial.cpp:50-52 | A NOT gate computes `!myCurrGate.fanin[0]`, the logical negation of its fan-in's signal index. | A NOT record whose fan-in is signal 1, with signal 1 holding 0: the code stores 0, where an inverter gives 1. Any NOT fed by a non-zero index always yields 0. | `!myLocalCircuitState[myCurrGate.fanin[0]]`: invert the fan-in's state. | not executed | FaultSim.NotAsWrittenDiffers | FaultSim.IntendedAgreesWithRoth |

The simulator is parameterised by the NOT rule (`Sim.notRule`). `NotOfIndex` is the code as written and `NotOfState` the corrected evaluation. `FaultSim.CorrectedRunIsRoth` proves that under `NotOfState` a run computes the Roth gate function of every gate.
