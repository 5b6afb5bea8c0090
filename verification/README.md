# qiskit-parser in Dafny

This project models the core of `qiskit-parser`, a Rust crate that reads the printed
form of a Qiskit circuit's data and stores its operations in a bump-allocated memory
pool. The printed form looks like
`[CircuitInstruction(operation=Instruction(name='x', …), qubits=(…), clbits=())]`.

The model covers these parts:

- **The memory pool** (`src/util/pool.rs`), in `pool.dfy`.
  - `MMapArena<T>` is an append-only slot allocator over one fixed region. It is a class
    whose `count` field `Alloc` bumps. Its region is an `array` of slots that are
    uninitialised until written.
  - `Pool<Value, Metadata>` pairs a content arena with a metadata arena, index for index.
    It offers `add`, `set_metadata`/`get_metadata` and `duplicate`.
  - `HandleArray` and its iterator give a view over slots `0..count`.
  - Raw pointers become slot indices: a handle is `At(i)` or `Null`.
- **Two character tokenizers**, in `tokenizer.dfy`. They are one class with a `Dialect`:
  - `Current` models `src/quantum_circuit/tokenizer.rs`.
  - `Legacy` models the module inside `src/quantumcircuit.rs`, whose identifiers take no `_`.
  - Each `Tokenize` method is proved equal to a recursive specification, `TokensFrom`.
- **Three token parsers.** They share a token cursor in `cursor.dfy`, which holds
  `next_token`, `expect_*`, `parse_key_value`, `parse_params` and `parse_bits`.
  - `circuit_parser.dfy` models `src/quantum_circuit/parser.rs`: an operations list, a
    matrix map, and qubit/clbit lists free of duplicates.
  - `pool_parser.dfy` models `src/quantumcircuit/parser.rs`: gates added to a pool, a
    name-to-handle map, and `zip`-paired bit recording.
  - `legacy_circuit.dfy` models the parser and `QuantumCircuit` of `src/quantumcircuit.rs`.
  - Each parser is a class whose methods move the cursor and update the lists in place.
    Each method is proved against a function of the token sequence and the parser state.
- **`QuantumCircuit`** of `src/quantum_circuit.rs`, in `quantum_circuit.dfy`. It covers
  `new` with custom-gate seeding, and the de-duplicating `add_qubit`/`add_clbit`. The
  crate's two tests are proved on their token sequences.
- **The string-based parser** of `src/parser.rs`, in `string_parser.dfy`. It works with
  `find`/`split`/`trim` and `unwrap`. The `str` operations it relies on are in `strings.dfy`.
- **Value types.**
  - `Bit` and `Register` projections (`bits.dfy`, `registers.dfy`).
  - The `GateBuilder` (`operations.dfy`).
  - The record of a parsed instruction (`instructions.dfy`).
  - The list de-duplication shared by the parsers (`dedup.dfy`).
  - The number text the tokenizers and parsers accept (`text.dfy`).

### Panics and widths

A Rust `panic!`, a failed `unwrap`/`expect` and an out-of-range index become a
`Panic(msg)` value of `Outcomes.Outcome`. Methods propagate it with `:-`, as the source's
panic unwinds. `usize` is 64 bits wide, so a `parse::<usize>()` of a larger value panics.
Number tokens keep their lexeme as text. Which lexemes `parse::<f64>()` accepts is modelled
exactly for the digit-and-dot runs the tokenizers produce. `n.to_string()` and `as usize` are
modelled on the lexeme's exact digits, and `as usize` saturates at `usize::MAX`. This agrees
with Rust for lexemes that `f64` holds exactly, such as integers below 2^53 and short
fractions like `0.5`. Rust first rounds longer lexemes to the nearest `f64`, and the model
does not (see "Left out").

### How the code differs from a plain reading

The model follows the code as written, including these behaviours:

- `parse_params` in both newer parsers consumes the first non-number token and then demands
  one more `]`. So `params=[]` parses and `params=[0.5]` panics (`TokenCursor.OneParameterPanics`).
- `parse_bits` in both newer parsers breaks after the first bit, so a group yields at most one bit.
  A `Clbit` entry must still name a `QuantumRegister`.
- `src/quantumcircuit/parser.rs` records bits in `zip` pairs. An instruction with no clbits
  records no qubit.
- The `src/quantumcircuit.rs` front end never yields an instruction, for three reasons:
  - Its tokenizer splits `num_qubits` in two.
  - Its `parse_key_value` skips no comma.
  - Its `parse_bit` panics on every input.
- The pool parts differ from the pool's prose description in three ways.
  - The two arenas of a `Pool` have the same byte size, `ARENA_SIZE_BYTES`, not the same
    slot count. `add` therefore panics when either arena is full.
  - `Pool::new` takes no capacity.
  - `HandleArray` is `Copy`, so a view is restarted by iterating another copy.

## Model

| member | source | states |
|---|---|---|
| Pool.SlotsFit | src/util/pool.rs:159-161 | `c` slots of `e` bytes fit in `len` bytes iff `c <= len / e`, so the region holds exactly `len / size` slots |
| Pool.MMapArena.constructor | src/util/pool.rs:133-143 | a new arena has no slot handed out; a zero-sized `T` maps nothing and has no slots |
| Pool.MMapArena.Alloc | src/util/pool.rs:154-166 | for a sized `T`: hands out slot `count`, bumps `count` by one and leaves earlier slots untouched; panics "Arena memory exhausted" iff `(count+1)*size > len`, changing nothing; for a zero-sized `T` it returns `Null` and never fails |
| Pool.AllocSucceedsIffRoom | src/util/pool.rs:159-161 | one more allocation succeeds iff fewer than `len / size` slots are taken |
| Pool.ThreeSlotArena | src/util/pool.rs:154-166 | a 24-byte arena of 8-byte values hands out slots 0, 1 and 2, and the fourth `alloc` panics |
| Pool.MMapArena.IndexOf | src/util/pool.rs:168-170 | recovers the slot index of a handle a sized arena produced, which addresses that same handle; for a zero-sized `T` the model panics, where the source has undefined behaviour (see "Left out") |
| Pool.MMapArena.AtIndex | src/util/pool.rs:172-178 | the valid handle of slot `index`; it is a handle the arena produced iff `index` is below the count |
| Pool.IndexRoundTrip | src/util/pool.rs:168-178 | `index_of(at_index(i)) == i` for every allocated slot `i` |
| Pool.ProducedIsInvalid | src/util/pool.rs:26-28 | `is_invalid` holds for a handle an arena produced iff the arena's `T` is zero-sized, whose `alloc` returns null |
| Pool.AddToView | src/util/pool.rs:201-209 | `add` on a pool value succeeds iff both arenas have room; it counts one more add, appends the value (for a sized value) and returns the next slot, or `Null` |
| Pool.Pool.constructor | src/util/pool.rs:192-197 | both arenas map `ARENA_SIZE_BYTES` (nothing when zero-sized); the pool is empty |
| Pool.Pool.Get | src/util/pool.rs:35-41 | `*handle` gives the value `add` stored at that handle's slot |
| Pool.Pool.AddValue | src/util/pool.rs:203-205 | the content arena hands out its next slot and the value is written into it; the metadata arena is untouched |
| Pool.Pool.Add | src/util/pool.rs:199-209 | stores the value in the fresh content slot, allocates the paired metadata slot uninitialised, and keeps both arenas paired; panics exactly when either arena is full; agrees with `AddToView`; `*add(v) == v` |
| Pool.Pool.GetMetadata | src/util/pool.rs:212-221 | for a sized `Value`, the metadata last set for the handle's slot; for a zero-sized `Value` the model panics, where the source has undefined behaviour |
| Pool.Pool.SetMetadata | src/util/pool.rs:223-228 | for a sized `Value`, writes only the metadata slot of the handle's index, leaves contents and the other slots unchanged, and `get_metadata` then returns the value set; for a zero-sized `Value` the model panics and changes nothing, where the source has undefined behaviour |
| Pool.Pool.Duplicate | src/util/pool.rs:243-252 | the new handle is the next slot; its value and metadata are copies of the original's, whose slots are unchanged; panics iff an arena is full |
| Pool.Pool.AsArray | src/util/pool.rs:279-282 | for a sized value, a view whose length is the number of adds, every index of which addresses a slot the pool has filled; for a zero-sized value the model gives the empty view, where the source has undefined behaviour |
| Pool.HandleArray.At | src/util/pool.rs:293-295 | `at(i)` is the valid handle of slot `i` |
| Pool.HandleArray.Len | src/util/pool.rs:297-299 | the number of handles the view denotes |
| Pool.HandleArray.IsEmpty | src/util/pool.rs:301-303 | empty iff the length is 0 |
| Pool.HandleArray.Last | src/util/pool.rs:305-311 | `None` iff the view is empty, otherwise the handle of slot `len - 1` |
| Pool.HandleArrayIterator.constructor | src/util/pool.rs:352-357 | `into_iter` starts at index 0 with nothing yielded |
| Pool.HandleArrayIterator.Next | src/util/pool.rs:330-339 | yields `at(index)` and advances by one, or `None` at the end without moving; what has been yielded is always the view's handles up to `index`, and all of them once `None` is returned |
| Pool.HandleArrayIterator.Len | src/util/pool.rs:343-345 | the length of the whole view, however far iteration got |
| Tokenizer.SkipTo | src/quantum_circuit/tokenizer.rs:94-96 | every character that starts no token is skipped, and scanning stops at the first one that does |
| Tokenizer.LexQuoted | src/quantum_circuit/tokenizer.rs:56-67 | a literal holds exactly the characters before the next `'`, or the rest of the input; the position ends just past the closing quote |
| Tokenizer.LexNumber | src/quantum_circuit/tokenizer.rs:68-82 | a number is the maximal run of digits and dots; it is a token iff the run parses as an `f64`, and otherwise the lexer panics |
| Tokenizer.LexIdentifier | src/quantum_circuit/tokenizer.rs:84-92 | an identifier is the maximal non-empty run of the dialect's identifier characters |
| Tokenizer.LexAt | src/quantum_circuit/tokenizer.rs:31-93 | the token at a token-starting character: each of `[ ] ( ) , =` is one token and advances by one; quotes, numbers and identifiers follow the rules above; tokens are never empty |
| Tokenizer.Scan | src/quantum_circuit/tokenizer.rs:29-100 | `next_token` returns `None` iff no token starts before the end, and then stops at the end; otherwise it returns a non-empty token and moves forward |
| Tokenizer.SkippedCharacter | src/quantum_circuit/tokenizer.rs:94-96 | a character that starts no token, such as whitespace or `-`, changes nothing in the result |
| Tokenizer.TokensNonEmpty | src/quantum_circuit/tokenizer.rs:68-92 | no identifier or number token is empty, and identifiers hold only the dialect's identifier characters |
| Tokenizer.LegacySplitsAtUnderscore | src/quantumcircuit.rs:128-136 | the legacy tokenizer reads `num_qubits` as `num`, `qubits` |
| Tokenizer.CurrentKeepsUnderscore | src/quantum_circuit/tokenizer.rs:84-92 | the current tokenizer reads `num_qubits` as one identifier |
| Tokenizer.Tokenizer.constructor | src/quantum_circuit/tokenizer.rs:22-27 | the tokenizer starts at position 0 of its input |
| Tokenizer.Tokenizer.ConsumeRun | src/quantum_circuit/tokenizer.rs:69-75 | the inner `while` loop: the position moves to the end of the maximal run, and the run is returned |
| Tokenizer.Tokenizer.LexToken | src/quantum_circuit/tokenizer.rs:31-93 | one arm of the `match` agrees with `LexAt`, panic included |
| Tokenizer.Tokenizer.NextToken | src/quantum_circuit/tokenizer.rs:29-100 | the loop agrees with `Scan`: the token found and the new position |
| Tokenizer.Tokenizer.Tokenize | src/quantum_circuit/tokenizer.rs:102-108 | the loop returns the successive tokens, in input order, as `TokensFrom` defines them |
| Text.NumberRunIsFloat | src/quantum_circuit/tokenizer.rs:76-81 | a run of digits and dots parses as an `f64` iff it has at most one dot and at least one digit |
| Text.EmptyIsNoFloat | src/quantumcircuit.rs:225-226 | the empty text is no `f64`, so `filter_map` drops it |
| Text.ParseUnsigned | src/quantumcircuit/parser.rs:103-112 | `parse::<usize>()` succeeds iff the text is an optional `+` and digits whose value fits the width, and gives that value |
| Text.DisplayParsesAsIndex | src/quantumcircuit/parser.rs:103-107 | the display text of a number lexeme parses as a `usize` text iff the lexeme has no non-zero fractional digit, and then reads back the lexeme's whole integer part |
| Text.TruncateToIndex | src/quantum_circuit/parser.rs:176 | `as usize` of a number gives its integer part when that is below 2^64, and `usize::MAX` otherwise |
| TokenCursor.NextAt | src/quantum_circuit/parser.rs:266-274 | `tokens[pos]` and `pos + 1`, or `None` with `pos` unchanged at the end |
| TokenCursor.ExpectAt | src/quantum_circuit/parser.rs:243-248 | succeeds iff the token under the cursor is the expected one, consuming exactly it; otherwise panics with the absent or mismatch message |
| TokenCursor.ExpectStringAt | src/quantum_circuit/parser.rs:250-256 | succeeds iff a string literal is under the cursor, returning its text |
| TokenCursor.ExpectNumberAt | src/quantum_circuit/parser.rs:258-264 | succeeds iff a number is under the cursor, returning its lexeme |
| TokenCursor.KeyValueAt | src/quantum_circuit/parser.rs:225-241 | skips at most one leading comma (when the parser does) and panics on an out-of-range read at the end; then requires `key` and `=`; a string value must be a literal; any other value is the token's text, `None` at the end, and punctuation panics |
| TokenCursor.HeaderAt | src/quantum_circuit/parser.rs:115-118 | four `expect_token`s succeed iff the next four tokens are the header |
| TokenCursor.NumbersAt | src/quantum_circuit/parser.rs:217-219 | collects the run of number tokens in order and also consumes the token that ends the run |
| TokenCursor.ParamsAt | src/quantum_circuit/parser.rs:203-223 | `params=[]` gives no parameters; otherwise the numbers read are followed by a non-number and then `]` |
| TokenCursor.OneParameterPanics | src/quantum_circuit/parser.rs:212-221 | `params=[x])` panics: the loop eats the `]`, and `)` is no `]` |
| TokenCursor.BitEntryAt | src/quantum_circuit/parser.rs:165-195 | an entry `(QuantumRegister(<n>, '<name>'), <index>),` gives the bit of that kind and name, with the index cast by `as usize` (saturating) |
| TokenCursor.BitsAt | src/quantum_circuit/parser.rs:156-201 | the group header is required; the group holds at most one bit; it is empty iff no identifier follows the header; an identifier that is no bit kind panics |
| TokenCursor.StringKeyParses | src/quantum_circuit/parser.rs:225-233 | `key = '<s>'` reads `s` |
| TokenCursor.NumberKeyParses | src/quantum_circuit/parser.rs:225-240 | `, key = <n>` reads the display text of `n`, taken from the lexeme's digits |
| TokenCursor.CountAt | src/quantumcircuit/parser.rs:103-112 | a count key's value parsed as a `usize`, below 2^64; the key is found where the cursor stands, after an optional comma |
| TokenCursor.NumberCountParses | src/quantumcircuit/parser.rs:103-107 | a number count parses iff the lexeme has no non-zero fractional digit and its integer part is below 2^64, and gives that integer part; otherwise it panics |
| TokenCursor.QubitEntryParses | src/quantum_circuit/parser.rs:165-184 | a qubit entry as Qiskit prints it gives the qubit of that register name and index |
| TokenCursor.OneQubitGroupParses | src/quantum_circuit/parser.rs:156-201 | a group with one printed qubit gives that qubit |
| TokenCursor.EmptyGroupParses | src/quantum_circuit/parser.rs:156-201 | `, g=()` gives no bits |
| TokenCursor.GroupsAt | src/quantum_circuit/parser.rs:85-95 | the qubit and clbit groups, each projected, then `)`; each list holds at most one bit |
| TokenCursor.GroupsParse | src/quantum_circuit/parser.rs:85-95 | the groups are the projections of the two `parse_bits` results |
| TokenCursor.Cursor.constructor | src/quantum_circuit/parser.rs:45-49 | the cursor starts at position 0 |
| TokenCursor.Cursor.NextToken | src/quantum_circuit/parser.rs:266-274 | agrees with `NextAt` |
| TokenCursor.Cursor.ExpectToken | src/quantum_circuit/parser.rs:243-248 | agrees with `ExpectAt`, panic and position included |
| TokenCursor.Cursor.ExpectString | src/quantum_circuit/parser.rs:250-256 | agrees with `ExpectStringAt` |
| TokenCursor.Cursor.ExpectNumber | src/quantum_circuit/parser.rs:258-264 | agrees with `ExpectNumberAt` |
| TokenCursor.Cursor.ParseKeyValue | src/quantum_circuit/parser.rs:225-241 | agrees with `KeyValueAt` |
| TokenCursor.Cursor.ParseCount | src/quantumcircuit/parser.rs:103-112 | agrees with `CountAt` |
| TokenCursor.Cursor.ExpectHeader | src/quantum_circuit/parser.rs:115-118 | agrees with `HeaderAt` |
| TokenCursor.Cursor.ParseNumbers | src/quantum_circuit/parser.rs:217-219 | the `while let` loop agrees with `NumbersAt` |
| TokenCursor.Cursor.ParseParams | src/quantum_circuit/parser.rs:203-223 | agrees with `ParamsAt` |
| TokenCursor.Cursor.ParseBitEntry | src/quantum_circuit/parser.rs:165-195 | agrees with `BitEntryAt` |
| TokenCursor.Cursor.ParseBits | src/quantum_circuit/parser.rs:156-201 | agrees with `BitsAt` |
| TokenCursor.Cursor.ParseGroups | src/quantum_circuit/parser.rs:85-95 | agrees with `GroupsAt` |
| CircuitParser.BuiltinMatrices | src/quantum_circuit/parser.rs:41-43 | the matrix map starts with `h`, `x`, `y`, `z`, `cx`, each mapped to its own matrix |
| CircuitParser.CountsAt | src/quantum_circuit/parser.rs:123-124 | the two ignored count key-values move the cursor forward |
| CircuitParser.CountsParse | src/quantum_circuit/parser.rs:123-124 | `, num_qubits = <n> , num_clbits = <m>` is read whole |
| CircuitParser.OperationFieldsAt | src/quantum_circuit/parser.rs:114-128 | the operation header is required; gives the name and the parameters |
| CircuitParser.OperationFieldsParse | src/quantum_circuit/parser.rs:114-128 | an operation as Qiskit prints it with `params=[]` gives its name and no parameters |
| CircuitParser.AddGate | src/quantum_circuit/parser.rs:130-153 | appends exactly one gate, whose name and parameters are the ones read; returns the new last operation; the map gains the name (with a 2x2 zero matrix if new) and keeps every earlier entry; the gate carries the map's matrix for its name |
| CircuitParser.OperationAt | src/quantum_circuit/parser.rs:114-154 | `parse_operation` appends exactly the returned operation and leaves the bit lists alone |
| CircuitParser.JoinBits | src/quantum_circuit/parser.rs:97-111 | every parsed bit is in the circuit list afterwards; nothing else is added; earlier entries keep their positions; no duplicate is added; the instruction carries the indices of the whole lists, in order |
| CircuitParser.InstructionAt | src/quantum_circuit/parser.rs:75-112 | one operation more; the bit lists grow by at most one each and stay free of duplicates; the index lists are those of the whole lists |
| CircuitParser.InstructionParses | src/quantum_circuit/parser.rs:75-112 | the instruction is the operation and groups joined by `JoinBits` |
| CircuitParser.InstructionsFrom | src/quantum_circuit/parser.rs:60-71 | the `parse` loop ends within the tokens, no earlier than it started; `LoopStep` states its turns |
| CircuitParser.ListedFrom | src/quantum_circuit/parser.rs:63-66 | the loop's arm for `CircuitInstruction` ends within the tokens; `ListedStep` states what it reads |
| CircuitParser.LoopStep | src/quantum_circuit/parser.rs:60-71 | one turn of the loop, by the token under the cursor |
| CircuitParser.ListedStep | src/quantum_circuit/parser.rs:63-66 | a successful instruction is put in front of the rest of the loop |
| CircuitParser.InstructionsFromKeeps | src/quantum_circuit/parser.rs:60-71 | after the loop, the operations list has one entry per instruction, appended in order; the bit lists only grow and stay free of duplicates |
| CircuitParser.ListedFromKeeps | src/quantum_circuit/parser.rs:63-66 | the same for the loop's `CircuitInstruction` arm |
| CircuitParser.ParseAt | src/quantum_circuit/parser.rs:52-73 | `parse` requires a leading `[` and then runs the loop; the operations list gains one operation per instruction, in order; the bit lists only grow and stay free of duplicates |
| CircuitParser.OneInstructionParses | src/quantum_circuit/parser.rs:60-71 | one instruction followed by `]` gives a one-element list |
| CircuitParser.Parser.constructor | src/quantum_circuit/parser.rs:37-50 | the cursor is at 0 and the matrix map holds the built-in gates; the tokens come from the caller, `QuantumCircuit.QuantumCircuit.New`, which runs the tokenizer of `new` |
| CircuitParser.Parser.ParseCounts | src/quantum_circuit/parser.rs:123-124 | agrees with `CountsAt` |
| CircuitParser.Parser.ParseOperationFields | src/quantum_circuit/parser.rs:114-128 | agrees with `OperationFieldsAt` |
| CircuitParser.Parser.AddGateOp | src/quantum_circuit/parser.rs:130-153 | the map and operations list change as `AddGate` says, and the returned operation is the one appended |
| CircuitParser.Parser.ParseOperation | src/quantum_circuit/parser.rs:114-154 | the new parser state and the result are those of `OperationAt` |
| CircuitParser.Parser.ParseCircuitInstruction | src/quantum_circuit/parser.rs:75-112 | the new parser state and the result are those of `InstructionAt` |
| CircuitParser.Parser.AddAll | src/quantum_circuit/parser.rs:97-106 | the two `for` loops insert each parsed bit unless present, in order; nothing else changes |
| CircuitParser.Parser.ParseListedInstruction | src/quantum_circuit/parser.rs:63-66 | one instruction, put in front of the rest of the loop as `ListedFrom` says |
| CircuitParser.Parser.Parse | src/quantum_circuit/parser.rs:52-73 | the new parser state and the result are those of `ParseAt` |
| Dedup.Insert | src/quantum_circuit.rs:49-54 | the list is either unchanged or has `x` appended; `x` is in it afterwards; a list already holding `x` is unchanged |
| Dedup.InsertKeepsNoDuplicates | src/quantum_circuit.rs:49-54 | the contains-check keeps a list free of duplicates |
| Dedup.InsertIdempotent | src/quantum_circuit.rs:49-54 | inserting twice is inserting once |
| Dedup.InsertAllSpec | src/quantum_circuit/parser.rs:97-106 | inserting a list keeps the old list as a prefix; afterwards an element is present iff it was in either list; no duplicates are added; nothing changes when all are present |
| Dedup.InsertAllGrowth | src/quantum_circuit/parser.rs:97-106 | the list grows by at most the number of inserted elements |
| Dedup.InsertAllIdempotent | src/quantum_circuit/parser.rs:97-106 | inserting the same list again changes nothing |
| Dedup.InsertPairsIsInsertAll | src/quantumcircuit/parser.rs:75-82 | the `zip` loop inserts exactly the first `min(|qubits|, |clbits|)` bits of each list |
| Bits.QubitFrom | src/bit.rs:37-44 | `Qubit::from` gives back the qubit of a `Qubit` bit, and panics on any other variant |
| Bits.ClbitFrom | src/bit.rs:46-53 | the same for `Clbit` |
| Bits.AncillaFrom | src/bit.rs:55-62 | the same for `AncillaQubit` |
| Bits.QubitsFrom | src/quantum_circuit/parser.rs:85-89 | mapping `Qubit::from` over a group succeeds iff every bit is a qubit, giving them in order |
| Bits.ClbitsFrom | src/quantum_circuit/parser.rs:90-94 | the same for clbits |
| Bits.QubitIndices | src/quantum_circuit/parser.rs:108 | the `index()` of every qubit, in list order |
| Bits.ClbitIndices | src/quantum_circuit/parser.rs:109 | the `index()` of every clbit, in list order |
| Registers.QuantumFrom | src/register.rs:43-50 | `QuantumRegister::from` gives back the register of that variant, and panics on any other |
| Registers.ClassicalFrom | src/register.rs:74-81 | the same for `ClassicalRegister` |
| Registers.AncillaFrom | src/register.rs:105-112 | the same for `AncillaRegister` |
| Operations.NewBuilder | src/operations.rs:147-156 | every field of a new builder is `None` |
| Operations.WithName | src/operations.rs:158-161 | sets only `name` to `Some(name)`; the other fields are unchanged |
| Operations.WithParams | src/operations.rs:163-166 | sets only `params` |
| Operations.WithDuration | src/operations.rs:168-171 | sets only `duration` |
| Operations.WithUnit | src/operations.rs:173-176 | sets only `unit` |
| Operations.WithMatrix | src/operations.rs:178-181 | sets only `matrix` |
| Operations.WithHamiltonian | src/operations.rs:183-186 | sets only `hamiltonian` |
| Operations.Build | src/operations.rs:188-197 | succeeds iff `name`, `params`, `unit` and `matrix` are set, copying them; `duration` and `hamiltonian` pass through as options; the panic message is the first failing `expect`/`unwrap` |
| Operations.Builder | src/operations.rs:94-102 | `gate.builder()` succeeds iff `duration` and `hamiltonian` are set |
| Operations.BuilderRoundTrip | src/operations.rs:94-102 | `gate.builder().build() == gate` whenever `builder` succeeds |
| Operations.GateFrom | src/operations.rs:125-132 | `Gate::from(Operation::Gate(g)) == g`, and every other variant panics |
| Operations.Id | src/operations.rs:141-143 | every operation's id is 0 |
| QuantumCircuit.SeedOperations | src/quantum_circuit.rs:18-21 | the custom gates, in their order, each wrapped as an operation; none without custom gates |
| QuantumCircuit.CircuitListsDistinct | src/quantum_circuit.rs:17-35 | a circuit built by `new` holds each qubit and clbit once; its operations are the custom gates followed by one operation per instruction |
| QuantumCircuit.SingleQubitOneGate | src/quantum_circuit.rs:72-86 | the tokens of the one-`x` test input parse to one instruction, the `x` gate on qubit index 0 with no clbits; the circuit then holds qubit `q[0]` and no clbits |
| QuantumCircuit.SingleQubitTwoGates | src/quantum_circuit.rs:88-111 | the tokens of the `x`-then-`y` test input parse to two instructions, the `x` gate and then the `y` gate, each on qubit index 0 with no clbits; `q[0]` is recorded once |
| QuantumCircuit.QuantumCircuit.constructor | src/quantum_circuit.rs:30-34 | the struct literal holds the given lists |
| QuantumCircuit.QuantumCircuit.New | src/quantum_circuit.rs:17-35 | tokenizes, seeds the operations and parses; the circuit holds the parsed instructions and the lists the parser built, which are free of duplicates; a panic is passed on |
| QuantumCircuit.QuantumCircuit.AddQubit | src/quantum_circuit.rs:49-54 | the qubit list becomes `Insert(qubits, q)`; being free of duplicates is preserved |
| QuantumCircuit.QuantumCircuit.AddClbit | src/quantum_circuit.rs:56-61 | the same for clbits |
| PoolParser.KindOf | src/quantumcircuit/parser.rs:127-149 | a name selects a gate kind iff it is `x`, `y`, `z` or `h` |
| PoolParser.KindOfName | src/quantumcircuit/parser.rs:127-149 | every kind is selected by its own name |
| PoolParser.CountsAt | src/quantumcircuit/parser.rs:103-112 | the two `usize` counts move the cursor forward; it succeeds only if `num_qubits` is one identifier token |
| PoolParser.OperationFieldsAt | src/quantumcircuit/parser.rs:95-116 | the operation header is required; gives the name and the parameters; it succeeds only if `num_qubits` is one identifier token |
| PoolParser.AddGateAt | src/quantumcircuit/parser.rs:127-149 | any other name panics; a known name adds exactly one gate of its kind to the pool; it panics iff the pool is full; it returns the next handle and maps the name to that handle, keeping every other entry |
| PoolParser.AddGateKeepsConsistent | src/quantumcircuit/parser.rs:127-149 | after an add, every name in the gate map still leads to a slot holding a gate of that name |
| PoolParser.AddGateReached | src/quantumcircuit/parser.rs:127-149 | a pool add followed by the map insert is the `match` arm |
| PoolParser.OperationAt | src/quantumcircuit/parser.rs:90-150 | exactly one pool add, whose handle is returned; the gate map only gains names and stays faithful; it succeeds only if `num_qubits` is one identifier token |
| PoolParser.OperationStep | src/quantumcircuit/parser.rs:90-150 | the fields are read, then the gate is added |
| PoolParser.JoinPairs | src/quantumcircuit/parser.rs:75-87 | only bits with a partner in the other group join the lists, in pairs; with no clbits no qubit is recorded; no duplicate is added; the instruction carries the indices of the whole lists |
| PoolParser.InstructionAt | src/quantumcircuit/parser.rs:52-88 | one pool add, whose handle is the instruction's operation; the bit lists only grow and stay free of duplicates; it succeeds only if `num_qubits` is one identifier token |
| PoolParser.InstructionReads | src/quantumcircuit/parser.rs:52-88 | the instruction is the operation and groups joined by `JoinPairs` |
| PoolParser.InstructionsFrom | src/quantumcircuit/parser.rs:36-48 | the `parse` loop ends within the tokens, no earlier than it started; `LoopStep` states its turns |
| PoolParser.ListedFrom | src/quantumcircuit/parser.rs:39-43 | the loop's arm for `CircuitInstruction` ends within the tokens; `ListedFromKeeps` states its effect |
| PoolParser.LoopStep | src/quantumcircuit/parser.rs:36-48 | one turn of the loop, by the token under the cursor |
| PoolParser.InstructionsFromKeeps | src/quantumcircuit/parser.rs:36-48 | after the loop the pool has one add per instruction; the instructions carry the handles issued, in order; the bit lists only grow and stay free of duplicates; the gate map stays faithful |
| PoolParser.ListedFromKeeps | src/quantumcircuit/parser.rs:39-43 | the same for the `CircuitInstruction` arm |
| PoolParser.ParseAt | src/quantumcircuit/parser.rs:27-50 | `parse` requires a leading `[`, then runs the loop with the effect above |
| PoolParser.LegacyTokensHoldNoInstruction | src/quantumcircuit/parser.rs:11-25 | on tokens of the legacy tokenizer, which `use super::tokenizer` names, every instruction panics |
| PoolParser.LegacyTokensParseNothing | src/quantumcircuit/parser.rs:27-50 | on those tokens the loop panics or gives no instruction |
| PoolParser.Parser.constructor | src/quantumcircuit/parser.rs:19-25 | the cursor starts at 0 over the given tokens, with the caller's pool, map and lists; tokenizing is done by `New` |
| PoolParser.Parser.New | src/quantumcircuit/parser.rs:19-25 | `new(input)` tokenizes with the legacy dialect; it panics iff the tokenizer does, and otherwise the cursor is at 0 over those tokens |
| PoolParser.Parser.ParseOperationFields | src/quantumcircuit/parser.rs:95-116 | agrees with `OperationFieldsAt` |
| PoolParser.Parser.AddGate | src/quantumcircuit/parser.rs:127-149 | the pool, the map and the result are those of `AddGateAt` |
| PoolParser.Parser.ParseOperation | src/quantumcircuit/parser.rs:90-150 | the state and the result are those of `OperationAt` |
| PoolParser.Parser.ParseCircuitInstruction | src/quantumcircuit/parser.rs:52-88 | the state and the result are those of `InstructionAt` |
| PoolParser.Parser.AddPairs | src/quantumcircuit/parser.rs:75-82 | the `zip` loop inserts the paired bits as `InsertPairs` does; nothing else changes |
| PoolParser.Parser.ParseListedInstruction | src/quantumcircuit/parser.rs:39-43 | one instruction, put in front of the rest of the loop |
| PoolParser.Parser.AppendListed | src/quantumcircuit/parser.rs:39-43 | the loop's `CircuitInstruction` arm keeps the loop's invariant |
| PoolParser.Parser.Turn | src/quantumcircuit/parser.rs:37-47 | one turn of the `while` loop keeps its invariant, or ends it at `]` |
| PoolParser.Parser.ParseInstructions | src/quantumcircuit/parser.rs:36-48 | the loop agrees with `InstructionsFrom` |
| PoolParser.Parser.Parse | src/quantumcircuit/parser.rs:27-50 | the state and the result are those of `ParseAt` |
| LegacyCircuit.MatchNeedsParen | src/quantumcircuit.rs:263-268 | the register pattern never matches text without `(` |
| LegacyCircuit.RegisterNamesDoNotMatch | src/quantumcircuit.rs:263-300 | no register name matches the pattern, so the final `match` is never reached with a name it accepts |
| LegacyCircuit.RegisterBit | src/quantumcircuit.rs:280-297 | the three register names give a bit of the matching kind; any other name panics |
| LegacyCircuit.BitAt | src/quantumcircuit.rs:262-304 | panics without an identifier, and with the format message when the pattern does not match |
| LegacyCircuit.BitAlwaysPanics | src/quantumcircuit.rs:262-304 | `parse_bit` panics on every token sequence |
| LegacyCircuit.TokenizedBitPanics | src/quantumcircuit.rs:267-300 | a tokenized identifier holds no `(`, so the bit panics with the format message |
| LegacyCircuit.EntriesAt | src/quantumcircuit.rs:245-255 | the loop ends at `)` or at the end of the tokens, and panics on a first token that is neither `)` nor `Qubit` |
| LegacyCircuit.EntriesHoldNoBits | src/quantumcircuit.rs:245-255 | a group that is read holds no bit |
| LegacyCircuit.GroupAt | src/quantumcircuit.rs:239-259 | requires the group header, and a group that is read is empty |
| LegacyCircuit.ParamsOf | src/quantumcircuit.rs:222-227 | every parameter kept is text that parses as an `f64` |
| LegacyCircuit.NoValueNoParams | src/quantumcircuit.rs:222-227 | a missing value gives no parameters |
| LegacyCircuit.OperationAt | src/quantumcircuit.rs:205-236 | requires the header, `name = '<s>'` and then the key `num_qubits` with no comma between them; counts fit a `usize`; parameters are numbers; no duration, unit or label |
| LegacyCircuit.QiskitOperationPanics | src/quantumcircuit.rs:211-216 | Qiskit's `name='x', num_qubits=…` panics at the comma |
| LegacyCircuit.InstructionAt | src/quantumcircuit.rs:197-203 | an instruction that is read has empty bit groups and names `num_qubits` as one identifier |
| LegacyCircuit.InstructionsFrom | src/quantumcircuit.rs:182-193 | the loop ends within the tokens; every instruction it reads has empty groups, and it reads none unless `num_qubits` occurs as one identifier |
| LegacyCircuit.ListedFrom | src/quantumcircuit.rs:185-188 | the `CircuitInstruction` arm reads at least one instruction, each with empty groups, and only when `num_qubits` occurs as one identifier |
| LegacyCircuit.ParseAt | src/quantumcircuit.rs:179-195 | requires a leading `[`; every instruction has empty groups |
| LegacyCircuit.CircuitHasNoInstructions | src/quantumcircuit.rs:16-17 | the legacy `QuantumCircuit::new` never yields an instruction |
| LegacyCircuit.QiskitListPanics | src/quantumcircuit.rs:362-366 | the crate's test input panics at the comma after the name |
| LegacyCircuit.Parser.constructor | src/quantumcircuit.rs:173-177 | the cursor starts at 0 over the tokens; the tokens come from the caller, `LegacyCircuit.QuantumCircuit.New`, which runs the tokenizer of `new` |
| LegacyCircuit.Parser.ParseBit | src/quantumcircuit.rs:262-304 | agrees with `BitAt` |
| LegacyCircuit.Parser.ParseEntries | src/quantumcircuit.rs:245-255 | the `while let` loop agrees with `EntriesAt` |
| LegacyCircuit.Parser.ParseGroup | src/quantumcircuit.rs:239-259 | agrees with `GroupAt` |
| LegacyCircuit.Parser.ParseOperation | src/quantumcircuit.rs:205-236 | agrees with `OperationAt` |
| LegacyCircuit.Parser.ParseCircuitInstruction | src/quantumcircuit.rs:197-203 | agrees with `InstructionAt` |
| LegacyCircuit.Parser.AppendInstruction | src/quantumcircuit.rs:185-188 | the loop's arm keeps the loop invariant |
| LegacyCircuit.Parser.Turn | src/quantumcircuit.rs:182-193 | one turn of the `while` loop keeps its invariant, or ends it at `]` |
| LegacyCircuit.Parser.Parse | src/quantumcircuit.rs:179-195 | agrees with `ParseAt`; every instruction has empty groups |
| LegacyCircuit.QuantumCircuit.constructor | src/quantumcircuit.rs:22-27 | holds the instructions and the pool, with empty bit lists |
| LegacyCircuit.QuantumCircuit.New | src/quantumcircuit.rs:16-28 | with `parser::parse(input)` read as `Parser::new(input).parse()`: parses the legacy tokens, passing on a panic; creates an empty pool whose metadata is zero-sized; holds no instruction |
| LegacyCircuit.QuantumCircuit.AddGate | src/quantumcircuit.rs:30-32 | adds exactly one value to the pool, or panics iff the pool is full |
| Outcomes.Unwrap | src/parser.rs:187 | `unwrap` gives the value of `Some` and panics on `None` |
| Outcomes.Collect | src/parser.rs:77-86 | a push loop over fallible items succeeds iff every item does, giving their values in order; otherwise it panics with the first failure |
| Outcomes.CollectAll | src/parser.rs:80-83 | when every item succeeds, the loop gives exactly their values |
| Outcomes.CollectFails | src/parser.rs:80-83 | the first failing item's panic is the loop's |
| Outcomes.CollectEach | src/parser.rs:80-85 | the `for` loop agrees with `Collect` |
| Strings.Find | src/parser.rs:187 | `find` gives the first position where the pattern occurs, or `None` iff it occurs nowhere |
| Strings.FindContains | src/parser.rs:193 | `find` succeeds iff the pattern occurs |
| Strings.Split | src/parser.rs:30 | `split` gives at least one piece |
| Strings.SplitJoin | src/parser.rs:30 | joining the pieces with the separator gives back the text |
| Strings.SplitPiecesFree | src/parser.rs:30 | no piece holds the separator |
| Strings.PiecesAfter | src/parser.rs:30 | `skip(1)` drops exactly the first piece |
| Strings.PiecesAfterEmpty | src/parser.rs:30 | there is a piece after a separator iff the separator occurs |
| Strings.PiecesAfterJoin | src/parser.rs:30 | the first piece, the separator and the later pieces rebuild the text |
| Strings.TrimStartMatches | src/parser.rs:168 | removes every leading copy of the pattern, leaving a suffix that does not start with it |
| Strings.TrimEndMatches | src/parser.rs:31 | removes exactly the trailing run of the character, leaving a prefix |
| Strings.TrimStartChar | src/parser.rs:27 | removes exactly the leading run of the character, leaving a suffix |
| Strings.TrimStart | src/parser.rs:66 | removes exactly the leading whitespace |
| Strings.TrimEnd | src/parser.rs:66 | removes exactly the trailing whitespace |
| Strings.Trim | src/parser.rs:66 | the result neither starts nor ends with whitespace |
| Strings.TrimSlice | src/parser.rs:66 | what `trim` keeps is a slice of the text with only whitespace around it |
| Strings.FloatPieces | src/parser.rs:64-67 | keeps the trimmed pieces that parse as numbers, in order |
| Strings.AllPiecesKept | src/parser.rs:64-67 | when every trimmed piece parses, each gives one parameter, in order |
| StringParser.ExtractOptionalValue | src/parser.rs:192-204 | `None` iff `start` does not occur; otherwise the text right after the first `start`, up to the first `end` after it or to the end |
| StringParser.EmptyEndGivesEmpty | src/parser.rs:135-142 | with an empty `end` the value is always `Some("")` when `start` is found |
| StringParser.EmptyStartGivesPrefix | src/parser.rs:131-133 | with an empty `start` the value is the prefix before the first `end`, or the whole text |
| StringParser.NoEndGivesRemainder | src/parser.rs:198-200 | when no `end` follows `start`, the value is the whole remainder |
| StringParser.ExtractValue | src/parser.rs:186-190 | succeeds iff `start` occurs and `end` follows it, giving the same text as `extract_optional_value`, which is followed by `end`; panics otherwise |
| StringParser.UnwrapUsize | src/parser.rs:61-62 | `parse::<usize>().unwrap()` succeeds iff the text is a `usize` below 2^64 |
| StringParser.Slice | src/parser.rs:37 | `&s[a..b]` succeeds iff `a <= b` |
| StringParser.InstructionOf | src/parser.rs:59-75 | the name, counts, parameters, duration, unit and label are the extracted texts; panics when no name is delimited |
| StringParser.CountIn | src/parser.rs:61-62 | a count is present iff it is delimited and parses as a `usize` |
| StringParser.SizeOf | src/parser.rs:131-133 | the size is the text before the first `, ` parsed as a `u32`, or `None` |
| StringParser.BitsText | src/parser.rs:135-137 | the bits text is always empty |
| StringParser.QuantumRegisterOf | src/parser.rs:130-145 | size and name as extracted; `bits` is always `None` |
| StringParser.ClassicalRegisterOf | src/parser.rs:147-162 | the same for a classical register |
| StringParser.IndexOf | src/parser.rs:108-109 | the index is the `usize` between the `, ` after the register and `)` |
| StringParser.QubitOf | src/parser.rs:99-112 | panics unless both delimiters occur; otherwise the register between them and the index after |
| StringParser.ClbitOf | src/parser.rs:114-128 | the same for a clbit |
| StringParser.PrefixesExclusive | src/parser.rs:164-183 | no text starts with both `Qubit(` and `Clbit(` |
| StringParser.BitOf | src/parser.rs:164-184 | a `Qubit(` prefix gives a qubit, a `Clbit(` prefix a clbit, and any other text panics "Unknown bit type" |
| StringParser.Trimmed | src/parser.rs:31 | a prefix of the piece that does not end in `,` |
| StringParser.QubitsOf | src/parser.rs:77-86 | one qubit per `Qubit(` occurrence, in order; none when it does not occur |
| StringParser.ClbitsOf | src/parser.rs:88-97 | one clbit per `Clbit(` occurrence, in order |
| StringParser.OperationPart | src/parser.rs:34-39 | the operation is read from between `operation=Instruction(` and `), qubits=` |
| StringParser.QubitsPart | src/parser.rs:42-45 | the qubits are read from between `qubits=(` and `), clbits=` |
| StringParser.ClbitsPart | src/parser.rs:48-51 | the clbits are read from after `clbits=(` to the end |
| StringParser.InstructionOfPiece | src/parser.rs:31-53 | a piece gives an instruction iff its operation, qubits and clbits all read, and it holds those three |
| StringParser.Body | src/parser.rs:27 | removes exactly the leading run of `[` and the trailing run of `]`; the rest is a slice of the text that neither starts with `[` nor ends with `]` |
| StringParser.ParseText | src/parser.rs:23-57 | one instruction per `CircuitInstruction(` occurrence in the body, in order |
| StringParser.Parser.constructor | src/parser.rs:19-21 | keeps its input |
| StringParser.Parser.Parse | src/parser.rs:23-57 | the loop agrees with `ParseText` |
| StringParser.Parser.ParseQubits | src/parser.rs:77-86 | the loop agrees with `QubitsOf` |
| StringParser.Parser.ParseClbits | src/parser.rs:88-97 | the loop agrees with `ClbitsOf` |

## Left out

- `Pool::new` and `MMapArena::new` can fail with an `io::Result` when the anonymous mapping
  is refused. That is a foreign call, so the model's constructors always succeed.
- Raw-pointer arithmetic, `ManuallyDrop`, the `MMapArenaStore` union and unsafe `Deref`
  are represented by slot indices into an `array`.
- `as_slice` is folded into `Pool.Pool.AsArray`.
- `Pool.Pool.Get` needs a handle `add` returned for a sized value. For a zero-sized value
  the handle is null, and `*handle` makes a null reference, which is undefined behaviour.
- `Pool.Pool.GetMetadata` and `Pool.Pool.SetMetadata` exclude a sized value with a zero-sized
  metadata type. Their access then goes through the `none` arm of the store union, which
  is undefined behaviour.
- `Pool.Pool.Duplicate` needs both arenas sized. For a zero-sized value, its first step
  `*handle` dereferences the null handle, which is undefined behaviour before `index_of` is
  reached. For a zero-sized metadata type, `get_metadata` reads the `none` union arm.
- `Handle`'s `PartialEq`/`Hash`/`Display`/`Debug` compare and print the pointee.
  Handles here are compared as slots.
- Pool.MMapArena.IndexOf: for a zero-sized `T`, `index_of` calls `start()`, which reads the
  `mmap` arm of a store union that holds `ignore: ()`. That is undefined behaviour in the
  source. The panic with `offset_from`'s assertion text is the model's choice for this path.
- Pool.Pool.GetMetadata: for a zero-sized `Value` the source reaches the same undefined
  `start()` read through `index_of`. The panic is the model's choice.
- Pool.Pool.SetMetadata: likewise for a zero-sized `Value`. The panic, with nothing changed,
  is the model's choice.
- Pool.Pool.AsArray: for a zero-sized value, `as_slice` calls `start_mut()`, which reads the
  same unset union arm. That is undefined behaviour; the empty view is the model's choice.
- `OperationPool` (boxed `dyn Operation` values) is not defined in the crate's shown files.
  The pool parser stores a tagged gate value (`X`, `Y`, `Z`, `H` with its parameters) in a
  `Pool`, so type erasure and per-gate structs are not modelled.
- `src/circuit_instruction.rs` does not compile as written. Each parser uses its own record
  of (operation, qubit indices, clbit indices).
- `src/instruction.rs` getters are the fields of a datatype. The same holds for the
  getters of `Gate`, bits, registers and `QuantumCircuit`, and for structural equality.
- Numbers are kept as their lexeme. `f64` arithmetic and rounding are not modelled.
  `IsFloatText` states which text `str::parse::<f64>` accepts. The members below agree with
  Rust only for lexemes that `f64` holds exactly, such as integers below 2^53.
- FloatDisplay: is the lexeme's exact digits. Rust displays the rounded `f64`, so
  `9007199254740993` shows as `9007199254740992`.
- TruncateToIndex: casts the exact integer part, saturating at `usize::MAX`. Rust casts the
  rounded `f64`, which differs from the lexeme above 2^53. For example
  `18446744073709551000` rounds up to 2^64 and saturates.
- DisplayParsesAsIndex: is stated for the exact display text, not the rounded one.
- NumberKeyParses: gives the exact display text, not the rounded one.
- CountAt: accepts `18446744073709551615`. Rust rounds it to 2^64, displays
  `18446744073709552000`, and the `usize` parse panics.
- NumberCountParses: "below 2^64" is tested on the exact integer part, not on the rounded
  one. Likewise a fraction below `f64` precision, such as `1.00000000000000000001`, makes
  the model panic, while Rust rounds it to `1`.
- BitEntryAt: the index is `TruncateToIndex` of the exact lexeme, not of the rounded `f64`.
- The pool parser of `src/quantumcircuit/parser.rs` is specified over any token sequence.
  `PoolParser.Parser.New` adds the tokenizing step of `new` with the legacy dialect. That is
  the `tokenizer` module of `src/quantumcircuit.rs`, which `use super::tokenizer` names. The
  file itself is not compiled: `src/quantumcircuit.rs` declares its own inline `mod parser`.
- `char::is_alphabetic`/`is_alphanumeric` are reduced to ASCII letters and digits.
- `DMatrix`/complex matrices are opaque values: the built-in gates carry `Builtin(name)`
  and an unknown name carries `Zeros(2, 2)`. `HamiltonianComponent::calculate` and
  `Hamiltonian::is_commutative` (a `todo!()`) are not modelled.
- `LegacyCircuit.BitAt`: the `Regex` crate is modelled by what the pattern matches, not by
  a regular-expression engine.
- `println!` in `src/quantumcircuit/parser.rs` is output only.
- `operation_macro/src/lib.rs` generates code at compile time and is not part of this model.
- `src/lib.rs` only lists modules.
- Panic messages are the source's format strings without their `{:?}` arguments.
- LegacyCircuit.QuantumCircuit.New: `new` calls `parser::parse(input)`, but the inline
  `mod parser` of `src/quantumcircuit.rs` defines no such function, only a private `Parser`
  with `new` and `parse`. So `new` does not compile as written. The model reads the call as
  `Parser::new(input).parse()`: the legacy tokenizer, then `Parse`.
- `LegacyCircuit.InstructionAt`: `parse_circuit_instruction` in `src/quantumcircuit.rs`
  ends without returning a value, so it does not compile. The model returns what it read
  as a `Parsed` record.
- `src/parser.rs` passes a register to `Qubit::new`, which `src/bit.rs` does not accept.
  The string parser declares its own register-carrying `Qubit`/`Clbit`.
- The register parsers' `Some(parse_bit(…))` branch can never run, because the bit text is
  always empty (`StringParser.BitsText`).
- `src/parser.rs` works on byte offsets and panics on a slice inside a multi-byte character.
  The model uses character positions, which agree on ASCII text.
- `parse::<usize>` for the string parser's sizes and indices follows Rust's grammar: an
  optional `+` and decimal digits.
- The concrete inputs of the tests in `src/parser.rs` are not proved. Each is a string of
  several hundred characters, and `ParseText` on it unfolds `find`, `split` and `trim`
  character by character. That is a long concrete computation. The general lemmas about
  those operations are proved instead.
- The two tests of `src/quantum_circuit.rs` are proved on the token sequences of their
  inputs. That the tokenizer produces exactly those tokens from the test strings is not
  proved: it is a long concrete computation.
