/** `src/quantum_circuit.rs`: the circuit built from Qiskit's printed instruction list.

    `QuantumCircuit::new` seeds an operations list with the custom gates, tokenizes the
    input, and lets the parser fill that list and two fresh bit lists. The circuit keeps the
    instructions and the two bit lists; the operations list is a local of `new` and is
    dropped with it.
 */
module QuantumCircuit {
  import opened Outcomes
  import opened Tokenizer
  import opened TokenCursor
  import opened Text
  import opened Bits
  import opened Operations
  import opened Dedup
  import opened Instructions
  import opened CircuitParser

  /** The operations list `new` starts from: the custom gates in their order, as gates. */
  function SeedOperations(customGates: Option<seq<Gate>>): (ops: seq<Operation>)
    ensures customGates.None? ==> ops == []
    ensures customGates.Some? ==>
              |ops| == |customGates.value| &&
              forall i :: 0 <= i < |ops| ==> ops[i] == GateOp(customGates.value[i])
  {
    match customGates
    case None => []
    case Some(gates) => seq(|gates|, i requires 0 <= i < |gates| => GateOp(gates[i]))
  }

  /** The parser's state before `parse`. */
  function StartState(customGates: Option<seq<Gate>>): State {
    State(0, BuiltinMatrices(), SeedOperations(customGates), [], [])
  }

  /** What `new` computes: the outcome of tokenizing and then parsing `input`. */
  function CircuitOf(input: string, customGates: Option<seq<Gate>>): Outcome<Parsed<seq<Instr>>> {
    var tokens :- Tokenize(Current, input);
    ParseAt(tokens, StartState(customGates))
  }

  /** A circuit built by `new` holds each qubit and each clbit once, and its operations list
      ends up as the custom gates followed by one gate per instruction. */
  lemma CircuitListsDistinct(input: string, customGates: Option<seq<Gate>>)
    ensures var r := CircuitOf(input, customGates);
            r.Ok? ==>
              NoDuplicates(r.value.state.qubits) && NoDuplicates(r.value.state.clbits) &&
              r.value.state.operations == SeedOperations(customGates) + OperationsOf(r.value.value)
  {
    var tokens := Tokenize(Current, input);
    if tokens.Ok? {
      var s := StartState(customGates);
      assert NoDuplicates(s.qubits) && NoDuplicates(s.clbits);
    }
  }

  /** The tokens of one test instruction's operation, `operation=Instruction(name='<name>',
      num_qubits=1, num_clbits=0, params=[])`, from position `o + 3`. */
  predicate OperationTokens(t: seq<Token>, o: nat, name: string) {
    |t| >= o + 24 &&
    t[o + 3] == Identifier("operation") && t[o + 4] == Equals && t[o + 5] == Identifier("Instruction") &&
    t[o + 6] == OpenParen && t[o + 7] == Identifier("name") && t[o + 8] == Equals &&
    t[o + 9] == StringLiteral(name) && t[o + 10] == Comma && t[o + 11] == Identifier("num_qubits") &&
    t[o + 12] == Equals && t[o + 13] == Number("1") && t[o + 14] == Comma &&
    t[o + 15] == Identifier("num_clbits") && t[o + 16] == Equals && t[o + 17] == Number("0") &&
    t[o + 18] == Comma && t[o + 19] == Identifier("params") && t[o + 20] == Equals &&
    t[o + 21] == OpenBracket && t[o + 22] == CloseBracket && t[o + 23] == CloseParen
  }

  /** The tokens of one test instruction's bit groups, `, qubits=(Qubit(QuantumRegister(1,
      'q'), 0),), clbits=()`, from position `o + 24`. */
  predicate GroupTokens(t: seq<Token>, o: nat) {
    |t| >= o + 46 &&
    t[o + 24] == Comma && t[o + 25] == Identifier("qubits") && t[o + 26] == Equals &&
    t[o + 27] == OpenParen && t[o + 28] == Identifier("Qubit") && t[o + 29] == OpenParen &&
    t[o + 30] == Identifier("QuantumRegister") && t[o + 31] == OpenParen && t[o + 32] == Number("1") &&
    t[o + 33] == Comma && t[o + 34] == StringLiteral("q") && t[o + 35] == CloseParen &&
    t[o + 36] == Comma && t[o + 37] == Number("0") && t[o + 38] == CloseParen &&
    t[o + 39] == Comma && t[o + 40] == CloseParen && t[o + 41] == Comma &&
    t[o + 42] == Identifier("clbits") && t[o + 43] == Equals && t[o + 44] == OpenParen &&
    t[o + 45] == CloseParen
  }

  /** The tokens of one test instruction from position `o`: `CircuitInstruction(`, a
      one-qubit gate `name` on qubit 0 of register `q`, no clbits, `)`. */
  predicate InstructionTokens(t: seq<Token>, o: nat, name: string) {
    |t| >= o + 47 &&
    t[o + 1] == Identifier("CircuitInstruction") && t[o + 2] == OpenParen &&
    OperationTokens(t, o, name) && GroupTokens(t, o) && t[o + 46] == CloseParen
  }

  /** The tokens of the one-`x` test input. */
  predicate IsXTokens(t: seq<Token>) {
    |t| == 48 && t[0] == OpenBracket && InstructionTokens(t, 0, "x") && t[47] == CloseBracket
  }

  /** The tokens of the `x`-then-`y` test input: the two instructions are separated by a
      comma. */
  predicate IsXYTokens(t: seq<Token>) {
    |t| == 95 && t[0] == OpenBracket && InstructionTokens(t, 0, "x") && t[47] == Comma &&
    InstructionTokens(t, 47, "y") && t[94] == CloseBracket
  }

  /** A built-in gate as `parse_operation` builds it: no parameters, no duration, unit `dt`,
      the built-in matrix and no Hamiltonian. */
  function BuiltinGate(name: string): Operation {
    GateOp(Gate(name, [], None, DT, Builtin(name), None))
  }

  const X_GATE := BuiltinGate("x")
  const Y_GATE := BuiltinGate("y")

  /** The qubit every test instruction acts on. */
  const Q0 := Qubit("q", 0)

  /** The fixed parts of a test instruction's operation. */
  lemma OperationParts(t: seq<Token>, o: nat, name: string)
    requires OperationTokens(t, o, name)
    ensures t[o + 3..o + 7] == OPERATION_HEADER && t[o + 18..o + 22] == PARAMS_HEADER
  {
    assert t[o + 3..o + 7] == OPERATION_HEADER;
    assert t[o + 18..o + 22] == PARAMS_HEADER;
  }

  lemma TestCounts(t: seq<Token>, o: nat, name: string)
    requires OperationTokens(t, o, name)
    ensures CountsAt(t, o + 10) == Ok(Read((), o + 18))
  {
    CountsParse(t, o + 10);
  }

  /** The fields of a test instruction's operation: its name, no parameters. */
  lemma TestFields(t: seq<Token>, o: nat, name: string)
    requires OperationTokens(t, o, name)
    ensures OperationFieldsAt(t, o + 3) == Ok(Read((name, []), o + 24))
  {
    OperationParts(t, o, name);
    TestCounts(t, o, name);
    OperationFieldsParse(t, o + 3);
  }

  /** A test instruction's operation names a built-in gate, so the matrix map stays as it
      is and the gate joins the operations list. */
  lemma TestOperation(t: seq<Token>, o: nat, name: string, s: State)
    requires OperationTokens(t, o, name) && name in BuiltinMatrices()
    requires s.pos == o + 3 && s.mtxMap == BuiltinMatrices()
    ensures OperationAt(t, s) ==
              Ok(Parsed(BuiltinGate(name), s.(pos := o + 24, operations := s.operations + [BuiltinGate(name)])))
  {
    TestFields(t, o, name);
    var p := AddGate(s.(pos := o + 24), name, []);
    assert p.state.mtxMap == s.mtxMap;
  }

  /** The qubit and clbit groups of a test instruction. */
  lemma TestGroups(t: seq<Token>, o: nat)
    requires GroupTokens(t, o)
    ensures BitsAt(t, o + 24, "qubits") == Ok(Read([Quantum(Q0)], o + 41))
    ensures BitsAt(t, o + 41, "clbits") == Ok(Read([], o + 46))
  {
    assert t[o + 24..o + 28] == GroupHeader("qubits");
    OneQubitGroupParses(t, o + 24, "qubits");
    assert IntegerDigits("0") == "0";
    assert TruncateToIndex("0") == 0;
    assert t[o + 41..o + 45] == GroupHeader("clbits");
    EmptyGroupParses(t, o + 41, "clbits");
  }

  /** A test instruction's bit groups give the qubit `q[0]` and no clbits. */
  lemma TestBits(t: seq<Token>, o: nat)
    requires BitsAt(t, o + 24, "qubits") == Ok(Read([Quantum(Q0)], o + 41))
    requires BitsAt(t, o + 41, "clbits") == Ok(Read([], o + 46))
    requires o + 46 < |t| && t[o + 46] == CloseParen
    ensures GroupsAt(t, o + 24) == Ok(Read(([Q0], []), o + 47))
  {
    var qs := QubitsFrom([Quantum(Q0)]);
    assert qs.Ok? && qs.value[0] == Q0;
    assert qs.value == [Q0];
    GroupsParse(t, o + 24, Read([Quantum(Q0)], o + 41), Read([], o + 46));
  }

  /** The qubit `q[0]` joins bit lists that hold at most `q[0]` as index 0. */
  lemma TestJoin(op: Operation, s: State)
    requires (s.qubits == [] || s.qubits == [Q0]) && s.clbits == []
    ensures JoinBits(op, s, [Q0], []) == Parsed(CircuitInstruction(op, [0], []), s.(qubits := [Q0]))
  {
    assert InsertAll(s.qubits, [Q0]) == [Q0] by {
      assert [Q0][1..] == [];
    }
    assert QubitIndices([Q0]) == [0];
  }

  /** A test instruction from position `o`, read into bit lists that hold at most `q[0]`. */
  lemma TestInstruction(t: seq<Token>, o: nat, name: string, s: State)
    requires InstructionTokens(t, o, name) && name in BuiltinMatrices()
    requires s.pos == o + 2 && s.mtxMap == BuiltinMatrices()
    requires (s.qubits == [] || s.qubits == [Q0]) && s.clbits == []
    ensures InstructionAt(t, s) ==
              Ok(Parsed(CircuitInstruction(BuiltinGate(name), [0], []),
                        s.(pos := o + 47, operations := s.operations + [BuiltinGate(name)], qubits := [Q0])))
  {
    var op := s.(pos := o + 24, operations := s.operations + [BuiltinGate(name)]);
    TestOperation(t, o, name, s.(pos := o + 3));
    TestGroups(t, o);
    TestBits(t, o);
    InstructionParses(t, s, Parsed(BuiltinGate(name), op), Read(([Q0], []), o + 47));
    TestJoin(BuiltinGate(name), op.(pos := o + 47));
  }

  /** The one-`x` input once its instruction is known to parse. */
  lemma XParse(t: seq<Token>, s: State)
    requires |t| == 48 && t[0] == OpenBracket && t[1] == Identifier("CircuitInstruction") &&
             t[47] == CloseBracket && s.pos == 0
    requires InstructionAt(t, s.(pos := 2)) ==
               Ok(Parsed(CircuitInstruction(X_GATE, [0], []),
                         s.(pos := 47, operations := s.operations + [X_GATE], qubits := [Q0])))
    ensures ParseAt(t, s) ==
              Ok(Parsed([CircuitInstruction(X_GATE, [0], [])],
                        s.(pos := 48, operations := s.operations + [X_GATE], qubits := [Q0])))
  {
    assert ParseAt(t, s) == InstructionsFrom(t, s.(pos := 1));
    OneInstructionParses(t, s.(pos := 1), CircuitInstruction(X_GATE, [0], []),
                         s.(pos := 47, operations := s.operations + [X_GATE], qubits := [Q0]));
  }

  /** The one-`x` test: one instruction, the `x` gate on qubit index 0, no clbits. */
  lemma SingleQubitOneGate(t: seq<Token>)
    requires IsXTokens(t)
    ensures var r := ParseAt(t, StartState(None));
            r.Ok? && r.value.value == [CircuitInstruction(X_GATE, [0], [])] &&
            r.value.state.qubits == [Q0] && r.value.state.clbits == []
  {
    var s := StartState(None);
    TestInstruction(t, 0, "x", s.(pos := 2));
    XParse(t, s);
  }

  /** The loop of the `x`-then-`y` input after its first instruction: the comma is skipped,
      the `y` instruction is read, and `]` ends the loop. */
  lemma SecondInstruction(t: seq<Token>, s: State)
    requires IsXYTokens(t)
    requires s.pos == 47 && s.mtxMap == BuiltinMatrices() && s.qubits == [Q0] && s.clbits == []
    ensures InstructionsFrom(t, s) ==
              Ok(Parsed([CircuitInstruction(Y_GATE, [0], [])],
                        s.(pos := 95, operations := s.operations + [Y_GATE])))
  {
    var second := s.(pos := 94, operations := s.operations + [Y_GATE]);
    LoopStep(t, s);
    TestInstruction(t, 47, "y", s.(pos := 49));
    OneInstructionParses(t, s.(pos := 48), CircuitInstruction(Y_GATE, [0], []), second);
  }

  /** The `x`-then-`y` input once its first instruction and the rest of the loop are known. */
  lemma XYParse(t: seq<Token>, s: State, first: State, last: State)
    requires 2 < |t| && t[0] == OpenBracket && t[1] == Identifier("CircuitInstruction") && s.pos == 0
    requires InstructionAt(t, s.(pos := 2)) == Ok(Parsed(CircuitInstruction(X_GATE, [0], []), first))
    requires first.pos <= |t|
    requires InstructionsFrom(t, first) == Ok(Parsed([CircuitInstruction(Y_GATE, [0], [])], last))
    ensures ParseAt(t, s) ==
              Ok(Parsed([CircuitInstruction(X_GATE, [0], []), CircuitInstruction(Y_GATE, [0], [])], last))
  {
    var x := CircuitInstruction(X_GATE, [0], []);
    var y := CircuitInstruction(Y_GATE, [0], []);
    var open := s.(pos := 1);
    LoopStep(t, open);
    assert open.(pos := open.pos + 1) == s.(pos := 2);
    ListedStep(t, s.(pos := 2), Parsed(x, first));
    assert [x] + [y] == [x, y];
    assert InstructionsFrom(t, open) == Ok(Parsed([x, y], last));
  }

  /** The `x`-then-`y` test: two instructions, the `x` gate and then the `y` gate, each on
      qubit index 0 with no clbits; the qubit list holds `q[0]` once. */
  lemma SingleQubitTwoGates(t: seq<Token>)
    requires IsXYTokens(t)
    ensures var r := ParseAt(t, StartState(None));
            r.Ok? &&
            r.value.value == [CircuitInstruction(X_GATE, [0], []), CircuitInstruction(Y_GATE, [0], [])] &&
            r.value.state.qubits == [Q0] && r.value.state.clbits == []
  {
    var s := StartState(None);
    var s2 := s.(pos := 2);
    TestInstruction(t, 0, "x", s2);
    var first := s2.(pos := 47, operations := s2.operations + [X_GATE], qubits := [Q0]);
    SecondInstruction(t, first);
    XYParse(t, s, first, first.(pos := 95, operations := first.operations + [Y_GATE]));
  }



  class QuantumCircuit {
    var instr: seq<Instr>
    var qubits: seq<Qubit>
    var clbits: seq<Clbit>

    /** The struct literal at the end of `new`. */
    constructor (instr: seq<Instr>, qubits: seq<Qubit>, clbits: seq<Clbit>)
      ensures this.instr == instr && this.qubits == qubits && this.clbits == clbits
    {
      this.instr := instr;
      this.qubits := qubits;
      this.clbits := clbits;
    }

    /** Neither bit list holds a bit twice. */
    ghost predicate Valid()
      reads this
    {
      NoDuplicates(qubits) && NoDuplicates(clbits)
    }

    /** `QuantumCircuit::new`. */
    static method New(input: string, customGates: Option<seq<Gate>>) returns (r: Outcome<QuantumCircuit>)
      ensures match CircuitOf(input, customGates)
              case Ok(p) =>
                r.Ok? && fresh(r.value) && r.value.instr == p.value &&
                r.value.qubits == p.state.qubits && r.value.clbits == p.state.clbits
              case Panic(msg) => r == Panic(msg)
      ensures r.Ok? ==> r.value.Valid()
    {
      var operations := SeedOperations(customGates);
      var tokenizer := new Tokenizer(Current, input);
      var tokens :- tokenizer.Tokenize();
      var parser := new Parser(tokens, operations, [], []);
      var parsed :- parser.Parse();
      CircuitListsDistinct(input, customGates);
      var circuit := new QuantumCircuit(parsed, parser.qubits, parser.clbits);
      return Ok(circuit);
    }

    /** `add_qubit`: appends the qubit unless it is already there. */
    method AddQubit(qubit: Qubit)
      modifies this`qubits
      ensures qubits == Insert(old(qubits), qubit)
      ensures Valid() == old(Valid())
    {
      if NoDuplicates(qubits) {
        InsertKeepsNoDuplicates(qubits, qubit);
      }
      if qubit in qubits {
        return;
      }
      qubits := qubits + [qubit];
      assert NoDuplicates(qubits) ==> NoDuplicates(old(qubits)) by {
        assert old(qubits) == qubits[..|qubits| - 1];
      }
    }

    /** `add_clbit`: appends the clbit unless it is already there. */
    method AddClbit(clbit: Clbit)
      modifies this`clbits
      ensures clbits == Insert(old(clbits), clbit)
      ensures Valid() == old(Valid())
    {
      if NoDuplicates(clbits) {
        InsertKeepsNoDuplicates(clbits, clbit);
      }
      if clbit in clbits {
        return;
      }
      clbits := clbits + [clbit];
      assert NoDuplicates(clbits) ==> NoDuplicates(old(clbits)) by {
        assert old(clbits) == clbits[..|clbits| - 1];
      }
    }
  }
}
