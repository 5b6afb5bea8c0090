/** `src/quantum_circuit/parser.rs`: the recursive-descent parser over the tokens of the
    current tokenizer.

    Besides its cursor the parser owns a matrix map seeded with the built-in gates, and it
    extends three lists the caller lends it: the operations, the circuit's qubits and its
    clbits. In the model those three are fields of the parser, set when it is created and
    read back by the caller. `State` is everything the parser changes; the `...At` functions
    state what each parsing method does to it.
 */
module CircuitParser {
  import opened Outcomes
  import opened Tokenizer
  import opened TokenCursor
  import opened Bits
  import opened Operations
  import opened Dedup
  import opened Instructions

  type Instr = CircuitInstruction<Operation>

  datatype State = State(
    pos: nat,
    mtxMap: map<string, Matrix>,
    operations: seq<Operation>,
    qubits: seq<Qubit>,
    clbits: seq<Clbit>)

  /** A parsing method's result and the state after it. */
  datatype Parsed<+T> = Parsed(value: T, state: State)

  /** `insert_gates!(mtx_map, hadamard, x, y, z, cx)`: each built-in gate under its name. */
  function BuiltinMatrices(): (m: map<string, Matrix>)
    ensures m.Keys == {"h", "x", "y", "z", "cx"}
    ensures forall name :: name in m ==> m[name] == Builtin(name)
  {
    map["h" := Builtin("h"), "x" := Builtin("x"), "y" := Builtin("y"), "z" := Builtin("z"), "cx" := Builtin("cx")]
  }

  /** `num_qubits=…, num_clbits=…`: read and discarded. */
  function CountsAt(tokens: seq<Token>, pos: nat): (r: Outcome<Read<()>>)
    ensures r.Ok? ==> pos < r.value.next <= |tokens|
  {
    var numQubits :- KeyValueAt(tokens, pos, "num_qubits", false, true);
    var numClbits :- KeyValueAt(tokens, numQubits.next, "num_clbits", false, true);
    Ok(Read((), numClbits.next))
  }

  /** The tokens `parse_operation` reads: `operation=Instruction(name='<n>', num_qubits=…,
      num_clbits=…, params=[…])`, giving the name and the parameters. The name is a string
      literal, so its `unwrap` cannot fail. */
  function OperationFieldsAt(tokens: seq<Token>, pos: nat): (r: Outcome<Read<(string, seq<Lexeme>)>>)
    ensures r.Ok? ==> pos < r.value.next <= |tokens|
    ensures r.Ok? ==> pos + 4 <= |tokens| && tokens[pos..pos + 4] == OPERATION_HEADER
  {
    var header :- HeaderAt(tokens, pos, OPERATION_HEADER);
    var name :- KeyValueAt(tokens, header.next, "name", true, true);
    var counts :- CountsAt(tokens, name.next);
    var params :- ParamsAt(tokens, counts.next);
    var close :- ExpectAt(tokens, params.next, CloseParen);
    Ok(Read((name.value.value, params.value), close.next))
  }

  /** `, num_qubits=<n>, num_clbits=<m>` as Qiskit prints it is read whole. */
  lemma CountsParse(tokens: seq<Token>, pos: nat)
    requires pos + 8 <= |tokens| &&
             tokens[pos] == Comma && tokens[pos + 1] == Identifier("num_qubits") &&
             tokens[pos + 2] == Equals && tokens[pos + 3].Number? &&
             tokens[pos + 4] == Comma && tokens[pos + 5] == Identifier("num_clbits") &&
             tokens[pos + 6] == Equals && tokens[pos + 7].Number?
    ensures CountsAt(tokens, pos) == Ok(Read((), pos + 8))
  {
    NumberKeyParses(tokens, pos, "num_qubits");
    NumberKeyParses(tokens, pos + 4, "num_clbits");
  }

  /** An operation without parameters, as Qiskit prints it, gives its name and no
      parameters. */
  lemma OperationFieldsParse(tokens: seq<Token>, pos: nat)
    requires pos + 21 <= |tokens| && tokens[pos..pos + 4] == OPERATION_HEADER &&
             tokens[pos + 4] == Identifier("name") && tokens[pos + 5] == Equals &&
             tokens[pos + 6].StringLiteral? &&
             CountsAt(tokens, pos + 7) == Ok(Read((), pos + 15)) &&
             tokens[pos + 15..pos + 19] == PARAMS_HEADER && tokens[pos + 19] == CloseBracket &&
             tokens[pos + 20] == CloseParen
    ensures OperationFieldsAt(tokens, pos) == Ok(Read((tokens[pos + 6].text, []), pos + 21))
  {
    StringKeyParses(tokens, pos + 4, "name");
  }

  /** What `parse_operation` does with the name and parameters it read: the gate takes the
      matrix the map holds for its name, an unknown name being first given a 2×2 zero matrix;
      the gate is appended to the operations and is the value returned. */
  function AddGate(s: State, name: string, params: seq<Lexeme>): (p: Parsed<Operation>)
    ensures p.state.pos == s.pos && p.state.qubits == s.qubits && p.state.clbits == s.clbits
    ensures p.state.operations == s.operations + [p.value]
    ensures p.value.GateOp? &&
            var g := p.value.gate;
            var m := p.state.mtxMap;
            g.name == name && g.params == params &&
            g.name in m && g.matrix == m[g.name] &&
            g.duration.None? && g.unit == DT && g.hamiltonian.None? &&
            (forall n :: n in s.mtxMap ==> n in m && m[n] == s.mtxMap[n]) &&
            m.Keys == s.mtxMap.Keys + {g.name} &&
            (g.name !in s.mtxMap ==> m[g.name] == Zeros(2, 2))
  {
    var mtxMap := if name in s.mtxMap then s.mtxMap else s.mtxMap[name := Zeros(2, 2)];
    var op := GateOp(Gate(name, params, None, DT, mtxMap[name], None));
    Parsed(op, s.(mtxMap := mtxMap, operations := s.operations + [op]))
  }

  /** `parse_operation`. */
  function OperationAt(tokens: seq<Token>, s: State): (r: Outcome<Parsed<Operation>>)
    ensures r.Ok? ==> s.pos < r.value.state.pos <= |tokens|
    ensures r.Ok? ==> r.value.state.operations == s.operations + [r.value.value]
    ensures r.Ok? ==> r.value.state.qubits == s.qubits && r.value.state.clbits == s.clbits
  {
    var fields :- OperationFieldsAt(tokens, s.pos);
    Ok(AddGate(s.(pos := fields.next), fields.value.0, fields.value.1))
  }

  /** The end of `parse_circuit_instruction`: each parsed bit joins its circuit list unless
      already there, and the instruction carries the indices of the whole lists. */
  function JoinBits(operation: Operation, s: State, parsedQubits: seq<Qubit>, parsedClbits: seq<Clbit>): (p: Parsed<Instr>)
    ensures p.state.pos == s.pos && p.state.operations == s.operations && p.state.mtxMap == s.mtxMap
    ensures p.value.operation == operation
    ensures Grows(s, p.state)
    ensures |p.state.qubits| <= |s.qubits| + |parsedQubits| && |p.state.clbits| <= |s.clbits| + |parsedClbits|
    ensures forall q :: q in p.state.qubits <==> q in s.qubits || q in parsedQubits
    ensures forall c :: c in p.state.clbits <==> c in s.clbits || c in parsedClbits
    ensures p.value.qubits == QubitIndices(p.state.qubits)
    ensures p.value.clbits == ClbitIndices(p.state.clbits)
  {
    var qubits := InsertAll(s.qubits, parsedQubits);
    var clbits := InsertAll(s.clbits, parsedClbits);
    InsertAllSpec(s.qubits, parsedQubits);
    InsertAllSpec(s.clbits, parsedClbits);
    InsertAllGrowth(s.qubits, parsedQubits);
    InsertAllGrowth(s.clbits, parsedClbits);
    Parsed(CircuitInstruction(operation, QubitIndices(qubits), ClbitIndices(clbits)),
           s.(qubits := qubits, clbits := clbits))
  }

  /** `parse_circuit_instruction`: `(operation=…, qubits=(…), clbits=(…))`. */
  function InstructionAt(tokens: seq<Token>, s: State): (r: Outcome<Parsed<Instr>>)
    ensures r.Ok? ==> s.pos < r.value.state.pos <= |tokens|
    ensures r.Ok? ==> r.value.state.operations == s.operations + [r.value.value.operation]
    ensures r.Ok? ==> Grows(s, r.value.state)
    ensures r.Ok? ==>
              |r.value.state.qubits| <= |s.qubits| + 1 && |r.value.state.clbits| <= |s.clbits| + 1
    ensures r.Ok? ==> r.value.value.qubits == QubitIndices(r.value.state.qubits)
    ensures r.Ok? ==> r.value.value.clbits == ClbitIndices(r.value.state.clbits)
  {
    var open :- ExpectAt(tokens, s.pos, OpenParen);
    var op :- OperationAt(tokens, s.(pos := open.next));
    var groups :- GroupsAt(tokens, op.state.pos);
    Ok(JoinBits(op.value, op.state.(pos := groups.next), groups.value.0, groups.value.1))
  }

  /** How parsing changes the circuit lists: earlier entries keep their places and a
      duplicate-free list stays duplicate-free. */
  ghost predicate Grows(s: State, t: State) {
    |s.qubits| <= |t.qubits| && t.qubits[..|s.qubits|] == s.qubits &&
    |s.clbits| <= |t.clbits| && t.clbits[..|s.clbits|] == s.clbits &&
    (NoDuplicates(s.qubits) ==> NoDuplicates(t.qubits)) &&
    (NoDuplicates(s.clbits) ==> NoDuplicates(t.clbits))
  }

  lemma GrowsTransitive(a: State, b: State, c: State)
    requires Grows(a, b) && Grows(b, c)
    ensures Grows(a, c)
  {
    assert c.qubits[..|a.qubits|] == c.qubits[..|b.qubits|][..|a.qubits|];
    assert c.clbits[..|a.clbits|] == c.clbits[..|b.clbits|][..|a.clbits|];
  }

  /** `instructions` in front of a successful outcome. */
  function Prepend(instructions: seq<Instr>, r: Outcome<Parsed<seq<Instr>>>): Outcome<Parsed<seq<Instr>>> {
    if r.Ok? then Ok(Parsed(instructions + r.value.value, r.value.state)) else r
  }

  /** The loop of `parse`: one instruction per `CircuitInstruction` identifier, in order,
      other tokens skipped, up to the first `]`. */
  function InstructionsFrom(tokens: seq<Token>, s: State): (r: Outcome<Parsed<seq<Instr>>>)
    requires s.pos <= |tokens|
    ensures r.Ok? ==> s.pos <= r.value.state.pos <= |tokens|
    decreases |tokens| - s.pos, 1
  {
    if s.pos >= |tokens| then Ok(Parsed([], s))
    else
      var next := s.(pos := s.pos + 1);
      if tokens[s.pos] == Identifier("CircuitInstruction") then ListedFrom(tokens, next)
      else if tokens[s.pos] == CloseBracket then Ok(Parsed([], next))
      else InstructionsFrom(tokens, next)
  }

  /** The loop's arm for a `CircuitInstruction` identifier: the instruction, then the rest of
      the loop. */
  function ListedFrom(tokens: seq<Token>, s: State): (r: Outcome<Parsed<seq<Instr>>>)
    requires s.pos <= |tokens|
    ensures r.Ok? ==> s.pos <= r.value.state.pos <= |tokens|
    decreases |tokens| - s.pos, 0
  {
    var first :- InstructionAt(tokens, s);
    Prepend([first.value], InstructionsFrom(tokens, first.state))
  }

  /** One turn of the loop. */
  lemma LoopStep(tokens: seq<Token>, s: State)
    requires s.pos < |tokens|
    ensures var next := s.(pos := s.pos + 1);
            InstructionsFrom(tokens, s) ==
              if tokens[s.pos] == Identifier("CircuitInstruction") then ListedFrom(tokens, next)
              else if tokens[s.pos] == CloseBracket then Ok(Parsed([], next))
              else InstructionsFrom(tokens, next)
  {
  }

  /** The arm for a `CircuitInstruction` identifier, once the instruction is read. */
  lemma ListedStep(tokens: seq<Token>, s: State, first: Parsed<Instr>)
    requires s.pos <= |tokens| && InstructionAt(tokens, s) == Ok(first)
    ensures ListedFrom(tokens, s) == Prepend([first.value], InstructionsFrom(tokens, first.state))
  {
  }

  /** What the loop promises of an outcome from state `s`: earlier list entries keep their
      places, the lists stay free of duplicates, and each parsed operation is appended in
      turn. */
  ghost predicate Keeps(s: State, r: Outcome<Parsed<seq<Instr>>>) {
    r.Ok? ==> r.value.state.operations == s.operations + OperationsOf(r.value.value) && Grows(s, r.value.state)
  }

  lemma PrependKeeps(s: State, first: Parsed<Instr>, rest: Outcome<Parsed<seq<Instr>>>)
    requires Grows(s, first.state) && first.state.operations == s.operations + [first.value.operation]
    requires Keeps(first.state, rest)
    ensures Keeps(s, Prepend([first.value], rest))
  {
    if rest.Ok? {
      GrowsTransitive(s, first.state, rest.value.state);
      assert OperationsOf([first.value] + rest.value.value) == [first.value.operation] + OperationsOf(rest.value.value);
    }
  }

  lemma {:induction false} InstructionsFromKeeps(tokens: seq<Token>, s: State)
    requires s.pos <= |tokens|
    ensures Keeps(s, InstructionsFrom(tokens, s))
    decreases |tokens| - s.pos, 1
  {
    if s.pos < |tokens| {
      var next := s.(pos := s.pos + 1);
      LoopStep(tokens, s);
      if tokens[s.pos] == Identifier("CircuitInstruction") {
        ListedFromKeeps(tokens, next);
      } else if tokens[s.pos] != CloseBracket {
        InstructionsFromKeeps(tokens, next);
      } else {
        assert next.qubits == s.qubits && next.clbits == s.clbits;
      }
    }
  }

  lemma {:induction false} ListedFromKeeps(tokens: seq<Token>, s: State)
    requires s.pos <= |tokens|
    ensures Keeps(s, ListedFrom(tokens, s))
    decreases |tokens| - s.pos, 0
  {
    var a := InstructionAt(tokens, s);
    if a.Ok? {
      InstructionsFromKeeps(tokens, a.value.state);
      PrependKeeps(s, a.value, InstructionsFrom(tokens, a.value.state));
    }
  }

  /** `parse`: a leading `[`, then the instruction loop. */
  function ParseAt(tokens: seq<Token>, s: State): (r: Outcome<Parsed<seq<Instr>>>)
    ensures r.Ok? ==> s.pos < |tokens| && tokens[s.pos] == OpenBracket
    // A list that opens with `[` is read by the loop from the next token on.
    ensures s.pos < |tokens| && tokens[s.pos] == OpenBracket ==> r == InstructionsFrom(tokens, s.(pos := s.pos + 1))
    ensures r.Ok? ==> r.value.state.operations == s.operations + OperationsOf(r.value.value)
    ensures r.Ok? ==> Grows(s, r.value.state)
  {
    var open :- ExpectAt(tokens, s.pos, OpenBracket);
    InstructionsFromKeeps(tokens, s.(pos := open.next));
    InstructionsFrom(tokens, s.(pos := open.next))
  }

  /** An instruction whose operation and bit groups parse joins those bits to the circuit
      lists. */
  lemma InstructionParses(tokens: seq<Token>, s: State, op: Parsed<Operation>, groups: Read<(seq<Qubit>, seq<Clbit>)>)
    requires s.pos < |tokens| && tokens[s.pos] == OpenParen
    requires OperationAt(tokens, s.(pos := s.pos + 1)) == Ok(op)
    requires GroupsAt(tokens, op.state.pos) == Ok(groups)
    ensures InstructionAt(tokens, s) ==
              Ok(JoinBits(op.value, op.state.(pos := groups.next), groups.value.0, groups.value.1))
  {
  }

  /** One instruction followed by `]` is read as that one instruction. */
  lemma OneInstructionParses(tokens: seq<Token>, s: State, instruction: Instr, t: State)
    requires s.pos + 1 < |tokens| && tokens[s.pos] == Identifier("CircuitInstruction")
    requires InstructionAt(tokens, s.(pos := s.pos + 1)) == Ok(Parsed(instruction, t))
    requires t.pos < |tokens| && tokens[t.pos] == CloseBracket
    ensures InstructionsFrom(tokens, s) == Ok(Parsed([instruction], t.(pos := t.pos + 1)))
  {
    LoopStep(tokens, t);
    assert [instruction] + [] == [instruction];
    ListedStep(tokens, s.(pos := s.pos + 1), Parsed(instruction, t));
    LoopStep(tokens, s);
  }

  /** A method's outcome and final state are the ones its function gives. */
  ghost predicate Reaches<T>(spec: Outcome<Parsed<T>>, r: Outcome<T>, s: State) {
    match spec
    case Ok(p) => r == Ok(p.value) && s == p.state
    case Panic(msg) => r == Panic(msg)
  }

  /** `Parser`. */
  class Parser {
    const cursor: Cursor
    var mtxMap: map<string, Matrix>
    var operations: seq<Operation>
    var qubits: seq<Qubit>
    var clbits: seq<Clbit>

    ghost function Snapshot(): State
      reads this, cursor
    {
      State(cursor.pos, mtxMap, operations, qubits, clbits)
    }

    /** `Parser::new` after tokenizing, with the lists `parse` is given. */
    constructor (tokens: seq<Token>, operations: seq<Operation>, qubits: seq<Qubit>, clbits: seq<Clbit>)
      ensures fresh(cursor)
      ensures Snapshot() == State(0, BuiltinMatrices(), operations, qubits, clbits)
      ensures cursor.tokens == tokens
    {
      cursor := new Cursor(tokens);
      mtxMap := BuiltinMatrices();
      this.operations := operations;
      this.qubits := qubits;
      this.clbits := clbits;
    }

    method ParseCounts() returns (r: Outcome<()>)
      modifies cursor
      ensures Agrees(CountsAt(cursor.tokens, old(cursor.pos)), r, cursor.pos)
    {
      var _ :- cursor.ParseKeyValue("num_qubits", false, true);
      var _ :- cursor.ParseKeyValue("num_clbits", false, true);
      return Ok(());
    }

    /** The token reading of `parse_operation`. */
    method ParseOperationFields() returns (r: Outcome<(string, seq<Lexeme>)>)
      modifies cursor
      ensures Agrees(OperationFieldsAt(cursor.tokens, old(cursor.pos)), r, cursor.pos)
    {
      var _ :- cursor.ExpectHeader(OPERATION_HEADER);
      var name :- cursor.ParseKeyValue("name", true, true);
      var _ :- ParseCounts();
      var params :- cursor.ParseParams();
      var _ :- cursor.ExpectToken(CloseParen);
      return Ok((name.value, params));
    }

    /** `parse_operation`. */
    method ParseOperation() returns (r: Outcome<Operation>)
      modifies this, cursor
      ensures Reaches(OperationAt(cursor.tokens, old(Snapshot())), r, Snapshot())
    {
      ghost var s0 := Snapshot();
      var fields :- ParseOperationFields();
      assert OperationFieldsAt(cursor.tokens, s0.pos) == Ok(Read(fields, cursor.pos));
      assert Snapshot() == s0.(pos := cursor.pos);
      var (name, params) := fields;
      var op := AddGateOp(name, params);
      return Ok(op);
    }

    /** The end of `parse_operation`: the gate joins the operations, its matrix taken from
        the map. */
    method AddGateOp(name: string, params: seq<Lexeme>) returns (op: Operation)
      modifies this`mtxMap, this`operations
      ensures AddGate(old(Snapshot()), name, params) == Parsed(op, Snapshot())
    {
      ghost var spec := AddGate(Snapshot(), name, params);
      if name !in mtxMap {
        mtxMap := mtxMap[name := Zeros(2, 2)];
      }
      op := GateOp(Gate(name, params, None, DT, mtxMap[name], None));
      operations := operations + [op];
      assert spec == Parsed(op, Snapshot());
      op := operations[|operations| - 1];
    }

    /** `parse_circuit_instruction`. */
    method ParseCircuitInstruction() returns (r: Outcome<Instr>)
      modifies this, cursor
      ensures Reaches(InstructionAt(cursor.tokens, old(Snapshot())), r, Snapshot())
    {
      var _ :- cursor.ExpectToken(OpenParen);
      var operation :- ParseOperation();
      var qubitGroup :- cursor.ParseBits("qubits");
      var parsedQubits :- QubitsFrom(qubitGroup);
      var clbitGroup :- cursor.ParseBits("clbits");
      var parsedClbits :- ClbitsFrom(clbitGroup);
      var _ :- cursor.ExpectToken(CloseParen);
      AddAll(parsedQubits, parsedClbits);
      return Ok(CircuitInstruction(operation, QubitIndices(qubits), ClbitIndices(clbits)));
    }

    /** The two `for` loops of `parse_circuit_instruction` that push each parsed bit not yet
        in its list. */
    method AddAll(parsedQubits: seq<Qubit>, parsedClbits: seq<Clbit>)
      modifies this
      ensures qubits == InsertAll(old(qubits), parsedQubits)
      ensures clbits == InsertAll(old(clbits), parsedClbits)
      ensures mtxMap == old(mtxMap) && operations == old(operations)
    {
      assert parsedQubits[0..] == parsedQubits && parsedClbits[0..] == parsedClbits;
      for i := 0 to |parsedQubits|
        invariant InsertAll(old(qubits), parsedQubits) == InsertAll(qubits, parsedQubits[i..])
        invariant clbits == old(clbits) && mtxMap == old(mtxMap) && operations == old(operations)
      {
        assert parsedQubits[i..][1..] == parsedQubits[i + 1..];
        InsertAllStep(qubits, parsedQubits[i..]);
        if parsedQubits[i] !in qubits {
          qubits := qubits + [parsedQubits[i]];
        }
      }
      assert parsedQubits[|parsedQubits|..] == [];
      for i := 0 to |parsedClbits|
        invariant InsertAll(old(clbits), parsedClbits) == InsertAll(clbits, parsedClbits[i..])
        invariant qubits == InsertAll(old(qubits), parsedQubits)
        invariant mtxMap == old(mtxMap) && operations == old(operations)
      {
        assert parsedClbits[i..][1..] == parsedClbits[i + 1..];
        InsertAllStep(clbits, parsedClbits[i..]);
        if parsedClbits[i] !in clbits {
          clbits := clbits + [parsedClbits[i]];
        }
      }
      assert parsedClbits[|parsedClbits|..] == [];
    }

    /** The arm of `parse`'s loop for a `CircuitInstruction` identifier. */
    method ParseListedInstruction() returns (r: Outcome<Instr>)
      requires cursor.pos <= |cursor.tokens|
      modifies this, cursor
      ensures r.Ok? ==> old(cursor.pos) < cursor.pos <= |cursor.tokens|
      ensures ListedFrom(cursor.tokens, old(Snapshot())) ==
                if r.Panic? then Panic(r.msg) else Prepend([r.value], InstructionsFrom(cursor.tokens, Snapshot()))
    {
      r := ParseCircuitInstruction();
    }

    /** `parse`. */
    method Parse() returns (r: Outcome<seq<Instr>>)
      modifies this, cursor
      ensures Reaches(ParseAt(cursor.tokens, old(Snapshot())), r, Snapshot())
    {
      var _ :- cursor.ExpectToken(OpenBracket);
      ghost var start := Snapshot();
      var instructions := [];
      assert Prepend(instructions, InstructionsFrom(cursor.tokens, start)) == InstructionsFrom(cursor.tokens, start) by {
        var spec := InstructionsFrom(cursor.tokens, start);
        if spec.Ok? {
          assert instructions + spec.value.value == spec.value.value;
        }
      }
      while cursor.pos < |cursor.tokens|
        invariant cursor.pos <= |cursor.tokens|
        invariant InstructionsFrom(cursor.tokens, start) ==
                  Prepend(instructions, InstructionsFrom(cursor.tokens, Snapshot()))
        decreases |cursor.tokens| - cursor.pos
      {
        ghost var before := Snapshot();
        var token := cursor.NextToken();
        if token.Some? {
          assert Snapshot() == before.(pos := before.pos + 1);
          LoopStep(cursor.tokens, before);
          if token.value == Identifier("CircuitInstruction") {
            var instruction :- ParseListedInstruction();
            PrependAppend(instructions, instruction, InstructionsFrom(cursor.tokens, Snapshot()));
            instructions := instructions + [instruction];
          } else if token.value == CloseBracket {
            assert instructions + [] == instructions;
            break;
          }
        }
      }
      if cursor.pos >= |cursor.tokens| {
        assert instructions + [] == instructions;
      }
      return Ok(instructions);
    }
  }

  lemma PrependAppend(instructions: seq<Instr>, i: Instr, r: Outcome<Parsed<seq<Instr>>>)
    ensures Prepend(instructions, Prepend([i], r)) == Prepend(instructions + [i], r)
  {
    if r.Ok? {
      assert instructions + ([i] + r.value.value) == (instructions + [i]) + r.value.value;
    }
  }
}
