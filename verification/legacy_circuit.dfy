/** The first front end, `src/quantumcircuit.rs`: a `QuantumCircuit` holding parsed
    instructions, a pool of `Instruction` gates with no metadata, and two bit lists, with its
    own recursive-descent parser over the tokens of the legacy tokenizer.

    The parser differs from the later ones in three ways that decide what it can read.
    `parse_key_value` skips no comma, so after `name='x'` the `,` stops it. `parse_bit` asks a
    regular expression to find `QuantumRegister(…)` inside a single identifier, which never
    holds a `(`, so every bit panics. And the legacy tokenizer splits `num_qubits` in two, so
    the key `num_qubits` is never found. `parse_circuit_instruction` ends without returning
    a value; the model returns the parts it has read as a `Parsed` record.
 */
module LegacyCircuit {
  import opened Outcomes
  import opened Text
  import opened Strings
  import opened Tokenizer
  import opened TokenCursor
  import opened Bits
  import opened Instructions
  import opened Pool

  const UNEXPECTED_GROUP_TOKEN := "Unexpected token in group: {:?}"
  const UNEXPECTED_BIT_TYPE := "Unexpected bit type: {:?}"
  const EXPECTED_BIT_TYPE := "Expected bit type but got None"

  /** What `parse_circuit_instruction` has read: the operation and the two bit groups. */
  datatype Parsed = Parsed(operation: Instruction, qubits: seq<Bit>, clbits: seq<Bit>)

  /** `xs` in front of a successful outcome; a panic stays a panic. */
  function Prepend<T>(xs: seq<T>, r: Outcome<Read<seq<T>>>): Outcome<Read<seq<T>>> {
    if r.Ok? then Ok(Read(xs + r.value.value, r.value.next)) else r
  }

  lemma PrependAppend<T>(xs: seq<T>, x: T, r: Outcome<Read<seq<T>>>)
    ensures Prepend(xs, Prepend([x], r)) == Prepend(xs + [x], r)
  {
    if r.Ok? {
      assert xs + ([x] + r.value.value) == (xs + [x]) + r.value.value;
    }
  }

  lemma PrependNothing<T>(r: Outcome<Read<seq<T>>>)
    ensures Prepend([], r) == r
  {
    if r.Ok? {
      assert [] + r.value.value == r.value.value;
    }
  }

  // ---------------------------------------------------------------------------------------
  // The register pattern of `parse_bit`

  /** Whether `name` ends at position `i` of `s`. */
  predicate EndsAt(s: string, i: nat, name: string) {
    |name| <= i <= |s| && s[i - |name|..i] == name
  }

  predicate IsRegisterName(s: string) {
    s == "QuantumRegister" || s == "ClassicalRegister" || s == "AncillaRegister"
  }

  /** Whether `(QuantumRegister|ClassicalRegister|AncillaRegister)\((.*?)\)` matches somewhere
      in `s`: a register name, `(`, any characters but a line break, and `)`. */
  predicate MatchesRegisterPattern(s: string) {
    exists i, j :: 0 <= i < j < |s| && s[i] == '(' && s[j] == ')' &&
      (EndsAt(s, i, "QuantumRegister") || EndsAt(s, i, "ClassicalRegister") || EndsAt(s, i, "AncillaRegister")) &&
      forall k :: i < k < j ==> s[k] != '\n'
  }

  /** The pattern needs a `(`, so text without one never matches. */
  lemma MatchNeedsParen(s: string)
    requires forall k :: 0 <= k < |s| ==> s[k] != '('
    ensures !MatchesRegisterPattern(s)
  {
  }

  /** No register name matches the pattern on its own. */
  lemma RegisterNamesDoNotMatch(s: string)
    requires IsRegisterName(s)
    ensures !MatchesRegisterPattern(s)
  {
    assert forall k :: 0 <= k < |s| ==> s[k] != '(';
    MatchNeedsParen(s);
  }

  /** The final `match bit_type.as_str()` of `parse_bit`: the bit of the named register kind.
      The register itself is not kept (see the module comment of `Bits`). */
  function RegisterBit(bitType: string, name: string, index: nat): (r: Outcome<Bit>)
    ensures r.Ok? <==> IsRegisterName(bitType)
    ensures r.Panic? ==> r.msg == UNEXPECTED_BIT_TYPE
    ensures bitType == "QuantumRegister" ==> r == Ok(Quantum(Qubit(name, index)))
    ensures bitType == "ClassicalRegister" ==> r == Ok(Classical(Clbit(name, index)))
    ensures bitType == "AncillaRegister" ==> r == Ok(Ancilla(AncillaQubit(name, index)))
  {
    if bitType == "QuantumRegister" then Ok(Quantum(Qubit(name, index)))
    else if bitType == "ClassicalRegister" then Ok(Classical(Clbit(name, index)))
    else if bitType == "AncillaRegister" then Ok(Ancilla(AncillaQubit(name, index)))
    else Panic(UNEXPECTED_BIT_TYPE)
  }

  // ---------------------------------------------------------------------------------------
  // Bits and groups

  /** `parse_bit`: an identifier the register pattern matches, then `( <size> '<name>' ,
      <index> )`, then the register kind named by the whole identifier. */
  function BitAt(tokens: seq<Token>, pos: nat): (r: Outcome<Read<Bit>>)
    ensures r.Ok? ==> pos < r.value.next <= |tokens|
    ensures pos >= |tokens| || !tokens[pos].Identifier? ==> r == Panic(EXPECTED_BIT_TYPE)
    ensures pos < |tokens| && tokens[pos].Identifier? && !MatchesRegisterPattern(tokens[pos].name) ==>
              r == Panic(UNEXPECTED_BIT_FORMAT)
  {
    var n := NextAt(tokens, pos);
    if n.value.None? || !n.value.value.Identifier? then Panic(EXPECTED_BIT_TYPE)
    else if !MatchesRegisterPattern(n.value.value.name) then Panic(UNEXPECTED_BIT_FORMAT)
    else
      var open :- ExpectAt(tokens, n.next, OpenParen);
      var size :- ExpectNumberAt(tokens, open.next);
      var name :- ExpectStringAt(tokens, size.next);
      var comma :- ExpectAt(tokens, name.next, Comma);
      var index :- ExpectNumberAt(tokens, comma.next);
      var close :- ExpectAt(tokens, index.next, CloseParen);
      var bit :- RegisterBit(n.value.value.name, name.value, TruncateToIndex(index.value));
      Ok(Read(bit, close.next))
  }

  /** `parse_bit` panics whatever the tokens: an identifier the pattern matches holds a `(`,
      so it is no register name. */
  lemma BitAlwaysPanics(tokens: seq<Token>, pos: nat)
    ensures BitAt(tokens, pos).Panic?
  {
    if pos < |tokens| && tokens[pos].Identifier? && MatchesRegisterPattern(tokens[pos].name) {
      var name := tokens[pos].name;
      if IsRegisterName(name) {
        RegisterNamesDoNotMatch(name);
      }
      assert !IsRegisterName(name);
    }
  }

  /** An identifier from either tokenizer holds no `(`, so it panics with the format
      message. */
  lemma TokenizedBitPanics(d: Dialect, tokens: seq<Token>, pos: nat)
    requires pos < |tokens| && tokens[pos].Identifier? && IdentifierOf(d, tokens[pos])
    ensures BitAt(tokens, pos) == Panic(UNEXPECTED_BIT_FORMAT)
  {
    var name := tokens[pos].name;
    assert forall k :: 0 <= k < |name| ==> IdentChar(d, name[k]);
    MatchNeedsParen(name);
  }

  /** The `while let` loop of `parse_group`: `Qubit ( <bit>` entries until `)` or the end
      of the tokens; any other token panics. */
  function EntriesAt(tokens: seq<Token>, pos: nat): (r: Outcome<Read<seq<Bit>>>)
    requires pos <= |tokens|
    ensures r.Ok? ==> pos <= r.value.next <= |tokens|
    ensures pos == |tokens| ==> r == Ok(Read([], pos))
    ensures pos < |tokens| && tokens[pos] == CloseParen ==> r == Ok(Read([], pos + 1))
    ensures pos < |tokens| && tokens[pos] != CloseParen && tokens[pos] != Identifier("Qubit") ==>
              r == Panic(UNEXPECTED_GROUP_TOKEN)
    decreases |tokens| - pos
  {
    var n := NextAt(tokens, pos);
    if n.value.None? then Ok(Read([], n.next))
    else if n.value.value == Identifier("Qubit") then
      var open :- ExpectAt(tokens, n.next, OpenParen);
      var bit :- BitAt(tokens, open.next);
      Prepend([bit.value], EntriesAt(tokens, bit.next))
    else if n.value.value == CloseParen then Ok(Read([], n.next))
    else Panic(UNEXPECTED_GROUP_TOKEN)
  }

  /** Since every bit panics, the entry loop only ever succeeds with no bits. */
  lemma EntriesHoldNoBits(tokens: seq<Token>, pos: nat)
    requires pos <= |tokens|
    ensures EntriesAt(tokens, pos).Ok? ==> EntriesAt(tokens, pos).value.value == []
  {
    if pos < |tokens| && tokens[pos] == Identifier("Qubit") && pos + 1 < |tokens| && tokens[pos + 1] == OpenParen {
      BitAlwaysPanics(tokens, pos + 2);
    }
  }

  /** `parse_group(group)`: the header `, <group> = (`, the entries, then `)` and `,`. */
  function GroupAt(tokens: seq<Token>, pos: nat, group: string): (r: Outcome<Read<seq<Bit>>>)
    ensures r.Ok? ==> pos < r.value.next <= |tokens|
    ensures r.Ok? ==> pos + 4 <= |tokens| && tokens[pos..pos + 4] == GroupHeader(group)
    ensures r.Ok? ==> r.value.value == []
  {
    var header :- HeaderAt(tokens, pos, GroupHeader(group));
    EntriesHoldNoBits(tokens, header.next);
    var entries :- EntriesAt(tokens, header.next);
    var close :- ExpectAt(tokens, entries.next, CloseParen);
    var comma :- ExpectAt(tokens, close.next, Comma);
    Ok(Read(entries.value, comma.next))
  }

  // ---------------------------------------------------------------------------------------
  // Operations

  /** The parameters `parse_operation` keeps from the `params` value: the text split at
      commas, each piece trimmed, and only the pieces that parse as an `f64`. */
  function ParamsOf(value: Option<string>): (params: seq<string>)
    ensures forall k :: 0 <= k < |params| ==> IsFloatText(params[k])
  {
    FloatPieces(Split(if value.Some? then value.value else "", ","))
  }

  /** An absent value gives no parameters: its one empty piece is no number. */
  lemma NoValueNoParams()
    ensures ParamsOf(None) == []
  {
    assert Find("", ",") == None;
    assert Split("", ",") == [""];
    assert Trim("") == "";
    EmptyIsNoFloat();
    assert FloatPieces([""]) == FloatPieces([]);
  }

  /** `parse_operation`: `operation = Instruction (`, then `name`, `num_qubits`,
      `num_clbits` and `params` as key-value pairs with no comma skipped, then `)`. The name
      is a string literal, so its `unwrap` cannot fail. The record is built with no
      duration, unit or label. */
  function OperationAt(tokens: seq<Token>, pos: nat): (r: Outcome<Read<Instruction>>)
    ensures r.Ok? ==> pos < r.value.next <= |tokens|
    ensures r.Ok? ==> pos + 8 <= |tokens| && tokens[pos..pos + 4] == OPERATION_HEADER &&
                      tokens[pos + 4] == Identifier("name") && tokens[pos + 5] == Equals &&
                      tokens[pos + 6] == StringLiteral(r.value.value.name) &&
                      tokens[pos + 7] == Identifier("num_qubits")
    ensures r.Ok? ==> r.value.value.numQubits < Pow2(64) && r.value.value.numClbits < Pow2(64)
    ensures r.Ok? ==> r.value.value.duration.None? && r.value.value.unit.None? && r.value.value.tag.None?
    ensures r.Ok? ==> forall k :: 0 <= k < |r.value.value.params| ==> IsFloatText(r.value.value.params[k])
  {
    var header :- HeaderAt(tokens, pos, OPERATION_HEADER);
    var name :- KeyValueAt(tokens, header.next, "name", true, false);
    var numQubits :- CountAt(tokens, name.next, "num_qubits", false);
    var numClbits :- CountAt(tokens, numQubits.next, "num_clbits", false);
    var params :- KeyValueAt(tokens, numClbits.next, "params", false, false);
    var close :- ExpectAt(tokens, params.next, CloseParen);
    Ok(Read(Instruction(name.value.value, numQubits.value, numClbits.value, ParamsOf(params.value), None, None, None), close.next))
  }

  /** Qiskit's `name='x', num_qubits=…`: the comma after the name is not skipped, so the
      operation panics expecting `num_qubits`. */
  lemma QiskitOperationPanics(tokens: seq<Token>, pos: nat)
    requires pos + 8 <= |tokens| && tokens[pos..pos + 4] == OPERATION_HEADER
    requires tokens[pos + 4] == Identifier("name") && tokens[pos + 5] == Equals
    requires tokens[pos + 6].StringLiteral? && tokens[pos + 7] == Comma
    ensures OperationAt(tokens, pos) == Panic(UNEXPECTED_TOKEN)
  {
    assert HeaderAt(tokens, pos, OPERATION_HEADER) == Ok(Read((), pos + 4));
    assert KeyValueAt(tokens, pos + 4, "name", true, false) == Ok(Read(Some(tokens[pos + 6].text), pos + 7));
    assert CountAt(tokens, pos + 7, "num_qubits", false) == Panic(UNEXPECTED_TOKEN);
  }

  // ---------------------------------------------------------------------------------------
  // Instructions

  /** `parse_circuit_instruction`: `(`, the operation, the `qubits` and `clbits` groups,
      then `)`. */
  function InstructionAt(tokens: seq<Token>, pos: nat): (r: Outcome<Read<Parsed>>)
    ensures r.Ok? ==> pos < r.value.next <= |tokens|
    ensures r.Ok? ==> r.value.value.qubits == [] && r.value.value.clbits == []
    ensures r.Ok? ==> pos + 8 < |tokens| && tokens[pos + 8] == Identifier("num_qubits")
  {
    var open :- ExpectAt(tokens, pos, OpenParen);
    var operation :- OperationAt(tokens, open.next);
    var qubits :- GroupAt(tokens, operation.next, "qubits");
    var clbits :- GroupAt(tokens, qubits.next, "clbits");
    var close :- ExpectAt(tokens, clbits.next, CloseParen);
    Ok(Read(Parsed(operation.value, qubits.value, clbits.value), close.next))
  }

  /** Whether the identifier `num_qubits` occurs from `pos` on. */
  predicate NamesQubitCount(tokens: seq<Token>, pos: nat) {
    exists k :: pos <= k < |tokens| && tokens[k] == Identifier("num_qubits")
  }

  /** The loop of `parse`: one instruction per `CircuitInstruction` identifier, in order,
      other tokens skipped, up to the first `]`. Every instruction read has empty groups, and
      none is read unless the key `num_qubits` occurs as one identifier. */
  function InstructionsFrom(tokens: seq<Token>, pos: nat): (r: Outcome<Read<seq<Parsed>>>)
    requires pos <= |tokens|
    ensures r.Ok? ==> pos <= r.value.next <= |tokens|
    ensures r.Ok? ==> forall k :: 0 <= k < |r.value.value| ==>
                        r.value.value[k].qubits == [] && r.value.value[k].clbits == []
    ensures r.Ok? && r.value.value != [] ==> NamesQubitCount(tokens, pos)
    decreases |tokens| - pos, 1
  {
    if pos >= |tokens| then Ok(Read([], pos))
    else if tokens[pos] == Identifier("CircuitInstruction") then ListedFrom(tokens, pos + 1)
    else if tokens[pos] == CloseBracket then Ok(Read([], pos + 1))
    else InstructionsFrom(tokens, pos + 1)
  }

  /** The loop's arm for a `CircuitInstruction` identifier: the instruction, then the rest of
      the loop. */
  function ListedFrom(tokens: seq<Token>, pos: nat): (r: Outcome<Read<seq<Parsed>>>)
    requires pos <= |tokens|
    ensures r.Ok? ==> pos <= r.value.next <= |tokens|
    ensures r.Ok? ==> forall k :: 0 <= k < |r.value.value| ==>
                        r.value.value[k].qubits == [] && r.value.value[k].clbits == []
    ensures r.Ok? ==> r.value.value != [] && NamesQubitCount(tokens, pos)
    decreases |tokens| - pos, 0
  {
    var first :- InstructionAt(tokens, pos);
    var rest := InstructionsFrom(tokens, first.next);
    Prepend([first.value], rest)
  }

  /** `parse`: a leading `[`, then the instruction loop. */
  function ParseAt(tokens: seq<Token>): (r: Outcome<Read<seq<Parsed>>>)
    ensures r.Ok? ==> 0 < |tokens| && tokens[0] == OpenBracket
    ensures r.Ok? ==> forall k :: 0 <= k < |r.value.value| ==>
                        r.value.value[k].qubits == [] && r.value.value[k].clbits == []
    ensures r.Ok? && r.value.value != [] ==> NamesQubitCount(tokens, 0)
  {
    var open :- ExpectAt(tokens, 0, OpenBracket);
    InstructionsFrom(tokens, open.next)
  }

  /** What `QuantumCircuit::new` parses: the legacy tokens of `input`, read by `parse`. */
  function CircuitOf(input: string): Outcome<Read<seq<Parsed>>> {
    var tokens :- Tokenize(Legacy, input);
    ParseAt(tokens)
  }

  /** The legacy front end never yields an instruction: its tokenizer drops `_`, so no
      token is the key `num_qubits` that every operation must name. */
  lemma CircuitHasNoInstructions(input: string)
    ensures CircuitOf(input).Ok? ==> CircuitOf(input).value.value == []
  {
    var tokens := Tokenize(Legacy, input);
    if tokens.Ok? {
      TokensNonEmpty(Legacy, input, 0);
      var t := tokens.value;
      forall k | 0 <= k < |t|
        ensures t[k] != Identifier("num_qubits")
      {
        assert IdentifierOf(Legacy, t[k]);
        assert !IdentChar(Legacy, "num_qubits"[3]);
      }
    }
  }

  /** Qiskit's printed form `[CircuitInstruction(operation=Instruction(name='x', …` stops at
      the comma after the name. */
  lemma QiskitListPanics(tokens: seq<Token>)
    requires 11 <= |tokens| && tokens[0] == OpenBracket && tokens[1] == Identifier("CircuitInstruction")
    requires tokens[2] == OpenParen && tokens[3..7] == OPERATION_HEADER
    requires tokens[7] == Identifier("name") && tokens[8] == Equals && tokens[9].StringLiteral?
    requires tokens[10] == Comma
    ensures ParseAt(tokens) == Panic(UNEXPECTED_TOKEN)
  {
    QiskitOperationPanics(tokens, 3);
    assert InstructionAt(tokens, 2) == Panic(UNEXPECTED_TOKEN);
    assert InstructionsFrom(tokens, 1) == ListedFrom(tokens, 2);
  }

  // ---------------------------------------------------------------------------------------
  // The parser

  /** `Parser`: the token vector and its `pos` field. */
  class Parser {
    const cursor: Cursor

    /** `Parser::new` after tokenizing. */
    constructor (tokens: seq<Token>)
      ensures fresh(cursor) && cursor.tokens == tokens && cursor.pos == 0
    {
      cursor := new Cursor(tokens);
    }

    /** `parse_bit`. */
    method ParseBit() returns (r: Outcome<Bit>)
      modifies cursor
      ensures Agrees(BitAt(cursor.tokens, old(cursor.pos)), r, cursor.pos)
    {
      var t := cursor.NextToken();
      if t.None? || !t.value.Identifier? {
        return Panic(EXPECTED_BIT_TYPE);
      }
      var bitType := t.value.name;
      if !MatchesRegisterPattern(bitType) {
        return Panic(UNEXPECTED_BIT_FORMAT);
      }
      var _ :- cursor.ExpectToken(OpenParen);
      var _ :- cursor.ExpectNumber();
      var name :- cursor.ExpectString();
      var _ :- cursor.ExpectToken(Comma);
      var index :- cursor.ExpectNumber();
      var _ :- cursor.ExpectToken(CloseParen);
      r := RegisterBit(bitType, name, TruncateToIndex(index));
    }

    /** The `while let` loop of `parse_group`. */
    method ParseEntries() returns (r: Outcome<seq<Bit>>)
      requires cursor.pos <= |cursor.tokens|
      modifies cursor
      ensures Agrees(EntriesAt(cursor.tokens, old(cursor.pos)), r, cursor.pos)
    {
      ghost var start := cursor.pos;
      var group := [];
      PrependNothing(EntriesAt(cursor.tokens, start));
      while true
        invariant start <= cursor.pos <= |cursor.tokens|
        invariant EntriesAt(cursor.tokens, start) == Prepend(group, EntriesAt(cursor.tokens, cursor.pos))
        decreases |cursor.tokens| - cursor.pos
      {
        ghost var before := cursor.pos;
        var t := cursor.NextToken();
        if t.None? {
          assert group + [] == group;
          return Ok(group);
        }
        if t.value == Identifier("Qubit") {
          var _ :- cursor.ExpectToken(OpenParen);
          var bit :- ParseBit();
          PrependAppend(group, bit, EntriesAt(cursor.tokens, cursor.pos));
          group := group + [bit];
        } else if t.value == CloseParen {
          assert group + [] == group;
          return Ok(group);
        } else {
          return Panic(UNEXPECTED_GROUP_TOKEN);
        }
      }
    }

    /** `parse_group(group)`. */
    method ParseGroup(group: string) returns (r: Outcome<seq<Bit>>)
      modifies cursor
      ensures Agrees(GroupAt(cursor.tokens, old(cursor.pos), group), r, cursor.pos)
    {
      var _ :- cursor.ExpectHeader(GroupHeader(group));
      var entries :- ParseEntries();
      var _ :- cursor.ExpectToken(CloseParen);
      var _ :- cursor.ExpectToken(Comma);
      return Ok(entries);
    }

    /** `parse_operation`. */
    method ParseOperation() returns (r: Outcome<Instruction>)
      modifies cursor
      ensures Agrees(OperationAt(cursor.tokens, old(cursor.pos)), r, cursor.pos)
    {
      var _ :- cursor.ExpectHeader(OPERATION_HEADER);
      var name :- cursor.ParseKeyValue("name", true, false);
      var numQubits :- cursor.ParseCount("num_qubits", false);
      var numClbits :- cursor.ParseCount("num_clbits", false);
      var params :- cursor.ParseKeyValue("params", false, false);
      var _ :- cursor.ExpectToken(CloseParen);
      return Ok(Instruction(name.value, numQubits, numClbits, ParamsOf(params), None, None, None));
    }

    /** `parse_circuit_instruction`. */
    method ParseCircuitInstruction() returns (r: Outcome<Parsed>)
      modifies cursor
      ensures Agrees(InstructionAt(cursor.tokens, old(cursor.pos)), r, cursor.pos)
    {
      var _ :- cursor.ExpectToken(OpenParen);
      var operation :- ParseOperation();
      var qubits :- ParseGroup("qubits");
      var clbits :- ParseGroup("clbits");
      var _ :- cursor.ExpectToken(CloseParen);
      return Ok(Parsed(operation, qubits, clbits));
    }

    /** The loop's arm for a `CircuitInstruction` identifier: one more instruction. */
    method AppendInstruction(ghost start: nat, instructions: seq<Parsed>) returns (r: Outcome<seq<Parsed>>)
      requires start <= cursor.pos <= |cursor.tokens|
      requires InstructionsFrom(cursor.tokens, start) == Prepend(instructions, ListedFrom(cursor.tokens, cursor.pos))
      modifies cursor
      ensures r.Ok? ==> old(cursor.pos) <= cursor.pos <= |cursor.tokens|
      ensures r.Ok? ==> InstructionsFrom(cursor.tokens, start) == Prepend(r.value, InstructionsFrom(cursor.tokens, cursor.pos))
      ensures r.Panic? ==> InstructionsFrom(cursor.tokens, start) == Panic(r.msg)
    {
      var instruction :- ParseCircuitInstruction();
      PrependAppend(instructions, instruction, InstructionsFrom(cursor.tokens, cursor.pos));
      return Ok(instructions + [instruction]);
    }

    /** `parse`. */
    method Parse() returns (r: Outcome<seq<Parsed>>)
      requires cursor.pos == 0
      modifies cursor
      ensures Agrees(ParseAt(cursor.tokens), r, cursor.pos)
      ensures r.Ok? ==> forall k :: 0 <= k < |r.value| ==> r.value[k].qubits == [] && r.value[k].clbits == []
    {
      var _ :- cursor.ExpectToken(OpenBracket);
      ghost var start := cursor.pos;
      var instructions := [];
      PrependNothing(InstructionsFrom(cursor.tokens, start));
      while cursor.pos < |cursor.tokens|
        invariant start <= cursor.pos <= |cursor.tokens|
        invariant InstructionsFrom(cursor.tokens, start) ==
                  Prepend(instructions, InstructionsFrom(cursor.tokens, cursor.pos))
        decreases |cursor.tokens| - cursor.pos
      {
        var turn, done := Turn(start, instructions);
        if turn.Panic? || done {
          return turn;
        }
        instructions := turn.value;
      }
      assert instructions + [] == instructions;
      return Ok(instructions);
    }

    /** One turn of the loop of `parse`, by the token under the cursor. */
    method Turn(ghost start: nat, instructions: seq<Parsed>) returns (r: Outcome<seq<Parsed>>, done: bool)
      requires start <= cursor.pos < |cursor.tokens|
      requires InstructionsFrom(cursor.tokens, start) == Prepend(instructions, InstructionsFrom(cursor.tokens, cursor.pos))
      modifies cursor
      ensures r.Ok? ==> old(cursor.pos) < cursor.pos <= |cursor.tokens|
      ensures r.Ok? && !done ==>
                InstructionsFrom(cursor.tokens, start) == Prepend(r.value, InstructionsFrom(cursor.tokens, cursor.pos))
      ensures r.Ok? && done ==> InstructionsFrom(cursor.tokens, start) == Ok(Read(r.value, cursor.pos))
      ensures r.Panic? ==> InstructionsFrom(cursor.tokens, start) == Panic(r.msg)
    {
      var token := cursor.NextToken();
      done := false;
      if token.value == Identifier("CircuitInstruction") {
        r := AppendInstruction(start, instructions);
      } else if token.value == CloseBracket {
        assert instructions + [] == instructions;
        r, done := Ok(instructions), true;
      } else {
        r := Ok(instructions);
      }
    }
  }

  // ---------------------------------------------------------------------------------------
  // The circuit

  /** `QuantumCircuit`: the parsed instructions, a pool of `Instruction` gates whose
      metadata is `()`, and the two bit lists. */
  class QuantumCircuit {
    var instr: seq<Parsed>
    const gates: Pool<Instruction, ()>
    var qubits: seq<Qubit>
    var clbits: seq<Clbit>

    constructor (instr: seq<Parsed>, gates: Pool<Instruction, ()>)
      ensures this.instr == instr && this.gates == gates && qubits == [] && clbits == []
    {
      this.instr := instr;
      this.gates := gates;
      qubits := [];
      clbits := [];
    }

    /** `QuantumCircuit::new`: parse the legacy tokens of `input`, then create the gate
        pool, whose `Instruction` slots take `instructionSize` bytes and whose `()` metadata
        takes none. */
    static method New(input: string, instructionSize: nat) returns (r: Outcome<QuantumCircuit>)
      ensures CircuitOf(input).Panic? ==> r == Panic(CircuitOf(input).msg)
      ensures CircuitOf(input).Ok? ==>
                r.Ok? && fresh(r.value) && r.value.instr == CircuitOf(input).value.value &&
                r.value.qubits == [] && r.value.clbits == []
      ensures r.Ok? ==>
                fresh(r.value.gates) && r.value.gates.Valid() && r.value.gates.adds == 0 &&
                r.value.gates.contents.elemSize == instructionSize && r.value.gates.metadata.elemSize == 0
      ensures r.Ok? ==> r.value.instr == []
    {
      var tokenizer := new Tokenizer(Legacy, input);
      var tokens :- tokenizer.Tokenize();
      var parser := new Parser(tokens);
      var instr :- parser.Parse();
      CircuitHasNoInstructions(input);
      var gates := new Pool<Instruction, ()>(instructionSize, 0);
      var circuit := new QuantumCircuit(instr, gates);
      return Ok(circuit);
    }

    /** `add_gate`: adds the gate to the pool, and panics when the pool is full. */
    method AddGate(gate: Instruction) returns (r: Outcome<()>)
      requires gates.Valid()
      modifies gates, gates.contents, gates.metadata, gates.contents.slots
      ensures r.Ok? <==> HasRoom(old(gates.View()))
      ensures r.Panic? ==> r.msg == ARENA_EXHAUSTED
      ensures r.Ok? ==> gates.Valid() && gates.adds == old(gates.adds) + 1 &&
                        AddToView(old(gates.View()), gate) == Ok((gates.View(), AddedHandle(old(gates.View()))))
    {
      var h :- gates.Add(gate);
      return Ok(());
    }
  }

  /** The handle `add` returns on a pool view: the next slot, or `Null` for zero-sized
      values. */
  function AddedHandle<Value>(v: PoolView<Value>): Handle {
    if v.valueSize == 0 then Null else At(v.adds)
  }
}
