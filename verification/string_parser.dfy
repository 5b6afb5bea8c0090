/** The string-based front end, `src/parser.rs`: it reads the `repr` of a Qiskit circuit's
    data by locating delimiters in the text, with no tokenizer.

    Every lookup is `str::find` followed by `unwrap`, and every slice between two found
    positions panics when they are out of order; both become `Panic` values here. Bits in
    this parser carry the register they belong to (`Qubit::new(register, index)`), which is
    what the module's own tests construct, so it declares its own `Qubit`, `Clbit`, `Bit`
    and `CircuitInstruction` records.
 */
module StringParser {
  import opened Outcomes
  import opened Text
  import opened Strings
  import opened Registers
  import Instructions
  import Bits

  /** A qubit or clbit of this parser: the register it was read from and its index. */
  datatype Qubit = Qubit(register: Register, index: nat)
  datatype Clbit = Clbit(register: Register, index: nat)

  /** `Bit` as `parse_bit` returns it. */
  datatype Bit = QuantumBit(qubit: Qubit) | ClassicalBit(clbit: Clbit)

  /** One parsed instruction: the operation and the bits it acts on. */
  datatype CircuitInstruction = CircuitInstruction(operation: Instructions.Instruction, qubits: seq<Qubit>, clbits: seq<Clbit>)

  const UNKNOWN_BIT_TYPE := "Unknown bit type"
  /** The message of a string slice whose start lies after its end. */
  const SLICE_ORDER := "begin <= end ({} <= {}) when slicing `{}`"

  /** Whether `end` occurs in `s` at or after position `a`. */
  predicate OccursFrom(s: string, end: string, a: nat) {
    exists j :: a <= j <= |s| && OccursAt(s, end, j)
  }

  /** Whether `start` occurs in `s` and `end` occurs after its first occurrence: what
      `extract_value` needs to return. */
  predicate Delimited(s: string, start: string, end: string) {
    match Find(s, start)
    case None => false
    case Some(i) => OccursFrom(s, end, i + |start|)
  }

  /** `extract_optional_value(s, start, end)`: the text that follows the first `start`, up
      to the first `end` after it or to the end of `s`; `None` when `start` does not occur. */
  function ExtractOptionalValue(s: string, start: string, end: string): (r: Option<string>)
    ensures r.None? <==> !Contains(s, start)
    ensures r.Some? ==>
      var a := Find(s, start).value + |start|;
      a + |r.value| <= |s| && s[a..a + |r.value|] == r.value &&
      (forall j :: a <= j < a + |r.value| ==> !OccursAt(s, end, j)) &&
      (a + |r.value| == |s| || OccursAt(s, end, a + |r.value|))
  {
    FindContains(s, start);
    match Find(s, start)
    case None => None
    case Some(i) =>
      var a := i + |start|;
      OccursInSuffix(s, end, a);
      match Find(s[a..], end)
      case Some(j) =>
        assert s[a..a + j] == s[a..][..j];
        Some(s[a..a + j])
      case None => Some(s[a..])
  }

  /** With an empty `end` the value is always empty: `""` occurs right where it starts. */
  lemma {:induction false} EmptyEndGivesEmpty(s: string, start: string)
    ensures Contains(s, start) ==> ExtractOptionalValue(s, start, "") == Some("")
  {
    var r := ExtractOptionalValue(s, start, "");
    if r.Some? {
      var a := Find(s, start).value + |start|;
      assert OccursAt(s, "", a);
    }
  }

  /** With an empty `start` the value is the prefix of `s` before the first `end`, or all
      of `s`. */
  lemma {:induction false} EmptyStartGivesPrefix(s: string, end: string)
    ensures ExtractOptionalValue(s, "", end) == Some(match Find(s, end) case Some(p) => s[..p] case None => s)
  {
    assert OccursAt(s, "", 0);
  }

  /** When `start` occurs but no `end` follows it, the value is the whole remainder. */
  lemma {:induction false} NoEndGivesRemainder(s: string, start: string, end: string)
    requires Contains(s, start) && !Delimited(s, start, end)
    ensures ExtractOptionalValue(s, start, end) == Some(s[Find(s, start).value + |start|..])
  {
    FindContains(s, start);
  }

  /** `extract_value(s, start, end)`: the same text as `extract_optional_value` when `end`
      follows `start`; a failed `unwrap` otherwise. */
  function ExtractValue(s: string, start: string, end: string): (r: Outcome<string>)
    ensures r.Ok? <==> Delimited(s, start, end)
    ensures r.Ok? ==> ExtractOptionalValue(s, start, end) == Some(r.value)
    ensures r.Ok? ==> OccursAt(s, end, Find(s, start).value + |start| + |r.value|)
    ensures r.Panic? ==> r.msg == UNWRAP_NONE
  {
    var i :- Unwrap(Find(s, start));
    var a := i + |start|;
    OccursInSuffix(s, end, a);
    var j :- Unwrap(Find(s[a..], end));
    assert OccursAt(s, end, a + j);
    assert s[a..a + j] == s[a..][..j];
    Ok(s[a..a + j])
  }

  /** `str::parse::<usize>().unwrap()`, with `usize` 64 bits wide. */
  function UnwrapUsize(text: string): (r: Outcome<nat>)
    ensures r.Ok? <==> IsUsizeText(text) && UsizeValue(text) < Pow2(64)
    ensures r.Ok? ==> r.value == UsizeValue(text)
    ensures r.Panic? ==> r.msg == PARSE_INT_PANIC
  {
    match ParseUnsigned(text, 64)
    case Some(v) => Ok(v)
    case None => Panic(PARSE_INT_PANIC)
  }

  /** `&s[a..b]`: panics when the start lies after the end. */
  function Slice(s: string, a: nat, b: nat): (r: Outcome<string>)
    requires a <= |s| && b <= |s|
    ensures r.Ok? <==> a <= b
    ensures r.Ok? ==> r.value == s[a..b]
    ensures r.Panic? ==> r.msg == SLICE_ORDER
  {
    if a <= b then Ok(s[a..b]) else Panic(SLICE_ORDER)
  }

  /** `parse_instruction`: the name between `name='` and `'`, the counts after
      `num_qubits=`/`num_clbits=` up to `, `, the float parameters between `params=[` and
      `]`, and the optional duration, unit and label. */
  function InstructionOf(s: string): (r: Outcome<Instructions.Instruction>)
    ensures r.Ok? ==> Delimited(s, "name='", "'") && ExtractOptionalValue(s, "name='", "'") == Some(r.value.name)
    ensures r.Ok? ==> CountIn(s, "num_qubits=") == Some(r.value.numQubits) && CountIn(s, "num_clbits=") == Some(r.value.numClbits)
    ensures r.Ok? ==>
      Delimited(s, "params=[", "]") &&
      r.value.params == FloatPieces(Split(ExtractOptionalValue(s, "params=[", "]").value, ","))
    ensures r.Ok? ==> (r.value.duration.Some? <==> DurationText(s).Some? && IsFloatText(DurationText(s).value))
    ensures r.Ok? ==> r.value.unit == ExtractOptionalValue(s, "unit='", "'") && r.value.tag == ExtractOptionalValue(s, "label='", "'")
    ensures !Delimited(s, "name='", "'") ==> r == Panic(UNWRAP_NONE)
  {
    var name :- ExtractValue(s, "name='", "'");
    var numQubitsText :- ExtractValue(s, "num_qubits=", ", ");
    var numQubits :- UnwrapUsize(numQubitsText);
    var numClbitsText :- ExtractValue(s, "num_clbits=", ", ");
    var numClbits :- UnwrapUsize(numClbitsText);
    var paramsText :- ExtractValue(s, "params=[", "]");
    var params := FloatPieces(Split(paramsText, ","));
    var duration := match DurationText(s) case Some(v) => if IsFloatText(v) then Some(v) else None case None => None;
    Ok(Instructions.Instruction(name, numQubits, numClbits, params, duration,
      ExtractOptionalValue(s, "unit='", "'"), ExtractOptionalValue(s, "label='", "'")))
  }

  /** The `usize` written after `key` up to the next `, `, when there is one that fits. */
  function CountIn(s: string, key: string): (n: Option<nat>)
    ensures n.Some? ==> n.value < Pow2(64)
    ensures n.Some? <==> Delimited(s, key, ", ") && IsUsizeText(ExtractOptionalValue(s, key, ", ").value) &&
                         UsizeValue(ExtractOptionalValue(s, key, ", ").value) < Pow2(64)
    ensures n.Some? ==> n.value == UsizeValue(ExtractOptionalValue(s, key, ", ").value)
  {
    match ExtractValue(s, key, ", ")
    case Ok(text) => ParseUnsigned(text, 64)
    case Panic(_) => None
  }

  /** The text after `duration=` up to `, `, if `duration=` occurs. */
  function DurationText(s: string): Option<string> {
    ExtractOptionalValue(s, "duration=", ", ")
  }

  /** `size` of a register: the text before the first `, `, parsed as a `u32`. */
  function SizeOf(s: string): (size: Option<u32>)
    ensures var t := ExtractOptionalValue(s, "", ", ");
      t.Some? && (size.Some? <==> IsUsizeText(t.value) && UsizeValue(t.value) < 0x1_0000_0000) &&
      (size.Some? ==> size.value as int == UsizeValue(t.value))
  {
    assert OccursAt(s, "", 0);
    Pow2Of32();
    match ExtractOptionalValue(s, "", ", ")
    case Some(v) => (match ParseUnsigned(v, 32) case Some(n) => Some(n as u32) case None => None)
    case None => None
  }

  lemma Pow2Of32()
    ensures Pow2(32) == 0x1_0000_0000
  {
    assert Pow2(8) == 256;
    assert Pow2(16) == 256 * Pow2(8);
    assert Pow2(24) == 256 * Pow2(16);
    assert Pow2(32) == 256 * Pow2(24);
  }

  /** `bits` of a register: the text after `bits=` up to an empty `end`, or `""`. */
  function BitsText(s: string): (t: string)
    ensures t == ""
  {
    EmptyEndGivesEmpty(s, "bits=");
    match ExtractOptionalValue(s, "bits=", "")
    case Some(v) => v
    case None => ""
  }

  /** `parse_quantum_register`: size, quoted name, and no bits, since the bit text is
      always empty. */
  function QuantumRegisterOf(s: string): (r: QuantumRegister)
    ensures r.bits == None
    ensures r.name == ExtractOptionalValue(s, "'", "'")
    ensures r.size == SizeOf(s)
  {
    var bitsText := BitsText(s);
    QuantumRegister(SizeOf(s), ExtractOptionalValue(s, "'", "'"), if bitsText == "" then None else assert false; None)
  }

  /** `parse_classical_register`, the same fields for a classical register. */
  function ClassicalRegisterOf(s: string): (r: ClassicalRegister)
    ensures r.bits == None
    ensures r.name == ExtractOptionalValue(s, "'", "'")
    ensures r.size == SizeOf(s)
  {
    var bitsText := BitsText(s);
    ClassicalRegister(SizeOf(s), ExtractOptionalValue(s, "'", "'"), if bitsText == "" then None else assert false; None)
  }

  /** The index text of a bit: after the `, ` that follows the register's `), `, up to `)`. */
  function IndexOf(s: string, registerEnd: nat): (r: Outcome<nat>)
    requires registerEnd <= |s|
    ensures r.Ok? ==>
      Delimited(s[registerEnd..], ", ", ")") &&
      var text := ExtractOptionalValue(s[registerEnd..], ", ", ")").value;
      IsUsizeText(text) && UsizeValue(text) == r.value
  {
    var text :- ExtractValue(s[registerEnd..], ", ", ")");
    UnwrapUsize(text)
  }

  /** `parse_qubit`: the quantum register between `QuantumRegister(` and the first `), `,
      then the index. */
  function QubitOf(s: string): (r: Outcome<Qubit>)
    ensures !Contains(s, "QuantumRegister(") || !Contains(s, "), ") ==> r == Panic(UNWRAP_NONE)
    ensures r.Ok? ==>
      Contains(s, "QuantumRegister(") && Contains(s, "), ") &&
      var a := Find(s, "QuantumRegister(").value + |"QuantumRegister("|;
      var b := Find(s, "), ").value;
      a <= b && r.value.register == Quantum(QuantumRegisterOf(s[a..b])) && IndexOf(s, b) == Ok(r.value.index)
  {
    FindContains(s, "QuantumRegister(");
    FindContains(s, "), ");
    var i :- Unwrap(Find(s, "QuantumRegister("));
    var registerEnd :- Unwrap(Find(s, "), "));
    var registerText :- Slice(s, i + |"QuantumRegister("|, registerEnd);
    var register := Quantum(QuantumRegisterOf(registerText));
    var index :- IndexOf(s, registerEnd);
    Ok(Qubit(register, index))
  }

  /** `parse_clbit`: the classical register between `ClassicalRegister(` and the first
      `), `, then the index. */
  function ClbitOf(s: string): (r: Outcome<Clbit>)
    ensures !Contains(s, "ClassicalRegister(") || !Contains(s, "), ") ==> r == Panic(UNWRAP_NONE)
    ensures r.Ok? ==>
      Contains(s, "ClassicalRegister(") && Contains(s, "), ") &&
      var a := Find(s, "ClassicalRegister(").value + |"ClassicalRegister("|;
      var b := Find(s, "), ").value;
      a <= b && r.value.register == Classical(ClassicalRegisterOf(s[a..b])) && IndexOf(s, b) == Ok(r.value.index)
  {
    FindContains(s, "ClassicalRegister(");
    FindContains(s, "), ");
    var i :- Unwrap(Find(s, "ClassicalRegister("));
    var registerEnd :- Unwrap(Find(s, "), "));
    var registerText :- Slice(s, i + |"ClassicalRegister("|, registerEnd);
    var register := Classical(ClassicalRegisterOf(registerText));
    var index :- IndexOf(s, registerEnd);
    Ok(Clbit(register, index))
  }

  /** The text `parse_bit` hands on: the prefix's leading copies and the trailing `)`
      characters removed. */
  function BitText(s: string, prefix: string): string
    requires |prefix| > 0
  {
    TrimEndMatches(TrimStartMatches(s, prefix), ')')
  }

  /** No text starts with both `Qubit(` and `Clbit(`. */
  lemma PrefixesExclusive(s: string)
    ensures !("Qubit(" <= s && "Clbit(" <= s)
  {
    if "Qubit(" <= s {
      assert s[0] == 'Q';
    }
  }

  /** `parse_bit`: a `Qubit(` prefix reads a qubit, a `Clbit(` prefix a clbit, and any
      other text panics. */
  function BitOf(s: string): (r: Outcome<Bit>)
    ensures !("Qubit(" <= s) && !("Clbit(" <= s) ==> r == Panic(UNKNOWN_BIT_TYPE)
    ensures r.Ok? ==> (r.value.QuantumBit? <==> "Qubit(" <= s) && (r.value.ClassicalBit? <==> "Clbit(" <= s)
    ensures "Qubit(" <= s ==> (r.Ok? <==> QubitOf(BitText(s, "Qubit(")).Ok?)
    ensures "Clbit(" <= s ==> (r.Ok? <==> ClbitOf(BitText(s, "Clbit(")).Ok?)
  {
    PrefixesExclusive(s);
    if "Qubit(" <= s then
      var q :- QubitOf(BitText(s, "Qubit("));
      Ok(QuantumBit(q))
    else if "Clbit(" <= s then
      var c :- ClbitOf(BitText(s, "Clbit("));
      Ok(ClassicalBit(c))
    else
      Panic(UNKNOWN_BIT_TYPE)
  }

  /** A piece of a split list with its trailing `)` and then `,` characters removed. */
  function Trimmed(piece: string): (t: string)
    ensures t <= piece
    ensures |t| == 0 || t[|t| - 1] != ','
  {
    TrimEndMatches(TrimEndMatches(piece, ')'), ',')
  }

  /** The body of the `parse_qubits` loop for one piece. */
  function QubitOfPiece(piece: string): Outcome<Qubit> {
    QubitOf(Trimmed(piece))
  }

  function ClbitOfPiece(piece: string): Outcome<Clbit> {
    ClbitOf(Trimmed(piece))
  }

  /** `parse_qubits`: one qubit per `Qubit(` in the text, in order. */
  function QubitsOf(s: string): (r: Outcome<seq<Qubit>>)
    ensures r.Ok? ==> |r.value| == |PiecesAfter(s, "Qubit(")|
    ensures r.Ok? ==> forall k :: 0 <= k < |r.value| ==> QubitOf(Trimmed(PiecesAfter(s, "Qubit(")[k])) == Ok(r.value[k])
    ensures !Contains(s, "Qubit(") ==> r == Ok([])
  {
    PiecesAfterEmpty(s, "Qubit(");
    Collect(PiecesAfter(s, "Qubit("), QubitOfPiece)
  }

  /** `parse_clbits`: one clbit per `Clbit(` in the text, in order. */
  function ClbitsOf(s: string): (r: Outcome<seq<Clbit>>)
    ensures r.Ok? ==> |r.value| == |PiecesAfter(s, "Clbit(")|
    ensures r.Ok? ==> forall k :: 0 <= k < |r.value| ==> ClbitOf(Trimmed(PiecesAfter(s, "Clbit(")[k])) == Ok(r.value[k])
    ensures !Contains(s, "Clbit(") ==> r == Ok([])
  {
    PiecesAfterEmpty(s, "Clbit(");
    Collect(PiecesAfter(s, "Clbit("), ClbitOfPiece)
  }

  /** The operation of a trimmed piece: between `operation=Instruction(` and `), qubits=`. */
  function OperationPart(c: string): (r: Outcome<Instructions.Instruction>)
    ensures r.Ok? ==>
      Contains(c, "operation=Instruction(") && Contains(c, "), qubits=") &&
      var a := Find(c, "operation=Instruction(").value + |"operation=Instruction("|;
      var b := Find(c, "), qubits=").value;
      a <= b && InstructionOf(c[a..b]) == r
  {
    FindContains(c, "operation=Instruction(");
    FindContains(c, "), qubits=");
    var operationStart :- Unwrap(Find(c, "operation=Instruction("));
    var operationEnd :- Unwrap(Find(c, "), qubits="));
    var operationText :- Slice(c, operationStart + |"operation=Instruction("|, operationEnd);
    InstructionOf(operationText)
  }

  /** The qubits of a trimmed piece: between `qubits=(` and `), clbits=`. */
  function QubitsPart(c: string): (r: Outcome<seq<Qubit>>)
    ensures r.Ok? ==>
      Contains(c, "qubits=(") && Contains(c, "), clbits=") &&
      var a := Find(c, "qubits=(").value + |"qubits=("|;
      var b := Find(c, "), clbits=").value;
      a <= b && QubitsOf(c[a..b]) == r
  {
    FindContains(c, "qubits=(");
    FindContains(c, "), clbits=");
    var qubitsStart :- Unwrap(Find(c, "qubits=("));
    var qubitsEnd :- Unwrap(Find(c, "), clbits="));
    var qubitsText :- Slice(c, qubitsStart + |"qubits=("|, qubitsEnd);
    QubitsOf(qubitsText)
  }

  /** The clbits of a trimmed piece: from `clbits=(` to the end. */
  function ClbitsPart(c: string): (r: Outcome<seq<Clbit>>)
    ensures r.Ok? ==> Contains(c, "clbits=(") && ClbitsOf(c[Find(c, "clbits=(").value + |"clbits=("|..]) == r
  {
    FindContains(c, "clbits=(");
    var clbitsStart :- Unwrap(Find(c, "clbits=("));
    ClbitsOf(c[clbitsStart + |"clbits=("|..])
  }

  /** The body of the `parse` loop for one piece after `CircuitInstruction(`: the piece is
      trimmed, then its operation, qubits and clbits are read in that order. */
  function InstructionOfPiece(piece: string): (r: Outcome<CircuitInstruction>)
    ensures r.Ok? <==> OperationPart(Trimmed(piece)).Ok? && QubitsPart(Trimmed(piece)).Ok? && ClbitsPart(Trimmed(piece)).Ok?
    ensures r.Ok? ==> r.value == CircuitInstruction(OperationPart(Trimmed(piece)).value,
      QubitsPart(Trimmed(piece)).value, ClbitsPart(Trimmed(piece)).value)
  {
    var c := Trimmed(piece);
    var operation :- OperationPart(c);
    var qubits :- QubitsPart(c);
    var clbits :- ClbitsPart(c);
    Ok(CircuitInstruction(operation, qubits, clbits))
  }

  /** The text `parse` splits: leading `[` and trailing `]` characters removed. */
  function Body(s: string): (b: string)
    ensures var a := |s| - |TrimStartChar(s, '[')|;
            a + |b| <= |s| && b == s[a..a + |b|] &&
            (forall k :: 0 <= k < a ==> s[k] == '[') &&
            (forall k :: a + |b| <= k < |s| ==> s[k] == ']')
    ensures |b| > 0 ==> b[0] != '[' && b[|b| - 1] != ']'
  {
    var t := TrimStartChar(s, '[');
    var b := TrimEndMatches(t, ']');
    assert s[|s| - |t|..|s| - |t| + |b|] == t[..|b|];
    b
  }

  /** `parse`: one instruction per `CircuitInstruction(` in the body, in order. */
  function ParseText(s: string): (r: Outcome<seq<CircuitInstruction>>)
    ensures r.Ok? ==> |r.value| == |PiecesAfter(Body(s), "CircuitInstruction(")|
    ensures r.Ok? ==> forall k :: 0 <= k < |r.value| ==>
      InstructionOfPiece(PiecesAfter(Body(s), "CircuitInstruction(")[k]) == Ok(r.value[k])
    ensures !Contains(Body(s), "CircuitInstruction(") ==> r == Ok([])
  {
    PiecesAfterEmpty(Body(s), "CircuitInstruction(");
    Collect(PiecesAfter(Body(s), "CircuitInstruction("), InstructionOfPiece)
  }

  /** `Parser`: it keeps the text it was created with, and `parse` reads the text it is
      given. */
  class Parser {
    const input: string

    constructor(input: string)
      ensures this.input == input
    {
      this.input := input;
    }

    /** `parse`: the loop over the pieces after `CircuitInstruction(`. */
    method Parse(s: string) returns (r: Outcome<seq<CircuitInstruction>>)
      ensures r == ParseText(s)
    {
      r := CollectEach(PiecesAfter(Body(s), "CircuitInstruction("), InstructionOfPiece);
    }

    /** `parse_qubits`: the loop over the pieces after `Qubit(`. */
    method ParseQubits(s: string) returns (r: Outcome<seq<Qubit>>)
      ensures r == QubitsOf(s)
    {
      r := CollectEach(PiecesAfter(s, "Qubit("), QubitOfPiece);
    }

    /** `parse_clbits`: the loop over the pieces after `Clbit(`. */
    method ParseClbits(s: string) returns (r: Outcome<seq<Clbit>>)
      ensures r == ClbitsOf(s)
    {
      r := CollectEach(PiecesAfter(s, "Clbit("), ClbitOfPiece);
    }
  }
}
