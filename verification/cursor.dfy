/** The token cursor every recursive-descent parser of the repository repeats: the token
    vector, the `pos` field, and the helpers `next_token`, `expect_token`, `expect_string`,
    `expect_number`, `parse_key_value`, `parse_params` and `parse_bits`.

    The `...At` functions state what each helper does from a cursor position; the `Cursor`
    class runs the helpers step by step and each of its methods is proved to agree with its
    function. Panic messages are the source's format strings, without the `{:?}` values.
 */
module TokenCursor {
  import opened Outcomes
  import opened Text
  import opened Tokenizer
  import opened Bits

  /** A helper's result together with the cursor position after it. */
  datatype Read<+T> = Read(value: T, next: nat)

  const EXPECTED_TOKEN := "Expected token but got None"
  const UNEXPECTED_TOKEN := "Expected token {:?} but got {:?}"
  const EXPECTED_STRING := "Expected string but got None"
  const EXPECTED_NUMBER := "Expected number but got None"
  const UNEXPECTED_KEY_VALUE := "Unexpected token in key-value parsing"
  const UNEXPECTED_BIT_FORMAT := "Unexpected bit type format: {:?}"

  /** `next_token`: the token under the cursor, and the cursor one further; `None` and the
      cursor unchanged at the end. */
  function NextAt(tokens: seq<Token>, pos: nat): (r: Read<Option<Token>>)
    ensures r.value.Some? <==> pos < |tokens|
    ensures r.value.Some? ==> r.value.value == tokens[pos] && r.next == pos + 1
    ensures r.value.None? ==> r.next == pos
  {
    if pos < |tokens| then Read(Some(tokens[pos]), pos + 1) else Read(None, pos)
  }

  /** `expect_token`: consumes one token, which must be `expected`. */
  function ExpectAt(tokens: seq<Token>, pos: nat, expected: Token): (r: Outcome<Read<()>>)
    ensures r.Ok? <==> pos < |tokens| && tokens[pos] == expected
    ensures r.Ok? ==> r.value.next == pos + 1
    ensures r.Panic? ==> r.msg == if pos < |tokens| then UNEXPECTED_TOKEN else EXPECTED_TOKEN
  {
    var n := NextAt(tokens, pos);
    if n.value.None? then Panic(EXPECTED_TOKEN)
    else if n.value.value != expected then Panic(UNEXPECTED_TOKEN)
    else Ok(Read((), n.next))
  }

  /** `expect_string`: consumes one token, which must be a string literal. */
  function ExpectStringAt(tokens: seq<Token>, pos: nat): (r: Outcome<Read<string>>)
    ensures r.Ok? <==> pos < |tokens| && tokens[pos].StringLiteral?
    ensures r.Ok? ==> r.value == Read(tokens[pos].text, pos + 1)
    ensures r.Panic? ==> r.msg == EXPECTED_STRING
  {
    var n := NextAt(tokens, pos);
    if n.value.Some? && n.value.value.StringLiteral? then Ok(Read(n.value.value.text, n.next))
    else Panic(EXPECTED_STRING)
  }

  /** `expect_number`: consumes one token, which must be a number. */
  function ExpectNumberAt(tokens: seq<Token>, pos: nat): (r: Outcome<Read<Lexeme>>)
    ensures r.Ok? <==> pos < |tokens| && tokens[pos].Number?
    ensures r.Ok? ==> r.value == Read(tokens[pos].lexeme, pos + 1)
    ensures r.Panic? ==> r.msg == EXPECTED_NUMBER
  {
    var n := NextAt(tokens, pos);
    if n.value.Some? && n.value.value.Number? then Ok(Read(n.value.value.lexeme, n.next))
    else Panic(EXPECTED_NUMBER)
  }

  /** The text `parse_key_value` makes of a value token: a number's `Display` text, a
      literal's or an identifier's own text; `None` for punctuation. */
  function ValueText(t: Token): Option<string> {
    match t
    case Number(x) => Some(FloatDisplay(x))
    case StringLiteral(s) => Some(s)
    case Identifier(id) => Some(id)
    case _ => None
  }

  /** Where `parse_key_value` looks for the key: one leading comma is skipped when the
      dialect skips commas. */
  function KeyStart(tokens: seq<Token>, pos: nat, skipComma: bool): nat {
    if skipComma && pos < |tokens| && tokens[pos] == Comma then pos + 1 else pos
  }

  /** `parse_key_value(key, is_string)`. The parsers in `src/quantum_circuit/parser.rs` and
      `src/quantumcircuit/parser.rs` first skip one comma (`skipComma`), reading
      `tokens[pos]` unguarded; the one in `src/quantumcircuit.rs` does not. */
  function KeyValueAt(tokens: seq<Token>, pos: nat, key: string, isString: bool, skipComma: bool)
    : (r: Outcome<Read<Option<string>>>)
    ensures r.Ok? ==> pos < r.value.next <= |tokens|
    ensures skipComma && pos >= |tokens| ==> r == Panic(INDEX_OUT_OF_BOUNDS)
    // On success the key and `=` follow the (skipped) comma.
    ensures r.Ok? ==>
              var k := KeyStart(tokens, pos, skipComma);
              k + 2 <= |tokens| && tokens[k] == Identifier(key) && tokens[k + 1] == Equals
    // A string value must be a literal, and its text is the result.
    ensures r.Ok? && isString ==>
              var k := KeyStart(tokens, pos, skipComma);
              k + 2 < |tokens| && tokens[k + 2].StringLiteral? &&
              r.value == Read(Some(tokens[k + 2].text), k + 3)
    // Any other value is `None` exactly at the end of input, else the value token's text.
    ensures r.Ok? && !isString ==>
              var k := KeyStart(tokens, pos, skipComma);
              (r.value.value.None? <==> k + 2 == |tokens|) &&
              (r.value.value.None? ==> r.value.next == k + 2) &&
              (r.value.value.Some? ==> r.value.next == k + 3 && ValueText(tokens[k + 2]) == r.value.value)
    // Punctuation as a non-string value panics.
    ensures !isString && (!skipComma || pos < |tokens|) ==>
              var k := KeyStart(tokens, pos, skipComma);
              k + 2 < |tokens| && tokens[k] == Identifier(key) && tokens[k + 1] == Equals ==>
                (r.Panic? <==> ValueText(tokens[k + 2]).None?)
  {
    if skipComma && pos >= |tokens| then Panic(INDEX_OUT_OF_BOUNDS)
    else
      var k := ExpectAt(tokens, KeyStart(tokens, pos, skipComma), Identifier(key));
      if k.Panic? then Panic(k.msg)
      else
        var e := ExpectAt(tokens, k.value.next, Equals);
        if e.Panic? then Panic(e.msg)
        else if isString then
          var s := ExpectStringAt(tokens, e.value.next);
          if s.Panic? then Panic(s.msg) else Ok(Read(Some(s.value.value), s.value.next))
        else
          var n := NextAt(tokens, e.value.next);
          if n.value.None? then Ok(Read(None, n.next))
          else if ValueText(n.value.value).None? then Panic(UNEXPECTED_KEY_VALUE)
          else Ok(Read(ValueText(n.value.value), n.next))
  }

  /** Four `expect_token` calls in a row, as for the headers `, params = [`,
      `, qubits = (` and `operation = Instruction (`. */
  function HeaderAt(tokens: seq<Token>, pos: nat, header: seq<Token>): (r: Outcome<Read<()>>)
    requires |header| == 4
    ensures r.Ok? <==> pos + 4 <= |tokens| && tokens[pos..pos + 4] == header
    ensures r.Ok? ==> r.value.next == pos + 4
  {
    assert pos + 4 <= |tokens| && tokens[pos..pos + 4] == header ==>
             tokens[pos] == header[0] && tokens[pos + 1] == header[1] &&
             tokens[pos + 2] == header[2] && tokens[pos + 3] == header[3];
    var a :- ExpectAt(tokens, pos, header[0]);
    var b :- ExpectAt(tokens, a.next, header[1]);
    var c :- ExpectAt(tokens, b.next, header[2]);
    var d :- ExpectAt(tokens, c.next, header[3]);
    assert tokens[pos..pos + 4] == header;
    Ok(d)
  }

  /** The loop `while let Some(Token::Number(n)) = self.next_token()`: the run of number
      tokens from `pos`; the token that ends the run is consumed as well. */
  function NumbersAt(tokens: seq<Token>, pos: nat): (r: Read<seq<Lexeme>>)
    requires pos <= |tokens|
    ensures pos + |r.value| <= |tokens|
    ensures forall k :: 0 <= k < |r.value| ==> tokens[pos + k] == Number(r.value[k])
    ensures pos + |r.value| < |tokens| ==>
              !tokens[pos + |r.value|].Number? && r.next == pos + |r.value| + 1
    ensures pos + |r.value| == |tokens| ==> r.next == |tokens|
    decreases |tokens| - pos
  {
    if pos == |tokens| then Read([], pos)
    else if tokens[pos].Number? then
      var rest := NumbersAt(tokens, pos + 1);
      Read([tokens[pos].lexeme] + rest.value, rest.next)
    else Read([], pos + 1)
  }

  /** The header `, params = [` of a parameter list. */
  const PARAMS_HEADER := [Comma, Identifier("params"), Equals, OpenBracket]

  /** `parse_params` in `src/quantum_circuit/parser.rs` and `src/quantumcircuit/parser.rs`.
      `[]` gives no parameters. Otherwise the number loop also eats the token after the last
      number, and a further `]` must follow: `[0.5]` followed by `)` panics. */
  function ParamsAt(tokens: seq<Token>, pos: nat): (r: Outcome<Read<seq<Lexeme>>>)
    ensures r.Ok? ==> pos < r.value.next <= |tokens|
    ensures r.Ok? ==> pos + 5 <= |tokens| && tokens[pos..pos + 4] == PARAMS_HEADER
    ensures pos + 5 <= |tokens| && tokens[pos..pos + 4] == PARAMS_HEADER && tokens[pos + 4] == CloseBracket ==>
              r == Ok(Read([], pos + 5))
    ensures r.Ok? && r.value.value != [] ==>
              var after := pos + 4 + |r.value.value|;
              after + 1 < |tokens| && !tokens[after].Number? && tokens[after + 1] == CloseBracket &&
              r.value.next == after + 2 &&
              forall k :: 0 <= k < |r.value.value| ==> tokens[pos + 4 + k] == Number(r.value.value[k])
  {
    var d :- HeaderAt(tokens, pos, PARAMS_HEADER);
    if d.next >= |tokens| then Panic(INDEX_OUT_OF_BOUNDS)
    else if tokens[d.next] == CloseBracket then Ok(Read([], d.next + 1))
    else
      var numbers := NumbersAt(tokens, d.next);
      var close :- ExpectAt(tokens, numbers.next, CloseBracket);
      Ok(Read(numbers.value, close.next))
  }

  /** A parameter list with one number, as Qiskit prints it, panics. */
  lemma OneParameterPanics(x: Lexeme)
    ensures ParamsAt(PARAMS_HEADER + [Number(x), CloseBracket, CloseParen], 0).Panic?
  {
    var tokens := PARAMS_HEADER + [Number(x), CloseBracket, CloseParen];
    assert tokens[0..4] == PARAMS_HEADER;
  }

  /** The bit kinds `parse_bits` accepts. */
  predicate IsBitKind(kind: string) {
    kind == "Qubit" || kind == "Clbit" || kind == "AncillaQubit"
  }

  /** One bit entry after its kind: `(QuantumRegister(<size>, '<name>'), <index>),`, then a
      `)` closing the group unless the kind is `AncillaQubit`. The index is the number's
      value cast to `usize`. */
  function BitEntryAt(tokens: seq<Token>, pos: nat, kind: string): (r: Outcome<Read<Bit>>)
    requires IsBitKind(kind)
    ensures r.Ok? ==> pos + 11 <= r.value.next <= |tokens|
    ensures r.Ok? ==> tokens[pos + 5].StringLiteral? && tokens[pos + 8].Number? &&
                      r.value.value.Quantum? == (kind == "Qubit") &&
                      r.value.value.Classical? == (kind == "Clbit") &&
                      r.value.value.Ancilla? == (kind == "AncillaQubit")
    ensures r.Ok? ==> match r.value.value
                      case Quantum(q) => q == Qubit(tokens[pos + 5].text, TruncateToIndex(tokens[pos + 8].lexeme))
                      case Classical(c) => c == Clbit(tokens[pos + 5].text, TruncateToIndex(tokens[pos + 8].lexeme))
                      case Ancilla(a) => a == AncillaQubit(tokens[pos + 5].text, TruncateToIndex(tokens[pos + 8].lexeme))
  {
    var open :- ExpectAt(tokens, pos, OpenParen);
    var reg :- ExpectAt(tokens, open.next, Identifier("QuantumRegister"));
    var regOpen :- ExpectAt(tokens, reg.next, OpenParen);
    var size :- ExpectNumberAt(tokens, regOpen.next);
    var comma :- ExpectAt(tokens, size.next, Comma);
    var name :- ExpectStringAt(tokens, comma.next);
    var regClose :- ExpectAt(tokens, name.next, CloseParen);
    var comma2 :- ExpectAt(tokens, regClose.next, Comma);
    var index :- ExpectNumberAt(tokens, comma2.next);
    var close :- ExpectAt(tokens, index.next, CloseParen);
    var comma3 :- ExpectAt(tokens, close.next, Comma);
    var i := TruncateToIndex(index.value);
    if kind == "Qubit" then
      var end :- ExpectAt(tokens, comma3.next, CloseParen);
      Ok(Read(Quantum(Qubit(name.value, i)), end.next))
    else if kind == "Clbit" then
      var end :- ExpectAt(tokens, comma3.next, CloseParen);
      Ok(Read(Classical(Clbit(name.value, i)), end.next))
    else
      Ok(Read(Ancilla(AncillaQubit(name.value, i)), comma3.next))
  }

  /** The header `, <group> = (` of a bit group. */
  function GroupHeader(group: string): seq<Token> {
    [Comma, Identifier(group), Equals, OpenParen]
  }

  /** `parse_bits(group)` in `src/quantum_circuit/parser.rs` and
      `src/quantumcircuit/parser.rs`: every accepted entry ends the loop with `break`, so at
      most one bit is recorded. A first token that is not an identifier ends the group
      (and is consumed); an identifier that is not a bit kind panics. */
  function BitsAt(tokens: seq<Token>, pos: nat, group: string): (r: Outcome<Read<seq<Bit>>>)
    ensures r.Ok? ==> pos < r.value.next <= |tokens|
    ensures r.Ok? ==> pos + 4 <= |tokens| && tokens[pos..pos + 4] == GroupHeader(group)
    ensures r.Ok? ==> |r.value.value| <= 1
    ensures r.Ok? ==> (r.value.value == [] <==> pos + 4 == |tokens| || !tokens[pos + 4].Identifier?)
    ensures r.Ok? && r.value.value != [] ==> IsBitKind(tokens[pos + 4].name)
    ensures pos + 4 < |tokens| && tokens[pos..pos + 4] == GroupHeader(group) &&
            tokens[pos + 4].Identifier? && !IsBitKind(tokens[pos + 4].name) ==>
              r == Panic(UNEXPECTED_BIT_FORMAT)
  {
    var d :- HeaderAt(tokens, pos, GroupHeader(group));
    var n := NextAt(tokens, d.next);
    if n.value.None? || !n.value.value.Identifier? then Ok(Read([], n.next))
    else if !IsBitKind(n.value.value.name) then Panic(UNEXPECTED_BIT_FORMAT)
    else
      var bit :- BitEntryAt(tokens, n.next, n.value.value.name);
      Ok(Read([bit.value], bit.next))
  }

  /** `key = '<text>'` parses as the string `text`. */
  lemma StringKeyParses(tokens: seq<Token>, pos: nat, key: string)
    requires pos + 3 <= |tokens| && tokens[pos] == Identifier(key) && tokens[pos + 1] == Equals &&
             tokens[pos + 2].StringLiteral?
    ensures KeyValueAt(tokens, pos, key, true, true) == Ok(Read(Some(tokens[pos + 2].text), pos + 3))
  {
  }

  /** `, key = <number>` parses as the number's `Display` text. */
  lemma NumberKeyParses(tokens: seq<Token>, pos: nat, key: string)
    requires pos + 4 <= |tokens| && tokens[pos] == Comma && tokens[pos + 1] == Identifier(key) &&
             tokens[pos + 2] == Equals && tokens[pos + 3].Number?
    ensures KeyValueAt(tokens, pos, key, false, true) ==
              Ok(Read(Some(FloatDisplay(tokens[pos + 3].lexeme)), pos + 4))
  {
    assert KeyStart(tokens, pos, true) == pos + 1;
    assert ValueText(tokens[pos + 3]) == Some(FloatDisplay(tokens[pos + 3].lexeme));
    var r := KeyValueAt(tokens, pos, key, false, true);
    assert r.Ok?;
    assert r.value.value.Some?;
  }

  /** `parse_key_value(key, false).unwrap().parse::<usize>().unwrap()`: a count. */
  function CountAt(tokens: seq<Token>, pos: nat, key: string, skipComma: bool): (r: Outcome<Read<nat>>)
    ensures r.Ok? ==> pos < r.value.next <= |tokens| && r.value.value < Pow2(64)
    ensures r.Ok? ==> var k := KeyStart(tokens, pos, skipComma);
                      k < |tokens| && tokens[k] == Identifier(key)
  {
    var kv :- KeyValueAt(tokens, pos, key, false, skipComma);
    var text :- Unwrap(kv.value);
    var n := ParseUnsigned(text, 64);
    if n.None? then Panic(PARSE_INT_PANIC) else Ok(Read(n.value, kv.next))
  }

  /** `, key = <number>`: the count is the number when it is integral and fits in 64 bits,
      and any fractional part makes the `usize` parse panic. */
  lemma NumberCountParses(tokens: seq<Token>, pos: nat, key: string)
    requires pos + 4 <= |tokens| && tokens[pos] == Comma && tokens[pos + 1] == Identifier(key) &&
             tokens[pos + 2] == Equals && tokens[pos + 3].Number?
    ensures var x := tokens[pos + 3].lexeme;
            CountAt(tokens, pos, key, true) ==
              if AllZeros(FractionDigits(x)) && IntegerValue(x) < Pow2(64)
              then Ok(Read(IntegerValue(x), pos + 4))
              else Panic(PARSE_INT_PANIC)
  {
    NumberKeyParses(tokens, pos, key);
    DisplayParsesAsIndex(tokens[pos + 3].lexeme);
  }

  /** The entry `(QuantumRegister(<size>, '<name>'), <index>),` followed by `)`. */
  predicate QubitEntryShape(tokens: seq<Token>, pos: nat) {
    pos + 12 <= |tokens| &&
    tokens[pos] == OpenParen && tokens[pos + 1] == Identifier("QuantumRegister") &&
    tokens[pos + 2] == OpenParen && tokens[pos + 3].Number? && tokens[pos + 4] == Comma &&
    tokens[pos + 5].StringLiteral? && tokens[pos + 6] == CloseParen && tokens[pos + 7] == Comma &&
    tokens[pos + 8].Number? && tokens[pos + 9] == CloseParen && tokens[pos + 10] == Comma &&
    tokens[pos + 11] == CloseParen
  }

  /** A qubit entry as Qiskit prints it parses as the qubit of that register name and index. */
  lemma QubitEntryParses(tokens: seq<Token>, pos: nat)
    requires QubitEntryShape(tokens, pos)
    ensures BitEntryAt(tokens, pos, "Qubit") ==
              Ok(Read(Quantum(Qubit(tokens[pos + 5].text, TruncateToIndex(tokens[pos + 8].lexeme))), pos + 12))
  {
  }

  /** A group holding one qubit entry parses as that one qubit. */
  lemma OneQubitGroupParses(tokens: seq<Token>, pos: nat, group: string)
    requires pos + 5 <= |tokens| && tokens[pos..pos + 4] == GroupHeader(group) &&
             tokens[pos + 4] == Identifier("Qubit") && QubitEntryShape(tokens, pos + 5)
    ensures BitsAt(tokens, pos, group) ==
              Ok(Read([Quantum(Qubit(tokens[pos + 10].text, TruncateToIndex(tokens[pos + 13].lexeme)))], pos + 17))
  {
    QubitEntryParses(tokens, pos + 5);
  }

  /** An empty group parses as no bits. */
  lemma EmptyGroupParses(tokens: seq<Token>, pos: nat, group: string)
    requires pos + 5 <= |tokens| && tokens[pos..pos + 4] == GroupHeader(group) && tokens[pos + 4] == CloseParen
    ensures BitsAt(tokens, pos, group) == Ok(Read([], pos + 5))
  {
  }

  /** `operation = Instruction (`, the tokens `parse_operation` expects first. */
  const OPERATION_HEADER := [Identifier("operation"), Equals, Identifier("Instruction"), OpenParen]

  /** The bit groups of `parse_circuit_instruction` and the `)` after them: the qubits, then
      the clbits. */
  function GroupsAt(tokens: seq<Token>, pos: nat): (r: Outcome<Read<(seq<Qubit>, seq<Clbit>)>>)
    ensures r.Ok? ==> pos < r.value.next <= |tokens|
    ensures r.Ok? ==> |r.value.value.0| <= 1 && |r.value.value.1| <= 1
  {
    var qubitGroup :- BitsAt(tokens, pos, "qubits");
    var parsedQubits :- QubitsFrom(qubitGroup.value);
    var clbitGroup :- BitsAt(tokens, qubitGroup.next, "clbits");
    var parsedClbits :- ClbitsFrom(clbitGroup.value);
    var close :- ExpectAt(tokens, clbitGroup.next, CloseParen);
    Ok(Read((parsedQubits, parsedClbits), close.next))
  }

  /** Bit groups that parse into qubits and clbits, closed by `)`, give those bits. */
  lemma GroupsParse(tokens: seq<Token>, pos: nat, qs: Read<seq<Bit>>, cs: Read<seq<Bit>>)
    requires BitsAt(tokens, pos, "qubits") == Ok(qs) && BitsAt(tokens, qs.next, "clbits") == Ok(cs)
    requires QubitsFrom(qs.value).Ok? && ClbitsFrom(cs.value).Ok?
    requires cs.next < |tokens| && tokens[cs.next] == CloseParen
    ensures GroupsAt(tokens, pos) == Ok(Read((QubitsFrom(qs.value).value, ClbitsFrom(cs.value).value), cs.next + 1))
  {
  }

  /** Whether a method's outcome and final cursor are the ones a helper's function gives. */
  ghost predicate Agrees<T>(spec: Outcome<Read<T>>, r: Outcome<T>, pos: nat) {
    match spec
    case Ok(read) => r == Ok(read.value) && pos == read.next
    case Panic(msg) => r == Panic(msg)
  }

  /** A parser's token vector and its `pos` field. */
  class Cursor {
    const tokens: seq<Token>
    var pos: nat

    constructor (tokens: seq<Token>)
      ensures this.tokens == tokens && pos == 0
    {
      this.tokens := tokens;
      pos := 0;
    }

    /** `next_token`. */
    method NextToken() returns (t: Option<Token>)
      modifies this`pos
      ensures NextAt(tokens, old(pos)) == Read(t, pos)
    {
      if pos < |tokens| {
        t := Some(tokens[pos]);
        pos := pos + 1;
      } else {
        t := None;
      }
    }

    /** `expect_token`. */
    method ExpectToken(expected: Token) returns (r: Outcome<()>)
      modifies this`pos
      ensures Agrees(ExpectAt(tokens, old(pos), expected), r, pos)
    {
      var t := NextToken();
      if t.None? {
        return Panic(EXPECTED_TOKEN);
      }
      if t.value != expected {
        return Panic(UNEXPECTED_TOKEN);
      }
      return Ok(());
    }

    /** `expect_string`. */
    method ExpectString() returns (r: Outcome<string>)
      modifies this`pos
      ensures Agrees(ExpectStringAt(tokens, old(pos)), r, pos)
    {
      var t := NextToken();
      if t.Some? && t.value.StringLiteral? {
        return Ok(t.value.text);
      }
      return Panic(EXPECTED_STRING);
    }

    /** `expect_number`. */
    method ExpectNumber() returns (r: Outcome<Lexeme>)
      modifies this`pos
      ensures Agrees(ExpectNumberAt(tokens, old(pos)), r, pos)
    {
      var t := NextToken();
      if t.Some? && t.value.Number? {
        return Ok(t.value.lexeme);
      }
      return Panic(EXPECTED_NUMBER);
    }

    /** `parse_key_value(key, is_string)`, with or without the leading comma skip. */
    method ParseKeyValue(key: string, isString: bool, skipComma: bool) returns (r: Outcome<Option<string>>)
      modifies this`pos
      ensures Agrees(KeyValueAt(tokens, old(pos), key, isString, skipComma), r, pos)
    {
      if skipComma {
        if pos >= |tokens| {
          return Panic(INDEX_OUT_OF_BOUNDS);
        }
        if tokens[pos] == Comma {
          pos := pos + 1;
        }
      }
      var _ :- ExpectToken(Identifier(key));
      var _ :- ExpectToken(Equals);
      if isString {
        var s :- ExpectString();
        return Ok(Some(s));
      }
      var t := NextToken();
      if t.None? {
        return Ok(None);
      }
      if ValueText(t.value).None? {
        return Panic(UNEXPECTED_KEY_VALUE);
      }
      return Ok(ValueText(t.value));
    }

    /** A count: `parse_key_value(key, false)`, unwrapped and parsed as a `usize`. */
    method ParseCount(key: string, skipComma: bool) returns (r: Outcome<nat>)
      modifies this`pos
      ensures Agrees(CountAt(tokens, old(pos), key, skipComma), r, pos)
    {
      var text :- ParseKeyValue(key, false, skipComma);
      var value :- Unwrap(text);
      var n := ParseUnsigned(value, 64);
      if n.None? {
        return Panic(PARSE_INT_PANIC);
      }
      return Ok(n.value);
    }

    /** `, params = [`, `, qubits = (`, …: four `expect_token` calls. */
    method ExpectHeader(header: seq<Token>) returns (r: Outcome<()>)
      requires |header| == 4
      modifies this`pos
      ensures Agrees(HeaderAt(tokens, old(pos), header), r, pos)
    {
      var _ :- ExpectToken(header[0]);
      var _ :- ExpectToken(header[1]);
      var _ :- ExpectToken(header[2]);
      var _ :- ExpectToken(header[3]);
      return Ok(());
    }

    /** The number loop of `parse_params`. */
    method ParseNumbers() returns (params: seq<Lexeme>)
      requires pos <= |tokens|
      modifies this`pos
      ensures NumbersAt(tokens, old(pos)) == Read(params, pos)
    {
      params := [];
      assert params + NumbersAt(tokens, pos).value == NumbersAt(tokens, pos).value;
      while true
        invariant old(pos) <= pos <= |tokens|
        invariant NumbersAt(tokens, old(pos)).value == params + NumbersAt(tokens, pos).value
        invariant NumbersAt(tokens, old(pos)).next == NumbersAt(tokens, pos).next
        decreases |tokens| - pos
      {
        ghost var before := pos;
        var t := NextToken();
        if t.None? || !t.value.Number? {
          assert NumbersAt(tokens, before) == Read([], pos);
          assert params + [] == params;
          break;
        }
        assert NumbersAt(tokens, before).value == [t.value.lexeme] + NumbersAt(tokens, pos).value;
        assert params + ([t.value.lexeme] + NumbersAt(tokens, pos).value)
            == (params + [t.value.lexeme]) + NumbersAt(tokens, pos).value;
        params := params + [t.value.lexeme];
      }
    }

    /** `parse_params`. */
    method ParseParams() returns (r: Outcome<seq<Lexeme>>)
      modifies this`pos
      ensures Agrees(ParamsAt(tokens, old(pos)), r, pos)
    {
      var _ :- ExpectHeader(PARAMS_HEADER);
      if pos >= |tokens| {
        return Panic(INDEX_OUT_OF_BOUNDS);
      }
      if tokens[pos] == CloseBracket {
        pos := pos + 1;
        return Ok([]);
      }
      var params := ParseNumbers();
      var _ :- ExpectToken(CloseBracket);
      return Ok(params);
    }

    /** One bit entry of `parse_bits`, after its kind. */
    method ParseBitEntry(kind: string) returns (r: Outcome<Bit>)
      requires IsBitKind(kind)
      modifies this`pos
      ensures Agrees(BitEntryAt(tokens, old(pos), kind), r, pos)
    {
      var _ :- ExpectToken(OpenParen);
      var _ :- ExpectToken(Identifier("QuantumRegister"));
      var _ :- ExpectToken(OpenParen);
      var _ :- ExpectNumber();
      var _ :- ExpectToken(Comma);
      var name :- ExpectString();
      var _ :- ExpectToken(CloseParen);
      var _ :- ExpectToken(Comma);
      var index :- ExpectNumber();
      var _ :- ExpectToken(CloseParen);
      var _ :- ExpectToken(Comma);
      var i := TruncateToIndex(index);
      if kind == "Qubit" {
        var _ :- ExpectToken(CloseParen);
        return Ok(Quantum(Qubit(name, i)));
      } else if kind == "Clbit" {
        var _ :- ExpectToken(CloseParen);
        return Ok(Classical(Clbit(name, i)));
      }
      return Ok(Ancilla(AncillaQubit(name, i)));
    }

    /** `parse_bits(group)`: the `while let` loop leaves after its first entry. */
    method ParseBits(group: string) returns (r: Outcome<seq<Bit>>)
      modifies this`pos
      ensures Agrees(BitsAt(tokens, old(pos), group), r, pos)
    {
      var _ :- ExpectHeader(GroupHeader(group));
      var bits := [];
      var t := NextToken();
      if t.Some? && t.value.Identifier? {
        if !IsBitKind(t.value.name) {
          return Panic(UNEXPECTED_BIT_FORMAT);
        }
        var bit :- ParseBitEntry(t.value.name);
        bits := bits + [bit];
        assert bits == [bit];
      }
      return Ok(bits);
    }

    /** The bit groups and closing `)` of `parse_circuit_instruction`, each bit converted to
        the kind of its group. */
    method ParseGroups() returns (r: Outcome<(seq<Qubit>, seq<Clbit>)>)
      modifies this`pos
      ensures Agrees(GroupsAt(tokens, old(pos)), r, pos)
    {
      var qubitGroup :- ParseBits("qubits");
      var parsedQubits :- QubitsFrom(qubitGroup);
      var clbitGroup :- ParseBits("clbits");
      var parsedClbits :- ClbitsFrom(clbitGroup);
      var _ :- ExpectToken(CloseParen);
      return Ok((parsedQubits, parsedClbits));
    }
  }
}
