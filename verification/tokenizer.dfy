/** The character tokenizers of `src/quantum_circuit/tokenizer.rs` and of the `tokenizer`
    module inside `src/quantumcircuit.rs`.

    Both are cursor machines over the input's characters and differ only in identifiers:
    the current one starts them with a letter or `_` and continues with alphanumerics or
    `_`; the legacy one starts with a letter and continues with alphanumerics only. The
    model is one class with a `Dialect`. The specification functions `Scan` (one
    `next_token` call) and `TokensFrom` (the whole `tokenize` loop) state what the methods
    compute; the lemmas and contracts below state token boundaries over them.
 */
module Tokenizer {
  import opened Outcomes
  import opened Text

  /** The text of a `Number` token: the run of digits and dots it was lexed from. */
  type Lexeme = s: string | AllNumberChars(s) witness "0"

  /** `Token`. A `Number` keeps its lexeme; the `f64` it parses to is left abstract. */
  datatype Token =
    | OpenBracket
    | CloseBracket
    | OpenParen
    | CloseParen
    | Comma
    | Equals
    | Identifier(name: string)
    | StringLiteral(text: string)
    | Number(lexeme: Lexeme)

  datatype Dialect = Current | Legacy

  const FLOAT_PARSE_PANIC := "called `Result::unwrap()` on an `Err` value: ParseFloatError"

  predicate IsPunctuation(c: char) {
    c == '[' || c == ']' || c == '(' || c == ')' || c == ',' || c == '='
  }

  /** The one-character token of a punctuation character. */
  function Punctuation(c: char): Token
    requires IsPunctuation(c)
  {
    match c
    case '[' => OpenBracket
    case ']' => CloseBracket
    case '(' => OpenParen
    case ')' => CloseParen
    case ',' => Comma
    case _ => Equals
  }

  predicate IdentStart(d: Dialect, c: char) {
    IsAlphabetic(c) || (d == Current && c == '_')
  }

  predicate IdentChar(d: Dialect, c: char) {
    IsAlphanumeric(c) || (d == Current && c == '_')
  }

  /** Whether a token starts at `c`; every other character is skipped. */
  predicate StartsToken(d: Dialect, c: char) {
    IsPunctuation(c) || c == '\'' || IsNumberChar(c) || IdentStart(d, c)
  }

  /** The character classes whose maximal runs the tokenizer consumes. */
  datatype Run = NumberRun | IdentRun(d: Dialect) | QuotedRun

  predicate InRun(run: Run, c: char) {
    match run
    case NumberRun => IsNumberChar(c)
    case IdentRun(d) => IdentChar(d, c)
    case QuotedRun => c != '\''
  }

  /** The end of the maximal run of `run` characters starting at `i`. */
  function RunEnd(s: string, i: nat, run: Run): (e: nat)
    requires i <= |s|
    ensures i <= e <= |s|
    ensures forall k :: i <= k < e ==> InRun(run, s[k])
    ensures e == |s| || !InRun(run, s[e])
    decreases |s| - i
  {
    if i == |s| || !InRun(run, s[i]) then i else RunEnd(s, i + 1, run)
  }

  /** A maximal run has only one end. */
  lemma {:induction false} RunEndUnique(s: string, i: nat, e: nat, run: Run)
    requires i <= e <= |s|
    requires forall k :: i <= k < e ==> InRun(run, s[k])
    requires e == |s| || !InRun(run, s[e])
    ensures RunEnd(s, i, run) == e
    decreases e - i
  {
    if i < e {
      RunEndUnique(s, i + 1, e, run);
    }
  }

  /** The first position at or after `pos` where a token starts, or `pos` once past the end. */
  function SkipTo(d: Dialect, s: string, pos: nat): (p: nat)
    ensures pos <= p
    ensures pos >= |s| ==> p == pos
    ensures pos < |s| ==> p <= |s|
    ensures forall k :: pos <= k < p ==> k < |s| && !StartsToken(d, s[k])
    ensures p < |s| ==> StartsToken(d, s[p])
    decreases |s| - pos
  {
    if pos >= |s| || StartsToken(d, s[pos]) then pos else SkipTo(d, s, pos + 1)
  }

  /** The result of one `next_token` call: the token, if any, and the new cursor. */
  datatype Step = Step(token: Option<Token>, next: nat)

  /** Whether a token carries text that cannot be empty. */
  predicate NonEmptyText(t: Token) {
    (t.Identifier? ==> |t.name| > 0) && (t.Number? ==> |t.lexeme| > 0)
  }

  /** Whether an identifier token is made of the dialect's identifier characters only. */
  predicate IdentifierOf(d: Dialect, t: Token) {
    t.Identifier? ==> forall k :: 0 <= k < |t.name| ==> IdentChar(d, t.name[k])
  }

  /** The arm for a quote: a literal holding exactly the characters before the next quote
      (or the rest of the input); the cursor ends just past the closing quote. */
  function LexQuoted(s: string, p: nat): (r: Step)
    requires p < |s| && s[p] == '\''
    ensures r.token.Some? && r.token.value.StringLiteral? &&
            var lit := r.token.value.text;
            p + 1 + |lit| <= |s| && s[p + 1..p + 1 + |lit|] == lit && '\'' !in lit &&
            (p + 1 + |lit| == |s| || s[p + 1 + |lit|] == '\'') &&
            r.next == p + 2 + |lit|
  {
    var e := RunEnd(s, p + 1, QuotedRun);
    assert s[p + 1..e] == s[p + 1..p + 1 + |s[p + 1..e]|];
    Step(Some(StringLiteral(s[p + 1..e])), e + 1)
  }

  /** The arm for a digit or a dot: a number over the maximal run of digits and dots, whose
      lexeme must parse as an `f64`, or the tokenizer panics. */
  function LexNumber(s: string, p: nat): (r: Outcome<Step>)
    requires p < |s| && IsNumberChar(s[p])
    ensures var e := RunEnd(s, p, NumberRun);
            (r.Ok? <==> IsFloatText(s[p..e])) &&
            (r.Ok? ==> r.value == Step(Some(Number(s[p..e])), e)) &&
            (r.Panic? ==> r.msg == FLOAT_PARSE_PANIC)
  {
    var e := RunEnd(s, p, NumberRun);
    var lexeme := s[p..e];
    if IsFloatText(lexeme) then Ok(Step(Some(Number(lexeme)), e)) else Panic(FLOAT_PARSE_PANIC)
  }

  /** The arm for an identifier start: the maximal run of identifier characters. */
  function LexIdentifier(d: Dialect, s: string, p: nat): (r: Step)
    requires p < |s| && IdentStart(d, s[p])
    ensures r.token.Some? && r.token.value.Identifier? &&
            var id := r.token.value.name;
            0 < |id| && p + |id| <= |s| && s[p..p + |id|] == id &&
            (forall k :: 0 <= k < |id| ==> IdentChar(d, id[k])) &&
            (p + |id| == |s| || !IdentChar(d, s[p + |id|])) &&
            r.next == p + |id|
  {
    var e := RunEnd(s, p, IdentRun(d));
    Step(Some(Identifier(s[p..e])), e)
  }

  /** Lexes the token that starts at `p`. */
  function LexAt(d: Dialect, s: string, p: nat): (r: Outcome<Step>)
    requires p < |s| && StartsToken(d, s[p])
    // Punctuation is one token of one character.
    ensures IsPunctuation(s[p]) ==> r == Ok(Step(Some(Punctuation(s[p])), p + 1))
    ensures s[p] == '\'' ==> r == Ok(LexQuoted(s, p))
    ensures IsNumberChar(s[p]) ==> r == LexNumber(s, p)
    ensures IdentStart(d, s[p]) ==> r == Ok(LexIdentifier(d, s, p))
    ensures r.Ok? ==> r.value.token.Some? && NonEmptyText(r.value.token.value)
    ensures r.Ok? ==> IdentifierOf(d, r.value.token.value)
    ensures r.Ok? ==> p < r.value.next <= |s| + 1
  {
    var c := s[p];
    if IsPunctuation(c) then Ok(Step(Some(Punctuation(c)), p + 1))
    else if c == '\'' then Ok(LexQuoted(s, p))
    else if IsNumberChar(c) then LexNumber(s, p)
    else Ok(LexIdentifier(d, s, p))
  }

  /** One `next_token` call from cursor `pos`: skips characters that start no token, then
      lexes one token; `None` once the input is used up. */
  function Scan(d: Dialect, s: string, pos: nat): (r: Outcome<Step>)
    ensures r.Ok? ==> pos <= r.value.next
    ensures r.Ok? && r.value.token.None? <==>
              r.Ok? && forall k :: pos <= k < |s| ==> !StartsToken(d, s[k])
    ensures r.Ok? && r.value.token.None? ==> r.value.next == if pos < |s| then |s| else pos
    ensures r.Ok? && r.value.token.Some? ==>
              pos < r.value.next <= |s| + 1 && NonEmptyText(r.value.token.value) &&
              IdentifierOf(d, r.value.token.value)
  {
    var p := SkipTo(d, s, pos);
    if p >= |s| then Ok(Step(None, p)) else LexAt(d, s, p)
  }

  /** Characters that start no token, whitespace and `-` among them, are dropped. */
  lemma SkippedCharacter(d: Dialect, s: string, pos: nat)
    requires pos < |s| && !StartsToken(d, s[pos])
    ensures Scan(d, s, pos) == Scan(d, s, pos + 1)
  {
  }

  /** `tokens` in front of a successful outcome; a panic stays a panic. */
  function Prefixed(tokens: seq<Token>, r: Outcome<seq<Token>>): Outcome<seq<Token>> {
    if r.Ok? then Ok(tokens + r.value) else r
  }

  lemma PrefixedAppend(tokens: seq<Token>, t: Token, r: Outcome<seq<Token>>)
    ensures Prefixed(tokens, Prefixed([t], r)) == Prefixed(tokens + [t], r)
  {
    if r.Ok? {
      assert tokens + ([t] + r.value) == (tokens + [t]) + r.value;
    }
  }

  /** The tokens `tokenize` collects from cursor `pos`: every `next_token` result, in order. */
  function TokensFrom(d: Dialect, s: string, pos: nat): (r: Outcome<seq<Token>>)
    requires pos <= |s| + 1
    decreases |s| + 1 - pos
  {
    match Scan(d, s, pos)
    case Panic(msg) => Panic(msg)
    case Ok(Step(None, _)) => Ok([])
    case Ok(Step(Some(t), next)) => Prefixed([t], TokensFrom(d, s, next))
  }

  function Tokenize(d: Dialect, s: string): Outcome<seq<Token>> {
    TokensFrom(d, s, 0)
  }

  /** No identifier or number token is ever empty, since its first character always
      qualifies, and an identifier holds only the dialect's identifier characters. */
  lemma {:induction false} TokensNonEmpty(d: Dialect, s: string, pos: nat)
    requires pos <= |s| + 1
    ensures TokensFrom(d, s, pos).Ok? ==>
              forall t :: t in TokensFrom(d, s, pos).value ==> NonEmptyText(t) && IdentifierOf(d, t)
    decreases |s| + 1 - pos
  {
    var r := Scan(d, s, pos);
    if r.Ok? && r.value.token.Some? {
      TokensNonEmpty(d, s, r.value.next);
    }
  }

  /** The legacy tokenizer splits `num_qubits` at the underscore, which starts no token. */
  lemma LegacySplitsAtUnderscore()
    ensures Tokenize(Legacy, "num_qubits") == Ok([Identifier("num"), Identifier("qubits")])
  {
    var s := "num_qubits";
    RunEndUnique(s, 4, 10, IdentRun(Legacy));
    assert s[4..10] == "qubits";
    assert SkipTo(Legacy, s, 3) == 4;
    assert Scan(Legacy, s, 3) == Ok(Step(Some(Identifier("qubits")), 10));
    assert TokensFrom(Legacy, s, 10) == Ok([]);
    assert [Identifier("qubits")] + [] == [Identifier("qubits")];
    assert TokensFrom(Legacy, s, 3) == Ok([Identifier("qubits")]);
    RunEndUnique(s, 0, 3, IdentRun(Legacy));
    assert s[0..3] == "num";
    assert Scan(Legacy, s, 0) == Ok(Step(Some(Identifier("num")), 3));
    assert [Identifier("num")] + [Identifier("qubits")] == [Identifier("num"), Identifier("qubits")];
  }

  /** The current tokenizer keeps `num_qubits` as one identifier. */
  lemma CurrentKeepsUnderscore()
    ensures Tokenize(Current, "num_qubits") == Ok([Identifier("num_qubits")])
  {
    var s := "num_qubits";
    RunEndUnique(s, 0, 10, IdentRun(Current));
    assert s[0..10] == s;
    assert Scan(Current, s, 0) == Ok(Step(Some(Identifier("num_qubits")), 10));
    assert TokensFrom(Current, s, 10) == Ok([]);
    assert [Identifier("num_qubits")] + [] == [Identifier("num_qubits")];
  }

  /** `Tokenizer`: the input's characters and a cursor into them. */
  class Tokenizer {
    const dialect: Dialect
    const input: string
    var pos: nat

    constructor (dialect: Dialect, input: string)
      ensures this.dialect == dialect && this.input == input && pos == 0
    {
      this.dialect := dialect;
      this.input := input;
      pos := 0;
    }

    /** One of the inner loops of `next_token`: moves the cursor over the maximal run of
        `run` characters and returns the characters passed. */
    method ConsumeRun(run: Run) returns (text: string)
      requires pos <= |input|
      modifies this`pos
      ensures pos == RunEnd(input, old(pos), run)
      ensures text == input[old(pos)..pos]
    {
      var first := pos;
      while pos < |input| && InRun(run, input[pos])
        invariant first <= pos <= |input|
        invariant forall k :: first <= k < pos ==> InRun(run, input[k])
        decreases |input| - pos
      {
        pos := pos + 1;
      }
      RunEndUnique(input, first, pos, run);
      text := input[first..pos];
    }

    /** The branch of `next_token` for a character that starts a token. */
    method LexToken() returns (r: Outcome<Option<Token>>)
      requires pos < |input| && StartsToken(dialect, input[pos])
      modifies this`pos
      ensures var spec := LexAt(dialect, input, old(pos));
              (r.Panic? <==> spec.Panic?) &&
              (r.Panic? ==> r.msg == spec.msg) &&
              (r.Ok? ==> r.value == spec.value.token && pos == spec.value.next)
    {
      var c := input[pos];
      if IsPunctuation(c) {
        pos := pos + 1;
        return Ok(Some(Punctuation(c)));
      } else if c == '\'' {
        pos := pos + 1;
        var text := ConsumeRun(QuotedRun);
        pos := pos + 1;
        return Ok(Some(StringLiteral(text)));
      } else if IsNumberChar(c) {
        var lexeme := ConsumeRun(NumberRun);
        if !IsFloatText(lexeme) {
          return Panic(FLOAT_PARSE_PANIC);
        }
        return Ok(Some(Number(lexeme)));
      } else {
        var name := ConsumeRun(IdentRun(dialect));
        return Ok(Some(Identifier(name)));
      }
    }

    /** `next_token`: the token `Scan` describes, with the cursor moved where `Scan` says. */
    method NextToken() returns (r: Outcome<Option<Token>>)
      modifies this`pos
      ensures var spec := Scan(dialect, input, old(pos));
              (r.Panic? <==> spec.Panic?) &&
              (r.Panic? ==> r.msg == spec.msg) &&
              (r.Ok? ==> r.value == spec.value.token && pos == spec.value.next)
    {
      ghost var start := pos;
      while pos < |input| && !StartsToken(dialect, input[pos])
        invariant start <= pos
        invariant start < |input| ==> pos <= |input|
        invariant SkipTo(dialect, input, start) == SkipTo(dialect, input, pos)
        decreases |input| - pos
      {
        pos := pos + 1;
      }
      if pos >= |input| {
        return Ok(None);
      }
      r := LexToken();
    }

    /** `tokenize`: every `next_token` result up to the first `None`, in order. */
    method Tokenize() returns (r: Outcome<seq<Token>>)
      requires pos <= |input| + 1
      modifies this`pos
      ensures r == TokensFrom(dialect, input, old(pos))
    {
      var tokens: seq<Token> := [];
      assert Prefixed(tokens, TokensFrom(dialect, input, pos)) == TokensFrom(dialect, input, pos) by {
        if TokensFrom(dialect, input, pos).Ok? {
          assert tokens + TokensFrom(dialect, input, pos).value == TokensFrom(dialect, input, pos).value;
        }
      }
      while true
        invariant pos <= |input| + 1
        invariant TokensFrom(dialect, input, old(pos)) ==
                  Prefixed(tokens, TokensFrom(dialect, input, pos))
        decreases |input| + 1 - pos
      {
        ghost var before := pos;
        var token :- NextToken();
        if token.None? {
          assert tokens + [] == tokens;
          return Ok(tokens);
        }
        PrefixedAppend(tokens, token.value, TokensFrom(dialect, input, pos));
        tokens := tokens + [token.value];
      }
    }
  }
}
