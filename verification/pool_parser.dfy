/** `src/quantumcircuit/parser.rs`: the parser generation that stores gates in a memory pool.

    Its token reading (`expect_*`, `parse_key_value` with the comma skip, `parse_params`,
    `parse_bits`) is the same code as the matrix-map parser's and is the shared `Cursor`.
    What differs is what `parse_operation` does with an operation: it reads the two counts as
    `usize` (panicking on any other text), builds the gate of one of four known kinds, adds it
    to the gate pool, records the handle under the gate's name in the gate map and returns the
    handle. And `parse_circuit_instruction` joins parsed bits pairwise (`zip`), so a qubit
    without a matching clbit is not added to the circuit's qubits.

    The pool, the gate map and the two bit lists are lent by the caller; in the model they
    are fields of the parser. `State` is everything parsing changes, the pool as its
    `PoolView`.
 */
module PoolParser {
  import opened Outcomes
  import opened Text
  import opened Tokenizer
  import opened TokenCursor
  import opened Bits
  import opened Dedup
  import opened Instructions
  import opened Pool

  /** The gates `parse_operation` knows: `XGate`, `YGate`, `ZGate`, `HadamardGate`. */
  datatype GateKind = X | Y | Z | H

  /** A gate as the pool stores it: its kind and the parameters of the `Instruction` it
      wraps (that instruction has no duration and the unit `dt`). */
  datatype PoolGate = PoolGate(kind: GateKind, params: seq<Lexeme>)

  type Instr = CircuitInstruction<Handle>

  const UNEXPECTED_GATE_NAME := "Unexpected gate name: {:?}"

  /** The name each gate kind is written with. */
  function GateName(k: GateKind): string {
    match k
    case X => "x"
    case Y => "y"
    case Z => "z"
    case H => "h"
  }

  /** The `match name.as_str()` of `parse_operation`: the kind a name selects, if any. */
  function KindOf(name: string): (k: Option<GateKind>)
    ensures k.Some? ==> GateName(k.value) == name
    ensures k.None? ==> forall g :: GateName(g) != name
  {
    if name == "x" then Some(X)
    else if name == "y" then Some(Y)
    else if name == "z" then Some(Z)
    else if name == "h" then Some(H)
    else None
  }

  /** Every gate kind is selected by its own name. */
  lemma KindOfName(k: GateKind)
    ensures KindOf(GateName(k)) == Some(k)
  {
  }

  datatype State = State(
    pos: nat,
    pool: PoolView<PoolGate>,
    gateMap: map<string, Handle>,
    qubits: seq<Qubit>,
    clbits: seq<Clbit>)

  /** A parsing method's result and the state after it. */
  datatype Parsed<+T> = Parsed(value: T, state: State)

  /** `num_qubits=…, num_clbits=…`: both must be counts; their values are discarded. */
  function CountsAt(tokens: seq<Token>, pos: nat): (r: Outcome<Read<()>>)
    ensures r.Ok? ==> pos < r.value.next <= |tokens|
    ensures r.Ok? ==> Identifier("num_qubits") in tokens
  {
    var numQubits :- CountAt(tokens, pos, "num_qubits", true);
    var numClbits :- CountAt(tokens, numQubits.next, "num_clbits", true);
    Ok(Read((), numClbits.next))
  }

  /** The tokens `parse_operation` reads: `operation=Instruction(name='<n>', num_qubits=…,
      num_clbits=…, params=[…])`, giving the name and the parameters. */
  function OperationFieldsAt(tokens: seq<Token>, pos: nat): (r: Outcome<Read<(string, seq<Lexeme>)>>)
    ensures r.Ok? ==> pos < r.value.next <= |tokens|
    ensures r.Ok? ==> pos + 4 <= |tokens| && tokens[pos..pos + 4] == OPERATION_HEADER
    ensures r.Ok? ==> Identifier("num_qubits") in tokens
  {
    var header :- HeaderAt(tokens, pos, OPERATION_HEADER);
    var name :- KeyValueAt(tokens, header.next, "name", true, true);
    var counts :- CountsAt(tokens, name.next);
    var params :- ParamsAt(tokens, counts.next);
    var close :- ExpectAt(tokens, params.next, CloseParen);
    Ok(Read((name.value.value, params.value), close.next))
  }

  /** The handle the `i`-th next `add` on pool `v` returns. */
  function NextHandle(v: PoolView<PoolGate>, i: nat): Handle {
    if v.valueSize == 0 then Null else At(v.adds + i)
  }

  /** The handles `n` successful `add`s on `v` return, in order. */
  function Issued(v: PoolView<PoolGate>, n: nat): (hs: seq<Handle>)
    ensures |hs| == n && forall i :: 0 <= i < n ==> hs[i] == NextHandle(v, i)
  {
    seq(n, i requires 0 <= i < n => NextHandle(v, i))
  }

  /** How `n` successful `add`s change a pool: the sizes stay, `n` more adds are counted and
      earlier values keep their slots. */
  ghost predicate PoolGrows(a: PoolView<PoolGate>, b: PoolView<PoolGate>, n: nat) {
    b.valueSize == a.valueSize && b.valueRegion == a.valueRegion &&
    b.metadataSize == a.metadataSize && b.metadataRegion == a.metadataRegion &&
    b.adds == a.adds + n && |a.values| <= |b.values| && b.values[..|a.values|] == a.values
  }

  /** Every name in the gate map leads to a slot that holds a gate of that name (a `Null`
      handle, from a zero-sized pool, leads nowhere). */
  ghost predicate MapsNames(pool: PoolView<PoolGate>, gateMap: map<string, Handle>) {
    forall n :: n in gateMap && gateMap[n].At? ==>
      gateMap[n].index < |pool.values| && GateName(pool.values[gateMap[n].index].kind) == n
  }

  /** A pool of non-zero-sized values has one value per add, and the gate map is faithful. */
  ghost predicate Consistent(s: State) {
    (s.pool.valueSize > 0 ==> |s.pool.values| == s.pool.adds) && MapsNames(s.pool, s.gateMap)
  }

  /** The `match` of `parse_operation`: a known name's gate is added to the pool and its
      handle recorded under the name; any other name panics. */
  function AddGateAt(s: State, name: string, params: seq<Lexeme>): (r: Outcome<Parsed<Handle>>)
    ensures KindOf(name).None? ==> r == Panic(UNEXPECTED_GATE_NAME)
    ensures KindOf(name).Some? ==> (r.Ok? <==> HasRoom(s.pool))
    ensures KindOf(name).Some? && r.Panic? ==> r.msg == ARENA_EXHAUSTED
    ensures r.Ok? ==>
              var (h, t) := (r.value.value, r.value.state);
              t.pos == s.pos && t.qubits == s.qubits && t.clbits == s.clbits &&
              h == NextHandle(s.pool, 0) && PoolGrows(s.pool, t.pool, 1) &&
              (s.pool.valueSize > 0 ==> t.pool.values == s.pool.values + [PoolGate(KindOf(name).value, params)]) &&
              name in t.gateMap && t.gateMap[name] == h &&
              t.gateMap.Keys == s.gateMap.Keys + {name} &&
              (forall n :: n in s.gateMap && n != name ==> t.gateMap[n] == s.gateMap[n])
  {
    if KindOf(name).None? then Panic(UNEXPECTED_GATE_NAME)
    else
      var added :- AddToView(s.pool, PoolGate(KindOf(name).value, params));
      Ok(Parsed(added.1, s.(pool := added.0, gateMap := s.gateMap[name := added.1])))
  }

  /** Adding a gate keeps the gate map faithful: the new name leads to the new slot. */
  lemma AddGateKeepsConsistent(s: State, name: string, params: seq<Lexeme>)
    ensures Consistent(s) && AddGateAt(s, name, params).Ok? ==> Consistent(AddGateAt(s, name, params).value.state)
  {
    if !Consistent(s) || AddGateAt(s, name, params).Panic? {
      return;
    }
    var t := AddGateAt(s, name, params).value.state;
    forall n | n in t.gateMap && t.gateMap[n].At?
      ensures t.gateMap[n].index < |t.pool.values| && GateName(t.pool.values[t.gateMap[n].index].kind) == n
    {
      if n == name {
        assert t.pool.values[|s.pool.values|] == PoolGate(KindOf(name).value, params);
      } else {
        assert t.pool.values[..|s.pool.values|] == s.pool.values;
        assert t.pool.values[t.gateMap[n].index] == s.pool.values[t.gateMap[n].index];
      }
    }
  }

  /** `parse_operation`. */
  function OperationAt(tokens: seq<Token>, s: State): (r: Outcome<Parsed<Handle>>)
    ensures r.Ok? ==> s.pos < r.value.state.pos <= |tokens|
    ensures r.Ok? ==> r.value.state.qubits == s.qubits && r.value.state.clbits == s.clbits
    ensures r.Ok? ==> r.value.value == NextHandle(s.pool, 0) && PoolGrows(s.pool, r.value.state.pool, 1)
    ensures r.Ok? ==> s.gateMap.Keys <= r.value.state.gateMap.Keys
    ensures r.Ok? && Consistent(s) ==> Consistent(r.value.state)
    ensures r.Ok? ==> Identifier("num_qubits") in tokens
  {
    var fields :- OperationFieldsAt(tokens, s.pos);
    var t := s.(pos := fields.next);
    AddGateKeepsConsistent(t, fields.value.0, fields.value.1);
    AddGateAt(t, fields.value.0, fields.value.1)
  }

  /** `parse_operation` once its fields are read. */
  lemma OperationStep(tokens: seq<Token>, s: State, fields: Read<(string, seq<Lexeme>)>)
    requires OperationFieldsAt(tokens, s.pos) == Ok(fields)
    ensures OperationAt(tokens, s) == AddGateAt(s.(pos := fields.next), fields.value.0, fields.value.1)
  {
  }

  /** A pool add that succeeded, with the handle recorded under the name, is what
      `AddGateAt` gives. */
  lemma AddGateReached(s: State, name: string, params: seq<Lexeme>, t: State, h: Handle)
    requires KindOf(name).Some?
    requires AddToView(s.pool, PoolGate(KindOf(name).value, params)) == Ok((t.pool, h))
    requires t == s.(pool := t.pool, gateMap := s.gateMap[name := h])
    ensures AddGateAt(s, name, params) == Ok(Parsed(h, t))
  {
  }

  function Min(a: nat, b: nat): nat {
    if a < b then a else b
  }

  /** The end of `parse_circuit_instruction`: the parsed qubits and clbits are walked in pairs
      (`zip`, as far as the shorter list goes), each joining its circuit list unless already
      there, and the instruction carries the indices of the whole lists. */
  function JoinPairs(handle: Handle, s: State, parsedQubits: seq<Qubit>, parsedClbits: seq<Clbit>): (p: Parsed<Instr>)
    ensures p.state == s.(qubits := p.state.qubits, clbits := p.state.clbits)
    ensures p.value.operation == handle
    ensures Grows(s, p.state)
    ensures var n := Min(|parsedQubits|, |parsedClbits|);
            (forall q :: q in p.state.qubits <==> q in s.qubits || q in parsedQubits[..n]) &&
            (forall c :: c in p.state.clbits <==> c in s.clbits || c in parsedClbits[..n])
    // A bit without a partner in the other group is not recorded.
    ensures |parsedQubits| == 0 || |parsedClbits| == 0 ==> p.state.qubits == s.qubits && p.state.clbits == s.clbits
    ensures p.value.qubits == QubitIndices(p.state.qubits)
    ensures p.value.clbits == ClbitIndices(p.state.clbits)
  {
    var n := Min(|parsedQubits|, |parsedClbits|);
    var (qubits, clbits) := InsertPairs(s.qubits, s.clbits, parsedQubits, parsedClbits);
    InsertPairsIsInsertAll(s.qubits, s.clbits, parsedQubits, parsedClbits);
    InsertAllSpec(s.qubits, parsedQubits[..n]);
    InsertAllSpec(s.clbits, parsedClbits[..n]);
    Parsed(CircuitInstruction(handle, QubitIndices(qubits), ClbitIndices(clbits)),
           s.(qubits := qubits, clbits := clbits))
  }

  /** `parse_circuit_instruction`: `(operation=…, qubits=(…), clbits=(…))`. */
  function InstructionAt(tokens: seq<Token>, s: State): (r: Outcome<Parsed<Instr>>)
    ensures r.Ok? ==> s.pos < r.value.state.pos <= |tokens|
    ensures r.Ok? ==> r.value.value.operation == NextHandle(s.pool, 0) && PoolGrows(s.pool, r.value.state.pool, 1)
    ensures r.Ok? ==> Grows(s, r.value.state) && s.gateMap.Keys <= r.value.state.gateMap.Keys
    ensures r.Ok? && Consistent(s) ==> Consistent(r.value.state)
    ensures r.Ok? ==> r.value.value.qubits == QubitIndices(r.value.state.qubits)
    ensures r.Ok? ==> r.value.value.clbits == ClbitIndices(r.value.state.clbits)
    ensures r.Ok? ==> Identifier("num_qubits") in tokens
  {
    var open :- ExpectAt(tokens, s.pos, OpenParen);
    var op :- OperationAt(tokens, s.(pos := open.next));
    var groups :- GroupsAt(tokens, op.state.pos);
    Ok(JoinPairs(op.value, op.state.(pos := groups.next), groups.value.0, groups.value.1))
  }

  /** `parse_circuit_instruction` once its operation and bit groups are read. */
  lemma InstructionReads(tokens: seq<Token>, s: State, op: Parsed<Handle>, groups: Read<(seq<Qubit>, seq<Clbit>)>)
    requires s.pos < |tokens| && tokens[s.pos] == OpenParen
    requires OperationAt(tokens, s.(pos := s.pos + 1)) == Ok(op)
    requires GroupsAt(tokens, op.state.pos) == Ok(groups)
    ensures InstructionAt(tokens, s) ==
              Ok(JoinPairs(op.value, op.state.(pos := groups.next), groups.value.0, groups.value.1))
  {
  }

  /** How parsing changes the circuit lists: earlier entries keep their places and a
      duplicate-free list stays duplicate-free. */
  ghost predicate Grows(s: State, t: State) {
    |s.qubits| <= |t.qubits| && t.qubits[..|s.qubits|] == s.qubits &&
    |s.clbits| <= |t.clbits| && t.clbits[..|s.clbits|] == s.clbits &&
    (NoDuplicates(s.qubits) ==> NoDuplicates(t.qubits)) &&
    (NoDuplicates(s.clbits) ==> NoDuplicates(t.clbits))
  }

  lemma GrowsTransitive(a: State, b: State, c: State)
    requires Grows(a, b) && Grows(b, c)
    ensures Grows(a, c)
  {
    assert c.qubits[..|a.qubits|] == c.qubits[..|b.qubits|][..|a.qubits|];
    assert c.clbits[..|a.clbits|] == c.clbits[..|b.clbits|][..|a.clbits|];
  }

  lemma PoolGrowsTransitive(a: PoolView<PoolGate>, b: PoolView<PoolGate>, c: PoolView<PoolGate>, m: nat, n: nat)
    requires PoolGrows(a, b, m) && PoolGrows(b, c, n)
    ensures PoolGrows(a, c, m + n)
  {
    assert c.values[..|a.values|] == c.values[..|b.values|][..|a.values|];
  }

  /** The handles issued from `v` are its next handle, then those issued after one add. */
  lemma IssuedStep(v: PoolView<PoolGate>, w: PoolView<PoolGate>, n: nat)
    requires PoolGrows(v, w, 1)
    ensures Issued(v, n + 1) == [NextHandle(v, 0)] + Issued(w, n)
  {
  }

  /** `instructions` in front of a successful outcome. */
  function Prepend(instructions: seq<Instr>, r: Outcome<Parsed<seq<Instr>>>): Outcome<Parsed<seq<Instr>>> {
    if r.Ok? then Ok(Parsed(instructions + r.value.value, r.value.state)) else r
  }

  /** The loop of `parse`: one instruction per `CircuitInstruction` identifier, in order,
      other tokens skipped, up to the first `]`. */
  function InstructionsFrom(tokens: seq<Token>, s: State): (r: Outcome<Parsed<seq<Instr>>>)
    requires s.pos <= |tokens|
    ensures r.Ok? ==> s.pos <= r.value.state.pos <= |tokens|
    decreases |tokens| - s.pos, 1
  {
    if s.pos >= |tokens| then Ok(Parsed([], s))
    else
      var next := s.(pos := s.pos + 1);
      if tokens[s.pos] == Identifier("CircuitInstruction") then ListedFrom(tokens, next)
      else if tokens[s.pos] == CloseBracket then Ok(Parsed([], next))
      else InstructionsFrom(tokens, next)
  }

  /** The loop's arm for a `CircuitInstruction` identifier: the instruction, then the rest of
      the loop. */
  function ListedFrom(tokens: seq<Token>, s: State): (r: Outcome<Parsed<seq<Instr>>>)
    requires s.pos <= |tokens|
    ensures r.Ok? ==> s.pos <= r.value.state.pos <= |tokens|
    decreases |tokens| - s.pos, 0
  {
    var first :- InstructionAt(tokens, s);
    Prepend([first.value], InstructionsFrom(tokens, first.state))
  }

  /** One turn of the loop. */
  lemma LoopStep(tokens: seq<Token>, s: State)
    requires s.pos < |tokens|
    ensures var next := s.(pos := s.pos + 1);
            InstructionsFrom(tokens, s) ==
              if tokens[s.pos] == Identifier("CircuitInstruction") then ListedFrom(tokens, next)
              else if tokens[s.pos] == CloseBracket then Ok(Parsed([], next))
              else InstructionsFrom(tokens, next)
  {
  }

  /** What the loop promises of an outcome from state `s`: the circuit lists grow as
      `Grows` says, the pool gains one gate per instruction, the instructions carry the
      handles the pool issues in order, names stay in the gate map, and a consistent state
      stays consistent. */
  ghost predicate Keeps(s: State, r: Outcome<Parsed<seq<Instr>>>) {
    r.Ok? ==>
      var (instructions, t) := (r.value.value, r.value.state);
      Grows(s, t) && PoolGrows(s.pool, t.pool, |instructions|) &&
      OperationsOf(instructions) == Issued(s.pool, |instructions|) &&
      s.gateMap.Keys <= t.gateMap.Keys &&
      (Consistent(s) ==> Consistent(t))
  }

  /** What one successful instruction does to the state. */
  ghost predicate Step(s: State, first: Parsed<Instr>) {
    Grows(s, first.state) && PoolGrows(s.pool, first.state.pool, 1) &&
    first.value.operation == NextHandle(s.pool, 0) && s.gateMap.Keys <= first.state.gateMap.Keys &&
    (Consistent(s) ==> Consistent(first.state))
  }

  lemma PrependKeeps(s: State, first: Parsed<Instr>, rest: Outcome<Parsed<seq<Instr>>>)
    requires Step(s, first) && Keeps(first.state, rest)
    ensures Keeps(s, Prepend([first.value], rest))
  {
    if rest.Ok? {
      var (instructions, t) := (rest.value.value, rest.value.state);
      GrowsTransitive(s, first.state, t);
      PoolGrowsTransitive(s.pool, first.state.pool, t.pool, 1, |instructions|);
      assert OperationsOf([first.value] + instructions) == [first.value.operation] + OperationsOf(instructions);
      IssuedStep(s.pool, first.state.pool, |instructions|);
    }
  }

  lemma {:induction false} InstructionsFromKeeps(tokens: seq<Token>, s: State)
    requires s.pos <= |tokens|
    ensures Keeps(s, InstructionsFrom(tokens, s))
    decreases |tokens| - s.pos, 1
  {
    if s.pos < |tokens| {
      var next := s.(pos := s.pos + 1);
      LoopStep(tokens, s);
      if tokens[s.pos] == Identifier("CircuitInstruction") {
        ListedFromKeeps(tokens, next);
      } else if tokens[s.pos] != CloseBracket {
        InstructionsFromKeeps(tokens, next);
      } else {
        assert next.qubits == s.qubits && next.clbits == s.clbits && next.pool == s.pool;
        assert s.pool.values[..|s.pool.values|] == s.pool.values;
      }
    } else {
      assert s.pool.values[..|s.pool.values|] == s.pool.values;
    }
  }

  lemma {:induction false} ListedFromKeeps(tokens: seq<Token>, s: State)
    requires s.pos <= |tokens|
    ensures Keeps(s, ListedFrom(tokens, s))
    decreases |tokens| - s.pos, 0
  {
    var a := InstructionAt(tokens, s);
    if a.Ok? {
      InstructionsFromKeeps(tokens, a.value.state);
      PrependKeeps(s, a.value, InstructionsFrom(tokens, a.value.state));
    }
  }

  /** `parse`: a leading `[`, then the instruction loop. */
  function ParseAt(tokens: seq<Token>, s: State): (r: Outcome<Parsed<seq<Instr>>>)
    ensures r.Ok? ==> s.pos < |tokens| && tokens[s.pos] == OpenBracket
    // A list that opens with `[` is read by the loop from the next token on.
    ensures s.pos < |tokens| && tokens[s.pos] == OpenBracket ==> r == InstructionsFrom(tokens, s.(pos := s.pos + 1))
    ensures Keeps(s, r)
  {
    var open :- ExpectAt(tokens, s.pos, OpenBracket);
    InstructionsFromKeeps(tokens, s.(pos := open.next));
    InstructionsFrom(tokens, s.(pos := open.next))
  }

  /** The tokenizer `Parser::new` imports, that of the enclosing `src/quantumcircuit.rs`,
      splits `num_qubits` in two, so no instruction of its tokens is ever read. */
  lemma LegacyTokensHoldNoInstruction(input: string, s: State)
    requires TokensFrom(Legacy, input, 0).Ok?
    ensures InstructionAt(TokensFrom(Legacy, input, 0).value, s).Panic?
  {
    var tokens := TokensFrom(Legacy, input, 0).value;
    TokensNonEmpty(Legacy, input, 0);
    assert !IdentifierOf(Legacy, Identifier("num_qubits")) by {
      assert "num_qubits"[3] == '_';
    }
  }

  /** On the legacy tokenizer's tokens the loop reads no instruction: it panics at the
      first `CircuitInstruction` or gives the empty list. */
  lemma {:induction false} LegacyTokensParseNothing(input: string, s: State)
    requires TokensFrom(Legacy, input, 0).Ok? && s.pos <= |TokensFrom(Legacy, input, 0).value|
    ensures var r := InstructionsFrom(TokensFrom(Legacy, input, 0).value, s);
            r.Ok? ==> r.value.value == []
    decreases |TokensFrom(Legacy, input, 0).value| - s.pos
  {
    var tokens := TokensFrom(Legacy, input, 0).value;
    if s.pos < |tokens| {
      var next := s.(pos := s.pos + 1);
      if tokens[s.pos] == Identifier("CircuitInstruction") {
        LegacyTokensHoldNoInstruction(input, next);
      } else if tokens[s.pos] != CloseBracket {
        LegacyTokensParseNothing(input, next);
      }
    }
  }

  /** `Parser` together with the pool, gate map and bit lists `parse` is lent. */
  class Parser<M> {
    const cursor: Cursor
    const gates: Pool<PoolGate, M>
    var gateMap: map<string, Handle>
    var qubits: seq<Qubit>
    var clbits: seq<Clbit>

    ghost function Snapshot(): State
      reads this, cursor, gates, gates.contents, gates.metadata, gates.contents.slots, gates.metadata.slots
      requires gates.Valid()
    {
      State(cursor.pos, gates.View(), gateMap, qubits, clbits)
    }

    /** A method's outcome and final state are the ones its function gives. */
    ghost predicate Reaches<T>(spec: Outcome<Parsed<T>>, r: Outcome<T>)
      reads this, cursor, gates, gates.contents, gates.metadata, gates.contents.slots, gates.metadata.slots
    {
      match spec
      case Ok(p) => r == Ok(p.value) && gates.Valid() && Snapshot() == p.state
      case Panic(msg) => r == Panic(msg)
    }

    constructor (tokens: seq<Token>, gates: Pool<PoolGate, M>, gateMap: map<string, Handle>, qubits: seq<Qubit>, clbits: seq<Clbit>)
      ensures fresh(cursor) && this.gates == gates
      ensures cursor.tokens == tokens && cursor.pos == 0
      ensures this.gateMap == gateMap && this.qubits == qubits && this.clbits == clbits
    {
      cursor := new Cursor(tokens);
      this.gates := gates;
      this.gateMap := gateMap;
      this.qubits := qubits;
      this.clbits := clbits;
    }

    /** `Parser::new(input)`: the tokens of `input` as the enclosing module's tokenizer, the
        legacy dialect, reads them, at position 0. */
    static method New(input: string, gates: Pool<PoolGate, M>, gateMap: map<string, Handle>, qubits: seq<Qubit>, clbits: seq<Clbit>)
      returns (r: Outcome<Parser<M>>)
      ensures r.Panic? <==> TokensFrom(Legacy, input, 0).Panic?
      ensures r.Panic? ==> r.msg == TokensFrom(Legacy, input, 0).msg
      ensures r.Ok? ==> fresh(r.value) && fresh(r.value.cursor) &&
                        r.value.cursor.tokens == TokensFrom(Legacy, input, 0).value && r.value.cursor.pos == 0
      ensures r.Ok? ==> r.value.gates == gates && r.value.gateMap == gateMap &&
                        r.value.qubits == qubits && r.value.clbits == clbits
    {
      var tokenizer := new Tokenizer(Legacy, input);
      var tokens :- tokenizer.Tokenize();
      var parser := new Parser(tokens, gates, gateMap, qubits, clbits);
      r := Ok(parser);
    }

    /** The token reading of `parse_operation`. */
    method ParseOperationFields() returns (r: Outcome<(string, seq<Lexeme>)>)
      modifies cursor
      ensures Agrees(OperationFieldsAt(cursor.tokens, old(cursor.pos)), r, cursor.pos)
    {
      var _ :- cursor.ExpectHeader(OPERATION_HEADER);
      var name :- cursor.ParseKeyValue("name", true, true);
      var _ :- cursor.ParseCount("num_qubits", true);
      var _ :- cursor.ParseCount("num_clbits", true);
      var params :- cursor.ParseParams();
      var _ :- cursor.ExpectToken(CloseParen);
      return Ok((name.value, params));
    }

    /** The `match` of `parse_operation`. */
    method AddGate(name: string, params: seq<Lexeme>) returns (r: Outcome<Handle>)
      requires gates.Valid()
      modifies this, gates, gates.contents, gates.metadata, gates.contents.slots
      ensures Reaches(AddGateAt(old(Snapshot()), name, params), r)
    {
      var kind := KindOf(name);
      if kind.None? {
        return Panic(UNEXPECTED_GATE_NAME);
      }
      ghost var before := Snapshot();
      var handle :- gates.Add(PoolGate(kind.value, params));
      gateMap := gateMap[name := handle];
      AddGateReached(before, name, params, Snapshot(), handle);
      return Ok(handle);
    }

    /** `parse_operation`. */
    method ParseOperation() returns (r: Outcome<Handle>)
      requires gates.Valid()
      modifies this, cursor, gates, gates.contents, gates.metadata, gates.contents.slots
      ensures r.Ok? ==> gates.Valid()
      ensures Reaches(OperationAt(cursor.tokens, old(Snapshot())), r)
    {
      ghost var s0 := Snapshot();
      var fields :- ParseOperationFields();
      OperationStep(cursor.tokens, s0, Read(fields, cursor.pos));
      r := AddGate(fields.0, fields.1);
    }

    /** `parse_circuit_instruction`. */
    method ParseCircuitInstruction() returns (r: Outcome<Instr>)
      requires gates.Valid()
      modifies this, cursor, gates, gates.contents, gates.metadata, gates.contents.slots
      ensures Reaches(InstructionAt(cursor.tokens, old(Snapshot())), r)
    {
      ghost var s0 := Snapshot();
      var _ :- cursor.ExpectToken(OpenParen);
      assert cursor.pos == s0.pos + 1 && cursor.tokens[s0.pos] == OpenParen;
      ghost var sA := Snapshot();
      assert sA == s0.(pos := s0.pos + 1);
      var handle :- ParseOperation();
      ghost var s1 := Snapshot();
      assert OperationAt(cursor.tokens, sA) == Ok(Parsed(handle, s1));
      var groups :- cursor.ParseGroups();
      assert GroupsAt(cursor.tokens, s1.pos) == Ok(Read(groups, cursor.pos));
      ghost var s2 := Snapshot();
      assert s2 == s1.(pos := cursor.pos);
      InstructionReads(cursor.tokens, s0, Parsed(handle, s1), Read(groups, s2.pos));
      AddPairs(groups.0, groups.1);
      assert JoinPairs(handle, s2, groups.0, groups.1).state == Snapshot();
      return Ok(CircuitInstruction(handle, QubitIndices(qubits), ClbitIndices(clbits)));
    }

    /** The `zip` loop of `parse_circuit_instruction`: each pair pushes its qubit and its
        clbit when not yet in their lists. */
    method AddPairs(parsedQubits: seq<Qubit>, parsedClbits: seq<Clbit>)
      requires gates.Valid()
      modifies this
      ensures (qubits, clbits) == InsertPairs(old(qubits), old(clbits), parsedQubits, parsedClbits)
      ensures gates.Valid() && Snapshot() == old(Snapshot()).(qubits := qubits, clbits := clbits)
    {
      var n := Min(|parsedQubits|, |parsedClbits|);
      assert parsedQubits[0..] == parsedQubits && parsedClbits[0..] == parsedClbits;
      for i := 0 to n
        invariant InsertPairs(old(qubits), old(clbits), parsedQubits, parsedClbits) ==
                  InsertPairs(qubits, clbits, parsedQubits[i..], parsedClbits[i..])
        invariant gateMap == old(gateMap)
      {
        assert parsedQubits[i..][1..] == parsedQubits[i + 1..];
        assert parsedClbits[i..][1..] == parsedClbits[i + 1..];
        InsertPairsStep(qubits, clbits, parsedQubits[i..], parsedClbits[i..]);
        if parsedQubits[i] !in qubits {
          qubits := qubits + [parsedQubits[i]];
        }
        if parsedClbits[i] !in clbits {
          clbits := clbits + [parsedClbits[i]];
        }
      }
    }

    /** The arm of `parse`'s loop for a `CircuitInstruction` identifier. */
    method ParseListedInstruction() returns (r: Outcome<Instr>)
      requires gates.Valid() && cursor.pos <= |cursor.tokens|
      modifies this, cursor, gates, gates.contents, gates.metadata, gates.contents.slots
      ensures r.Ok? ==> gates.Valid() && old(cursor.pos) < cursor.pos <= |cursor.tokens|
      ensures ListedFrom(cursor.tokens, old(Snapshot())) ==
                if r.Panic? then Panic(r.msg) else Prepend([r.value], InstructionsFrom(cursor.tokens, Snapshot()))
    {
      r := ParseCircuitInstruction();
    }

    /** `parse`. */
    method Parse() returns (r: Outcome<seq<Instr>>)
      requires gates.Valid()
      modifies this, cursor, gates, gates.contents, gates.metadata, gates.contents.slots
      ensures Reaches(ParseAt(cursor.tokens, old(Snapshot())), r)
    {
      ghost var s0 := Snapshot();
      var _ :- cursor.ExpectToken(OpenBracket);
      assert cursor.pos == s0.pos + 1 && cursor.tokens[s0.pos] == OpenBracket;
      assert Snapshot() == s0.(pos := s0.pos + 1);
      r := ParseInstructions();
    }

    /** The loop's arm for a `CircuitInstruction` identifier: one more instruction. */
    method AppendListed(ghost start: State, instructions: seq<Instr>) returns (r: Outcome<seq<Instr>>)
      requires gates.Valid() && cursor.pos <= |cursor.tokens| && start.pos <= |cursor.tokens|
      requires InstructionsFrom(cursor.tokens, start) == Prepend(instructions, ListedFrom(cursor.tokens, Snapshot()))
      modifies this, cursor, gates, gates.contents, gates.metadata, gates.contents.slots
      ensures r.Ok? ==> gates.Valid() && old(cursor.pos) < cursor.pos <= |cursor.tokens|
      ensures r.Ok? ==> InstructionsFrom(cursor.tokens, start) == Prepend(r.value, InstructionsFrom(cursor.tokens, Snapshot()))
      ensures r.Panic? ==> InstructionsFrom(cursor.tokens, start) == Panic(r.msg)
    {
      var instruction :- ParseListedInstruction();
      PrependAppend(instructions, instruction, InstructionsFrom(cursor.tokens, Snapshot()));
      return Ok(instructions + [instruction]);
    }

    /** One turn of the loop of `parse`: the next token, and the instruction it opens or the
        `]` that ends the list (`done`). */
    method Turn(ghost start: State, instructions: seq<Instr>) returns (r: Outcome<seq<Instr>>, done: bool)
      requires gates.Valid() && cursor.pos < |cursor.tokens| && start.pos <= |cursor.tokens|
      requires InstructionsFrom(cursor.tokens, start) == Prepend(instructions, InstructionsFrom(cursor.tokens, Snapshot()))
      modifies this, cursor, gates, gates.contents, gates.metadata, gates.contents.slots
      ensures r.Ok? ==> gates.Valid() && old(cursor.pos) < cursor.pos <= |cursor.tokens|
      ensures r.Ok? && !done ==> InstructionsFrom(cursor.tokens, start) == Prepend(r.value, InstructionsFrom(cursor.tokens, Snapshot()))
      ensures r.Ok? && done ==> InstructionsFrom(cursor.tokens, start) == Ok(Parsed(r.value, Snapshot()))
      ensures r.Panic? ==> InstructionsFrom(cursor.tokens, start) == Panic(r.msg)
    {
      ghost var before := Snapshot();
      var token := cursor.NextToken();
      assert Snapshot() == before.(pos := before.pos + 1);
      LoopStep(cursor.tokens, before);
      done := false;
      if token.value == Identifier("CircuitInstruction") {
        r := AppendListed(start, instructions);
      } else if token.value == CloseBracket {
        assert instructions + [] == instructions;
        r, done := Ok(instructions), true;
      } else {
        r := Ok(instructions);
      }
    }

    /** The loop of `parse`. */
    method ParseInstructions() returns (r: Outcome<seq<Instr>>)
      requires gates.Valid() && cursor.pos <= |cursor.tokens|
      modifies this, cursor, gates, gates.contents, gates.metadata, gates.contents.slots
      ensures Reaches(InstructionsFrom(cursor.tokens, old(Snapshot())), r)
    {
      ghost var start := Snapshot();
      var instructions := [];
      assert Prepend(instructions, InstructionsFrom(cursor.tokens, start)) == InstructionsFrom(cursor.tokens, start) by {
        var spec := InstructionsFrom(cursor.tokens, start);
        if spec.Ok? {
          assert instructions + spec.value.value == spec.value.value;
        }
      }
      while cursor.pos < |cursor.tokens|
        invariant gates.Valid() && cursor.pos <= |cursor.tokens|
        invariant InstructionsFrom(cursor.tokens, start) ==
                  Prepend(instructions, InstructionsFrom(cursor.tokens, Snapshot()))
        decreases |cursor.tokens| - cursor.pos
      {
        var turn, done := Turn(start, instructions);
        if turn.Panic? {
          return Panic(turn.msg);
        }
        instructions := turn.value;
        if done {
          return Ok(instructions);
        }
      }
      assert instructions + [] == instructions;
      return Ok(instructions);
    }
  }

  lemma PrependAppend(instructions: seq<Instr>, i: Instr, r: Outcome<Parsed<seq<Instr>>>)
    ensures Prepend(instructions, Prepend([i], r)) == Prepend(instructions + [i], r)
  {
    if r.Ok? {
      assert instructions + ([i] + r.value.value) == (instructions + [i]) + r.value.value;
    }
  }
}
