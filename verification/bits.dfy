/** `src/bit.rs`: the three bit kinds and the `Bit` enum that wraps them.

    A bit is a name and an index; the derived equality is structural, which datatype
    equality gives directly, and `new`, `name()` and `index()` are the constructor and the
    fields. The `From<Bit>` projections panic on the wrong variant.
 */
module Bits {
  import opened Outcomes

  datatype Qubit = Qubit(name: string, index: nat)
  datatype Clbit = Clbit(name: string, index: nat)
  datatype AncillaQubit = AncillaQubit(name: string, index: nat)

  /** `Bit`; the variants are named by what they hold. */
  datatype Bit =
    | Quantum(qubit: Qubit)
    | Classical(clbit: Clbit)
    | Ancilla(ancilla: AncillaQubit)

  /** `Qubit::from(bit)`. */
  function QubitFrom(b: Bit): (r: Outcome<Qubit>)
    ensures r.Ok? <==> b.Quantum?
    ensures r.Ok? ==> b == Quantum(r.value)
    ensures r.Panic? ==> r.msg == "Cannot convert to Qubit"
  {
    match b
    case Quantum(q) => Ok(q)
    case _ => Panic("Cannot convert to Qubit")
  }

  /** `Clbit::from(bit)`. */
  function ClbitFrom(b: Bit): (r: Outcome<Clbit>)
    ensures r.Ok? <==> b.Classical?
    ensures r.Ok? ==> b == Classical(r.value)
    ensures r.Panic? ==> r.msg == "Cannot convert to Clbit"
  {
    match b
    case Classical(c) => Ok(c)
    case _ => Panic("Cannot convert to Clbit")
  }

  /** `AncillaQubit::from(bit)`. */
  function AncillaFrom(b: Bit): (r: Outcome<AncillaQubit>)
    ensures r.Ok? <==> b.Ancilla?
    ensures r.Ok? ==> b == Ancilla(r.value)
    ensures r.Panic? ==> r.msg == "Cannot convert to AncillaQubit"
  {
    match b
    case Ancilla(a) => Ok(a)
    case _ => Panic("Cannot convert to AncillaQubit")
  }

  /** `bits.iter().map(|bit| Qubit::from(bit.clone())).collect()`: panics at the first bit
      that is not a qubit. */
  function QubitsFrom(bits: seq<Bit>): (r: Outcome<seq<Qubit>>)
    ensures r.Ok? <==> forall i :: 0 <= i < |bits| ==> bits[i].Quantum?
    ensures r.Ok? ==> |r.value| == |bits| && forall i :: 0 <= i < |bits| ==> bits[i] == Quantum(r.value[i])
  {
    if |bits| == 0 then Ok([])
    else
      var q :- QubitFrom(bits[0]);
      var rest :- QubitsFrom(bits[1..]);
      assert forall i :: 1 <= i < |bits| ==> bits[i] == bits[1..][i - 1];
      Ok([q] + rest)
  }

  /** The same for `Clbit::from`. */
  function ClbitsFrom(bits: seq<Bit>): (r: Outcome<seq<Clbit>>)
    ensures r.Ok? <==> forall i :: 0 <= i < |bits| ==> bits[i].Classical?
    ensures r.Ok? ==> |r.value| == |bits| && forall i :: 0 <= i < |bits| ==> bits[i] == Classical(r.value[i])
  {
    if |bits| == 0 then Ok([])
    else
      var c :- ClbitFrom(bits[0]);
      var rest :- ClbitsFrom(bits[1..]);
      assert forall i :: 1 <= i < |bits| ==> bits[i] == bits[1..][i - 1];
      Ok([c] + rest)
  }

  /** `qubits.iter().map(|qubit| qubit.index()).collect()`. */
  function QubitIndices(qubits: seq<Qubit>): (r: seq<nat>)
    ensures |r| == |qubits| && forall i :: 0 <= i < |qubits| ==> r[i] == qubits[i].index
  {
    seq(|qubits|, i requires 0 <= i < |qubits| => qubits[i].index)
  }

  /** `clbits.iter().map(|clbit| clbit.index()).collect()`. */
  function ClbitIndices(clbits: seq<Clbit>): (r: seq<nat>)
    ensures |r| == |clbits| && forall i :: 0 <= i < |clbits| ==> r[i] == clbits[i].index
  {
    seq(|clbits|, i requires 0 <= i < |clbits| => clbits[i].index)
  }
}
