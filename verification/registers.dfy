/** `src/register.rs`: the three register kinds and the `Register` enum that wraps them.

    Every field is optional; `size` is a `u32`. As with bits, the derived equality is
    structural and `new` with the `get_*` getters are the constructor and its fields.
 */
module Registers {
  import opened Outcomes
  import Bits

  newtype u32 = x: int | 0 <= x < 0x1_0000_0000

  datatype QuantumRegister = QuantumRegister(size: Option<u32>, name: Option<string>, bits: Option<Bits.Bit>)
  datatype ClassicalRegister = ClassicalRegister(size: Option<u32>, name: Option<string>, bits: Option<Bits.Bit>)
  datatype AncillaRegister = AncillaRegister(size: Option<u32>, name: Option<string>, bits: Option<Bits.Bit>)

  datatype Register =
    | Quantum(quantum: QuantumRegister)
    | Classical(classical: ClassicalRegister)
    | Ancilla(ancilla: AncillaRegister)

  /** `QuantumRegister::from(register)`. */
  function QuantumFrom(r: Register): (q: Outcome<QuantumRegister>)
    ensures q.Ok? <==> r.Quantum?
    ensures q.Ok? ==> r == Quantum(q.value)
    ensures q.Panic? ==> q.msg == "Cannot convert to QuantumRegister"
  {
    match r
    case Quantum(x) => Ok(x)
    case _ => Panic("Cannot convert to QuantumRegister")
  }

  /** `ClassicalRegister::from(register)`. */
  function ClassicalFrom(r: Register): (c: Outcome<ClassicalRegister>)
    ensures c.Ok? <==> r.Classical?
    ensures c.Ok? ==> r == Classical(c.value)
    ensures c.Panic? ==> c.msg == "Cannot convert to ClassicalRegister"
  {
    match r
    case Classical(x) => Ok(x)
    case _ => Panic("Cannot convert to ClassicalRegister")
  }

  /** `AncillaRegister::from(register)`. */
  function AncillaFrom(r: Register): (a: Outcome<AncillaRegister>)
    ensures a.Ok? <==> r.Ancilla?
    ensures a.Ok? ==> r == Ancilla(a.value)
    ensures a.Panic? ==> a.msg == "Cannot convert to AncillaRegister"
  {
    match r
    case Ancilla(x) => Ok(x)
    case _ => Panic("Cannot convert to AncillaRegister")
  }
}
