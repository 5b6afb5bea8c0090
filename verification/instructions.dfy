/** The records the parsers produce.

    `CircuitInstruction` (`src/circuit_instruction.rs`) pairs an operation with the indices
    of the qubits and clbits it acts on; it is generic in the operation because each parser
    generation stores a different one (an `Operation`, a pool `Handle`, an `Instruction`).
    `Instruction` is the seven-field record of `src/instruction.rs` (its `label` is `tag`, a
    reserved word in Dafny); floating-point fields
    are carried as decimal text.
 */
module Instructions {
  import opened Outcomes

  datatype CircuitInstruction<Op> = CircuitInstruction(operation: Op, qubits: seq<nat>, clbits: seq<nat>)

  datatype Instruction = Instruction(
    name: string,
    numQubits: nat,
    numClbits: nat,
    params: seq<string>,
    duration: Option<string>,
    unit: Option<string>,
    tag: Option<string>)

  /** The operations of a list of instructions, in order. */
  function OperationsOf<Op>(instructions: seq<CircuitInstruction<Op>>): (ops: seq<Op>)
    ensures |ops| == |instructions|
    ensures forall i :: 0 <= i < |ops| ==> ops[i] == instructions[i].operation
  {
    seq(|instructions|, i requires 0 <= i < |instructions| => instructions[i].operation)
  }
}
