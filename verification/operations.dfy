/** `src/operations.rs`: gates, the other operations and the `GateBuilder`.

    Floating-point fields (`params`, `duration`, a Hamiltonian's constant) are carried as
    their decimal text, a matrix as an opaque `Matrix` value and a time-dependent function
    pointer as an opaque number: the model never computes with them.
 */
module Operations {
  import opened Outcomes

  datatype TimeUnit = DT

  /** A gate matrix, opaque: the built-in matrix of a named gate or a zero matrix. */
  datatype Matrix = Builtin(gate: string) | Zeros(rows: nat, cols: nat)

  datatype HamiltonianComponent =
    HamiltonianComponent(timeFn: Option<nat>, constant: Option<string>, operator: Matrix)

  datatype Hamiltonian = Hamiltonian(components: seq<HamiltonianComponent>)

  datatype Gate = Gate(
    name: string,
    params: seq<string>,
    duration: Option<string>,
    unit: TimeUnit,
    matrix: Matrix,
    hamiltonian: Option<Hamiltonian>)

  datatype Delay = Delay(duration: string)

  datatype Operation =
    | GateOp(gate: Gate)
    | DelayOp(delay: Delay)
    | Barrier
    | Measurement

  datatype GateBuilder = GateBuilder(
    name: Option<string>,
    params: Option<seq<string>>,
    duration: Option<string>,
    unit: Option<TimeUnit>,
    matrix: Option<Matrix>,
    hamiltonian: Option<Hamiltonian>)

  const NAME_NOT_SET := "Gate name not set"
  const MATRIX_NOT_SET := "Gate matrix not set"
  const UNWRAP_NONE := "called `Option::unwrap()` on a `None` value"
  const NOT_A_GATE := "Operation is not a gate"

  /** `GateBuilder::new`. */
  function NewBuilder(): (b: GateBuilder)
    ensures b.name.None? && b.params.None? && b.duration.None?
    ensures b.unit.None? && b.matrix.None? && b.hamiltonian.None?
  {
    GateBuilder(None, None, None, None, None, None)
  }

  /** The setters each set their own field and leave the other five as they were. */
  function WithName(b: GateBuilder, name: string): (r: GateBuilder)
    ensures r.name == Some(name)
    ensures r.params == b.params && r.duration == b.duration && r.unit == b.unit
    ensures r.matrix == b.matrix && r.hamiltonian == b.hamiltonian
  {
    b.(name := Some(name))
  }

  function WithParams(b: GateBuilder, params: seq<string>): (r: GateBuilder)
    ensures r.params == Some(params)
    ensures r.name == b.name && r.duration == b.duration && r.unit == b.unit
    ensures r.matrix == b.matrix && r.hamiltonian == b.hamiltonian
  {
    b.(params := Some(params))
  }

  function WithDuration(b: GateBuilder, duration: string): (r: GateBuilder)
    ensures r.duration == Some(duration)
    ensures r.name == b.name && r.params == b.params && r.unit == b.unit
    ensures r.matrix == b.matrix && r.hamiltonian == b.hamiltonian
  {
    b.(duration := Some(duration))
  }

  function WithUnit(b: GateBuilder, unit: TimeUnit): (r: GateBuilder)
    ensures r.unit == Some(unit)
    ensures r.name == b.name && r.params == b.params && r.duration == b.duration
    ensures r.matrix == b.matrix && r.hamiltonian == b.hamiltonian
  {
    b.(unit := Some(unit))
  }

  function WithMatrix(b: GateBuilder, matrix: Matrix): (r: GateBuilder)
    ensures r.matrix == Some(matrix)
    ensures r.name == b.name && r.params == b.params && r.duration == b.duration
    ensures r.unit == b.unit && r.hamiltonian == b.hamiltonian
  {
    b.(matrix := Some(matrix))
  }

  function WithHamiltonian(b: GateBuilder, hamiltonian: Hamiltonian): (r: GateBuilder)
    ensures r.hamiltonian == Some(hamiltonian)
    ensures r.name == b.name && r.params == b.params && r.duration == b.duration
    ensures r.unit == b.unit && r.matrix == b.matrix
  {
    b.(hamiltonian := Some(hamiltonian))
  }

  /** `GateBuilder::build`: fails on the first unset required field, in field order
      (name, params, unit, matrix); duration and Hamiltonian pass through as they are. */
  function Build(b: GateBuilder): (r: Outcome<Gate>)
    ensures r.Ok? <==> b.name.Some? && b.params.Some? && b.unit.Some? && b.matrix.Some?
    ensures r.Ok? ==>
              r.value.name == b.name.value && r.value.params == b.params.value &&
              r.value.unit == b.unit.value && r.value.matrix == b.matrix.value &&
              r.value.duration == b.duration && r.value.hamiltonian == b.hamiltonian
    ensures r.Panic? ==>
              r.msg == (if b.name.None? then NAME_NOT_SET
                        else if b.params.None? || b.unit.None? then UNWRAP_NONE
                        else MATRIX_NOT_SET)
  {
    if b.name.None? then Panic(NAME_NOT_SET)
    else if b.params.None? then Panic(UNWRAP_NONE)
    else if b.unit.None? then Panic(UNWRAP_NONE)
    else if b.matrix.None? then Panic(MATRIX_NOT_SET)
    else Ok(Gate(b.name.value, b.params.value, b.duration, b.unit.value, b.matrix.value, b.hamiltonian))
  }

  /** `Gate::builder`: a builder carrying the gate's fields, through the six setters; the
      `unwrap`s of duration and Hamiltonian panic when either is `None`. */
  function Builder(g: Gate): (r: Outcome<GateBuilder>)
    ensures r.Ok? <==> g.duration.Some? && g.hamiltonian.Some?
    ensures r.Panic? ==> r.msg == UNWRAP_NONE
  {
    if g.duration.None? || g.hamiltonian.None? then Panic(UNWRAP_NONE)
    else
      Ok(WithHamiltonian(
           WithMatrix(
             WithUnit(
               WithDuration(WithParams(WithName(NewBuilder(), g.name), g.params), g.duration.value),
               g.unit),
             g.matrix),
           g.hamiltonian.value))
  }

  /** Round trip: a gate with a duration and a Hamiltonian rebuilds to itself. */
  lemma BuilderRoundTrip(g: Gate)
    requires g.duration.Some? && g.hamiltonian.Some?
    ensures Builder(g).Ok? && Build(Builder(g).value) == Ok(g)
  {
  }

  /** `Gate::from(operation)`. */
  function GateFrom(op: Operation): (r: Outcome<Gate>)
    ensures r.Ok? <==> op.GateOp?
    ensures r.Ok? ==> op == GateOp(r.value)
    ensures r.Panic? ==> r.msg == NOT_A_GATE
  {
    match op
    case GateOp(g) => Ok(g)
    case _ => Panic(NOT_A_GATE)
  }

  newtype u8 = x: int | 0 <= x < 256

  /** `Operation::id`: every operation, of every variant, has id 0. */
  function Id(op: Operation): (id: u8)
    ensures id == 0
  {
    0
  }
}
