/**
 * Pan shapes and their measures, as both pan domains declare them
 * (a `Measures` record of four optional integers), and the plane areas
 * the strategies compute from them.
 */
module PanGeometry {
  import opened Wrappers
  import opened GoInt

  /** Go's `math.Pi`, written as the shortest decimal that rounds to its float64 value. Proofs use it only symbolically. */
  const PI: real := 3.141592653589793

  datatype Shape = Round | Square | Rectangular

  function ShapeName(s: Shape): string {
    match s
    case Round => "round"
    case Square => "square"
    case Rectangular => "rectangular"
  }

  /** The shape a request names, if it is one of the three registered shapes. */
  function ShapeOf(name: string): (r: Option<Shape>)
    ensures r.Some? ==> ShapeName(r.value) == name
    ensures r.None? ==> forall s: Shape :: ShapeName(s) != name
  {
    if name == "round" then Some(Round)
    else if name == "square" then Some(Square)
    else if name == "rectangular" then Some(Rectangular)
    else None
  }

  const DiameterKey: string := "diameter"
  const EdgeKey: string := "edge"
  const WidthKey: string := "width"
  const LengthKey: string := "length"

  /** The measure keys a shape's strategy reads from the request. */
  function KeysOf(s: Shape): set<string> {
    match s
    case Round => {DiameterKey}
    case Square => {EdgeKey}
    case Rectangular => {WidthKey, LengthKey}
  }

  /** The optional measure fields of a pan; a nil pointer in Go is `None`. */
  datatype Measures = Measures(diameter: Option<int>, edge: Option<int>, width: Option<int>, length: Option<int>)

  const NoMeasures: Measures := Measures(None, None, None, None)

  /** Exactly the measure fields of shape `s` are set; every other field is absent. */
  predicate CarriesOnly(s: Shape, m: Measures) {
    match s
    case Round => m.diameter.Some? && m.edge.None? && m.width.None? && m.length.None?
    case Square => m.diameter.None? && m.edge.Some? && m.width.None? && m.length.None?
    case Rectangular => m.diameter.None? && m.edge.None? && m.width.Some? && m.length.Some?
  }

  /** `math.Pi * radius * radius` with `radius = float64(diameter) / 2`. */
  function CircleArea(diameter: int): (a: real)
    ensures a >= 0.0
  {
    var radius := diameter as real / 2.0;
    PI * radius * radius
  }

  /** `float64(edge * edge)`, the product taken on Go's 64-bit int. */
  function SquareArea(edge: int): (a: real)
    ensures MinInt64 as real <= a <= MaxInt64 as real
    ensures IsInt64(edge * edge) ==> a == (edge * edge) as real && a >= 0.0
  {
    Mul64(edge, edge) as real
  }

  /** `float64(width * length)`, the product taken on Go's 64-bit int. */
  function RectangleArea(width: int, length: int): (a: real)
    ensures MinInt64 as real <= a <= MaxInt64 as real
    ensures IsInt64(width * length) ==> a == (width * length) as real
    ensures (width >= 0) == (length >= 0) && IsInt64(width * length) ==> a >= 0.0
  {
    Mul64(width, length) as real
  }

  /** The area of a pan of shape `s` read from the measures it carries. */
  function MeasuredArea(s: Shape, m: Measures): real
    requires CarriesOnly(s, m)
  {
    match s
    case Round => CircleArea(m.diameter.value)
    case Square => SquareArea(m.edge.value)
    case Rectangular => RectangleArea(m.width.value, m.length.value)
  }

  /** Every carried measure field holds the integer `Atoi` read from its key. */
  predicate ReadFrom(m: Measures, measures: map<string, string>) {
    && (m.diameter.Some? ==> DiameterKey in measures && m.diameter.value == Atoi(measures[DiameterKey]).value)
    && (m.edge.Some? ==> EdgeKey in measures && m.edge.value == Atoi(measures[EdgeKey]).value)
    && (m.width.Some? ==> WidthKey in measures && m.width.value == Atoi(measures[WidthKey]).value)
    && (m.length.Some? ==> LengthKey in measures && m.length.value == Atoi(measures[LengthKey]).value)
  }

  /** The shape and the request determine the measures: two readings that carry the same fields agree. */
  lemma ReadingIsUnique(s: Shape, m: Measures, m': Measures, measures: map<string, string>)
    requires CarriesOnly(s, m) && CarriesOnly(s, m')
    requires ReadFrom(m, measures) && ReadFrom(m', measures)
    ensures m == m'
  {
  }
}
