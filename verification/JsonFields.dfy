/** Fields of JSON records as the host language sees them: numbers of different kinds
    can be equal. */
module JsonFields {
  import opened Options

  datatype Field = Whole(n: int) | Truth(b: bool) | Decimal(r: real) | NotNumber | Unhashable

  /** The integer that a field equals. */
  function AsInt(f: Field): Option<int> {
    match f
    case Whole(n) => Some(n)
    case Truth(b) => Some(if b then 1 else 0)
    case Decimal(r) => if r == r.Floor as real then Some(r.Floor) else None
    case _ => None
  }
}
