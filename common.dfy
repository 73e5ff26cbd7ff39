/** Small shared vocabulary for the whole model. */
module Common {

  /** A value that may be absent (Python's `None`). */
  datatype Option<+T> = None | Some(value: T) {
    /** The value, or `default` when absent (`dict.get(key, default)`). */
    function GetOr(default: T): T {
      match this
      case Some(v) => v
      case None => default
    }
  }

  /** A numeric field of a decoded JSON object as Python's `float(...)` sees it:
      missing (the `.get(key, 0)` default applies), a number, or something that
      `float` refuses (which raises). */
  datatype Field = Absent | Num(number: real) | Malformed

  /** Clock readings are opaque values supplied by the caller. */
  type Timestamp = string

  /** `float(obj.get(key, 0))`: `None` stands for the exception `float` raises. */
  function ParseField(f: Field): (r: Option<real>)
    ensures r.None? <==> f.Malformed?
    ensures f.Absent? ==> r == Some(0.0)
    ensures f.Num? ==> r == Some(f.number)
  {
    match f
    case Absent => Some(0.0)
    case Num(v) => Some(v)
    case Malformed => None
  }

  /** A share `part / total` of a non-empty count lies in [0, 1], is 1
      exactly when the part is everything and 0 when it is nothing. */
  lemma ShareBounds(part: nat, total: nat)
    requires 0 < total && part <= total
    ensures 0.0 <= part as real / total as real <= 1.0
    ensures part == total ==> part as real / total as real == 1.0
    ensures part == 0 ==> part as real / total as real == 0.0
  {
    var share := part as real / total as real;
    assert share * total as real == part as real;
  }
}
