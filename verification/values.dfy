/** The Python values that travel through the settings dictionary of the
    proxy service and through Account.to_dict / from_dict: None, booleans,
    integers and strings, with Python's truthiness and str() rendering. */
module Values {
  import opened Strings

  datatype Value = Null | Bool(b: bool) | Int(i: int) | Str(s: string)

  /** bool(v). */
  predicate Truthy(v: Value)
    ensures Truthy(v) <==> v != Null && v != Bool(false) && v != Int(0) && v != Str("")
  {
    match v
    case Null => false
    case Bool(b) => b
    case Int(i) => i != 0
    case Str(s) => s != ""
  }

  /** str(v), as an f-string renders it. */
  function Show(v: Value): (r: string)
    ensures v.Str? ==> r == v.s
    ensures v.Int? ==> ParseInt(r) == Some(v.i)
  {
    match v
    case Null => "None"
    case Bool(b) => if b then "True" else "False"
    case Int(i) => (ParseIntOfIntToString(i); IntToString(i))
    case Str(s) => s
  }

  /** d.get(key, default). */
  function Get<K>(d: map<K, Value>, key: K, default: Value): (r: Value)
    ensures key in d ==> r == d[key]
    ensures key !in d ==> r == default
  {
    if key in d then d[key] else default
  }

  /** The marks that open the status texts: a check for an active
      account and a cross for one in error. */
  const Check: string := "\U{2705}"
  const Cross: string := "\U{274C}"

  /** The colours the interface uses for a three-level indication. */
  datatype Tier = Green | Yellow | Red

  /** The stylesheet colour of each tier. */
  function TierColor(t: Tier): string
  {
    match t
    case Green => "#28a745"
    case Yellow => "#ffc107"
    case Red => "#dc3545"
  }
}
