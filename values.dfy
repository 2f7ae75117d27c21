/** Python scalars as the decoded rows carry them, and the builtins the
    engine applies to one cell: truthiness, `==`/hashing, `float()` and
    `str()`. */
module Values {
  import opened Strings

  datatype Option<T> = None | Some(value: T)

  /** One cell of a row: `None`, a `str`, a number (an `int` or a finite
      `float`, held exactly) or a `bool`. */
  datatype Cell = Null | Str(s: string) | Num(x: real) | Bool(b: bool)

  /** `v is None or v == ''`: the engine's notion of a missing value. */
  predicate IsMissing(c: Cell)
  {
    c == Null || c == Str("")
  }

  /** Python truthiness, as `row.get(column) or fill` tests it: `None`,
      `''`, `0` and `False` are falsy. */
  predicate Truthy(c: Cell)
  {
    match c
    case Null => false
    case Str(s) => s != ""
    case Num(x) => x != 0.0
    case Bool(b) => b
  }

  /** Python's `==` and `hash` identify `True` with `1` and `False` with
      `0`; `Key` picks one representative per class, so sets, `Counter`
      keys and duplicate detection compare `Key`s. */
  function Key(c: Cell): (k: Cell)
    ensures !k.Bool?
    ensures IsMissing(k) == IsMissing(c)
    ensures !c.Bool? ==> k == c
  {
    match c
    case Bool(b) => Num(if b then 1.0 else 0.0)
    case _ => c
  }

  /** The literal grammar of `float()`: for a non-empty string without
      surrounding whitespace, the finite value it denotes, or `None` where
      `float()` raises `ValueError` (or yields an infinity or NaN). */
  const FloatLiteral: string -> Option<real>

  /** `str()` of a number. */
  const NumText: real -> string

  /** `float(s)` for a `str`: surrounding whitespace is ignored, and a blank
      string is rejected. */
  function ParseFloat(s: string): (r: Option<real>)
    ensures Strip(s) == "" ==> r == None
    ensures Strip(s) != "" ==> r == FloatLiteral(Strip(s))
  {
    var t := Strip(s);
    if t == "" then None else FloatLiteral(t)
  }

  /** `float(v)` for a cell: `None` raises `TypeError`, a bool converts to
      `0.0` or `1.0`, a number to itself. */
  function Float(c: Cell): (r: Option<real>)
    ensures c == Null || c == Str("") ==> r == None
    ensures c.Num? ==> r == Some(c.x)
    ensures c.Bool? ==> r == Some(if c.b then 1.0 else 0.0)
  {
    match c
    case Null => None
    case Str(s) => ParseFloat(s)
    case Num(x) => Some(x)
    case Bool(b) => Some(if b then 1.0 else 0.0)
  }

  /** `str(v)` */
  function StrOf(c: Cell): string
  {
    match c
    case Null => "None"
    case Str(s) => s
    case Num(x) => NumText(x)
    case Bool(b) => if b then "True" else "False"
  }
}
