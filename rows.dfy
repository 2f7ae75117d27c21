/** A decoded record: `Dict[str, Any]` with its insertion order. */
module Rows {
  import opened Values

  /** The row's keys in insertion order, and its cells. */
  datatype Row = Row(keys: seq<string>, cells: map<string, Cell>)

  /** A dictionary: each key once, and exactly the keys that have cells. */
  ghost predicate WellFormed(r: Row)
  {
    && (forall i, j :: 0 <= i < j < |r.keys| ==> r.keys[i] != r.keys[j])
    && (forall k :: k in r.cells <==> k in r.keys)
  }

  /** `row.get(k)`: an absent key reads as `None`. */
  function Get(r: Row, k: string): Cell
  {
    if k in r.cells then r.cells[k] else Null
  }

  /** `row.get(k, d)` */
  function GetOr(r: Row, k: string, d: Cell): (c: Cell)
    ensures k in r.cells ==> c == Get(r, k)
    ensures k !in r.cells ==> c == d
  {
    if k in r.cells then r.cells[k] else d
  }

  /** `{**row, k: v}`: a copy with `k` bound to `v`; a new key goes last. */
  function Set(r: Row, k: string, v: Cell): (r': Row)
    ensures Get(r', k) == v
    ensures forall j :: j != k ==> Get(r', j) == Get(r, j)
    ensures r'.cells.Keys == r.cells.Keys + {k}
    ensures WellFormed(r) ==> WellFormed(r')
    ensures WellFormed(r) && k in r.cells ==> r'.keys == r.keys
  {
    Row(if k in r.cells then r.keys else r.keys + [k], r.cells[k := v])
  }

  /** Overwriting a key twice keeps only the second value. */
  lemma SetSet(r: Row, k: string, v: Cell, w: Cell)
    ensures Set(Set(r, k, v), k, w) == Set(r, k, w)
  {
  }

  /** What Python's `==` on two rows compares: the key set and, per key, the
      cell up to `Key`. Key order does not matter. */
  function EqClass(r: Row): map<string, Cell>
  {
    map k | k in r.cells :: Key(r.cells[k])
  }
}
