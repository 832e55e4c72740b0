/**
 * The few JavaScript value semantics the catalogue's code relies on:
 * optional values (`null` / `undefined` versus a string), truthiness, property
 * access on a plain object, the `||` fallback, and the column values of the
 * database rows the pages receive.
 */
module Js {
  import opened Strings

  /** A value that may be absent: `None` stands for both `null` and `undefined`. */
  datatype Option<+T> = None | Some(value: T)

  /** JavaScript truthiness of an optional string: absent and `''` are falsy, every other string is truthy. */
  predicate Truthy(v: Option<string>)
  {
    v.Some? && v.value != ""
  }

  /** `obj[key]` on an object whose values may be null: a missing key reads as `undefined`. */
  function Prop(obj: map<string, Option<string>>, key: string): Option<string>
  {
    if key in obj then obj[key] else None
  }

  /** `obj[key]` on an object whose present values are strings (a parsed query string, form data). */
  function Field(obj: map<string, string>, key: string): Option<string>
  {
    if key in obj then Some(obj[key]) else None
  }

  /** `v || null`: keeps a truthy value, turns every falsy one into `null`. */
  function OrNull(v: Option<string>): (r: Option<string>)
    ensures r.Some? <==> Truthy(v)
    ensures r.Some? ==> r == v
  {
    if Truthy(v) then v else None
  }

  /** A column value of a database row as it arrives in JSON (INT columns as numbers, the rest as text). */
  datatype Cell = Null | Text(text: string) | Int(number: int)

  /** A row: column name to value. */
  type Row = map<string, Cell>

  /** `row.name`: a column the row does not have reads as null here. */
  function Column(row: Row, name: string): Cell
  {
    if name in row then row[name] else Null
  }

  /** JavaScript truthiness of a column value. */
  predicate Present(c: Cell)
  {
    match c
    case Null => false
    case Text(t) => t != ""
    case Int(n) => n != 0
  }

  /** `a || b` on column values. */
  function OrCell(a: Cell, b: Cell): (r: Cell)
    ensures Present(a) ==> r == a
    ensures !Present(a) ==> r == b
    ensures Present(r) <==> Present(a) || Present(b)
  {
    if Present(a) then a else b
  }

  /** A column value interpolated into a template literal. */
  function Display(c: Cell): (s: string)
    ensures c.Int? ==> s != "" && IntDigits(s)
  {
    match c
    case Null => "null"
    case Text(t) => t
    case Int(n) => IntToString(n)
  }
}
