/** `DBConnection.transformToMatrixOrArray`: the conversion of a statement's
    parameters into the flat array (one value per `?`) or the one-row matrix
    (one tuple for `values (?)`) that the driver expects. */
module DbConnection {
  import opened Js

  /** The argument, by its JavaScript type. An object is given by its own
      enumerable properties in `Object.keys` order; `Other` is a boolean or
      `undefined`, for which neither branch pushes anything. */
  datatype Input =
    | Array(items: seq<JsValue>)
    | Text(s: string)
    | Number(n: int)
    | Object(entries: seq<(string, JsValue)>)
    | Other

  datatype Converted = Flat(values: seq<JsValue>) | Matrix(rows: seq<seq<JsValue>>)

  /** The values of an object's properties, in key order. */
  function ValuesOf(entries: seq<(string, JsValue)>): seq<JsValue> {
    if entries == [] then []
    else ValuesOf(entries[..|entries| - 1]) + [entries[|entries| - 1].1]
  }

  /** `ValuesOf` keeps one value per key, at the key's position. */
  lemma {:induction false} ValuesInKeyOrder(entries: seq<(string, JsValue)>)
    ensures |ValuesOf(entries)| == |entries|
    ensures forall i | 0 <= i < |entries| :: ValuesOf(entries)[i] == entries[i].1
  {
    if entries != [] {
      ValuesInKeyOrder(entries[..|entries| - 1]);
    }
  }

  /** What the local `array` holds after the `number` and `object` branches. */
  function Pushed(input: Input): seq<JsValue> {
    match input
    case Number(n) => [Num(n)]
    case Object(entries) => ValuesOf(entries)
    case _ => []
  }

  /** The result of `transformToMatrixOrArray(input, is_matrix)`: an array
      is copied (and wrapped as the only row when `is_matrix`), a string is
      a one-element array whatever `is_matrix` says, and every other input
      gives the pushed values, wrapped as the only row when `is_matrix`. */
  function Transformed(input: Input, isMatrix: bool): Converted {
    match input
    case Array(items) => if isMatrix then Matrix([items]) else Flat(items)
    case Text(s) => Flat([Str(s)])
    case _ => if isMatrix then Matrix([Pushed(input)]) else Flat(Pushed(input))
  }

  method TransformToMatrixOrArray(input: Input, isMatrix: bool) returns (r: Converted)
    ensures r == Transformed(input, isMatrix)
  {
    if input.Array? {
      return if isMatrix then Matrix([input.items]) else Flat(input.items);
    }
    if input.Text? {
      return Flat([Str(input.s)]);
    }
    var pushed: seq<JsValue> := [];
    if input.Number? {
      pushed := pushed + [Num(input.n)];
    }
    if input.Object? {
      var entries := input.entries;
      var i := 0;
      while i < |entries|
        invariant 0 <= i <= |entries|
        invariant pushed == ValuesOf(entries[..i])
      {
        assert entries[..i + 1][..i] == entries[..i];
        pushed := pushed + [entries[i].1];
        i := i + 1;
      }
      assert entries[..i] == entries;
    }
    assert pushed == Pushed(input);
    r := if isMatrix then Matrix([pushed]) else Flat(pushed);
  }

  /** The row of a result: the flat array itself, or the only row of a matrix. */
  function RowOf(c: Converted): seq<JsValue> {
    match c
    case Flat(values) => values
    case Matrix(rows) => if |rows| == 1 then rows[0] else []
  }

  /** Without `is_matrix` the result is flat: a copy of an array, the
      string alone, the number alone, the object's values with one entry
      per key in key order, or nothing. */
  lemma {:induction false} FlatResult(input: Input)
    ensures Transformed(input, false).Flat?
    ensures input.Array? ==> RowOf(Transformed(input, false)) == input.items
    ensures input.Text? ==> RowOf(Transformed(input, false)) == [Str(input.s)]
    ensures input.Number? ==> RowOf(Transformed(input, false)) == [Num(input.n)]
    ensures input.Object? ==>
      && |RowOf(Transformed(input, false))| == |input.entries|
      && forall i | 0 <= i < |input.entries| ::
           RowOf(Transformed(input, false))[i] == input.entries[i].1
    ensures input.Other? ==> RowOf(Transformed(input, false)) == []
  {
    if input.Object? {
      ValuesInKeyOrder(input.entries);
    }
  }

  /** With `is_matrix` every input except a string gives a matrix of exactly
      one row, and that row is the result without `is_matrix`; a string
      gives the same flat array either way. */
  lemma MatrixIsOneFlatRow(input: Input)
    ensures input.Text? ==> Transformed(input, true) == Transformed(input, false)
    ensures !input.Text? ==>
      && Transformed(input, true).Matrix?
      && |Transformed(input, true).rows| == 1
      && Transformed(input, true).rows[0] == Transformed(input, false).values
  {
  }

  /** The worked examples of the documentation comment. */
  lemma DocumentedExamples()
    ensures Transformed(Array([Num(1), Num(2), Num(3)]), false) == Flat([Num(1), Num(2), Num(3)])
    ensures Transformed(Array([Num(1), Num(2), Num(3)]), true) == Matrix([[Num(1), Num(2), Num(3)]])
    ensures Transformed(Text("hello"), false) == Flat([Str("hello")])
    ensures Transformed(Number(42), false) == Flat([Num(42)])
    ensures Transformed(Object([("a", Num(1)), ("b", Num(2))]), false) == Flat([Num(1), Num(2)])
    ensures Transformed(Object([("a", Num(1)), ("b", Num(2))]), true) == Matrix([[Num(1), Num(2)]])
  {
    var entries := [("a", Num(1)), ("b", Num(2))];
    assert entries[..1] == [("a", Num(1))];
    assert entries[..1][..0] == [];
    assert ValuesOf(entries[..1]) == [Num(1)];
  }
}
