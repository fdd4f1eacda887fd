/**
 * The already-parsed content of a MATLAB .fig file, as the MAT-file reader
 * hands it to the figure decoder, and the few numpy indexing operations the
 * decoder applies to it.
 *
 * Every array the reader produces is two-dimensional and rectangular, except
 * character arrays, which arrive as a one-dimensional array of strings.
 * Numeric entries are never computed with, so they are an opaque type `E`.
 */
module Mat {

  /** Why a decode step fails; each constructor stands for one Python exception. */
  datatype Error =
    | MissingKey(key: string)      // KeyError from the top-level dictionary
    | MissingField(name: string)   // a structured element has no field of that name
    | BadIndex                     // numpy IndexError: index 0 on an empty axis, or too many indices
    | NotAFigure                   // ValueError('not a figure (wrong type)')
    | NotAnAxes                    // ValueError('not an axes object')
    | WrongKind(name: string)      // the named field holds a different kind of array
    | ShapeMismatch                // np.stack of arrays of different shapes

  datatype Result<+T> = Ok(value: T) | Err(error: Error) {
    predicate IsFailure() { Err? }

    function PropagateFailure<U>(): Result<U>
      requires Err?
    {
      Err(error)
    }

    function Extract(): T
      requires Ok?
    {
      value
    }
  }

  /** A two-dimensional array stored row by row. */
  datatype Array2<T> = Array2(rows: nat, cols: nat, cells: seq<seq<T>>) {
    predicate Rectangular() {
      |cells| == rows && forall i :: 0 <= i < rows ==> |cells[i]| == cols
    }
  }

  /** numpy arrays are always rectangular. */
  type Matrix<T> = m: Array2<T> | m.Rectangular() witness Array2(0, 0, [])

  /** The value held by one field of a MATLAB struct. */
  datatype Value<E> =
    | Text(strs: seq<string>)   // a char array, read as a 1-D array of strings
    | Numeric(m: Matrix<E>)     // a numeric array
    | Opaque(id: nat)           // any other kind (logical, cell, nested struct), never inspected

  datatype Field<E> = Field(name: string, value: Value<E>)

  /** One element of a MATLAB struct array: its fields in declaration order. */
  type Struct<E> = seq<Field<E>>

  /**
   * One node of the figure tree: the fields `type`, `properties` and
   * `children` of the serialised graphics object (`handle` and `special` are
   * never read). `kind` is the `type` field, a 1-D array of strings;
   * `properties` is a struct array (normally 1x1); `children` is an array of
   * nodes (normally Nx1).
   */
  datatype Record<E> = Record(kind: seq<string>, properties: Matrix<Struct<E>>, children: Matrix<Record<E>>)

  /** `a[0, 0]` */
  function Element<T>(a: Matrix<T>): (r: Result<T>)
    ensures r.Ok? <==> a.rows > 0 && a.cols > 0
    ensures r.Ok? ==> r.value == a.cells[0][0]
    ensures r.Err? ==> r.error == BadIndex
  {
    if a.rows == 0 || a.cols == 0 then Err(BadIndex) else Ok(a.cells[0][0])
  }

  /** `a[:, 0]`: the first column, which narrows an Nx1 column vector to a flat sequence. */
  function Column<T>(a: Matrix<T>): (r: Result<seq<T>>)
    ensures r.Ok? <==> a.cols > 0
    ensures r.Ok? ==> |r.value| == a.rows
    ensures r.Ok? ==> forall i :: 0 <= i < a.rows ==> r.value[i] == a.cells[i][0]
    ensures r.Err? ==> r.error == BadIndex
  {
    if a.cols == 0 then Err(BadIndex)
    else Ok(seq(a.rows, i requires 0 <= i < a.rows => a.cells[i][0]))
  }

  /** `a[0, :]`: the first row. */
  function FirstRow<T>(a: Matrix<T>): (r: Result<seq<T>>)
    ensures r.Ok? <==> a.rows > 0
    ensures r.Ok? ==> |r.value| == a.cols && r.value == a.cells[0]
    ensures r.Err? ==> r.error == BadIndex
  {
    if a.rows == 0 then Err(BadIndex) else Ok(a.cells[0])
  }

  /** The rows of an array laid end to end. */
  function Flatten<T>(rows: seq<seq<T>>): seq<T> {
    if rows == [] then [] else rows[0] + Flatten(rows[1..])
  }

  lemma {:induction false} FlattenSingletons<T>(rows: seq<seq<T>>)
    requires forall i :: 0 <= i < |rows| ==> |rows[i]| == 1
    ensures Flatten(rows) == seq(|rows|, i requires 0 <= i < |rows| => rows[i][0])
  {
    if rows != [] {
      FlattenSingletons(rows[1..]);
      assert rows[0] == [rows[0][0]];
    }
  }

  /** Taking the first column of an Nx1 column vector gives exactly its elements, in order. */
  lemma ColumnOfColumnVector<T>(a: Matrix<T>)
    requires a.cols == 1
    ensures Column(a) == Ok(Flatten(a.cells))
  {
    FlattenSingletons(a.cells);
    var flat := Flatten(a.cells);
    assert |flat| == a.rows && forall i :: 0 <= i < a.rows ==> flat[i] == a.cells[i][0];
    assert Column(a).value == flat;
  }

  /** Taking the first row of a 1xN row vector gives exactly its N elements, in order. */
  lemma RowOfRowVector<T>(a: Matrix<T>)
    requires a.rows == 1
    ensures FirstRow(a) == Ok(Flatten(a.cells))
  {
    var row := a.cells[0];
    assert a.cells == [row] && [row][1..] == [];
    assert Flatten(a.cells) == row + [] == row;
  }

  /** The names of the fields of a struct element. */
  function FieldNames<E>(s: Struct<E>): set<string> {
    set i | 0 <= i < |s| :: s[i].name
  }

  /** No later field of `s` has the same name as field `i`. */
  predicate Unshadowed<E>(s: Struct<E>, i: nat)
    requires i < |s|
  {
    forall j :: i < j < |s| ==> s[j].name != s[i].name
  }

  /** `m` holds exactly the fields of `s`, each name bound to the value of its last field. */
  ghost predicate CopiesFields<E>(m: map<string, Value<E>>, s: Struct<E>) {
    && m.Keys == FieldNames(s)
    && forall i :: 0 <= i < |s| && Unshadowed(s, i) ==> m[s[i].name] == s[i].value
  }

  /** `dict(zip(props.dtype.names, props))`: the fields of a struct element as a dictionary. */
  function PropertyMap<E>(s: Struct<E>): (m: map<string, Value<E>>)
    ensures CopiesFields(m, s)
  {
    if s == [] then map[]
    else
      var init, last := s[..|s| - 1], s[|s| - 1];
      assert s == init + [last];
      assert FieldNames(s) == FieldNames(init) + {last.name};
      assert forall i :: 0 <= i < |init| && Unshadowed(s, i) ==> Unshadowed(init, i) && s[i] == init[i];
      PropertyMap(init)[last.name := last.value]
  }

  /** A field that no later field shadows is what looking up its name finds. */
  lemma LookupFinds<E>(s: Struct<E>, i: nat)
    requires i < |s| && Unshadowed(s, i)
    ensures Lookup(s, s[i].name) == Ok(s[i].value)
  {
  }

  /** `props['name']` on a struct element. */
  function Lookup<E>(s: Struct<E>, name: string): (r: Result<Value<E>>)
    ensures r.Ok? <==> name in FieldNames(s)
    ensures r.Err? ==> r.error == MissingField(name)
  {
    var m := PropertyMap(s);
    if name in m then Ok(m[name]) else Err(MissingField(name))
  }
}
