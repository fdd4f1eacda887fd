/**
 * Concrete figure trees and what the decoder makes of them, with real
 * numbers standing for the numeric entries.
 */
module FigExamples {
  import opened Mat
  import opened FigTree

  /** An N-element list stored the MATLAB way, as an Nx1 column. */
  function ColumnOf<T>(xs: seq<T>): (m: Matrix<T>)
    ensures m.rows == |xs| && m.cols == 1
  {
    Array2(|xs|, 1, seq(|xs|, i requires 0 <= i < |xs| => [xs[i]]))
  }

  /** The column vector convention applied to `ColumnOf`: the list comes back unchanged. */
  lemma ColumnOfList<T>(xs: seq<T>)
    ensures Column(ColumnOf(xs)) == Ok(xs)
  {
    var m := ColumnOf(xs);
    ColumnOfColumnVector(m);
    FlattenSingletons(m.cells);
    assert Flatten(m.cells) == xs;
  }

  /** A 1x1 struct array holding one property element. */
  function PropertyElement(fs: Struct<real>): Matrix<Struct<real>> {
    Array2(1, 1, [[fs]])
  }

  const NoChildren: Matrix<Record<real>> := Array2(0, 0, [])

  const Rgb: Matrix<real> := Array2(1, 3, [[0.2, 0.4, 0.6]])

  function SeriesFields(x: seq<real>, y: seq<real>, l: seq<real>, u: seq<real>): Struct<real> {
    [ Field("DisplayName", Text(["run1"])),
      Field("XData", Numeric(ColumnOf(x))),
      Field("YData", Numeric(ColumnOf(y))),
      Field("LData", Numeric(ColumnOf(l))),
      Field("UData", Numeric(ColumnOf(u))),
      Field("Color", Numeric(Rgb)) ]
  }

  function Series(x: seq<real>, y: seq<real>, l: seq<real>, u: seq<real>): Record<real> {
    Record([ErrorBarType], PropertyElement(SeriesFields(x, y, l, u)), NoChildren)
  }

  /** The fields of `SeriesFields` are found under their own names. */
  lemma SeriesLabelFound(x: seq<real>, y: seq<real>, l: seq<real>, u: seq<real>)
    ensures Lookup(SeriesFields(x, y, l, u), "DisplayName") == Ok(Text(["run1"]))
  {
    LookupFinds(SeriesFields(x, y, l, u), 0);
  }

  lemma SeriesDataFound(x: seq<real>, y: seq<real>, l: seq<real>, u: seq<real>)
    ensures var fs := SeriesFields(x, y, l, u);
      && NumericField(fs, "XData") == Ok(ColumnOf(x))
      && NumericField(fs, "YData") == Ok(ColumnOf(y))
  {
    var fs := SeriesFields(x, y, l, u);
    LookupFinds(fs, 1);
    LookupFinds(fs, 2);
  }

  lemma SeriesBoundsFound(x: seq<real>, y: seq<real>, l: seq<real>, u: seq<real>)
    ensures var fs := SeriesFields(x, y, l, u);
      && NumericField(fs, "LData") == Ok(ColumnOf(l))
      && NumericField(fs, "UData") == Ok(ColumnOf(u))
      && NumericField(fs, "Color") == Ok(Rgb)
  {
    var fs := SeriesFields(x, y, l, u);
    LookupFinds(fs, 3);
    LookupFinds(fs, 4);
    LookupFinds(fs, 5);
  }

  /** A series decodes exactly when its bounds can be stacked; the lengths of x and y play no part. */
  lemma SeriesOutcome(x: seq<real>, y: seq<real>, l: seq<real>, u: seq<real>)
    ensures DecodeErrorBar(Series(x, y, l, u)) ==
      if |l| == |u| then Ok(ErrorBarNode("run1", x, y, [l, u], [0.2, 0.4, 0.6])) else Err(ShapeMismatch)
  {
    var fs := SeriesFields(x, y, l, u);
    assert DecodeErrorBar(Series(x, y, l, u)) == SeriesOf(fs);
    SeriesLabelFound(x, y, l, u);
    SeriesDataFound(x, y, l, u);
    SeriesBoundsFound(x, y, l, u);
    ColumnOfList(x);
    ColumnOfList(y);
    ColumnOfList(l);
    ColumnOfList(u);
  }

  function Leaf(kind: string): Record<real> {
    Record([kind], PropertyElement([]), NoChildren)
  }

  const Run1: Record<real> := Series([0.0, 1.0, 2.0], [1.0, 3.0, 2.0], [0.1, 0.2, 0.1], [0.1, 0.1, 0.2])

  const Run1Node: ErrorBarNode<real> :=
    ErrorBarNode("run1", [0.0, 1.0, 2.0], [1.0, 3.0, 2.0], [[0.1, 0.2, 0.1], [0.1, 0.1, 0.2]], [0.2, 0.4, 0.6])

  const XLim: Value<real> := Numeric(Array2(1, 2, [[0.0, 10.0]]))

  const Axes1: Record<real> :=
    Record([AxesType], PropertyElement([Field("XLim", XLim)]), ColumnOf([Run1, Leaf("graph2d.lineseries")]))

  const Fig1: Record<real> :=
    Record([FigureType], PropertyElement([Field("Name", Text(["Fig1"]))]),
           ColumnOf([Axes1, Leaf("legend"), Leaf("scribe.colorbar")]))

  lemma Run1Decodes()
    ensures DecodeErrorBar(Run1) == Ok(Run1Node)
  {
    SeriesOutcome([0.0, 1.0, 2.0], [1.0, 3.0, 2.0], [0.1, 0.2, 0.1], [0.1, 0.1, 0.2]);
  }

  /** A walk over a selected child followed by a skipped one keeps just the first, decoded. */
  lemma KeptFirstOfTwo<E, R>(c: Record<E>, other: Record<E>, tag: string, decode: Record<E> -> Result<R>, n: R)
    requires HasType(c, tag) && decode(c) == Ok(n)
    requires |other.kind| > 0 && other.kind[0] != tag
    ensures Kept([c, other], tag, decode) == Ok([n])
  {
    var one := [c];
    assert one[..0] == [] && Kept(one[..0], tag, decode) == Ok([]);
    assert one[0] == c && [] + [n] == [n];
    assert Kept(one, tag, decode) == Ok([n]);
    assert [c, other][..1] == one && [c, other][1] == other;
  }

  /** Of the axes' two children only the error-bar series is kept. */
  lemma Axes1Children()
    ensures Kept([Run1, Leaf("graph2d.lineseries")], ErrorBarType, DecodeErrorBar) == Ok([Run1Node])
  {
    Run1Decodes();
    KeptFirstOfTwo(Run1, Leaf("graph2d.lineseries"), ErrorBarType, DecodeErrorBar, Run1Node);
  }

  lemma Axes1Decodes()
    ensures DecodeAxes(Axes1) == Ok(AxesNode(map["XLim" := XLim], [Run1Node]))
  {
    ColumnOfList([Run1, Leaf("graph2d.lineseries")]);
    Axes1Children();
    var fs: Struct<real> := [Field("XLim", XLim)];
    assert fs[..0] == [];
    assert PropertyMap(fs) == map["XLim" := XLim];
  }

  /**
   * A figure with an axes, a legend and a colorbar, whose axes holds an
   * error-bar series and a line series: only the axes and the error-bar
   * series survive, and nothing fails.
   */
  lemma EndToEnd()
    ensures LoadFigure(map[RootKey := ColumnOf([Fig1])]) ==
      Ok(FigureNode(map["Name" := Text(["Fig1"])], [AxesNode(map["XLim" := XLim], [Run1Node])]))
  {
    Fig1Children();
    ColumnOfList([Axes1, Leaf("legend"), Leaf("scribe.colorbar")]);
    var fs: Struct<real> := [Field("Name", Text(["Fig1"]))];
    assert fs[..0] == [];
    assert PropertyMap(fs) == map["Name" := Text(["Fig1"])];
    assert DecodeFigure(Fig1) == Ok(FigureNode(map["Name" := Text(["Fig1"])], [AxesNode(map["XLim" := XLim], [Run1Node])]));
  }

  /** Of the figure's three children only the axes is kept. */
  lemma Fig1Children()
    ensures Kept([Axes1, Leaf("legend"), Leaf("scribe.colorbar")], AxesType, DecodeAxes)
      == Ok([AxesNode(map["XLim" := XLim], [Run1Node])])
  {
    var cs := [Axes1, Leaf("legend"), Leaf("scribe.colorbar")];
    Axes1Decodes();
    assert Selected(cs, AxesType) == [Axes1] by {
      assert cs[..2] == [Axes1, Leaf("legend")] && cs[..2][..1] == [Axes1] && [Axes1][..0] == [];
      assert Selected([Axes1], AxesType) == [Axes1];
      assert Selected(cs[..2], AxesType) == [Axes1];
    }
    assert AllTyped(cs);
    KeptMeaning(cs, AxesType, DecodeAxes);
    var r := Kept(cs, AxesType, DecodeAxes);
    assert r.Ok?;
    assert |r.value| == 1 && r.value[0] == AxesNode(map["XLim" := XLim], [Run1Node]);
    assert r.value == [AxesNode(map["XLim" := XLim], [Run1Node])];
  }

  /** An axes whose children array is 0x0 cannot be decoded, and so neither can a figure holding it. */
  lemma EmptyAxesSinksFigure()
    ensures DecodeFigure(Record([FigureType], PropertyElement([]),
                                ColumnOf([Record([AxesType], PropertyElement([]), NoChildren)]))) == Err(BadIndex)
  {
    var ax := Record([AxesType], PropertyElement([]), NoChildren);
    ChildlessAxes(ax);
    KeptFirstFails([ax], AxesType, DecodeAxes);
    ColumnOfList([ax]);
  }

  /** A walk whose only child is selected and fails reports that child's error. */
  lemma KeptFirstFails<E, R>(cs: seq<Record<E>>, tag: string, decode: Record<E> -> Result<R>)
    requires |cs| == 1 && HasType(cs[0], tag) && decode(cs[0]).Err?
    ensures Kept(cs, tag, decode) == Err(decode(cs[0]).error)
  {
    assert cs[..0] == [];
  }

  /** The figure decoder refuses an axes record, and the axes decoder a figure record. */
  lemma WrongTypesRejected()
    ensures DecodeFigure(Axes1) == Err(NotAFigure)
    ensures DecodeAxes(Fig1) == Err(NotAnAxes)
  {
  }

  /** Lower and upper bounds of different lengths cannot be stacked. */
  lemma UnequalBoundsFail()
    ensures DecodeErrorBar(Series([0.0, 1.0], [1.0, 3.0], [0.1, 0.2], [0.1])) == Err(ShapeMismatch)
  {
    SeriesOutcome([0.0, 1.0], [1.0, 3.0], [0.1, 0.2], [0.1]);
  }

  /** Nothing ties the length of `x` to that of the error bounds. */
  lemma LengthsNotReconciled()
    ensures var r := DecodeErrorBar(Series([0.0, 1.0, 2.0], [1.0], [0.1, 0.2], [0.1, 0.1]));
      r.Ok? && |r.value.x| == 3 && |r.value.y| == 1 && |r.value.yerr[0]| == 2
  {
    SeriesOutcome([0.0, 1.0, 2.0], [1.0], [0.1, 0.2], [0.1, 0.1]);
  }
}
