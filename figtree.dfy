/**
 * What decoding a figure record tree means, as values: the Figure -> Axes ->
 * ErrorBar hierarchy that `loadfig.py` builds, with the type checks that
 * reject a record, the filter that keeps one child kind per level, the copy
 * of the property fields and the reshaping of the error-bar columns.
 */
module FigTree {
  import opened Mat

  /** The top-level variable under which a .fig file stores its figure tree. */
  const RootKey: string := "hgS_070000"

  const FigureType: string := "figure"
  const AxesType: string := "axes"
  const ErrorBarType: string := "specgraph.errorbarseries"

  /** The five entries of an error-bar series' `properties` dictionary (`labelText` is the `label` entry). */
  datatype ErrorBarNode<E> = ErrorBarNode(labelText: string, x: seq<E>, y: seq<E>, yerr: seq<seq<E>>, color: seq<E>)

  datatype AxesNode<E> = AxesNode(properties: map<string, Value<E>>, children: seq<ErrorBarNode<E>>)

  datatype FigureNode<E> = FigureNode(properties: map<string, Value<E>>, children: seq<AxesNode<E>>)

  /** `c['type'][0] == tag` succeeds and holds. */
  predicate HasType<E>(c: Record<E>, tag: string) {
    |c.kind| > 0 && c.kind[0] == tag
  }

  /** Every record has a type to read (`c['type'][0]` does not fail). */
  predicate AllTyped<E>(cs: seq<Record<E>>) {
    forall i :: 0 <= i < |cs| ==> |cs[i].kind| > 0
  }

  /** The records of `cs` whose type is `tag`, in their order in `cs`. */
  function Selected<E>(cs: seq<Record<E>>, tag: string): (s: seq<Record<E>>)
    ensures |s| <= |cs|
    ensures forall i :: 0 <= i < |s| ==> HasType(s[i], tag)
  {
    if cs == [] then []
    else
      var init, last := cs[..|cs| - 1], cs[|cs| - 1];
      if HasType(last, tag) then Selected(init, tag) + [last] else Selected(init, tag)
  }

  /** A record is selected exactly when it is one of `cs` and has type `tag`. */
  lemma {:induction false} SelectedExactly<E>(cs: seq<Record<E>>, tag: string, c: Record<E>)
    ensures c in Selected(cs, tag) <==> c in cs && HasType(c, tag)
  {
    if cs != [] {
      var init, last := cs[..|cs| - 1], cs[|cs| - 1];
      SelectedExactly(init, tag, c);
      assert cs == init + [last];
    }
  }

  /** `out` is `decode` applied to each record of `sel`, in order, and no decode failed. */
  ghost predicate DecodedInOrder<E, R>(sel: seq<Record<E>>, out: seq<R>, decode: Record<E> -> Result<R>) {
    |out| == |sel| && forall i :: 0 <= i < |sel| ==> decode(sel[i]) == Ok(out[i])
  }

  /**
   * The children loop of `Figure.__init__` and `Axes.__init__`: walk `cs` in
   * order, read each child's type, decode and append those of type `tag`,
   * skip the others; the first failure aborts the walk.
   */
  function Kept<E, R>(cs: seq<Record<E>>, tag: string, decode: Record<E> -> Result<R>): Result<seq<R>> {
    if cs == [] then Ok([])
    else
      var done :- Kept(cs[..|cs| - 1], tag, decode);
      var last := cs[|cs| - 1];
      if |last.kind| == 0 then Err(BadIndex)
      else if last.kind[0] == tag then
        var node :- decode(last);
        Ok(done + [node])
      else Ok(done)
  }

  /**
   * The walk succeeds exactly when every child has a type and every selected
   * child decodes, and then it holds the decoded selected children in order.
   */
  lemma {:induction false} KeptMeaning<E, R>(cs: seq<Record<E>>, tag: string, decode: Record<E> -> Result<R>)
    ensures var r := Kept(cs, tag, decode);
      && (r.Ok? <==> AllTyped(cs) && forall i :: 0 <= i < |Selected(cs, tag)| ==> decode(Selected(cs, tag)[i]).Ok?)
      && (r.Ok? ==> DecodedInOrder(Selected(cs, tag), r.value, decode))
  {
    if cs != [] {
      var init, last := cs[..|cs| - 1], cs[|cs| - 1];
      KeptMeaning(init, tag, decode);
      assert forall i :: 0 <= i < |init| ==> init[i] == cs[i];
      assert Selected(cs, tag)[..|Selected(init, tag)|] == Selected(init, tag);
      if HasType(last, tag) {
        assert Selected(cs, tag)[|Selected(init, tag)|] == last;
      }
    }
  }

  /** One more step of the walk: what reading the next child does to the result so far. */
  lemma KeptStep<E, R>(cs: seq<Record<E>>, i: nat, tag: string, decode: Record<E> -> Result<R>, done: seq<R>)
    requires i < |cs| && Kept(cs[..i], tag, decode) == Ok(done)
    ensures Kept(cs[..i + 1], tag, decode) ==
              if |cs[i].kind| == 0 then Err(BadIndex)
              else if cs[i].kind[0] != tag then Ok(done)
              else if decode(cs[i]).Err? then Err(decode(cs[i]).error)
              else Ok(done + [decode(cs[i]).value])
  {
    assert cs[..i + 1][..i] == cs[..i];
  }

  /** Once the walk over a prefix has failed, the walk over the whole sequence fails the same way. */
  lemma {:induction false} KeptFailureSticks<E, R>(cs: seq<Record<E>>, k: nat, tag: string, decode: Record<E> -> Result<R>)
    requires k <= |cs|
    requires Kept(cs[..k], tag, decode).Err?
    ensures Kept(cs, tag, decode) == Kept(cs[..k], tag, decode)
  {
    if k < |cs| {
      var init := cs[..|cs| - 1];
      assert init[..k] == cs[..k];
      KeptFailureSticks(init, k, tag, decode);
    } else {
      assert cs[..k] == cs;
    }
  }

  /**
   * When every child has a type, the walk's error is the error of the first
   * selected child that fails to decode, unchanged.
   */
  lemma {:induction false} KeptFirstError<E, R>(cs: seq<Record<E>>, tag: string, decode: Record<E> -> Result<R>, i: nat)
    requires AllTyped(cs)
    requires i < |Selected(cs, tag)| && decode(Selected(cs, tag)[i]).Err?
    requires forall j :: 0 <= j < i ==> decode(Selected(cs, tag)[j]).Ok?
    ensures Kept(cs, tag, decode) == Err(decode(Selected(cs, tag)[i]).error)
  {
    var init, last := cs[..|cs| - 1], cs[|cs| - 1];
    assert forall k :: 0 <= k < |init| ==> init[k] == cs[k];
    var selInit := Selected(init, tag);
    assert Selected(cs, tag)[..|selInit|] == selInit;
    if i < |selInit| {
      KeptFirstError(init, tag, decode, i);
    } else {
      assert HasType(last, tag) && Selected(cs, tag)[i] == last;
      KeptMeaning(init, tag, decode);
    }
  }

  /** `ErrorBar.__init__`: `label`, `x`, `y`, `yerr`, `color` from the series' properties. */
  function DecodeErrorBar<E>(eb: Record<E>): (r: Result<ErrorBarNode<E>>)
    ensures r.Ok? ==> |r.value.yerr| == 2 && |r.value.yerr[0]| == |r.value.yerr[1]|
  {
    var props :- Element(eb.properties);
    SeriesOf(props)
  }

  /** `props['DisplayName'][0]` can be read: the field is text holding at least one string. */
  predicate LabelReadable<E>(props: Struct<E>) {
    var v := Lookup(props, "DisplayName");
    v.Ok? && v.value.Text? && |v.value.strs| > 0
  }

  /** `props[name][:, 0]` can be read: the field is a numeric array with at least one column. */
  predicate ColumnReadable<E>(props: Struct<E>, name: string) {
    var m := NumericField(props, name);
    m.Ok? && m.value.cols > 0
  }

  /** Everything read before `Color`: the label, the two data columns and two bound columns of one length. */
  predicate SeriesDataReadable<E>(props: Struct<E>) {
    && LabelReadable(props)
    && ColumnReadable(props, "XData") && ColumnReadable(props, "YData")
    && ColumnReadable(props, "LData") && ColumnReadable(props, "UData")
    && NumericField(props, "LData").value.rows == NumericField(props, "UData").value.rows
  }

  /** `props['Color'][0, :]` can be read: the field is a numeric array with at least one row. */
  predicate ColorReadable<E>(props: Struct<E>) {
    var m := NumericField(props, "Color");
    m.Ok? && m.value.rows > 0
  }

  /** The five entries read from the error-bar series' property element, in source order. */
  function SeriesOf<E>(props: Struct<E>): (r: Result<ErrorBarNode<E>>)
    ensures r.Ok? <==> SeriesDataReadable(props) && ColorReadable(props)
    ensures r.Ok? ==> |r.value.yerr| == 2 && |r.value.yerr[0]| == |r.value.yerr[1]|
  {
    var name :- Lookup(props, "DisplayName");
    var labelText :- FirstString(name, "DisplayName");
    var xdata :- NumericField(props, "XData");
    var x :- Column(xdata);
    var ydata :- NumericField(props, "YData");
    var y :- Column(ydata);
    var ldata :- NumericField(props, "LData");
    var lower :- Column(ldata);
    var udata :- NumericField(props, "UData");
    var upper :- Column(udata);
    var yerr :- Stack(lower, upper);
    var cdata :- NumericField(props, "Color");
    var color :- FirstRow(cdata);
    Ok(ErrorBarNode(labelText, x, y, yerr, color))
  }

  /** A series decodes exactly when it has a property element from which all five entries can be read. */
  lemma ErrorBarDecodes<E>(eb: Record<E>)
    ensures Element(eb.properties).Err? ==> DecodeErrorBar(eb) == Err(BadIndex)
    ensures Element(eb.properties).Ok? ==> DecodeErrorBar(eb) == SeriesOf(Element(eb.properties).value)
    ensures DecodeErrorBar(eb).Ok? <==>
              && Element(eb.properties).Ok?
              && SeriesDataReadable(Element(eb.properties).value)
              && ColorReadable(Element(eb.properties).value)
  {
  }

  /** `v[0]` on a char field: its first string. */
  function FirstString<E>(v: Value<E>, name: string): (r: Result<string>)
    ensures r.Ok? <==> v.Text? && |v.strs| > 0
    ensures r.Ok? ==> r.value == v.strs[0]
    ensures r.Err? ==> r.error == if v.Text? then BadIndex else WrongKind(name)
  {
    match v
    case Text(strs) => if |strs| == 0 then Err(BadIndex) else Ok(strs[0])
    case _ => Err(WrongKind(name))
  }

  /** `props[name]`, which must be a numeric array. */
  function NumericField<E>(props: Struct<E>, name: string): (r: Result<Matrix<E>>)
    ensures r.Ok? <==> Lookup(props, name).Ok? && Lookup(props, name).value.Numeric?
    ensures r.Ok? ==> r.value == Lookup(props, name).value.m
    ensures r.Err? ==> r.error == if Lookup(props, name).Err? then MissingField(name) else WrongKind(name)
  {
    var v :- Lookup(props, name);
    if v.Numeric? then Ok(v.m) else Err(WrongKind(name))
  }

  /** `np.stack([lower, upper])` of two 1-D arrays: a 2xN array. */
  function Stack<E>(lower: seq<E>, upper: seq<E>): (r: Result<seq<seq<E>>>)
    ensures r.Ok? <==> |lower| == |upper|
    ensures r.Ok? ==> |r.value| == 2 && r.value[0] == lower && r.value[1] == upper
    ensures r.Err? ==> r.error == ShapeMismatch
  {
    if |lower| != |upper| then Err(ShapeMismatch) else Ok([lower, upper])
  }

  /** `Axes.__init__`. */
  function DecodeAxes<E>(ax: Record<E>): (r: Result<AxesNode<E>>)
    ensures |ax.kind| == 0 ==> r == Err(BadIndex)
    ensures |ax.kind| > 0 && ax.kind[0] != AxesType ==> r == Err(NotAnAxes)
    ensures r.Ok? <==>
              && HasType(ax, AxesType)
              && Column(ax.children).Ok?
              && Kept(Column(ax.children).value, ErrorBarType, DecodeErrorBar).Ok?
              && Element(ax.properties).Ok?
    ensures r.Ok? ==>
              && DecodedInOrder(Selected(Column(ax.children).value, ErrorBarType), r.value.children, DecodeErrorBar)
              && CopiesFields(r.value.properties, Element(ax.properties).value)
  {
    if |ax.kind| == 0 then Err(BadIndex)
    else if ax.kind[0] != AxesType then Err(NotAnAxes)
    else
      var cs :- Column(ax.children);
      KeptMeaning(cs, ErrorBarType, DecodeErrorBar);
      var children :- Kept(cs, ErrorBarType, DecodeErrorBar);
      var props :- Element(ax.properties);
      Ok(AxesNode(PropertyMap(props), children))
  }

  /** `Figure.__init__`. */
  function DecodeFigure<E>(fig: Record<E>): (r: Result<FigureNode<E>>)
    ensures |fig.kind| == 0 ==> r == Err(BadIndex)
    ensures |fig.kind| > 0 && fig.kind[0] != FigureType ==> r == Err(NotAFigure)
    ensures r.Ok? <==>
              && HasType(fig, FigureType)
              && Column(fig.children).Ok?
              && Kept(Column(fig.children).value, AxesType, DecodeAxes).Ok?
              && Element(fig.properties).Ok?
    ensures r.Ok? ==>
              && DecodedInOrder(Selected(Column(fig.children).value, AxesType), r.value.children, DecodeAxes)
              && CopiesFields(r.value.properties, Element(fig.properties).value)
  {
    if |fig.kind| == 0 then Err(BadIndex)
    else if fig.kind[0] != FigureType then Err(NotAFigure)
    else
      var cs :- Column(fig.children);
      KeptMeaning(cs, AxesType, DecodeAxes);
      var children :- Kept(cs, AxesType, DecodeAxes);
      var props :- Element(fig.properties);
      Ok(FigureNode(PropertyMap(props), children))
  }

  /**
   * `[:, 0]` on the children array needs a column: an object whose children
   * array has none (such as 0x0) fails with an index error, while an Nx1
   * array with no rows just gives no children.
   */
  lemma ChildlessAxes<E>(ax: Record<E>)
    requires HasType(ax, AxesType)
    ensures ax.children.cols == 0 ==> DecodeAxes(ax) == Err(BadIndex)
    ensures ax.children.cols > 0 && ax.children.rows == 0 && Element(ax.properties).Ok? ==>
              DecodeAxes(ax) == Ok(AxesNode(PropertyMap(Element(ax.properties).value), []))
  {
  }

  /** The same for a figure. */
  lemma ChildlessFigure<E>(fig: Record<E>)
    requires HasType(fig, FigureType)
    ensures fig.children.cols == 0 ==> DecodeFigure(fig) == Err(BadIndex)
    ensures fig.children.cols > 0 && fig.children.rows == 0 && Element(fig.properties).Ok? ==>
              DecodeFigure(fig) == Ok(FigureNode(PropertyMap(Element(fig.properties).value), []))
  {
  }

  /** `loadfig`, from the dictionary the MAT-file reader returns onwards. */
  function LoadFigure<E>(top: map<string, Matrix<Record<E>>>): (r: Result<FigureNode<E>>)
    ensures RootKey !in top ==> r == Err(MissingKey(RootKey))
    ensures RootKey in top && (top[RootKey].rows == 0 || top[RootKey].cols == 0) ==> r == Err(BadIndex)
    ensures RootKey in top && top[RootKey].rows > 0 && top[RootKey].cols > 0 ==>
              r == DecodeFigure(top[RootKey].cells[0][0])
  {
    if RootKey !in top then Err(MissingKey(RootKey))
    else
      var root :- Element(top[RootKey]);
      DecodeFigure(root)
  }

  /** What a decoded error-bar series holds, entry by entry, in terms of its property element. */
  lemma SeriesContents<E>(props: Struct<E>)
    requires SeriesOf(props).Ok?
    ensures var n := SeriesOf(props).value;
      && Lookup(props, "DisplayName").Ok? && Lookup(props, "DisplayName").value.Text?
      && n.labelText == Lookup(props, "DisplayName").value.strs[0]
      && NumericField(props, "XData").Ok? && NumericField(props, "YData").Ok?
      && NumericField(props, "LData").Ok? && NumericField(props, "UData").Ok?
      && NumericField(props, "Color").Ok?
      && var xd, yd := NumericField(props, "XData").value, NumericField(props, "YData").value;
         var ld, ud := NumericField(props, "LData").value, NumericField(props, "UData").value;
         var cd := NumericField(props, "Color").value;
      && |n.x| == xd.rows && (forall i :: 0 <= i < xd.rows ==> n.x[i] == xd.cells[i][0])
      && |n.y| == yd.rows && (forall i :: 0 <= i < yd.rows ==> n.y[i] == yd.cells[i][0])
      && ld.rows == ud.rows && |n.yerr| == 2 && |n.yerr[0]| == ld.rows && |n.yerr[1]| == ud.rows
      && (forall i :: 0 <= i < ld.rows ==> n.yerr[0][i] == ld.cells[i][0] && n.yerr[1][i] == ud.cells[i][0])
      && cd.rows > 0 && n.color == cd.cells[0]
  {
    var n := SeriesOf(props).value;
    var xd, yd := NumericField(props, "XData").value, NumericField(props, "YData").value;
    var ld, ud := NumericField(props, "LData").value, NumericField(props, "UData").value;
    var cd := NumericField(props, "Color").value;
    assert n.x == Column(xd).value && n.y == Column(yd).value;
    assert n.yerr == [Column(ld).value, Column(ud).value];
    assert n.color == FirstRow(cd).value;
  }

  /** The property fields an error-bar series must have. */
  const SeriesFieldNames: set<string> := {"DisplayName", "XData", "YData", "LData", "UData", "Color"}

  /** A series whose property element lacks any one of those fields fails to decode. */
  lemma SeriesNeedsEveryField<E>(props: Struct<E>, name: string)
    requires name in SeriesFieldNames && name !in FieldNames(props)
    ensures SeriesOf(props).Err?
  {
    if SeriesOf(props).Ok? {
      SeriesContents(props);
    }
  }

  /**
   * The fields are read in source order, so the error names the first
   * missing field: `DisplayName`, then `XData`, `YData`, `LData`, `UData`,
   * and `Color` last, once everything before it was read.
   */
  lemma SeriesMissingFieldError<E>(props: Struct<E>)
    ensures "DisplayName" !in FieldNames(props) ==>
              SeriesOf(props) == Err(MissingField("DisplayName"))
    ensures LabelReadable(props) && "XData" !in FieldNames(props) ==>
              SeriesOf(props) == Err(MissingField("XData"))
    ensures LabelReadable(props) && ColumnReadable(props, "XData") && "YData" !in FieldNames(props) ==>
              SeriesOf(props) == Err(MissingField("YData"))
    ensures LabelReadable(props) && ColumnReadable(props, "XData") && ColumnReadable(props, "YData")
              && "LData" !in FieldNames(props) ==>
              SeriesOf(props) == Err(MissingField("LData"))
    ensures LabelReadable(props) && ColumnReadable(props, "XData") && ColumnReadable(props, "YData")
              && ColumnReadable(props, "LData") && "UData" !in FieldNames(props) ==>
              SeriesOf(props) == Err(MissingField("UData"))
    ensures SeriesDataReadable(props) && "Color" !in FieldNames(props) ==>
              SeriesOf(props) == Err(MissingField("Color"))
  {
  }

  /** Bound columns that can be read but differ in length cannot be stacked. */
  lemma SeriesBoundsMismatch<E>(props: Struct<E>)
    requires LabelReadable(props) && ColumnReadable(props, "XData") && ColumnReadable(props, "YData")
    requires ColumnReadable(props, "LData") && ColumnReadable(props, "UData")
    requires NumericField(props, "LData").value.rows != NumericField(props, "UData").value.rows
    ensures SeriesOf(props) == Err(ShapeMismatch)
  {
  }

  /** The series decoder checks no type of its own and never looks at the series' children. */
  lemma ErrorBarIgnoresTypeAndChildren<E>(eb: Record<E>, kind: seq<string>, children: Matrix<Record<E>>)
    ensures DecodeErrorBar(eb.(kind := kind, children := children)) == DecodeErrorBar(eb)
  {
  }

  /**
   * A recognised child that fails to decode makes the whole figure fail: no
   * partial tree. When it is the first failing axes and every child has a
   * type, the figure reports that axes' own error, unchanged.
   */
  lemma FigureFailsWithAxes<E>(fig: Record<E>, i: nat)
    requires Column(fig.children).Ok?
    requires i < |Selected(Column(fig.children).value, AxesType)|
    requires DecodeAxes(Selected(Column(fig.children).value, AxesType)[i]).Err?
    ensures DecodeFigure(fig).Err?
    ensures var sel := Selected(Column(fig.children).value, AxesType);
      HasType(fig, FigureType) && AllTyped(Column(fig.children).value) &&
      (forall j :: 0 <= j < i ==> DecodeAxes(sel[j]).Ok?) ==>
        DecodeFigure(fig) == Err(DecodeAxes(sel[i]).error)
  {
    var cs := Column(fig.children).value;
    KeptMeaning(cs, AxesType, DecodeAxes);
    var sel := Selected(cs, AxesType);
    if AllTyped(cs) && forall j :: 0 <= j < i ==> DecodeAxes(sel[j]).Ok? {
      KeptFirstError(cs, AxesType, DecodeAxes, i);
    }
  }

  /** Likewise for a failing error-bar series under an axes. */
  lemma AxesFailsWithErrorBar<E>(ax: Record<E>, i: nat)
    requires Column(ax.children).Ok?
    requires i < |Selected(Column(ax.children).value, ErrorBarType)|
    requires DecodeErrorBar(Selected(Column(ax.children).value, ErrorBarType)[i]).Err?
    ensures DecodeAxes(ax).Err?
    ensures var sel := Selected(Column(ax.children).value, ErrorBarType);
      HasType(ax, AxesType) && AllTyped(Column(ax.children).value) &&
      (forall j :: 0 <= j < i ==> DecodeErrorBar(sel[j]).Ok?) ==>
        DecodeAxes(ax) == Err(DecodeErrorBar(sel[i]).error)
  {
    var cs := Column(ax.children).value;
    KeptMeaning(cs, ErrorBarType, DecodeErrorBar);
    var sel := Selected(cs, ErrorBarType);
    if AllTyped(cs) && forall j :: 0 <= j < i ==> DecodeErrorBar(sel[j]).Ok? {
      KeptFirstError(cs, ErrorBarType, DecodeErrorBar, i);
    }
  }

  /**
   * Every way `Axes.__init__` can fail past its type check, in source order:
   * no column of children, the children walk's own error passed up
   * unchanged, then no property element.
   */
  lemma AxesErrors<E>(ax: Record<E>)
    requires HasType(ax, AxesType)
    ensures Column(ax.children).Err? ==> DecodeAxes(ax) == Err(BadIndex)
    ensures Column(ax.children).Ok? && Kept(Column(ax.children).value, ErrorBarType, DecodeErrorBar).Err? ==>
              DecodeAxes(ax) == Err(Kept(Column(ax.children).value, ErrorBarType, DecodeErrorBar).error)
    ensures && Column(ax.children).Ok?
            && Kept(Column(ax.children).value, ErrorBarType, DecodeErrorBar).Ok?
            && Element(ax.properties).Err?
            ==> DecodeAxes(ax) == Err(BadIndex)
  {
  }

  /** The same for `Figure.__init__`: an axes child's error reaches the figure's caller unchanged. */
  lemma FigureErrors<E>(fig: Record<E>)
    requires HasType(fig, FigureType)
    ensures Column(fig.children).Err? ==> DecodeFigure(fig) == Err(BadIndex)
    ensures Column(fig.children).Ok? && Kept(Column(fig.children).value, AxesType, DecodeAxes).Err? ==>
              DecodeFigure(fig) == Err(Kept(Column(fig.children).value, AxesType, DecodeAxes).error)
    ensures && Column(fig.children).Ok?
            && Kept(Column(fig.children).value, AxesType, DecodeAxes).Ok?
            && Element(fig.properties).Err?
            ==> DecodeFigure(fig) == Err(BadIndex)
  {
  }
}
