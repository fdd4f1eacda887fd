/**
 * The classes of `loadfig.py`. Each Python constructor either raises or
 * returns an object that is never changed again; here each class has a
 * `Decode` method that returns the new object or the error, and whose result
 * is proved to be the value the matching function of `FigTree` describes.
 * Fields are constants: nothing writes them after construction.
 */
module LoadFig {
  import opened Mat
  import opened FigTree

  class ErrorBar<E> {
    // the five keys of the Python object's `properties` dictionary
    const labelText: string
    const x: seq<E>
    const y: seq<E>
    const yerr: seq<seq<E>>
    const color: seq<E>

    constructor (labelText: string, x: seq<E>, y: seq<E>, yerr: seq<seq<E>>, color: seq<E>)
      ensures this.labelText == labelText && this.x == x && this.y == y
      ensures this.yerr == yerr && this.color == color
    {
      this.labelText, this.x, this.y, this.yerr, this.color := labelText, x, y, yerr, color;
    }

    ghost function Node(): ErrorBarNode<E> {
      ErrorBarNode(labelText, x, y, yerr, color)
    }

    /** `ErrorBar(eb)`: fills the entries one by one, in the order of the source. */
    static method Decode(eb: Record<E>) returns (res: Result<ErrorBar<E>>)
      ensures ErrorBarResult(res) == DecodeErrorBar(eb)
      ensures res.Ok? ==> fresh(res.value)
    {
      var props :- Element(eb.properties);
      var name :- Lookup(props, "DisplayName");
      var labelText :- FirstString(name, "DisplayName");
      var xdata :- NumericField(props, "XData");
      var x :- Column(xdata);
      var ydata :- NumericField(props, "YData");
      var y :- Column(ydata);
      var ldata :- NumericField(props, "LData");
      var lower :- Column(ldata);
      var udata :- NumericField(props, "UData");
      var upper :- Column(udata);
      var yerr :- Stack(lower, upper);
      var cdata :- NumericField(props, "Color");
      var color :- FirstRow(cdata);
      var e := new ErrorBar(labelText, x, y, yerr, color);
      return Ok(e);
    }
  }

  ghost function ErrorBarResult<E>(res: Result<ErrorBar<E>>): Result<ErrorBarNode<E>> {
    match res
    case Ok(e) => Ok(e.Node())
    case Err(err) => Err(err)
  }

  ghost function ErrorBarNodes<E>(es: seq<ErrorBar<E>>): seq<ErrorBarNode<E>> {
    seq(|es|, i requires 0 <= i < |es| => es[i].Node())
  }

  class Axes<E> {
    const properties: map<string, Value<E>>
    const children: seq<ErrorBar<E>>

    constructor (properties: map<string, Value<E>>, children: seq<ErrorBar<E>>)
      ensures this.properties == properties && this.children == children
    {
      this.properties, this.children := properties, children;
    }

    ghost function Node(): AxesNode<E> {
      AxesNode(properties, ErrorBarNodes(children))
    }

    /** `Axes(ax)`: checks the type, decodes the children, then copies the properties. */
    static method Decode(ax: Record<E>) returns (res: Result<Axes<E>>)
      ensures AxesResult(res) == DecodeAxes(ax)
      ensures res.Ok? ==> fresh(res.value)
    {
      if |ax.kind| == 0 {
        return Err(BadIndex);
      }
      if ax.kind[0] != AxesType {
        return Err(NotAnAxes);
      }
      var cs :- Column(ax.children);
      var children :- DecodeChildren(cs);
      var props :- Element(ax.properties);
      var a := new Axes(PropertyMap(props), children);
      return Ok(a);
    }

    /** The children loop of `Axes.__init__`: appends every error-bar child in order, skips the rest. */
    static method DecodeChildren(cs: seq<Record<E>>) returns (res: Result<seq<ErrorBar<E>>>)
      ensures Kept(cs, ErrorBarType, DecodeErrorBar) == if res.Ok? then Ok(ErrorBarNodes(res.value)) else Err(res.error)
    {
      var children: seq<ErrorBar<E>> := [];
      assert cs[..0] == [] && ErrorBarNodes(children) == [];
      for i := 0 to |cs|
        invariant Kept(cs[..i], ErrorBarType, DecodeErrorBar) == Ok(ErrorBarNodes(children))
      {
        KeptStep(cs, i, ErrorBarType, DecodeErrorBar, ErrorBarNodes(children));
        var c := cs[i];
        if |c.kind| == 0 {
          KeptFailureSticks(cs, i + 1, ErrorBarType, DecodeErrorBar);
          return Err(BadIndex);
        }
        if c.kind[0] == ErrorBarType {
          var e := ErrorBar.Decode(c);
          if e.Err? {
            KeptFailureSticks(cs, i + 1, ErrorBarType, DecodeErrorBar);
            return Err(e.error);
          }
          assert ErrorBarNodes(children + [e.value]) == ErrorBarNodes(children) + [e.value.Node()];
          children := children + [e.value];
        }
      }
      assert cs[..|cs|] == cs;
      return Ok(children);
    }
  }

  ghost function AxesResult<E>(res: Result<Axes<E>>): Result<AxesNode<E>> {
    match res
    case Ok(a) => Ok(a.Node())
    case Err(err) => Err(err)
  }

  ghost function AxesNodes<E>(axes: seq<Axes<E>>): seq<AxesNode<E>> {
    seq(|axes|, i requires 0 <= i < |axes| => axes[i].Node())
  }

  class Figure<E> {
    const properties: map<string, Value<E>>
    const children: seq<Axes<E>>

    constructor (properties: map<string, Value<E>>, children: seq<Axes<E>>)
      ensures this.properties == properties && this.children == children
    {
      this.properties, this.children := properties, children;
    }

    ghost function Node(): FigureNode<E> {
      FigureNode(properties, AxesNodes(children))
    }

    /** `Figure(fig)`: checks the type, decodes the children, then copies the properties. */
    static method Decode(fig: Record<E>) returns (res: Result<Figure<E>>)
      ensures FigureResult(res) == DecodeFigure(fig)
      ensures res.Ok? ==> fresh(res.value)
    {
      if |fig.kind| == 0 {
        return Err(BadIndex);
      }
      if fig.kind[0] != FigureType {
        return Err(NotAFigure);
      }
      var cs :- Column(fig.children);
      var children :- DecodeChildren(cs);
      var props :- Element(fig.properties);
      var f := new Figure(PropertyMap(props), children);
      return Ok(f);
    }

    /** The children loop of `Figure.__init__`: appends every axes child in order, skips the rest. */
    static method DecodeChildren(cs: seq<Record<E>>) returns (res: Result<seq<Axes<E>>>)
      ensures Kept(cs, AxesType, DecodeAxes) == if res.Ok? then Ok(AxesNodes(res.value)) else Err(res.error)
    {
      var children: seq<Axes<E>> := [];
      assert cs[..0] == [] && AxesNodes(children) == [];
      for i := 0 to |cs|
        invariant Kept(cs[..i], AxesType, DecodeAxes) == Ok(AxesNodes(children))
      {
        KeptStep(cs, i, AxesType, DecodeAxes, AxesNodes(children));
        var c := cs[i];
        if |c.kind| == 0 {
          KeptFailureSticks(cs, i + 1, AxesType, DecodeAxes);
          return Err(BadIndex);
        }
        if c.kind[0] == AxesType {
          var a := Axes.Decode(c);
          if a.Err? {
            KeptFailureSticks(cs, i + 1, AxesType, DecodeAxes);
            return Err(a.error);
          }
          assert AxesNodes(children + [a.value]) == AxesNodes(children) + [a.value.Node()];
          children := children + [a.value];
        }
      }
      assert cs[..|cs|] == cs;
      return Ok(children);
    }
  }

  ghost function FigureResult<E>(res: Result<Figure<E>>): Result<FigureNode<E>> {
    match res
    case Ok(f) => Ok(f.Node())
    case Err(err) => Err(err)
  }

  /** `loadfig(fname)` after the file has been read into `top`. */
  method LoadFig<E>(top: map<string, Matrix<Record<E>>>) returns (res: Result<Figure<E>>)
    ensures FigureResult(res) == LoadFigure(top)
  {
    if RootKey !in top {
      return Err(MissingKey(RootKey));
    }
    var root :- Element(top[RootKey]);
    res := Figure.Decode(root);
  }
}
