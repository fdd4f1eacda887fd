# loadfig: decoding a MATLAB .fig figure tree

`loadfig.py` reads a MATLAB `.fig` file with the MAT-file reader. It then walks
the tree of serialised graphics objects stored under the variable
`hgS_070000`. Each object is a struct with a `type`, `properties` and
`children`. The walk builds three levels of Python objects:

- a `Figure`, whose children are the `axes` objects among its children;
- an `Axes`, whose children are the `specgraph.errorbarseries` objects among its children;
- an `ErrorBar`, which holds five entries read from its property struct: `label`, `x`, `y`, `yerr` (the lower and upper bounds stacked) and `color`.

Every other child kind is skipped. Any failure raises, so no partial tree is
ever returned.
Taking `[:,0]` of a children array needs a column. An axes or figure whose
children array is 0x0 therefore fails with an index error, and so does every
figure that contains such an axes. Skipped children are never decoded, so a
legend or line series with a 0x0 children array does no harm. An Nx1 array
with no rows just gives no children.

The project has four modules:

- `Mat` (`mat.dfy`): the data the MAT-file reader hands over.
  - Rectangular two-dimensional arrays (`Matrix`), struct elements as ordered field lists, and figure records.
  - The numpy indexing the decoder uses: `a[0,0]` (`Element`), `a[:,0]` (`Column`), `a[0,:]` (`FirstRow`) and `dict(zip(names, values))` (`PropertyMap`).
  - A `Result` type whose `Err` constructors stand for the Python exceptions.
- `FigTree` (`figtree.dfy`): what decoding means, as functions on values.
  - `DecodeFigure`, `DecodeAxes` and `DecodeErrorBar`.
  - The shared children walk `Kept`, and the filter `Selected` that serves as its reference.
  - The lemmas about them.
- `LoadFig` (`loadfig.dfy`): the three classes.
  - Each constructor either raises or builds an object nobody changes afterwards. So each class has immutable fields and a static `Decode` method that returns the new object or the error.
  - `Axes.DecodeChildren` and `Figure.DecodeChildren` are the constructors' loops. Each loop appends the decoded children one by one. Its invariant is that the objects built so far are exactly the walk over the prefix already read.
  - Every method is proved to return what the matching `FigTree` function describes.
- `FigExamples` (`figexamples.dfy`): concrete trees, with `real` numbers standing for the numeric entries.
  - A figure with an axes, a legend and a colorbar; its axes holds an error-bar series and a line series.
  - The lemmas give the exact decoded result, the rejections for wrong types, and the error for unequal bounds.

## Model

| member | source | states |
|---|---|---|
| Mat.Element | loadfig.py:48 | `a[0,0]` succeeds exactly when the array has a row and a column; it then gives the first cell, and otherwise fails with an index error |
| Mat.Column | loadfig.py:68 | `a[:,0]` succeeds exactly when the array has a column; it then has one entry per row, entry i being row i's first cell, and otherwise fails with an index error |
| Mat.FirstRow | loadfig.py:73 | `a[0,:]` succeeds exactly when the array has a row; it then is the whole first row, and otherwise fails with an index error |
| Mat.FlattenSingletons | loadfig.py:16 | rows of length one, laid end to end, are the sequence of their single elements |
| Mat.ColumnOfColumnVector | loadfig.py:16 | on an Nx1 column vector, `[:,0]` gives exactly its N elements in order, that is, the flattened list |
| Mat.RowOfRowVector | loadfig.py:73 | on a 1xN row vector, `[0,:]` gives exactly its N elements in order, that is, the flattened list |
| Mat.PropertyMap | loadfig.py:49 | the dictionary's keys are exactly the struct's field names, and each name maps to the value of its field, unchanged |
| Mat.Lookup | loadfig.py:67 | looking up a field succeeds exactly when the struct has a field of that name, and otherwise fails with a missing-field error naming it |
| Mat.LookupFinds | loadfig.py:67 | looking up the name of any field that no later field shadows returns that field's value |
| FigTree.Selected | loadfig.py:45-46 | the children whose type is the tag, in order; there are no more of them than there are children, and each has the tag |
| FigTree.SelectedExactly | loadfig.py:45-46 | a record is selected if and only if it is one of the children and its type is the tag, so every other kind is skipped |
| FigTree.Kept | loadfig.py:44-47 | the children loop of both `Figure` (lines 44-47) and `Axes` (lines 56-59); it has no contract of its own, and its meaning is stated by `KeptMeaning`, `KeptStep`, `KeptFirstError` and `KeptFailureSticks` |
| FigTree.KeptMeaning | loadfig.py:44-47 | the children loop succeeds if and only if every child has a type and every selected child decodes; on success its result is the selected children decoded, one for one and in order |
| FigTree.KeptStep | loadfig.py:45-47 | one loop iteration: a child with no type fails with an index error, another kind leaves the list unchanged, a failing child propagates its error, and a decoded child is appended |
| FigTree.KeptFirstError | loadfig.py:45-47 | when every child has a type, the children loop fails with exactly the error of the first selected child that fails to decode |
| FigTree.KeptFailureSticks | loadfig.py:45-47 | once reading a prefix of the children has failed, the whole loop fails with that same error: no partial list survives |
| FigTree.FirstString | loadfig.py:67 | `DisplayName[0]` succeeds exactly when the field is text with at least one string, and then is the first string; empty text gives an index error and non-text a wrong-kind error |
| FigTree.NumericField | loadfig.py:68 | reading a data field succeeds exactly when the field exists and is a numeric array, and then is that array; a missing field gives a missing-field error and another kind a wrong-kind error |
| FigTree.Stack | loadfig.py:70-72 | `np.stack` of the two bound columns succeeds if and only if they have equal lengths; the result then has two rows, the lower bounds then the upper bounds, and otherwise it fails with a shape error |
| FigTree.SeriesOf | loadfig.py:66-73 | the five entries can be read exactly when the label is text with a string, `XData`, `YData`, `LData` and `UData` are numeric with a column, the two bounds have equal row counts and `Color` is numeric with a row; a decoded series has a two-row `yerr` whose rows have equal lengths |
| FigTree.DecodeErrorBar | loadfig.py:64-73 | on success `yerr` has two rows of equal length |
| FigTree.ErrorBarDecodes | loadfig.py:64-73 | a series without a property element `[0,0]` fails with an index error; otherwise its result is that of reading the five entries from the element, so it decodes exactly when all five can be read |
| FigTree.SeriesContents | loadfig.py:66-73 | a decoded series holds: `label` = `DisplayName[0]`; `x` and `y` = the first columns of `XData` and `YData`, one entry per row; `yerr` = the `LData` and `UData` columns, which have equal row counts; `color` = the first row of `Color` |
| FigTree.SeriesNeedsEveryField | loadfig.py:67-73 | a series without any one of `DisplayName`, `XData`, `YData`, `LData`, `UData`, `Color` fails to decode |
| FigTree.SeriesMissingFieldError | loadfig.py:67-73 | the fields are read in source order, so a missing field is named in the error as soon as every field read before it was readable; a series lacking only `Color` fails with the error naming `Color` |
| FigTree.SeriesBoundsMismatch | loadfig.py:70-72 | when the label and all four data columns can be read but the two bound columns differ in length, the series fails with a shape error |
| FigTree.ErrorBarIgnoresTypeAndChildren | loadfig.py:63-65 | the series decoder checks no type and never reads children: changing either does not change its result |
| FigTree.DecodeAxes | loadfig.py:52-61 | no type gives an index error and a type other than `axes` gives the "not an axes object" error. Success holds if and only if the type is `axes`, the children column, the children loop and the property element all succeed. Then the children are the error-bar children decoded in order, and the properties copy the property element's fields |
| FigTree.DecodeFigure | loadfig.py:40-49 | no type gives an index error and a type other than `figure` gives the "not a figure" error. Success holds if and only if the type is `figure`, the children column, the children loop and the property element all succeed. Then the children are the axes children decoded in order, and the properties copy the property element's fields |
| FigTree.ChildlessAxes | loadfig.py:57 | for an `axes` record, a children array with no column (such as 0x0) fails with an index error, while one with a column and no rows, together with a property element, gives an axes with no children |
| FigTree.ChildlessFigure | loadfig.py:45 | the same for a `figure` record: no column fails with an index error, and no rows, together with a property element, gives a figure with no children |
| FigTree.FigureFailsWithAxes | loadfig.py:45-47 | if one axes child fails to decode, the whole figure fails; when it is the first failing axes, the figure has its type and every child has a type, the figure fails with that axes' own error |
| FigTree.AxesFailsWithErrorBar | loadfig.py:57-59 | if one error-bar child fails to decode, the whole axes fails; when it is the first failing series, the axes has its type and every child has a type, the axes fails with that series' own error |
| FigTree.AxesErrors | loadfig.py:56-60 | past the type check, an `axes` record fails with an index error when its children array has no column, with the children loop's own error when that loop fails, and with an index error when the loop succeeds but there is no property element |
| FigTree.FigureErrors | loadfig.py:44-48 | the same three failures for a `figure` record: no children column, the children loop's own error passed up unchanged, and no property element |
| FigTree.LoadFigure | loadfig.py:34-37 | a missing `hgS_070000` entry fails with a key error and an empty one with an index error; otherwise the result is the figure decoded from its `[0,0]` element |
| LoadFig.ErrorBar.constructor | loadfig.py:66-73 | the object holds exactly the five given entries |
| LoadFig.ErrorBar.Decode | loadfig.py:63-73 | `ErrorBar(eb)` either raises the error `DecodeErrorBar` gives, or returns an object whose entries are `DecodeErrorBar`'s result; a returned object is a new one |
| LoadFig.Axes.constructor | loadfig.py:56-61 | the object holds exactly the given properties and children |
| LoadFig.Axes.DecodeChildren | loadfig.py:56-59 | the loop over the children column either returns the error of the children walk, or returns the error-bar objects whose contents are that walk's result, in order |
| LoadFig.Axes.Decode | loadfig.py:52-61 | `Axes(ax)` either raises the error `DecodeAxes` gives, or returns an object whose properties and children are `DecodeAxes`'s result; a returned object is a new one |
| LoadFig.Figure.constructor | loadfig.py:44-49 | the object holds exactly the given properties and children |
| LoadFig.Figure.DecodeChildren | loadfig.py:44-47 | the loop over the children column either returns the error of the children walk, or returns the axes objects whose contents are that walk's result, in order |
| LoadFig.Figure.Decode | loadfig.py:40-49 | `Figure(fig)` either raises the error `DecodeFigure` gives, or returns an object whose contents are `DecodeFigure`'s result; a returned object is a new one |
| LoadFig.LoadFig | loadfig.py:34-37 | `loadfig` on the file's top-level dictionary either raises the error `LoadFigure` gives, or returns the figure `LoadFigure` describes |
| FigExamples.ColumnOfList | loadfig.py:16 | a list, of numbers or of child records, stored as an Nx1 column comes back as the same list through `[:,0]`, by the column vector lemma |
| FigExamples.SeriesOutcome | loadfig.py:63-73 | a complete series decodes exactly when its bounds have equal lengths, to the expected label, data, bounds and color; otherwise it fails with a shape error |
| FigExamples.KeptFirstOfTwo | loadfig.py:57-59 | a selected child followed by a skipped one leaves just the first, decoded |
| FigExamples.KeptFirstFails | loadfig.py:57-59 | a walk whose only child is selected and fails reports that child's error |
| FigExamples.EmptyAxesSinksFigure | loadfig.py:45-47 | a figure whose one axes has a 0x0 children array fails with an index error |
| FigExamples.Axes1Children | loadfig.py:57-59 | of an error-bar series and a line series, only the series is kept |
| FigExamples.Axes1Decodes | loadfig.py:52-61 | the example axes decodes to its `XLim` property and its one series |
| FigExamples.Fig1Children | loadfig.py:45-47 | of an axes, a legend and a colorbar, only the axes is kept |
| FigExamples.EndToEnd | loadfig.py:34-49 | the example file decodes to the figure with its `Name` property and its one axes, holding its one series |
| FigExamples.WrongTypesRejected | loadfig.py:41-54 | the figure decoder rejects an axes record, and the axes decoder a figure record |
| FigExamples.UnequalBoundsFail | loadfig.py:70-72 | bounds of lengths 2 and 1 cannot be stacked |
| FigExamples.LengthsNotReconciled | loadfig.py:68-72 | a series with 3 x values, 1 y value and 2 bounds each still decodes: lengths are not cross-checked |

## Left out

- Reading the file: `loadmat` is I/O. The model starts from the top-level dictionary it returns, as the parameter of `LoadFig.LoadFig` and `FigTree.LoadFigure`. Every top-level entry is taken to be a record array.
- numpy dtypes, object arrays and the struct `dtype.names` machinery. A struct element is its ordered list of fields. Where a name repeats, which numpy does not allow, the last field wins. Only a field that no later field shadows is promised to be found.
- LookupFinds: promises the value only for a field that no later field of the same name shadows. numpy struct dtypes cannot repeat a name, so every field of a real struct is covered.
- Numeric values: floating point is never computed with, so numeric entries are an opaque element type `E`.
- The `handle` and `special` fields of a record, which the decoder never reads.
- Exceptions become `Err` values, one `Mat.Error` constructor per exception kind. The Python exception classes and messages are not modelled.
- FigTree.FirstString, FigTree.NumericField: Python would index into a field of an unexpected kind anyway, with results that depend on numpy. The model makes that case an explicit `WrongKind` error.
- Character arrays are taken as a one-dimensional sequence of strings, so `type[0]` and `DisplayName[0]` are the first string. An empty one gives an index error.
- The `ErrorBar` properties dictionary, with its five fixed keys, is modelled as five fields of the class.
- Nothing checks that `x`, `y` and the bounds have the same length. Only the two bounds must agree, because `np.stack` demands it. The model keeps this permissive behaviour, as `FigExamples.LengthsNotReconciled` shows.
- Objects are never changed after their constructor returns, so the classes have constant fields and no method updating them.
