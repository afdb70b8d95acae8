/**
 * The two graph builders for electronic-structure results: the band structure
 * (energy levels per k-point, with the special points labelled on the x axis)
 * and the density of states (DOS). Each adds its axes and one trace per drawn
 * column to a plot, styled by the rules of module Styling.
 */
module Electronic {
  import opened Wrappers
  import opened Text
  import opened Tables
  import opened Plotting
  import opened Styling

  // ---------------------------------------------------------------------------
  // Density of states

  /**
   * The trace of one drawn DOS column: energy against density when the energy axis is
   * horizontal, density against energy otherwise.
   */
  function DosTrace(x: Axis, y: Axis, horizontal: bool, xs: seq<Cell>, s: Style): Trace
  {
    var name := s.column.name;
    if horizontal then
      Trace(x, y, name, xs, "E", "eV", s.column.values, name, "", s.color, Some(s.dash))
    else
      Trace(x, y, name, s.column.values, name, "", xs, "E", "eV", s.color, Some(s.dash))
  }

  /** The traces of the drawn DOS columns, in order. */
  function DosTraces(x: Axis, y: Axis, horizontal: bool, xs: seq<Cell>, ss: seq<Style>): seq<Trace>
    decreases |ss|
  {
    if ss == [] then []
    else DosTraces(x, y, horizontal, xs, ss[..|ss| - 1]) + [DosTrace(x, y, horizontal, xs, ss[|ss| - 1])]
  }

  /** Drawing one more column appends its trace. */
  lemma DosTracesSnoc(x: Axis, y: Axis, horizontal: bool, xs: seq<Cell>, ss: seq<Style>, s: Style)
    ensures DosTraces(x, y, horizontal, xs, ss + [s]) == DosTraces(x, y, horizontal, xs, ss) + [DosTrace(x, y, horizontal, xs, s)]
  {
    assert (ss + [s])[..|ss|] == ss;
  }

  /**
   * One trace per drawn column, in order, on the given axes: named after the column, in
   * its colour and dash, with x the energies and y the column's values in horizontal
   * orientation and the two swapped otherwise.
   */
  lemma {:induction false} DosTracesAt(x: Axis, y: Axis, horizontal: bool, xs: seq<Cell>, ss: seq<Style>)
    ensures |DosTraces(x, y, horizontal, xs, ss)| == |ss|
    ensures forall k :: 0 <= k < |ss| ==>
      var t := DosTraces(x, y, horizontal, xs, ss)[k];
      t.xAxis == x && t.yAxis == y && t.name == ss[k].column.name
      && t.color == ss[k].color && t.dash == Some(ss[k].dash)
      && (horizontal ==> t.x == xs && t.y == ss[k].column.values)
      && (!horizontal ==> t.x == ss[k].column.values && t.y == xs)
    decreases |ss|
  {
    if ss != [] {
      DosTracesAt(x, y, horizontal, xs, ss[..|ss| - 1]);
    }
  }

  /** Drawing one more style appends its trace to the traces drawn so far. */
  lemma DrawnTraces(x: Axis, y: Axis, horizontal: bool, xs: seq<Cell>, base: seq<Trace>, ss: seq<Style>, s: Style, traces: seq<Trace>)
    requires traces == base + DosTraces(x, y, horizontal, xs, ss) + [DosTrace(x, y, horizontal, xs, s)]
    ensures traces == base + DosTraces(x, y, horizontal, xs, ss + [s])
  {
    DosTracesSnoc(x, y, horizontal, xs, ss, s);
  }

  /** A column the spin filter drops leaves the scan as it was. */
  lemma RunSkips(colors: seq<string>, dashes: map<string, string>, spin: Option<string>,
                 cols: seq<Column>, i: nat, st: Scan, ss: seq<Style>)
    requires i < |cols| && Run(colors, dashes, spin, cols[..i]) == Done(st, ss)
    requires Skipped(spin, cols[i].name)
    ensures Run(colors, dashes, spin, cols[..i + 1]) == Done(st, ss)
  {
    assert cols[..i + 1][..i] == cols[..i] && cols[..i + 1][i] == cols[i];
  }

  /** A kept column that Step styles adds its style to the scan. */
  lemma RunDraws(colors: seq<string>, dashes: map<string, string>, spin: Option<string>,
                 cols: seq<Column>, i: nat, st: Scan, ss: seq<Style>, st': Scan, s: Style)
    requires i < |cols| && Run(colors, dashes, spin, cols[..i]) == Done(st, ss)
    requires !Skipped(spin, cols[i].name) && Step(colors, dashes, st, cols[i]) == Ok((st', s))
    ensures Run(colors, dashes, spin, cols[..i + 1]) == Done(st', ss + [s])
  {
    assert cols[..i + 1][..i] == cols[..i] && cols[..i + 1][i] == cols[i];
  }

  /** The first step that raises stops the scan, whatever columns follow. */
  lemma {:induction false} RunStops(colors: seq<string>, dashes: map<string, string>, spin: Option<string>,
                                    cols: seq<Column>, i: nat, st: Scan, ss: seq<Style>, e: Error)
    requires i < |cols| && Run(colors, dashes, spin, cols[..i]) == Done(st, ss)
    requires !Skipped(spin, cols[i].name) && Step(colors, dashes, st, cols[i]) == Err(e)
    ensures Run(colors, dashes, spin, cols) == Failed(ss, e)
    decreases |cols| - i
  {
    if i + 1 == |cols| {
      assert cols[..i] == cols[..|cols| - 1];
    } else {
      var init := cols[..|cols| - 1];
      assert init[..i] == cols[..i] && init[i] == cols[i];
      RunStops(colors, dashes, spin, init, i, st, ss, e);
    }
  }

  /**
   * The body of the column loop of `dos_plot` for a column the spin filter keeps: pick
   * the colour and dash, updating the last element, the palette index and the colour
   * carried to the next column, or raise.
   */
  method StyleColumn(colors: seq<string>, dashes: map<string, string>, st: Scan, column: Column)
    returns (r: Result<(Scan, Style), Error>)
    requires Inv(colors, st)
    ensures r == Step(colors, dashes, st, column)
  {
    var lastElement, count, color := st.lastElement, st.count, st.color;
    var dash: string;
    // the branches of Step: IsTotal and SpinColor, then Parse and the palette step
    if Contains(column.name, Total) {
      if Contains(column.name, Up) {
        color := Some("red");
        dash := Solid;
      } else if Contains(column.name, Down) {
        color := Some("blue");
        dash := Solid;
      } else {
        color := Some("black");
        dash := Solid;
      }
    } else {
      var element: string;
      if '_' in column.name {
        var pieces := Split(column.name, '_');
        if |pieces| != 2 {
          return Err(UnpackError(column.name, |pieces|));
        }
        var shell := pieces[1];
        if shell == [] {
          return Err(EmptyShell(column.name));
        }
        shell := shell[..1];
        if shell !in dashes {
          return Err(UnknownShell(column.name, shell));
        }
        element := pieces[0];
        dash := dashes[shell];
      } else {
        element := Split(column.name, ' ')[0];
        dash := Solid;
      }
      if Some(element) != lastElement {
        lastElement := Some(element);
        count := count + 1;
        if count >= |colors| {
          count := 0;
        }
        if count >= |colors| {
          // colors[count] raises IndexError on an empty palette
          return Err(NoColors(column.name));
        }
        color := Some(colors[count]);
      }
    }
    r := Ok((Scan(lastElement, count, color), Style(column, color.value, dash)));
  }

  /**
   * The axes of `dos_plot`: an x axis, and a y axis unless one is passed in to share,
   * anchored to each other. Energy runs along x in horizontal orientation; otherwise the
   * DOS does, with tick labels inside, reversed when `flipped` contains "x".
   */
  method AddDosAxes(plot: Plot, yAxis: Axis?, orientation: string, flipped: string) returns (x: Axis, y: Axis)
    modifies plot, yAxis
    ensures fresh(x) && x.spec.direction == "x"
    ensures x.spec.title == if orientation == "horizontal" then "Energy (eV)" else "DOS"
    ensures x.spec.ticklabelposition == if orientation == "horizontal" then None else Some("inside")
    ensures x.spec.autorange == if orientation != "horizontal" && Contains(flipped, "x") then Some("reversed") else None
    ensures x.spec.tickmode.None? && x.spec.tickvals.None? && x.spec.ticktext.None?
    ensures yAxis != null ==> y == yAxis
    ensures yAxis == null ==>
      fresh(y) && y.spec == PlainAxis("y", if orientation == "horizontal" then "DOS" else "Energy (eV)")
    ensures x.anchor == y && y.anchor == x
    ensures plot.axes == old(plot.axes) + [x] + (if yAxis == null then [y] else [])
    ensures plot.traces == old(plot.traces)
  {
    if orientation == "horizontal" {
      x := plot.AddAxis(PlainAxis("x", "Energy (eV)"), null);
      if yAxis == null {
        y := plot.AddAxis(PlainAxis("y", "DOS"), null);
      } else {
        y := yAxis;
      }
    } else {
      if Contains(flipped, "x") {
        x := plot.AddAxis(AxisSpec("x", "DOS", None, None, None, Some("inside"), Some("reversed")), null);
      } else {
        x := plot.AddAxis(AxisSpec("x", "DOS", None, None, None, Some("inside"), None), null);
      }
      if yAxis == null {
        y := plot.AddAxis(PlainAxis("y", "Energy (eV)"), null);
      } else {
        y := yAxis;
      }
    }
    x.anchor := y;
    y.anchor := x;
  }

  /**
   * `dos_plot`: adds its axes (AddDosAxes), then draws the columns in order with the
   * styles of Styling.Run. A column whose styling raises ends the call with that
   * exception; the traces added before it stay on the plot.
   */
  method DosPlot(plot: Plot, dos: Table, colors: seq<string>, dashes: map<string, string>,
                 yAxis: Axis?, orientation: string, flipped: string, spin: Option<string>)
    returns (err: Option<Error>, ghost xAxisUsed: Axis, ghost yAxisUsed: Axis)
    modifies plot, yAxis
    ensures fresh(xAxisUsed) && xAxisUsed.spec.direction == "x"
    ensures xAxisUsed.spec.title == if orientation == "horizontal" then "Energy (eV)" else "DOS"
    ensures xAxisUsed.spec.ticklabelposition == if orientation == "horizontal" then None else Some("inside")
    ensures xAxisUsed.spec.autorange
      == if orientation != "horizontal" && Contains(flipped, "x") then Some("reversed") else None
    ensures xAxisUsed.spec.tickmode.None? && xAxisUsed.spec.tickvals.None? && xAxisUsed.spec.ticktext.None?
    ensures yAxis != null ==> yAxisUsed == yAxis
    ensures yAxis == null ==>
      fresh(yAxisUsed) && yAxisUsed.spec == PlainAxis("y", if orientation == "horizontal" then "DOS" else "Energy (eV)")
    ensures xAxisUsed.anchor == yAxisUsed && yAxisUsed.anchor == xAxisUsed
    ensures plot.axes == old(plot.axes) + [xAxisUsed] + (if yAxis == null then [yAxisUsed] else [])
    ensures plot.traces == old(plot.traces)
      + DosTraces(xAxisUsed, yAxisUsed, orientation == "horizontal", dos.index, Run(colors, dashes, spin, dos.columns).styles)
    ensures err == if Run(colors, dashes, spin, dos.columns).Done? then None
                   else Some(Run(colors, dashes, spin, dos.columns).error)
  {
    var x, y := AddDosAxes(plot, yAxis, orientation, flipped);
    xAxisUsed, yAxisUsed := x, y;
    err := DrawDosColumns(plot, x, y, orientation == "horizontal", dos.index, dos.columns, colors, dashes, spin);
  }

  /**
   * One pass of the column loop for column `i`: a column the spin filter rejects is skipped,
   * any other is styled and its trace drawn, and what styling raises ends the scan.
   */
  method ScanColumn(plot: Plot, x: Axis, y: Axis, horizontal: bool, xs: seq<Cell>, cols: seq<Column>, i: nat,
                    colors: seq<string>, dashes: map<string, string>, spin: Option<string>,
                    state: Scan, ghost drawn: seq<Style>, ghost base: seq<Trace>)
    returns (next: Result<Scan, Error>, ghost drawn': seq<Style>)
    requires i < |cols| && Run(colors, dashes, spin, cols[..i]) == Done(state, drawn)
    requires plot.traces == base + DosTraces(x, y, horizontal, xs, drawn)
    modifies plot
    ensures plot.axes == old(plot.axes)
    ensures plot.traces == base + DosTraces(x, y, horizontal, xs, drawn')
    ensures next.Ok? ==> Run(colors, dashes, spin, cols[..i + 1]) == Done(next.value, drawn')
    ensures next.Err? ==> drawn' == drawn && Run(colors, dashes, spin, cols) == Failed(drawn, next.error)
  {
    var column := cols[i];
    drawn' := drawn;
    if spin.Some? && !Contains(column.name, spin.value) {  // Skipped(spin, column.name)
      RunSkips(colors, dashes, spin, cols, i, state, drawn);
      return Ok(state), drawn';
    }
    var r := StyleColumn(colors, dashes, state, column);
    if r.Err? {
      RunStops(colors, dashes, spin, cols, i, state, drawn, r.error);
      return Err(r.error), drawn';
    }
    var style := r.value.1;
    RunDraws(colors, dashes, spin, cols, i, state, drawn, r.value.0, style);
    plot.AddTrace(DosTrace(x, y, horizontal, xs, style));
    DrawnTraces(x, y, horizontal, xs, base, drawn, style, plot.traces);
    drawn' := drawn + [style];
    next := Ok(r.value.0);
  }

  /**
   * The column loop of `dos_plot`: draws the columns in order on axes x and y with the
   * styles of Styling.Run, carrying the last element, the palette index and the colour
   * from one column to the next. A column whose styling raises ends the loop with that
   * exception; the traces added before it stay on the plot.
   */
  method DrawDosColumns(plot: Plot, x: Axis, y: Axis, horizontal: bool, xs: seq<Cell>, cols: seq<Column>,
                        colors: seq<string>, dashes: map<string, string>, spin: Option<string>)
    returns (err: Option<Error>)
    modifies plot
    ensures plot.axes == old(plot.axes)
    ensures plot.traces == old(plot.traces) + DosTraces(x, y, horizontal, xs, Run(colors, dashes, spin, cols).styles)
    ensures err == if Run(colors, dashes, spin, cols).Done? then None else Some(Run(colors, dashes, spin, cols).error)
  {
    // last_element, count and color, carried from one column to the next
    var state := Start;
    ghost var drawn: seq<Style> := [];
    err := None;
    var i := 0;
    while i < |cols|
      invariant 0 <= i <= |cols|
      invariant Run(colors, dashes, spin, cols[..i]) == Done(state, drawn)
      invariant plot.traces == old(plot.traces) + DosTraces(x, y, horizontal, xs, drawn)
      invariant plot.axes == old(plot.axes)
      invariant err.None?
      decreases |cols| - i
    {
      var next;
      next, drawn := ScanColumn(plot, x, y, horizontal, xs, cols, i, colors, dashes, spin, state, drawn, old(plot.traces));
      if next.Err? {
        err := Some(next.error);
        break;
      }
      state := next.value;
      i := i + 1;
    }
    if err.None? {
      assert cols[..i] == cols;
    }
  }

  // ---------------------------------------------------------------------------
  // Band structure

  /** The rows whose label is not the empty string, in order: the special k-points. */
  function LabelledRows(labels: seq<Cell>): (rows: seq<nat>)
    ensures forall k :: 0 <= k < |rows| ==> rows[k] < |labels|
    decreases |labels|
  {
    if labels == [] then []
    else
      var rows := LabelledRows(labels[..|labels| - 1]);
      if labels[|labels| - 1] != Str("") then rows + [|labels| - 1] else rows
  }

  /** LabelledRows lists exactly the rows with a non-empty label, each once, in increasing order. */
  lemma {:induction false} LabelledRowsExact(labels: seq<Cell>)
    ensures forall j, k :: 0 <= j < k < |LabelledRows(labels)| ==> LabelledRows(labels)[j] < LabelledRows(labels)[k]
    ensures forall i :: 0 <= i < |labels| ==> (labels[i] != Str("") <==> i in LabelledRows(labels))
    decreases |labels|
  {
    if labels != [] {
      var init := labels[..|labels| - 1];
      LabelledRowsExact(init);
      forall i | 0 <= i < |init| ensures labels[i] == init[i] {
      }
    }
  }

  /** The x-axis tick positions: the index entries of the labelled rows. */
  function TickVals(index: seq<Cell>, labels: seq<Cell>): seq<Cell>
    requires |index| == |labels|
  {
    var rows := LabelledRows(labels);
    seq(|rows|, k requires 0 <= k < |rows| => index[rows[k]])
  }

  /** The x-axis tick texts: the labels of the labelled rows. */
  function TickText(labels: seq<Cell>): seq<Cell>
  {
    var rows := LabelledRows(labels);
    seq(|rows|, k requires 0 <= k < |rows| => labels[rows[k]])
  }

  /** The tick texts are the non-empty labels, in row order, each at the tick position of its row. */
  lemma TicksExact(index: seq<Cell>, labels: seq<Cell>)
    requires |index| == |labels|
    ensures |TickVals(index, labels)| == |TickText(labels)|
    ensures forall k :: 0 <= k < |TickText(labels)| ==> TickText(labels)[k] != Str("")
    ensures forall i :: 0 <= i < |labels| && labels[i] != Str("") ==>
      exists k :: 0 <= k < |TickText(labels)| && TickVals(index, labels)[k] == index[i] && TickText(labels)[k] == labels[i]
  {
    LabelledRowsExact(labels);
    var rows := LabelledRows(labels);
    forall i | 0 <= i < |labels| && labels[i] != Str("")
      ensures exists k :: 0 <= k < |TickText(labels)| && TickVals(index, labels)[k] == index[i] && TickText(labels)[k] == labels[i]
    {
      var k :| 0 <= k < |rows| && rows[k] == i;
      assert TickVals(index, labels)[k] == index[i];
    }
    forall k | 0 <= k < |TickText(labels)| ensures TickText(labels)[k] != Str("") {
      assert rows[k] in rows;
    }
  }

  /** Whether a band-structure column is drawn: every column but "labels" and "points". */
  predicate IsBand(c: Column)
  {
    c.name != "labels" && c.name != "points"
  }

  /** The columns drawn as bands, in order. */
  function BandColumns(cols: seq<Column>): seq<Column>
    decreases |cols|
  {
    if cols == [] then []
    else
      var kept := BandColumns(cols[..|cols| - 1]);
      if IsBand(cols[|cols| - 1]) then kept + [cols[|cols| - 1]] else kept
  }

  /** Band columns are kept one by one, in order: filtering a concatenation filters each part. */
  lemma {:induction false} BandColumnsAppend(a: seq<Column>, b: seq<Column>)
    ensures BandColumns(a + b) == BandColumns(a) + BandColumns(b)
    decreases |b|
  {
    if b == [] {
      assert a + b == a;
    } else {
      var b' := b[..|b| - 1];
      BandColumnsAppend(a, b');
      assert (a + b)[..|a + b| - 1] == a + b';
      assert (a + b)[|a + b| - 1] == b[|b| - 1];
    }
  }

  /** Every drawn band is a column of the table other than "labels" and "points", and every such column is drawn. */
  lemma {:induction false} BandColumnsExact(cols: seq<Column>)
    ensures forall c :: c in BandColumns(cols) <==> c in cols && IsBand(c)
    decreases |cols|
  {
    if cols != [] {
      var init := cols[..|cols| - 1];
      BandColumnsExact(init);
      assert cols == init + [cols[|cols| - 1]];
    }
  }

  /** The trace of one band: energies against the k-point index, coloured by spin marker. */
  function BandTrace(x: Axis, y: Axis, xs: seq<Cell>, c: Column): Trace
  {
    Trace(x, y, c.name, xs, "", "", c.values, "Energy", "eV", SpinColor(c.name), None)
  }

  /** The traces of the bands of `cols`, in order. */
  function BandTraces(x: Axis, y: Axis, xs: seq<Cell>, cols: seq<Column>): seq<Trace>
    decreases |cols|
  {
    if cols == [] then []
    else
      var traces := BandTraces(x, y, xs, cols[..|cols| - 1]);
      if IsBand(cols[|cols| - 1]) then traces + [BandTrace(x, y, xs, cols[|cols| - 1])] else traces
  }

  /**
   * One trace per band column, in order, on the given axes: named after the column,
   * over the k-point index, with the column's energies, and coloured red for a spin-up
   * marker, else blue for a spin-down marker, else black.
   */
  lemma {:induction false} BandTracesAt(x: Axis, y: Axis, xs: seq<Cell>, cols: seq<Column>)
    ensures |BandTraces(x, y, xs, cols)| == |BandColumns(cols)|
    ensures forall k :: 0 <= k < |BandColumns(cols)| ==>
      var t, c := BandTraces(x, y, xs, cols)[k], BandColumns(cols)[k];
      t.xAxis == x && t.yAxis == y && t.name == c.name && t.x == xs && t.y == c.values && t.dash.None?
      && (Contains(c.name, Up) ==> t.color == "red")
      && (!Contains(c.name, Up) && Contains(c.name, Down) ==> t.color == "blue")
      && (!Contains(c.name, Up) && !Contains(c.name, Down) ==> t.color == "black")
    decreases |cols|
  {
    if cols != [] {
      BandTracesAt(x, y, xs, cols[..|cols| - 1]);
    }
  }

  /**
   * `band_structure_plot`: an x axis with ticks at the labelled k-points, an energy y axis
   * anchored to it and it to the y axis, and one trace per band column. With no "labels"
   * column it raises KeyError before touching the plot.
   */
  method BandStructurePlot(plot: Plot, bands: Table) returns (err: Option<Error>, ghost xAxis: Axis?, ghost yAxis: Axis?)
    requires bands.Rectangular()
    modifies plot
    ensures Lookup(bands.columns, "labels").None? ==>
      err == Some(MissingColumn("labels")) && plot.axes == old(plot.axes) && plot.traces == old(plot.traces)
    ensures Lookup(bands.columns, "labels").Some? ==>
      var labels := Lookup(bands.columns, "labels").value.values;
      err.None? && xAxis != null && yAxis != null && fresh(xAxis) && fresh(yAxis)
      && |labels| == |bands.index|
      && xAxis.spec == AxisSpec("x", "", Some("array"), Some(TickVals(bands.index, labels)), Some(TickText(labels)), None, None)
      && yAxis.spec == PlainAxis("y", "Energy (eV)")
      && xAxis.anchor == yAxis && yAxis.anchor == xAxis
      && plot.axes == old(plot.axes) + [xAxis, yAxis]
      && plot.traces == old(plot.traces) + BandTraces(xAxis, yAxis, bands.index, bands.columns)
  {
    var xs := bands.index;
    var found := Lookup(bands.columns, "labels");
    if found.None? {
      return Some(MissingColumn("labels")), null, null;
    }
    // ticks only at the rows whose label is not empty (TickVals, TickText)
    var labels := found.value.values;
    var x := plot.AddAxis(AxisSpec("x", "", Some("array"), Some(TickVals(xs, labels)), Some(TickText(labels)), None, None), null);
    var y := plot.AddAxis(PlainAxis("y", "Energy (eV)"), x);
    x.anchor := y;
    err, xAxis, yAxis := None, x, y;

    var cols := bands.columns;
    var i := 0;
    while i < |cols|
      invariant 0 <= i <= |cols|
      invariant plot.traces == old(plot.traces) + BandTraces(x, y, xs, cols[..i])
      invariant plot.axes == old(plot.axes) + [x, y]
      invariant x.anchor == y && y.anchor == x
    {
      var column := cols[i];
      assert cols[..i + 1][..i] == cols[..i] && cols[..i + 1][i] == column;
      if column.name != "labels" && column.name != "points" {  // IsBand(column)
        // SpinColor(column.name)
        var color: string;
        if Contains(column.name, Up) {
          color := "red";
        } else if Contains(column.name, Down) {
          color := "blue";
        } else {
          color := "black";
        }
        plot.AddTrace(Trace(x, y, column.name, xs, "", "", column.values, "Energy", "eV", color, None));
      }
      i := i + 1;
    }
    assert cols[..i] == cols;
  }
}
