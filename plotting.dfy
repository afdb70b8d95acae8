/**
 * The plotting layer the electronic-structure graphs are drawn on, reduced to
 * what the builders do with it: a plot records the axes and traces added to
 * it, in order, and an axis can later be anchored to another axis.
 */
module Plotting {
  import opened Wrappers
  import opened Tables

  /** The arguments of one `add_axis` call (`title` is its `label=`); options not passed are None. */
  datatype AxisSpec = AxisSpec(
    direction: string,
    title: string,
    tickmode: Option<string>,
    tickvals: Option<seq<Cell>>,
    ticktext: Option<seq<Cell>>,
    ticklabelposition: Option<string>,
    autorange: Option<string>)

  /** An axis with only a direction and a label. */
  function PlainAxis(direction: string, title: string): (spec: AxisSpec)
    ensures spec.direction == direction && spec.title == title
    ensures spec.tickmode.None? && spec.tickvals.None? && spec.ticktext.None?
    ensures spec.ticklabelposition.None? && spec.autorange.None?
  {
    AxisSpec(direction, title, None, None, None, None, None)
  }

  /** An axis object: fixed at creation except for its anchor, which callers set afterwards. */
  class Axis {
    const spec: AxisSpec
    var anchor: Axis?

    constructor (spec: AxisSpec, anchor: Axis?)
      ensures this.spec == spec && this.anchor == anchor
    {
      this.spec := spec;
      this.anchor := anchor;
    }
  }

  /** The keyword arguments of one `add_trace` call; `dash` is None where none is passed. */
  datatype Trace = Trace(
    xAxis: Axis,
    yAxis: Axis,
    name: string,
    x: seq<Cell>,
    xlabel: string,
    xunits: string,
    y: seq<Cell>,
    ylabel: string,
    yunits: string,
    color: string,
    dash: Option<string>)

  /** A plot: the axes and traces added to it so far, in call order. */
  class Plot {
    var axes: seq<Axis>
    var traces: seq<Trace>

    constructor ()
      ensures axes == [] && traces == []
    {
      axes := [];
      traces := [];
    }

    /** `plot.add_axis(direction, label=..., ..., anchor=...)`: a new axis, recorded last. */
    method AddAxis(spec: AxisSpec, anchor: Axis?) returns (axis: Axis)
      modifies this
      ensures fresh(axis) && axis.spec == spec && axis.anchor == anchor
      ensures axes == old(axes) + [axis] && traces == old(traces)
    {
      axis := new Axis(spec, anchor);
      axes := axes + [axis];
    }

    /** `plot.add_trace(...)`: the trace is recorded last. */
    method AddTrace(trace: Trace)
      modifies this
      ensures traces == old(traces) + [trace] && axes == old(axes)
    {
      traces := traces + [trace];
    }
  }
}
