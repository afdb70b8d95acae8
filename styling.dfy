/**
 * The styling rules of the density-of-states plot: which columns are drawn,
 * and with which colour and dash, as a left-to-right scan over the column
 * names that carries the last element seen, the palette index and the
 * colour of the previous trace from one column to the next.
 */
module Styling {
  import opened Wrappers
  import opened Text
  import opened Tables

  /** Spin markers in column names. */
  const Up: string := "\U{2191}"
  const Down: string := "\U{2193}"

  /** Marker of the total (and spin-resolved total) DOS columns. */
  const Total: string := "Total"
  const Solid: string := "solid"

  /** The default palette for atom-projected DOS, cycled through element by element. */
  const DefaultColors: seq<string> := ["purple", "green", "cyan", "gold", "deeppink", "turquoise", "magenta"]

  /** The default dash per shell letter of projected DOS. */
  const DefaultDashes: map<string, string> := map["s" := "dot", "p" := "dash", "d" := "dashdot", "f" := "longdashdot"]

  /** The exceptions the DOS and band-structure builders can raise. */
  datatype Error =
    | UnpackError(column: string, pieces: nat)     // `element, shell = column.split("_")` with pieces != 2
    | EmptyShell(column: string)                    // `shell[0]` on an empty shell part
    | UnknownShell(column: string, shell: string)   // `dashes[shell]` with a letter not in the table
    | NoColors(column: string)                      // `colors[count]` on an empty palette
    | MissingColumn(name: string)                   // `BandStructure["labels"]` with no such column

  /** The variables `dos_plot` carries from one column to the next; `color` is None while unbound. */
  datatype Scan = Scan(lastElement: Option<string>, count: int, color: Option<string>)

  /** Before the first column: `last_element = None`, `count = -1`, `color` unbound. */
  const Start: Scan := Scan(None, -1, None)

  /** The style chosen for one drawn column. */
  datatype Style = Style(column: Column, color: string, dash: string)

  /**
   * The scan over a sequence of columns: it ends with a state and the styles of the
   * drawn columns, or stops at the first column whose styling raises, keeping the
   * styles chosen before it.
   */
  datatype Outcome = Done(state: Scan, styles: seq<Style>) | Failed(styles: seq<Style>, error: Error)

  /** Trace colour by spin marker: up before down, black for neither. */
  function SpinColor(name: string): string
  {
    if Contains(name, Up) then "red"
    else if Contains(name, Down) then "blue"
    else "black"
  }

  predicate IsTotal(name: string)
  {
    Contains(name, Total)
  }

  /** `spin is not None and spin not in column`. */
  predicate Skipped(spin: Option<string>, name: string)
  {
    spin.Some? && !Contains(name, spin.value)
  }

  /** The element of a per-species column: before the "_" if there is one, else before the first space. */
  function ElementOf(name: string): string
  {
    if '_' in name then Split(name, '_')[0] else Split(name, ' ')[0]
  }

  /**
   * Element and dash of a column that is not a total. The element is the text before
   * the "_" when there is one, and otherwise the text before the first space.
   */
  function Parse(dashes: map<string, string>, name: string): (r: Result<(string, string), Error>)
    ensures r.Ok? ==> r.value.0 == ElementOf(name)
    ensures r.Ok? ==> r.value.0 <= name
    ensures r.Ok? && '_' in name ==> '_' !in r.value.0 && |r.value.0| < |name| && name[|r.value.0|] == '_'
    ensures r.Ok? && '_' !in name ==> ' ' !in r.value.0 && (|r.value.0| < |name| ==> name[|r.value.0|] == ' ')
  {
    SplitHead(name, '_');
    SplitHead(name, ' ');
    if '_' in name then
      var pieces := Split(name, '_');
      if |pieces| != 2 then Err(UnpackError(name, |pieces|))
      else if pieces[1] == [] then Err(EmptyShell(name))
      else if pieces[1][..1] !in dashes then Err(UnknownShell(name, pieces[1][..1]))
      else Ok((pieces[0], dashes[pieces[1][..1]]))
    else Ok((Split(name, ' ')[0], Solid))
  }

  /**
   * A column `<element>_<shell>` with exactly one "_" and a non-empty shell part takes the
   * dash of the first letter of the shell part, and raises KeyError when the letter has none.
   */
  lemma ParseShellColumn(dashes: map<string, string>, element: string, shell: string)
    requires '_' !in element && '_' !in shell && shell != []
    ensures Parse(dashes, element + "_" + shell)
      == if shell[..1] in dashes then Ok((element, dashes[shell[..1]]))
         else Err(UnknownShell(element + "_" + shell, shell[..1]))
  {
    SplitJoin([element, shell], '_');
    assert Join([element, shell], '_') == element + "_" + shell;
  }

  /** `<element>_` raises IndexError: the shell part is empty. */
  lemma ParseEmptyShell(dashes: map<string, string>, element: string)
    requires '_' !in element
    ensures Parse(dashes, element + "_") == Err(EmptyShell(element + "_"))
  {
    SplitJoin([element, []], '_');
    assert Join([element, []], '_') == element + "_";
  }

  /** A name with two or more "_" raises ValueError when unpacked into element and shell. */
  lemma ParseManyUnderscores(dashes: map<string, string>, name: string)
    requires multiset(name)['_'] >= 2
    ensures Parse(dashes, name) == Err(UnpackError(name, multiset(name)['_'] + 1))
  {
    SplitCount(name, '_');
    assert '_' in multiset(name);
  }

  /**
   * A column without "_" is drawn solid, and its element is its text up to the first
   * space, such as "Si" for "Si ↑".
   */
  lemma ParseSpaceColumn(dashes: map<string, string>, element: string, rest: string)
    requires '_' !in element + rest && ' ' !in element
    requires rest == [] || rest[0] == ' '
    ensures Parse(dashes, element + rest) == Ok((element, Solid))
  {
    if rest == [] {
      assert element + rest == element;
      SplitWhole(element, ' ');
    } else {
      assert element + rest == element + [' '] + rest[1..];
      SplitAfter(element, ' ', rest[1..]);
    }
  }

  /** With the default table, shells s, p, d and f are dotted, dashed, dash-dotted and long-dash-dotted; other letters raise. */
  lemma DefaultShellDashes(element: string, shell: string)
    requires '_' !in element && '_' !in shell && shell != []
    ensures Parse(DefaultDashes, element + "_" + shell)
      == match shell[0]
         case 's' => Ok((element, "dot"))
         case 'p' => Ok((element, "dash"))
         case 'd' => Ok((element, "dashdot"))
         case 'f' => Ok((element, "longdashdot"))
         case _ => Err(UnknownShell(element + "_" + shell, [shell[0]]))
  {
    ParseShellColumn(DefaultDashes, element, shell);
    assert shell[..1] == [shell[0]];
  }

  /**
   * What holds between columns: either no element has been seen yet (count is -1),
   * or the palette index is valid and `color` is bound.
   */
  predicate Inv(colors: seq<string>, st: Scan)
  {
    (st.lastElement.None? && st.count == -1)
    || (st.lastElement.Some? && 0 <= st.count < |colors| && st.color.Some?)
  }

  /** One iteration of the loop of `dos_plot` on a column that the spin filter keeps. */
  function Step(colors: seq<string>, dashes: map<string, string>, st: Scan, c: Column): (r: Result<(Scan, Style), Error>)
    requires Inv(colors, st)
    ensures r.Ok? ==> Inv(colors, r.value.0) && r.value.1.column == c
  {
    if IsTotal(c.name) then
      var color := SpinColor(c.name);
      Ok((st.(color := Some(color)), Style(c, color, Solid)))
    else
      match Parse(dashes, c.name)
      case Err(e) => Err(e)
      case Ok((element, dash)) =>
        if Some(element) != st.lastElement then
          var count := if st.count + 1 >= |colors| then 0 else st.count + 1;
          if count < |colors| then
            Ok((Scan(Some(element), count, Some(colors[count])), Style(c, colors[count], dash)))
          else
            Err(NoColors(c.name))
        else
          Ok((st, Style(c, st.color.value, dash)))
  }

  /** The whole loop of `dos_plot` over `cols`, from the start state. */
  function Run(colors: seq<string>, dashes: map<string, string>, spin: Option<string>, cols: seq<Column>): (o: Outcome)
    ensures o.Done? ==> Inv(colors, o.state)
    decreases |cols|
  {
    if cols == [] then Done(Start, [])
    else
      var c := cols[|cols| - 1];
      match Run(colors, dashes, spin, cols[..|cols| - 1])
      case Failed(ss, e) => Failed(ss, e)
      case Done(st, ss) =>
        if Skipped(spin, c.name) then Done(st, ss)
        else
          match Step(colors, dashes, st, c)
          case Err(e) => Failed(ss, e)
          case Ok((st', s)) => Done(st', ss + [s])
  }

  // ---------------------------------------------------------------------------
  // Reference definitions the scan is proved against

  /** The columns the spin filter keeps, in order. */
  function DosColumns(cols: seq<Column>, spin: Option<string>): seq<Column>
    decreases |cols|
  {
    if cols == [] then []
    else
      var kept := DosColumns(cols[..|cols| - 1], spin);
      if Skipped(spin, cols[|cols| - 1].name) then kept else kept + [cols[|cols| - 1]]
  }

  /** A kept column is drawn rather than raising: a total, or parsable with a non-empty palette. */
  predicate Accepted(colors: seq<string>, dashes: map<string, string>, name: string)
  {
    IsTotal(name) || (Parse(dashes, name).Ok? && |colors| > 0)
  }

  /** The exception a kept column that is not accepted raises. */
  function Rejection(dashes: map<string, string>, name: string): Error
  {
    match Parse(dashes, name)
    case Err(e) => e
    case Ok(_) => NoColors(name)
  }

  /** The element of the last drawn column that is not a total. */
  function LastElement(ss: seq<Style>): Option<string>
    decreases |ss|
  {
    if ss == [] then None
    else if IsTotal(ss[|ss| - 1].column.name) then LastElement(ss[..|ss| - 1])
    else Some(ElementOf(ss[|ss| - 1].column.name))
  }

  /** How many drawn non-total columns have an element that differs from the one before them. */
  function Changes(ss: seq<Style>): nat
    decreases |ss|
  {
    if ss == [] then 0
    else
      var init := ss[..|ss| - 1];
      var name := ss[|ss| - 1].column.name;
      Changes(init) + if !IsTotal(name) && Some(ElementOf(name)) != LastElement(init) then 1 else 0
  }

  /** Palette index after `n` element changes with a palette of `m` colours: it wraps to 0 at m. */
  function PaletteIndex(n: nat, m: nat): int
  {
    if n == 0 || m == 0 then -1 else (n - 1) % m
  }

  // ---------------------------------------------------------------------------
  // Properties of the scan

  /** Multiplying by a non-negative number keeps order. */
  lemma {:induction false} MulMono(a: int, b: int, m: nat)
    requires a <= b
    ensures a * m <= b * m
    decreases b - a
  {
    if a < b {
      MulMono(a + 1, b, m);
      assert (a + 1) * m == a * m + m;
    }
  }

  /** The remainder is determined by any quotient-remainder decomposition. */
  lemma ModUnique(x: int, m: int, q: int, r: int)
    requires m > 0 && 0 <= r < m && x == q * m + r
    ensures x % m == r
  {
    var y := x / m;
    assert x == y * m + x % m;
    assert (y + 1) * m == y * m + m;
    assert (q + 1) * m == q * m + m;
    if q > y {
      MulMono(y + 1, q, m);
    } else if q < y {
      MulMono(q + 1, y, m);
    }
  }

  /** Advancing the palette index by one and wrapping to 0 at m is counting modulo m. */
  lemma WrapIsModulo(a: nat, m: nat)
    requires m > 0
    ensures (if a % m + 1 >= m then 0 else a % m + 1) == (a + 1) % m
  {
    var q, r := a / m, a % m;
    if r + 1 < m {
      ModUnique(a + 1, m, q, r + 1);
    } else {
      ModUnique(a + 1, m, q + 1, 0);
    }
  }

  /** A step on a kept column succeeds exactly when the column is accepted, and otherwise raises its rejection. */
  lemma StepOutcome(colors: seq<string>, dashes: map<string, string>, st: Scan, c: Column)
    requires Inv(colors, st)
    ensures Step(colors, dashes, st, c).Ok? <==> Accepted(colors, dashes, c.name)
    ensures Step(colors, dashes, st, c).Err? ==> Step(colors, dashes, st, c).error == Rejection(dashes, c.name)
  {
  }

  /**
   * What one kept column does to the carried variables:
   * - a total is drawn solid in its spin colour and leaves `last_element` and `count` as
   *   they were, but rebinds `color`;
   * - a column of a new element moves `count` on by one, back to 0 at the palette size,
   *   and takes `colors[count]`;
   * - a column of the same element as the last one changes nothing and keeps `color`.
   */
  lemma StepScan(colors: seq<string>, dashes: map<string, string>, st: Scan, c: Column)
    requires Inv(colors, st)
    ensures IsTotal(c.name) ==>
      var r := Step(colors, dashes, st, c);
      r.Ok? && r.value.0.lastElement == st.lastElement && r.value.0.count == st.count
      && r.value.0.color == Some(SpinColor(c.name)) && r.value.1.color == SpinColor(c.name) && r.value.1.dash == Solid
    ensures !IsTotal(c.name) && Step(colors, dashes, st, c).Ok? && Some(ElementOf(c.name)) != st.lastElement ==>
      var r := Step(colors, dashes, st, c);
      r.value.0.lastElement == Some(ElementOf(c.name))
      && r.value.0.count == (if st.count + 1 >= |colors| then 0 else st.count + 1)
      && 0 <= r.value.0.count < |colors|
      && r.value.0.color == Some(colors[r.value.0.count]) && r.value.1.color == colors[r.value.0.count]
    ensures !IsTotal(c.name) && Step(colors, dashes, st, c).Ok? && Some(ElementOf(c.name)) == st.lastElement ==>
      var r := Step(colors, dashes, st, c);
      r.value.0 == st && st.color == Some(r.value.1.color)
  {
  }

  /**
   * One style per kept column, in column order: a finished scan has styled exactly the
   * columns the spin filter keeps; a failed one stopped at the first kept column that
   * is not accepted, with that column's exception, after styling every kept column before it.
   */
  lemma {:induction false} RunFiltered(colors: seq<string>, dashes: map<string, string>, spin: Option<string>, cols: seq<Column>)
    ensures var o := Run(colors, dashes, spin, cols); var kept := DosColumns(cols, spin);
      |o.styles| <= |kept|
      && (forall k :: 0 <= k < |o.styles| ==> o.styles[k].column == kept[k] && Accepted(colors, dashes, kept[k].name))
      && (o.Done? ==> |o.styles| == |kept|)
      && (o.Failed? ==>
            |o.styles| < |kept|
            && !Accepted(colors, dashes, kept[|o.styles|].name)
            && o.error == Rejection(dashes, kept[|o.styles|].name))
    decreases |cols|
  {
    if cols != [] {
      var init, c := cols[..|cols| - 1], cols[|cols| - 1];
      RunFiltered(colors, dashes, spin, init);
      match Run(colors, dashes, spin, init)
      case Failed(ss, e) =>
      case Done(st, ss) =>
        if !Skipped(spin, c.name) {
          StepOutcome(colors, dashes, st, c);
        }
    }
  }

  /** The scan finishes exactly when every kept column is accepted. */
  lemma RunDoneIff(colors: seq<string>, dashes: map<string, string>, spin: Option<string>, cols: seq<Column>)
    ensures Run(colors, dashes, spin, cols).Done?
      <==> forall c :: c in DosColumns(cols, spin) ==> Accepted(colors, dashes, c.name)
  {
    RunFiltered(colors, dashes, spin, cols);
    var o, kept := Run(colors, dashes, spin, cols), DosColumns(cols, spin);
    if o.Done? {
      forall c | c in kept ensures Accepted(colors, dashes, c.name) {
        var k :| 0 <= k < |kept| && kept[k] == c;
        assert o.styles[k].column == c;
      }
    } else {
      assert kept[|o.styles|] in kept;
    }
  }

  /** Without a spin filter every column is kept, so every column gets a trace. */
  lemma {:induction false} NoSpinKeepsAll(cols: seq<Column>)
    ensures DosColumns(cols, None) == cols
    decreases |cols|
  {
    if cols != [] {
      NoSpinKeepsAll(cols[..|cols| - 1]);
      assert cols[..|cols| - 1] + [cols[|cols| - 1]] == cols;
    }
  }

  /**
   * The spin filter keeps columns one by one, in order: filtering a concatenation
   * filters each part (and DosColumns([c], spin) is [c] or [] by definition).
   */
  lemma {:induction false} DosColumnsAppend(a: seq<Column>, b: seq<Column>, spin: Option<string>)
    ensures DosColumns(a + b, spin) == DosColumns(a, spin) + DosColumns(b, spin)
    decreases |b|
  {
    if b == [] {
      assert a + b == a;
    } else {
      var b' := b[..|b| - 1];
      DosColumnsAppend(a, b', spin);
      assert (a + b)[..|a + b| - 1] == a + b';
      assert (a + b)[|a + b| - 1] == b[|b| - 1];
    }
  }

  /**
   * The state at the end of a finished scan: the last element is that of the last drawn
   * non-total column, the palette index is the number of element changes counted modulo
   * the palette size (-1 before the first), and `color` is the colour of the last trace.
   */
  lemma {:induction false} RunState(colors: seq<string>, dashes: map<string, string>, spin: Option<string>, cols: seq<Column>)
    requires Run(colors, dashes, spin, cols).Done?
    ensures var o := Run(colors, dashes, spin, cols);
      o.state.lastElement == LastElement(o.styles)
      && o.state.count == PaletteIndex(Changes(o.styles), |colors|)
      && (o.styles != [] ==> o.state.color == Some(o.styles[|o.styles| - 1].color))
    decreases |cols|
  {
    if cols != [] {
      var init, c := cols[..|cols| - 1], cols[|cols| - 1];
      var o0 := Run(colors, dashes, spin, init);
      RunState(colors, dashes, spin, init);
      if !Skipped(spin, c.name) {
        var r := Step(colors, dashes, o0.state, c);
        StepState(colors, dashes, c, o0.state, o0.styles, r.value.0, r.value.1);
      }
    }
  }

  /** One drawing step keeps the scan state in step with the drawn columns (see RunState). */
  lemma StepState(colors: seq<string>, dashes: map<string, string>, c: Column, st: Scan, ss: seq<Style>, st': Scan, s: Style)
    requires Inv(colors, st)
    requires st.lastElement == LastElement(ss) && st.count == PaletteIndex(Changes(ss), |colors|)
    requires ss != [] ==> st.color == Some(ss[|ss| - 1].color)
    requires Step(colors, dashes, st, c) == Ok((st', s))
    ensures st'.lastElement == LastElement(ss + [s]) && st'.count == PaletteIndex(Changes(ss + [s]), |colors|)
    ensures st'.color == Some(s.color)
  {
    assert s.column == c;
    if !IsTotal(c.name) {
      var p := Parse(dashes, c.name);
      assert p.Ok? && p.value.0 == ElementOf(c.name);
      if Some(p.value.0) != st.lastElement {
        var count := if st.count + 1 >= |colors| then 0 else st.count + 1;
        assert st' == Scan(Some(p.value.0), count, Some(colors[count]));
        assert s == Style(c, colors[count], p.value.1);
      } else {
        assert st' == st && s == Style(c, st.color.value, p.value.1);
      }
    }
    StateAppend(colors, st, ss, st', s);
  }

  /** How the scan state moves when a style is drawn, in terms of the drawn styles alone. */
  lemma StateAppend(colors: seq<string>, st: Scan, ss: seq<Style>, st': Scan, s: Style)
    requires Inv(colors, st)
    requires st.lastElement == LastElement(ss) && st.count == PaletteIndex(Changes(ss), |colors|)
    requires IsTotal(s.column.name) ==> st'.lastElement == st.lastElement && st'.count == st.count
    requires !IsTotal(s.column.name) ==>
      var element := ElementOf(s.column.name);
      st'.lastElement == Some(element)
      && st'.count == if Some(element) == st.lastElement then st.count
                      else if st.count + 1 >= |colors| then 0 else st.count + 1
    requires !IsTotal(s.column.name) && Some(ElementOf(s.column.name)) != st.lastElement ==> |colors| > 0
    ensures st'.lastElement == LastElement(ss + [s]) && st'.count == PaletteIndex(Changes(ss + [s]), |colors|)
  {
    AppendStyle(ss, s);
    if !IsTotal(s.column.name) && Some(ElementOf(s.column.name)) != st.lastElement {
      PaletteAdvance(Changes(ss), |colors|);
    }
  }

  /**
   * The colour and dash of a column `s` drawn after the columns `before`:
   * - a total is solid and coloured red, blue or black by its spin marker;
   * - any other column has the dash its name parses to, and
   *   - when its element differs from the last one drawn before it, it takes the palette
   *     colour at index "element changes before it, modulo the palette size": the palette
   *     moves on by one at each change and wraps to its start;
   *   - otherwise it keeps the colour of the trace just before it, even when that trace
   *     is a total drawn in red, blue or black.
   */
  predicate RuledAfter(colors: seq<string>, dashes: map<string, string>, before: seq<Style>, s: Style)
  {
    var name := s.column.name;
    if IsTotal(name) then
      s.color == SpinColor(name) && s.dash == Solid
    else
      Parse(dashes, name).Ok? && s.dash == Parse(dashes, name).value.1
      && if Some(ElementOf(name)) != LastElement(before) then
           |colors| > 0 && s.color == colors[Changes(before) % |colors|]
         else
           before != [] && s.color == before[|before| - 1].color
  }

  /** Drawn column `k` of `ss` is styled by the rules of RuledAfter. */
  predicate Ruled(colors: seq<string>, dashes: map<string, string>, ss: seq<Style>, k: nat)
    requires k < |ss|
  {
    RuledAfter(colors, dashes, ss[..k], ss[k])
  }

  /** Whether a drawn column is ruled depends only on the columns drawn up to it. */
  lemma RuledPrefix(colors: seq<string>, dashes: map<string, string>, ss: seq<Style>, s: Style, k: nat)
    requires k < |ss|
    ensures Ruled(colors, dashes, ss + [s], k) == Ruled(colors, dashes, ss, k)
  {
    var ss' := ss + [s];
    assert ss'[..k] == ss[..k];
    assert ss'[k] == ss[k];
  }

  /** Every drawn column, finished scan or not, is styled by the rules of Ruled. */
  lemma {:induction false} RunStyles(colors: seq<string>, dashes: map<string, string>, spin: Option<string>, cols: seq<Column>)
    ensures forall k :: 0 <= k < |Run(colors, dashes, spin, cols).styles| ==>
      Ruled(colors, dashes, Run(colors, dashes, spin, cols).styles, k)
    decreases |cols|
  {
    if cols != [] {
      var init, c := cols[..|cols| - 1], cols[|cols| - 1];
      RunStyles(colors, dashes, spin, init);
      var o0 := Run(colors, dashes, spin, init);
      if o0.Done? && !Skipped(spin, c.name) && Step(colors, dashes, o0.state, c).Ok? {
        var ss := o0.styles;
        var s := Step(colors, dashes, o0.state, c).value.1;
        assert Run(colors, dashes, spin, cols).styles == ss + [s];
        forall k | 0 <= k < |ss| + 1 ensures Ruled(colors, dashes, ss + [s], k) {
          if k < |ss| {
            RuledPrefix(colors, dashes, ss, s, k);
          } else {
            RunState(colors, dashes, spin, init);
            LastStyleRuled(colors, dashes, c, o0.state, ss, Step(colors, dashes, o0.state, c).value.0, s);
            assert (ss + [s])[..k] == ss && (ss + [s])[k] == s;
          }
        }
      }
    }
  }

  /** A name with no "T", "_" or space is no total, and is its own element, drawn solid. */
  lemma PlainColumn(dashes: map<string, string>, name: string)
    requires 'T' !in name && '_' !in name && ' ' !in name
    ensures !IsTotal(name) && Parse(dashes, name) == Ok((name, Solid))
  {
    ContainsMissingFirst(name, Total);
    assert name + [] == name;
    ParseSpaceColumn(dashes, name, []);
  }

  /** The palette moves on at every change of element: columns of A, B and A again take three colours. */
  lemma ReturningElementAdvances()
    ensures var cols := [Column("A", []), Column("B", []), Column("A", [])];
      var o := Run(["c0", "c1", "c2"], DefaultDashes, None, cols);
      o.Done? && |o.styles| == 3
      && o.styles[0].color == "c0" && o.styles[1].color == "c1" && o.styles[2].color == "c2"
  {
    var colors := ["c0", "c1", "c2"];
    var a, b := Column("A", []), Column("B", []);
    var cols := [a, b, a];
    PlainColumn(DefaultDashes, "A");
    PlainColumn(DefaultDashes, "B");
    var st1 := Scan(Some("A"), 0, Some("c0"));
    var st2 := Scan(Some("B"), 1, Some("c1"));
    var st3 := Scan(Some("A"), 2, Some("c2"));
    assert Step(colors, DefaultDashes, Start, a) == Ok((st1, Style(a, "c0", Solid)));
    assert Step(colors, DefaultDashes, st1, b) == Ok((st2, Style(b, "c1", Solid)));
    assert Step(colors, DefaultDashes, st2, a) == Ok((st3, Style(a, "c2", Solid)));
    assert cols[..1] == [a] && cols[..2] == [a, b] && [a][..0] == [] && [a, b][..1] == [a];
    assert Run(colors, DefaultDashes, None, [a]) == Done(st1, [Style(a, "c0", Solid)]);
    assert Run(colors, DefaultDashes, None, [a, b]) == Done(st2, [Style(a, "c0", Solid), Style(b, "c1", Solid)]);
  }

  /**
   * A column of the same element as the one before a total inherits the total's colour:
   * "Si_p", "Total ↑", "Si_d" draws Si_d in red, not in Si's palette colour.
   */
  lemma TotalColourInherited(colors: seq<string>, dashes: map<string, string>, st: Scan, a: Column, t: Column, b: Column)
    requires Inv(colors, st) && Step(colors, dashes, st, a).Ok? && !IsTotal(a.name)
    requires IsTotal(t.name)
    requires !IsTotal(b.name) && Parse(dashes, b.name).Ok? && ElementOf(b.name) == ElementOf(a.name)
    ensures var st1 := Step(colors, dashes, st, a).value.0;
      var r2 := Step(colors, dashes, st1, t);
      r2.Ok? && Step(colors, dashes, r2.value.0, b).Ok?
      && Step(colors, dashes, r2.value.0, b).value.1.color == SpinColor(t.name)
  {
    var st1 := Step(colors, dashes, st, a).value.0;
    StepScan(colors, dashes, st, a);
    assert st1.lastElement == Some(ElementOf(a.name));
    StepScan(colors, dashes, st1, t);
    var st2 := Step(colors, dashes, st1, t).value.0;
    assert st2.lastElement == Some(ElementOf(b.name)) && st2.color == Some(SpinColor(t.name));
    StepScan(colors, dashes, st2, b);
  }

  /** Drawing one more column: a total changes neither the last element nor the change count. */
  lemma AppendStyle(ss: seq<Style>, s: Style)
    ensures IsTotal(s.column.name) ==>
      LastElement(ss + [s]) == LastElement(ss) && Changes(ss + [s]) == Changes(ss)
    ensures !IsTotal(s.column.name) ==>
      LastElement(ss + [s]) == Some(ElementOf(s.column.name))
      && Changes(ss + [s]) == Changes(ss) + if Some(ElementOf(s.column.name)) != LastElement(ss) then 1 else 0
  {
    assert (ss + [s])[..|ss|] == ss;
  }

  /** One more element change moves the palette index on by one, wrapping to 0 at the palette size. */
  lemma PaletteAdvance(n: nat, m: nat)
    requires m > 0
    ensures var count := PaletteIndex(n, m);
      (if count + 1 >= m then 0 else count + 1) == PaletteIndex(n + 1, m) == n % m
  {
    if n > 0 {
      WrapIsModulo(n - 1, m);
    } else {
      ModUnique(0, m, 0, 0);
    }
  }

  /** The step that draws a kept column styles it by the rules of Ruled. */
  lemma LastStyleRuled(colors: seq<string>, dashes: map<string, string>, c: Column, st: Scan, ss: seq<Style>, st': Scan, s: Style)
    requires Inv(colors, st)
    requires st.lastElement == LastElement(ss) && st.count == PaletteIndex(Changes(ss), |colors|)
    requires ss != [] ==> st.color == Some(ss[|ss| - 1].color)
    requires Step(colors, dashes, st, c) == Ok((st', s))
    ensures RuledAfter(colors, dashes, ss, s)
  {
    assert s.column == c;
    if IsTotal(c.name) {
      assert s == Style(c, SpinColor(c.name), Solid);
    } else {
      var p := Parse(dashes, c.name);
      assert p.Ok?;
      var element, dash := p.value.0, p.value.1;
      assert element == ElementOf(c.name);
      if Some(element) != st.lastElement {
        var n := Changes(ss);
        PaletteAdvance(n, |colors|);
        var count := if st.count + 1 >= |colors| then 0 else st.count + 1;
        assert count == n % |colors|;
        assert s == Style(c, colors[count], dash);
      } else {
        assert s == Style(c, st.color.value, dash);
      }
    }
  }
}
