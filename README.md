# Electronic-structure plots of cms_plots, modelled in Dafny

`cms_plots/electronic.py` builds two graphs from pandas tables:

- **`band_structure_plot`**:
  - adds an x axis whose ticks are the labelled special k-points, and an energy y axis;
  - adds one trace per band column, coloured red, blue or black by the spin marker ↑/↓ in the column name.
- **`dos_plot`** (density of states):
  - adds its two axes for a horizontal or vertical energy axis, optionally sharing a y axis passed in;
  - scans the table's columns left to right and draws one trace per column that the optional spin filter keeps;
  - styles each trace by a small rule set:
    - a "Total" column is solid and coloured by its spin marker;
    - any other column is parsed into element and shell, takes its dash from the shell letter, and takes its colour from a palette that moves on by one (wrapping) whenever the element changes.

The scan carries `last_element`, `count` and the last `color` from one column to the next.

The model consists of:

- a DataFrame as an index plus an ordered list of named columns with opaque cells (`Tables`);
- the plot as a recorder of `add_axis`/`add_trace` calls, with axes as objects whose anchor is set afterwards (`Plotting`);
- Python's `in` on strings and `str.split` (`Text`);
- the styling rules as pure functions: one loop iteration `Step`, and the whole scan `Run` as a left fold (`Styling`);
- the two builders as imperative methods whose loops are proved against those functions (`Electronic`).

Python exceptions become the `Styling.Error` datatype, one constructor per exception:

| exception in the source | `Styling.Error` constructor |
|---|---|
| `element, shell = column.split("_")` unpacks a number of pieces other than 2 | `UnpackError` |
| `shell[0]` on an empty shell part | `EmptyShell` |
| `dashes[shell]` on an unknown letter | `UnknownShell` |
| `colors[count]` on an empty palette | `NoColors` |
| `BandStructure["labels"]` with no such column | `MissingColumn` |

A call that raises returns the error, and keeps the traces it had already added, as the Python call does.

The scan is specified against reference definitions:

- `DosColumns`: the kept columns;
- `Accepted` and `Rejection`: which kept columns style without raising, and what the others raise;
- `LastElement`: the element of the last drawn non-total column;
- `Changes`: the number of element changes among the drawn columns;
- `PaletteIndex`: the palette index after that many changes.

Two facts are proved from these definitions:

- the carried variables always equal these definitions of the columns drawn so far;
- every trace obeys one rule: `Styling.RuledAfter` and `Styling.Ruled`.

The palette advances at every *change* of element, not once per distinct element. So columns of elements A, B, A take three successive palette colours (Styling.ReturningElementAdvances). Descriptions of the module that say "one colour per element" do not match the code. The model follows the code.

A column whose element equals the previous one keeps the colour of the trace just before it. That colour may be the red, blue or black of an intervening total (Styling.TotalColourInherited).

## Model

| member | source | states |
|---|---|---|
| Text.ContainsOccurs | cms_plots/electronic.py:214 | Python's `sub in s` (Contains) holds exactly when `sub` occurs at some position of `s` |
| Text.ContainsChar | cms_plots/electronic.py:228 | for a one-character marker such as "_", the substring test is plain membership of the character |
| Text.SplitCount | cms_plots/electronic.py:229 | `s.split(sep)` has exactly one piece more than `s` has separators |
| Text.SplitPieces | cms_plots/electronic.py:229 | no piece of `s.split(sep)` contains the separator |
| Text.JoinSplit | cms_plots/electronic.py:229 | splitting loses nothing: joining the pieces with the separator gives back the string |
| Text.SplitJoin | cms_plots/electronic.py:229 | splitting a join of separator-free pieces gives back those pieces |
| Text.SplitHead | cms_plots/electronic.py:233 | the first piece is a separator-free prefix followed by a separator or the end: the text before the first separator, and the whole string if there is none |
| Tables.Lookup | cms_plots/electronic.py:34 | `table[name]` finds a column with that name, and finds nothing only when no column has that name |
| Plotting.Plot.AddAxis | cms_plots/electronic.py:36-43 | a new axis with the given options and anchor is recorded after the existing axes; the traces are untouched |
| Plotting.Plot.AddTrace | cms_plots/electronic.py:57-68 | the trace is recorded after the existing traces; the axes are untouched |
| Styling.Parse | cms_plots/electronic.py:228-234 | the element of a column that parses is a prefix of its name: with a "_" it is the text before that "_", which it does not contain; without one it is the text up to the first space or the end |
| Styling.ParseShellColumn | cms_plots/electronic.py:228-231 | `<element>_<shell>` with one "_" and a non-empty shell gets the dash of the shell's first letter; an unknown letter raises the KeyError (UnknownShell) |
| Styling.ParseEmptyShell | cms_plots/electronic.py:230 | `<element>_` raises the IndexError of `shell[0]` (EmptyShell) |
| Styling.ParseManyUnderscores | cms_plots/electronic.py:229 | a name with two or more "_" raises the unpacking ValueError, with the number of pieces found |
| Styling.ParseSpaceColumn | cms_plots/electronic.py:232-234 | a name without "_" is drawn solid, and its element is its text up to the first space |
| Styling.DefaultShellDashes | cms_plots/electronic.py:151-156 | with the default table, shells s, p, d and f are dot, dash, dashdot and longdashdot, and any other letter raises |
| Styling.Step | cms_plots/electronic.py:217-240 | one iteration keeps the invariant between columns (`count` is -1 before the first element and a valid palette index after it, and `color` is bound), and styles the column it was given |
| Styling.StepOutcome | cms_plots/electronic.py:217-240 | an iteration on a kept column succeeds exactly when the column is a total, or parses and the palette is non-empty; otherwise it raises that column's Rejection |
| Styling.StepScan | cms_plots/electronic.py:217-240 | a total is solid in its spin colour (↑ before ↓) and leaves `last_element` and `count` unchanged; a new element moves `count` on by one, wrapping to 0 at `len(colors)`, with `color == colors[count]`; a repeated element changes nothing and keeps `color` |
| Styling.Run | cms_plots/electronic.py:211-240 | the scan starts from `last_element = None` and `count = -1`, and a finished scan ends in a state satisfying the invariant |
| Styling.RunFiltered | cms_plots/electronic.py:213-215 | the drawn columns are the spin-kept columns in order, each accepted; a finished scan drew all of them; a failed scan stopped at the first kept column that is not accepted, with its exception |
| Styling.RunDoneIff | cms_plots/electronic.py:213-240 | the scan finishes exactly when every kept column is accepted |
| Styling.NoSpinKeepsAll | cms_plots/electronic.py:214 | with no spin filter every column is kept |
| Styling.DosColumnsAppend | cms_plots/electronic.py:213-215 | filtering is column by column: the kept columns of a concatenation are those of each part |
| Styling.RunState | cms_plots/electronic.py:211-212 | after a finished scan, `last_element` is the element of the last drawn non-total column, `count` is the number of element changes minus one modulo `len(colors)` (-1 for none), and `color` is the colour of the last trace |
| Styling.StepState | cms_plots/electronic.py:235-240 | one drawn column keeps `last_element`, `count` and `color` equal to their reference definitions over the drawn columns |
| Styling.StateAppend | cms_plots/electronic.py:235-239 | a total leaves the change count alone; a new element adds one change and moves `count` to the new change count modulo the palette size |
| Styling.AppendStyle | cms_plots/electronic.py:217-236 | a drawn total changes neither the last element nor the change count; a drawn non-total becomes the last element, and counts a change exactly when its element differs from the previous one |
| Styling.PaletteAdvance | cms_plots/electronic.py:237-239 | "add one, and back to 0 at the palette size" is counting modulo the palette size |
| Styling.RunStyles | cms_plots/electronic.py:217-240 | every drawn trace, whether or not the scan finishes, obeys the rule: a total is solid in its spin colour; any other trace has its shell's dash and takes `colors[changes before it % len(colors)]` on a new element, else the previous trace's colour |
| Styling.LastStyleRuled | cms_plots/electronic.py:217-240 | the style an iteration picks obeys that rule, given the carried variables of the columns drawn before it |
| Styling.ReturningElementAdvances | cms_plots/electronic.py:235-240 | columns of elements A, B and A again, with a three-colour palette, are drawn in the first, second and third colour: the palette moves on at every change of element |
| Styling.TotalColourInherited | cms_plots/electronic.py:217-240 | after a column of some element and then a total, a column of that same element is drawn in the total's spin colour, not in the element's palette colour |
| Styling.RuledPrefix | cms_plots/electronic.py:213-240 | drawing a later column does not change whether an earlier trace obeys the rule |
| Electronic.StyleColumn | cms_plots/electronic.py:217-240 | the imperative loop body (spin colour, split and dash lookup, palette step) computes exactly Step, raising where it raises |
| Electronic.AddDosAxes | cms_plots/electronic.py:184-206 | the x axis title is "Energy (eV)" when horizontal and "DOS" otherwise; its ticks are inside when vertical, and it is reversed exactly when vertical and `flipped` contains "x"; a y axis is created only when none is passed, titled "DOS" or "Energy (eV)"; the two axes anchor each other; no trace is added |
| Electronic.DosTracesAt | cms_plots/electronic.py:242-269 | one trace per drawn column, in order, on the given axes, named after the column in its colour and dash; x is the energies and y the values when horizontal, and the two are swapped otherwise |
| Electronic.DosTracesSnoc | cms_plots/electronic.py:242-269 | drawing one more column appends exactly its trace |
| Electronic.RunSkips | cms_plots/electronic.py:214-215 | a column the spin filter drops leaves the scan unchanged |
| Electronic.RunDraws | cms_plots/electronic.py:213-240 | a kept column that styles extends the scan by its style and new state |
| Electronic.RunStops | cms_plots/electronic.py:213-240 | the first column whose styling raises ends the whole scan with that exception, whatever follows |
| Electronic.ScanColumn | cms_plots/electronic.py:213-269 | one pass of the column loop skips, draws, or stops, exactly as Run does for that column, and adds exactly that column's trace |
| Electronic.DrawDosColumns | cms_plots/electronic.py:208-269 | the loop adds exactly the traces of Run's drawn columns, in order, and raises exactly Run's error when the scan fails |
| Electronic.DosPlot | cms_plots/electronic.py:139-269 | `dos_plot`: the axes of AddDosAxes (x title, inside tick labels when vertical, reversal, no tick options, a y axis only when none is passed, mutual anchors), then the traces of the drawn columns in order; the error is raised exactly when some kept column is not accepted, and the traces drawn before it stay |
| Electronic.LabelledRowsExact | cms_plots/electronic.py:34 | the labelled rows are exactly the rows whose label is not "", in increasing order |
| Electronic.TicksExact | cms_plots/electronic.py:34-41 | the tick texts are non-empty labels, one per tick value, and every non-empty label appears with its own row's index entry as tick value |
| Electronic.BandColumnsExact | cms_plots/electronic.py:46-48 | the band columns are exactly the columns other than "labels" and "points" |
| Electronic.BandColumnsAppend | cms_plots/electronic.py:46-48 | band columns are kept one by one, in order |
| Electronic.BandTracesAt | cms_plots/electronic.py:46-67 | one trace per band column, in order, on the given axes, over the k-point index with the column's energies, red for ↑, else blue for ↓, else black, with no dash |
| Electronic.BandStructurePlot | cms_plots/electronic.py:19-68 | with no "labels" column it raises KeyError and leaves the plot as it was; otherwise it adds the tick x axis (TickVals/TickText), the energy y axis anchored to it and vice versa, and then exactly the band traces in order |

## Left out

- `create_figure` (cms_plots/electronic.py:71-116) is not modelled. It builds a jinja2 environment from package files found through `importlib.metadata`; that is I/O and foreign-library code.
- `dos` (cms_plots/electronic.py:119-136) is not modelled. It only wraps `create_figure`, which it calls without the `self` argument, and `Figure`.
- The `Figure` and `Plot` classes of `cms_plots/plotting.py` are not part of this model beyond recording the `add_axis` and `add_trace` calls, their arguments and the anchors. Rendering and templates are not modelled.
- Logging (`logger.info`) is not modelled.
- The numbers in the tables are opaque cells: energies and densities are passed through unchanged and never computed on. NaN labels are not modelled; a label cell is either a number or a text.
- Duplicate column names are not modelled: pandas returns a DataFrame for `table["labels"]` when the name repeats, while Tables.Lookup returns the first such column.
- Electronic.BandStructurePlot: requires every column to have one entry per index row, which a DataFrame guarantees and the tick positions rely on.
- Electronic.DosPlot: returns the axes it used only as ghost outputs, so that the contract can name them; `dos_plot` itself returns nothing.
- Electronic.BandStructurePlot: returns the axes it created only as ghost outputs, for the same reason.
- Electronic.DrawDosColumns: carries `last_element`, `count` and `color` bundled in one Styling.Scan value, and the body of the source loop is split into ScanColumn and StyleColumn; the order of effects is the source's.
- Orientation: every orientation other than "horizontal" is treated as vertical, as the source's `else` branch does; no other values are distinguished.
- Strings are sequences of characters; Python's Unicode handling of `in` and `split` is not modelled beyond the exact characters ↑ (U+2191) and ↓ (U+2193).
