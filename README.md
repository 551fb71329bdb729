# CNC job generator: stock, operations and toolpath write-back

This project models the self-contained logic of `generator.py`, a script that
drives a CAD kernel's CAM workbench to turn a surface model into G-code. Three
pieces of it are modelled:

- **Stock derivation** (`create_stock`). The stock block is the model's
  axis-aligned bounding box grown by a margin on every side. The default margin
  is 5.0. The block is placed at the lower corner, and its length, width and
  height are the distances between the grown corners. Module `Stock`,
  file `stock.dfy`.
- **Best-effort parameter application** (`create_operation`). A fresh operation
  gets its `Label` and `Tool`. Then every entry of the parameter dictionary is
  tried in order. A refused assignment is reported and skipped. It does not stop
  the later entries, and the operation is returned in every case. Module
  `Parameters` (file `parameters.dfy`) holds the specification and its lemmas.
  Module `Jobs` (file `jobs.dfy`) holds the `Operation` class and the
  `CreateOperation` loop.
- **Toolpath write-back** (`generate_toolpath`). The operation's path is built
  and stored in the job's single `Toolpath` field, replacing what was there.
  It is not appended. Module `Jobs`.

Coordinates are exact `real`s. The CAD kernel's decisions are parameters of
the model:

- whether an attribute accepts a value (`accepts`);
- an operation kind's default attributes (`defaultsOf`);
- the path planner (`buildPath`).

The printed "Could not set parameter" messages are modelled as the `rejected`
out-parameter of `CreateOperation`: the names of the refused entries, in order.

The parameter dictionary is a sequence of (name, value) entries in iteration
order. The model allows a name to repeat: the last accepted entry for a name
wins. `ApplyAllDistinct` states the dictionary case, where names are distinct.

`Label` and `Tool` are attributes in the same map as the parameters. So a
parameter named `Label` or `Tool` that is accepted overwrites them afterwards,
as `setattr` would.

## Model

| member | source | states |
|---|---|---|
| `Stock.CreateStock` | generator.py:19-41 | origin is the bbox minimum corner minus `margin` on x, y, z; length, width, height are each axis extent plus `2*margin`; every face lies `margin` outside the bbox face; `margin` defaults to 5.0 |
| `Stock.EnclosesIffMarginNonNegative` | generator.py:27-32 | the stock encloses the bbox on every axis if and only if `margin >= 0` |
| `Stock.ZeroMarginCoincides` | generator.py:27-32 | with margin 0 the stock's region is exactly the bbox |
| `Stock.ShrinkCreateStock` | generator.py:27-39 | moving the stock's faces back inward by `margin` recovers the bbox (the stock loses no information) |
| `Stock.PositiveExtents` | generator.py:36-38 | for a well-formed bbox and a positive margin all three extents are positive |
| `Stock.DefaultMarginIsFive` | generator.py:19 | omitting the margin is the same as passing 5.0 |
| `Stock.ExampleStock` | generator.py:19-41 | bbox (0,0,0)-(100,50,20) with the default margin gives origin (-5,-5,-5) and extents (110,60,30) |
| `Parameters.ApplyAll` | generator.py:56-60 | after trying all entries, the attribute names are the old ones plus exactly the accepted names; every attribute not accepted keeps its value |
| `Parameters.Rejected` | generator.py:59-60 | a name is reported if and only if some entry with that name was refused; there are no more reports than entries |
| `Parameters.RejectedAppend` | generator.py:56-60 | the reports for two runs of entries, one after the other, are the first run's reports followed by the second's, so `rejected` keeps the source's order |
| `Parameters.ApplyAllLastAccepted` | generator.py:56-60 | an accepted entry that no later accepted entry of the same name overrides holds its value at the end, whatever was refused before or after it |
| `Parameters.ApplyAllDistinct` | generator.py:56-60 | with distinct names (a dictionary), every accepted entry holds its value at the end |
| `Parameters.RejectedEntryIsSkipped` | generator.py:56-60 | deleting a refused entry from anywhere in the list leaves the result unchanged, so it neither aborts nor affects later entries |
| `Parameters.AllRejected` | generator.py:56-60 | if every entry is refused, the attributes are unchanged and every name is reported, in order |
| `Jobs.Labelled` | generator.py:52-53 | `Label` holds the label and `Tool` holds the tool; other default attributes are kept |
| `Jobs.Operation.constructor` | generator.py:51 | a new operation of the requested kind, belonging to the job, with the kind's default attributes |
| `Jobs.CreateOperation` | generator.py:43-63 | returns a fresh operation of `opType` in `job`. Its attributes are the kind's defaults (`defaultsOf(opType)`) with Label and Tool set, then every parameter tried in order. Label and Tool hold the given values unless an accepted parameter names them. Untouched defaults are unchanged. Each last accepted parameter holds its value. `rejected` lists the refused names in order |
| `Jobs.GenerateToolpath` | generator.py:65-73 | returns the path built from the operation; afterwards the job's `Toolpath` equals that path, whatever it held before; nothing else changes |

## Left out

- `load_model` (generator.py:9-17): reading the STL file and creating the document are I/O. The bounding box is an input of `CreateStock` instead.
- `export_gcode` (generator.py:75-83): the post-processor belongs to the CAD kernel, and the function writes a file.
- `main` (generator.py:85-131): hard-coded paths and orchestration only.
- `op.buildPath()`: the path planner belongs to the CAD kernel. It is the parameter `buildPath`, a function of the operation's kind and attributes. The stock and model it also reads are fixed during a run. Exceptions it may raise are not modelled.
- `setattr`'s decision: the parameter `accepts`, a function of the attribute name and value. It does not depend on the operation's other attributes.
- `setattr`'s effect is fixed by the model, not left open: an accepted entry stores exactly the given value under its name and changes no other attribute, and a refused entry changes nothing (`Assign`). The frame clauses of `ApplyAll` and `CreateOperation` rest on this; property setters with side effects on other attributes are not modelled.
- `job.newOperation`: modelled as a fresh `Operation` holding `defaultsOf(opType)`, where `defaultsOf` is a parameter giving each operation kind's default attributes. Any bookkeeping it does inside the job, such as a list of operations, is not modelled.
- `PathJob.Create`: modelled by `Job`'s constructor. Its empty `Toolpath` is a placeholder that stands for nothing in the source: the job has no toolpath until `generate_toolpath` (generator.py:71) writes one.
- The assignments of `Label` and `Tool` (generator.py:52-53) are assumed to succeed, since the source does not guard them.
- `doc.recompute()`, `FreeCAD.ActiveDocument`, `FreeCADGui.updateGui()`: document and GUI refresh, no effect on the modelled state.
- The log text of `print` (generator.py:60): only the refused names are kept, in `rejected`; the label and the exception message are not.
- `create_stock` does not check the margin's sign, so `CreateStock` returns a box for any margin; `EnclosesIffMarginNonNegative` shows a negative margin gives a stock that does not enclose the model.
- `create_operation` does not check labels for duplicates, so the model has no such check.
- `generate_toolpath` overwrites `op.Job.Toolpath`; there is no job-wide toolpath that paths are appended to.
- The CAD kernel's handling of a zero or negative `Length`, `Width` or `Height` on the stock box (generator.py:36-38) is not modelled; `CreateStock` just computes the numbers.
- Floating-point rounding: coordinates are exact reals. Python's float arithmetic may not give exactly `extent + 2*margin`.
