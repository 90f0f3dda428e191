# KUKA KRL program emitter, modelled in Dafny

This project models `SrcGenerator` from `postProc_kuka.py`. It is the emitter
a path-planning script uses to write a KUKA Robot Language program (`.src`
file) one statement at a time. It also models the three value records the
emitter formats: `CartesianPoint`, `JointPoint` and `Position`.

The model is pure and functional:

- The open file is a `Generator`: the program name, the stored home pose, the
  text written so far and an Open/Closed flag.
- The constructor (`New`) writes the preamble.
- Each of the 21 statement writers is a `Statement` constructor.
  `Emit` appends that statement's rendered text.
- `Close` appends the footer `\nEND\n` and closes the stream.
  Any later write returns `Failure(StreamClosed)`, just as writing to a closed
  Python file raises.

The rendered lines are specified through readers, not by repeating the
templates:

- Every templated writer that takes arguments (all but `writeFreeKRL`) has a
  reader for its line in the model. The readers share the writers' field-name
  tables and keyword leads. They read a motion keyword with a brace list and a
  smoothing token, a frame assignment, a wrapped number, an indexed
  assignment, a `BAS(...)` call, or a `DEF` line.
- Each such writer's contract states that reading its line gives back exactly
  the arguments it was called with.
- The number reader accepts only the spelling Python's `str` writes: no
  leading zeros and no `-0`. A number therefore has exactly one spelling.
  `Krl.WrappedCanonical` shows what this buys: the only line that reads back
  as a value is the line written for it.
- `vorfraesen` takes no arguments. Its text is pinned as the fixed line
  `Vorfraesen()`.
- `writeFreeKRL` appends its content verbatim.
- `homeMotion` writes the home PTP line with no approximation token, then
  `;ENDFOLD` and a blank line (postProc_kuka.py:218-222), and the model writes
  exactly that.
- The program-level lemmas read the whole file back with `Lines`:
  - the preamble has a fixed 25-line layout;
  - statements appear in call order;
  - the program has exactly one `DEF` line (the fifth) and exactly one `END`
    line (the last).

Modules:

- `Wrappers`: `Option` and `Result`.
- `Decimal`: Python's `str()` of an integer, and its parser.
- `Text`: lines, joins, prefixes and ASCII upper-casing.
- `Points`: the three records and their field orders.
- `Fields`: `NAME value, ...` brace-list bodies.
- `Krl`: one function per writer's line template, the preamble and the footer.
- `SrcGenerator`: the emitter state and its operations.
- `Framing`: the one-`DEF`/one-`END` property of whole programs.

## Model

| member | source | states |
|---|---|---|
| Points.CartesianValues | postProc_kuka.py:3-31 | A Cartesian point's ten slots, listed in the order X, Y, Z, A, B, C, E1..E4, rebuild the same point. |
| Points.JointValues | postProc_kuka.py:33-61 | A joint point's ten slots, listed in the order A1..A6, E1..E4, rebuild the same point. |
| Points.PositionValues | postProc_kuka.py:63-83 | A position's six slots, listed in the order X, Y, Z, A, B, C, rebuild the same position. |
| Points.DefaultsAreZero | postProc_kuka.py:3-83 | Every slot of a `CartesianPoint()`, `JointPoint()` or `Position()` built with no arguments is written as the text `0`. |
| Decimal.NatToString | postProc_kuka.py:141-144 | A natural number is written as digits only, with no leading zero. Zero is written exactly as `0`, as Python's `str` does. |
| Decimal.ParseIntRoundTrip | postProc_kuka.py:141-144 | Reading back the decimal text of any integer, including negatives, gives the same integer. |
| Decimal.ParseIntCanonical | postProc_kuka.py:141-144 | Any text the number reader accepts is exactly what `str` writes for the number it reads. |
| Decimal.IntToStringInjective | postProc_kuka.py:141-144 | Different integers are written as different texts. |
| Text.ToUpper | postProc_kuka.py:110 | Upper-casing keeps the length, maps each ASCII lower-case letter to its capital and leaves every other character alone. |
| Text.LinesOfJoin | postProc_kuka.py:105-110 | Writing newline-free lines, each followed by `\n`, and then splitting the text at newlines gives back the same lines. |
| Fields.ParseRenderFields | postProc_kuka.py:141-144 | A brace-list body `N1 v1, N2 v2, ...` parses back to exactly its values, given the names. |
| Krl.LinLine | postProc_kuka.py:136-145 | `linMotion` writes one line that reads back as `LIN`, the same point and `C_DIS`. |
| Krl.PtpLine | postProc_kuka.py:147-158 | `ptpMotion` writes one line that reads back as `PTP` and the same point. The token is `C_DIS` exactly when `useLinSmoothing` holds, otherwise `C_PTP`. |
| Krl.JointLine | postProc_kuka.py:160-169 | `jointMotion` writes one line that reads back as `PTP`, the same joint values (A1..A6, E1..E4) and `C_PTP`. |
| Krl.SlinLine | postProc_kuka.py:171-181 | `slinMotion` writes one line that reads back as `SLIN`, the same point and `C_DIS`. |
| Krl.SptpLine | postProc_kuka.py:183-195 | `sptpMotion` writes one line that reads back as `SPTP` and the same point. The token is `C_DIS` exactly when `useLinSmoothing` holds, otherwise `C_PTP`. |
| Krl.SplineLines | postProc_kuka.py:197-210 | `splineMotion` over n points writes n + 2 lines. The first is `SPLINE` and the last is `ENDSPLINE`. Line i + 1 reads back as point i with `C_DIS`, in list order. |
| Krl.HomeLines | postProc_kuka.py:212-222 | `homeMotion` writes three lines: a PTP line that reads back as the stored home pose, then `;ENDFOLD`, then a blank line. |
| Krl.BaseFrameLine | postProc_kuka.py:224-232 | `setBaseByPosition` writes one line that reads back as a `$BASE` frame assignment with the same six values. |
| Krl.ToolFrameLine | postProc_kuka.py:234-242 | `setToolByPosition` writes one line that reads back as a `$TOOL` frame assignment with the same six values. |
| Krl.BaseIdLine | postProc_kuka.py:244-250 | `setBaseByID` writes one line that reads back as `BAS(#BASE, id)` with the same id. |
| Krl.ToolIdLine | postProc_kuka.py:252-258 | `setToolByID` writes one line that reads back as `BAS(#TOOL, id)` with the same id. |
| SrcGenerator.VorfraesenText | postProc_kuka.py:260-265 | `vorfraesen` appends exactly the fixed text `Vorfraesen()` and a newline, which reads back as that one line. |
| Krl.WrappedCanonical | postProc_kuka.py:244-315 | A line that reads back as a wrapped number (`BAS(#BASE, id)`, `WAIT SEC t`, `$APO.CDIS = val` and the like) is, character for character, the line written for that number. |
| Krl.DelayLine | postProc_kuka.py:267-273 | `delay` writes one line that reads back as `WAIT SEC t` with the same t. |
| Krl.DigitalOutLine | postProc_kuka.py:275-282 | `setDOut` writes a line that reads back as `$OUT[id] = value`, with the value text exactly as given. The line is a single line whenever the value has no newline. |
| Krl.AnalogOutLine | postProc_kuka.py:284-291 | `setAOut` writes one line that reads back as `$ANOUT[id] = value` with the same id and value. |
| Krl.LinSpeedLine | postProc_kuka.py:293-299 | `setLinSpeed` writes one line that reads back as `BAS(#VEL_CP, speed)` with the same speed. |
| Krl.JointSpeedLine | postProc_kuka.py:301-307 | `setJointSpeed` writes one line that reads back as `BAS(#VEL_PTP, speed)` with the same speed. |
| Krl.LinSmoothLine | postProc_kuka.py:309-315 | `setLinSmooth` writes one line that reads back as `$APO.CDIS = val` with the same value. |
| Krl.JointSmoothLines | postProc_kuka.py:317-327 | `setJointSmooth` writes one line per value, where line i reads back as `$APO_DIS_PTP[i + 1] = vals[i]`. With no list it writes twelve lines, each assigning 0. |
| Krl.SetBasLine | postProc_kuka.py:329-336 | `setBAS` writes a line that reads back as the same variable name and value. The line is a single line whenever the name has no newline. |
| Krl.BasShorthands | postProc_kuka.py:244-258 | `setBAS` with `#BASE`, `#TOOL`, `#VEL_CP` or `#VEL_PTP` writes the same line as `setBaseByID`, `setToolByID`, `setLinSpeed` or `setJointSpeed`, respectively. |
| Krl.DefRoundTrip | postProc_kuka.py:110 | The definition line reads back as the upper-cased program name. The line starts with `DEF ` and is not `END`. |
| Krl.PreambleShape | postProc_kuka.py:105-134 | The preamble is 25 lines: the four directives; `DEF NAME ( )` and two blank lines; the 13-line INI/STARTPOSITION block; the home PTP; `;ENDFOLD`; a blank line; `$ADVANCE = ADV`; and a blank line. |
| SrcGenerator.Render | postProc_kuka.py:136-344 | `writeFreeKRL` appends its content verbatim. `setDOut` and `setBAS` append exactly their one line and a newline, for any value or name, even one that holds a newline. Any other statement, and these two when the value or name has no newline, appends text that splits back into exactly that statement's lines. When it writes at least one line, that text ends with a newline, so the next write starts a fresh line. |
| SrcGenerator.New | postProc_kuka.py:93-134 | The constructor returns an open emitter holding the name and home pose. When the program name has no newline, its file splits into exactly the preamble lines. |
| SrcGenerator.NewDefault | postProc_kuka.py:93 | With only a name, the emitter keeps the default home pose. When the name has no newline, the preamble has look-ahead 3 and its home PTP line reads back as A2 = -90, A3 = 90, A5 = 90 and zeros elsewhere. |
| SrcGenerator.ConstructorLayout | postProc_kuka.py:105-134 | The constructor's file, split into lines, has the 25-line preamble layout for its name, look-ahead and home pose. |
| SrcGenerator.Emit | postProc_kuka.py:136-344 | A write succeeds exactly when the stream is open. On success it keeps all earlier text, appends exactly the statement's text and changes nothing else. On a closed stream it fails with `StreamClosed`. |
| SrcGenerator.Close | postProc_kuka.py:346-352 | `close` succeeds exactly when the stream is open. It appends exactly `\nEND\n` and leaves the stream closed. |
| SrcGenerator.NothingAfterClose | postProc_kuka.py:346-352 | After `close`, every write and a second `close` fail, so `END` stays the last text. |
| SrcGenerator.RunOnClosedFails | postProc_kuka.py:346-352 | A closed emitter rejects any non-empty sequence of writes. |
| SrcGenerator.RunInCallOrder | postProc_kuka.py:136-344 | On an open emitter, a sequence of writes appends the statements' texts in call order and changes nothing else. |
| SrcGenerator.RunKeepsPrefix | postProc_kuka.py:136-344 | Writes never alter text already in the file, and the emitter stays open. |
| SrcGenerator.RenderAllIsJoin | postProc_kuka.py:136-336 | The text of a sequence of templated statements is the join of their lines, in call order. |
| SrcGenerator.ProgramText | postProc_kuka.py:93-352 | Constructing, writing and closing gives a closed emitter whose text is the preamble, the statement lines and the footer, joined. |
| SrcGenerator.ProgramLayout | postProc_kuka.py:93-352 | A whole program splits into the preamble lines, then each statement's lines in call order, then a blank line and `END`. |
| Framing.StatementOrdinary | postProc_kuka.py:136-336 | No templated writer produces a line that starts with `DEF ` or equals `END`, given no newline in a `setDOut` value or a `setBAS` name. An embedded newline can start such a line: `setDOut(0, "\nEND")` writes an `END` line. |
| Framing.AllStatementsOrdinary | postProc_kuka.py:136-336 | The same holds for any sequence of templated statements. |
| Framing.FramingOnce | postProc_kuka.py:105-110 | A program of templated statements has exactly one line starting with `DEF `, the fifth. It has exactly one `END` line, the last. |

## Left out

- File I/O is not modelled. This covers opening the file at `os.path.join(loc, fName + '.src')`, the `loc` argument, and flushing and closing the OS file.
- The `text` field is the string handed to `write()`, not the file's bytes. The file is opened in text mode, so each `\n` becomes the platform's line separator (CRLF on Windows), and the text is encoded with the locale's default encoding. Neither translation is modelled.
- All numbers are integers. Python's `str()` of floats is not modelled, so the float defaults `setLinSpeed(0.25)` and `setAOut(value=0.0)` are not represented; a caller passes integers instead.
- Krl.JointSmoothLines: Python's default list `[0] * 12` is modelled as the value `None`. The model has no values of other types; the source would format any Python object.
- Python default argument values are not modelled as separate entry points: a `Statement` always carries its arguments. The caller spells out a default itself, for example `setDOut`'s `'FALSE'`, `setJointSpeed`'s `30` or `writeFreeKRL`'s empty text. The zero-valued default records are covered by `Points.DefaultsAreZero`, and the default home pose by `SrcGenerator.NewDefault`.
- SrcGenerator.New: states the preamble's lines only for a program name without a newline. For a name holding a newline, the source writes the same text, but the `DEF` line is split; the contract says only that the emitter is open and holds the name and home pose.
- SrcGenerator.NewDefault: the look-ahead and home-line clauses hold only for a program name without a newline, for the reason given under `SrcGenerator.New`.
- Text.ToUpper: upper-cases ASCII letters only. Python's `str.upper` also maps non-ASCII letters and can change the length (for example `ß` becomes `SS`).
- The mutable default arguments (`homePos=JointPoint(...)`, `p=CartesianPoint()`) are shared between calls in Python. Every record here is immutable, so that sharing cannot be observed.
- The constructor keeps a reference to the caller's `homePos` object, and `homeMotion` reads its fields only when called. In Python, a caller that changes that `JointPoint` after construction changes the later home lines. The model copies the pose once, at construction, so later home lines always use the pose given then.
- The line-level lemmas require every statement to be `Structured`:
  - not `writeFreeKRL`;
  - no newline inside a `setDOut` value, a `setBAS` name or the program name.
  
  Free text and embedded newlines are still modelled at the text level (`Render`, `Emit`, `RunInCallOrder`).
- The controller-side meaning of the KRL program is out of scope: motion, interrupts and folds.
- `close` on an already closed stream: Python's `write` raises `ValueError`. The model returns `Failure(StreamClosed)` rather than an exception.
