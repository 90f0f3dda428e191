/**
  The program emitter (`SrcGenerator`): an append-only text buffer standing for
  the open `.src` file, the stored home pose, and an Open/Closed flag. The
  constructor writes the preamble; every statement writer appends exactly its
  rendered text; `close` appends the footer and closes the stream, after which
  every write fails as writing to a closed Python file does.
 */
module SrcGenerator {
  import opened Wrappers
  import opened Decimal
  import opened Text
  import opened Points
  import opened Krl

  /** One call of a statement writer, with its arguments. */
  datatype Statement =
    | Lin(p: CartesianPoint)
    | Ptp(p: CartesianPoint, useLinSmoothing: bool)
    | Joint(j: JointPoint)
    | Slin(p: CartesianPoint)
    | Sptp(p: CartesianPoint, useLinSmoothing: bool)
    | Spline(points: seq<CartesianPoint>)
    | Home
    | BaseByPosition(frame: Position)
    | ToolByPosition(frame: Position)
    | BaseById(id: int)
    | ToolById(id: int)
    | Vorfraesen
    | Delay(seconds: int)
    | DigitalOut(id: int, value: string)
    | AnalogOut(id: int, level: int)
    | LinSpeed(speed: int)
    | JointSpeed(percent: int)
    | LinSmooth(distance: int)
    | JointSmooth(values: Option<seq<int>>)
    | Bas(varName: string, varValue: int)
    | FreeKrl(content: string)

  /**
    A statement that writes whole lines: anything but free text, with no newline
    hidden in the strings passed through unchanged.
   */
  predicate Structured(st: Statement) {
    match st
    case FreeKrl(_) => false
    case DigitalOut(_, value) => NoNewline(value)
    case Bas(varName, _) => NoNewline(varName)
    case _ => true
  }

  /** The lines a templated statement writes, in order; `home` serves `Home`. */
  function StatementLines(home: JointPoint, st: Statement): (ls: seq<string>)
    requires !st.FreeKrl?
  {
    match st
    case Lin(p) => [LinLine(p)]
    case Ptp(p, useLinSmoothing) => [PtpLine(p, useLinSmoothing)]
    case Joint(j) => [JointLine(j)]
    case Slin(p) => [SlinLine(p)]
    case Sptp(p, useLinSmoothing) => [SptpLine(p, useLinSmoothing)]
    case Spline(points) => SplineLines(points)
    case Home => HomeLines(home)
    case BaseByPosition(f) => [BaseFrameLine(f)]
    case ToolByPosition(f) => [ToolFrameLine(f)]
    case BaseById(id) => [BaseIdLine(id)]
    case ToolById(id) => [ToolIdLine(id)]
    case Vorfraesen => [VorfraesenLine]
    case Delay(t) => [DelayLine(t)]
    case DigitalOut(id, value) => [DigitalOutLine(id, value)]
    case AnalogOut(id, level) => [AnalogOutLine(id, level)]
    case LinSpeed(speed) => [LinSpeedLine(speed)]
    case JointSpeed(percent) => [JointSpeedLine(percent)]
    case LinSmooth(distance) => [LinSmoothLine(distance)]
    case JointSmooth(values) => JointSmoothLines(values)
    case Bas(varName, varValue) => [SetBasLine(varName, varValue)]
  }

  /** The text one statement appends: free text verbatim, anything else its lines. */
  function Render(home: JointPoint, st: Statement): (text: string)
    ensures st.FreeKrl? ==> text == st.content
    ensures Structured(st) ==> Lines(text) == StatementLines(home, st)
    ensures Structured(st) && StatementLines(home, st) != [] ==> EndsWith(text, "\n")
    ensures st.DigitalOut? ==> text == DigitalOutLine(st.id, st.value) + "\n"
    ensures st.Bas? ==> text == SetBasLine(st.varName, st.varValue) + "\n"
  {
    if st.FreeKrl? then st.content
    else
      StatementTextSplits(home, st);
      JoinEndsWithNewline(StatementLines(home, st));
      FreeTextLine(home, st);
      JoinLines(StatementLines(home, st))
  }

  /**
    `setDOut` and `setBAS` write their one line and a newline whatever the value
    or name holds, an embedded newline included.
   */
  lemma FreeTextLine(home: JointPoint, st: Statement)
    ensures st.DigitalOut? ==> JoinLines(StatementLines(home, st)) == DigitalOutLine(st.id, st.value) + "\n"
    ensures st.Bas? ==> JoinLines(StatementLines(home, st)) == SetBasLine(st.varName, st.varValue) + "\n"
  {
    match st
    case DigitalOut(id, value) => JoinOne(DigitalOutLine(id, value));
    case Bas(varName, varValue) => JoinOne(SetBasLine(varName, varValue));
    case _ =>
  }

  lemma StatementTextSplits(home: JointPoint, st: Statement)
    requires !st.FreeKrl?
    ensures Structured(st) ==> Lines(JoinLines(StatementLines(home, st))) == StatementLines(home, st)
  {
    if Structured(st) {
      StatementSingleLines(home, st);
      LinesOfJoin(StatementLines(home, st));
    }
  }

  lemma OneLine(line: string)
    requires NoNewline(line)
    ensures AllNoNewline([line])
  {
  }

  /** A structured statement writes lines with no newline inside them. */
  lemma StatementSingleLines(home: JointPoint, st: Statement)
    requires Structured(st)
    ensures AllNoNewline(StatementLines(home, st))
  {
    if st.Lin? || st.Ptp? || st.Joint? || st.Slin? || st.Sptp? || st.Spline? || st.Home? {
      MotionStatementSingleLines(home, st);
    } else if st.BaseByPosition? || st.ToolByPosition? || st.BaseById? || st.ToolById? || st.Vorfraesen? {
      FrameStatementSingleLines(home, st);
    } else {
      SettingStatementSingleLines(home, st);
    }
  }

  lemma MotionStatementSingleLines(home: JointPoint, st: Statement)
    requires st.Lin? || st.Ptp? || st.Joint? || st.Slin? || st.Sptp? || st.Spline? || st.Home?
    ensures AllNoNewline(StatementLines(home, st))
  {
    match st
    case Lin(p) => OneLine(LinLine(p));
    case Ptp(p, useLinSmoothing) => OneLine(PtpLine(p, useLinSmoothing));
    case Joint(j) => OneLine(JointLine(j));
    case Slin(p) => OneLine(SlinLine(p));
    case Sptp(p, useLinSmoothing) => OneLine(SptpLine(p, useLinSmoothing));
    case Spline(points) =>
    case Home =>
  }

  lemma FrameStatementSingleLines(home: JointPoint, st: Statement)
    requires st.BaseByPosition? || st.ToolByPosition? || st.BaseById? || st.ToolById? || st.Vorfraesen?
    ensures AllNoNewline(StatementLines(home, st))
  {
    match st
    case BaseByPosition(f) => OneLine(BaseFrameLine(f));
    case ToolByPosition(f) => OneLine(ToolFrameLine(f));
    case BaseById(id) => OneLine(BaseIdLine(id));
    case ToolById(id) => OneLine(ToolIdLine(id));
    case Vorfraesen => OneLine(VorfraesenLine);
  }

  lemma SettingStatementSingleLines(home: JointPoint, st: Statement)
    requires Structured(st)
    requires st.Delay? || st.DigitalOut? || st.AnalogOut? || st.LinSpeed? || st.JointSpeed?
             || st.LinSmooth? || st.JointSmooth? || st.Bas?
    ensures AllNoNewline(StatementLines(home, st))
  {
    match st
    case Delay(t) => OneLine(DelayLine(t));
    case DigitalOut(id, value) => OneLine(DigitalOutLine(id, value));
    case AnalogOut(id, level) => OneLine(AnalogOutLine(id, level));
    case LinSpeed(speed) => OneLine(LinSpeedLine(speed));
    case JointSpeed(percent) => OneLine(JointSpeedLine(percent));
    case LinSmooth(distance) => OneLine(LinSmoothLine(distance));
    case JointSmooth(values) =>
    case Bas(varName, varValue) => OneLine(SetBasLine(varName, varValue));
  }

  /** `vorfraesen` appends exactly the fixed call `Vorfraesen()` and a newline: one line. */
  lemma VorfraesenText(home: JointPoint)
    ensures Render(home, Vorfraesen) == "Vorfraesen()\n"
    ensures Lines(Render(home, Vorfraesen)) == ["Vorfraesen()"]
  {
    assert JoinLines([VorfraesenLine]) == VorfraesenLine + "\n" + JoinLines([]);
  }

  /** The text a sequence of statements appends, in call order. */
  function RenderAll(home: JointPoint, sts: seq<Statement>): string
    decreases |sts|
  {
    if sts == [] then "" else Render(home, sts[0]) + RenderAll(home, sts[1..])
  }

  /** The lines of a sequence of templated statements, in call order. */
  function AllStatementLines(home: JointPoint, sts: seq<Statement>): seq<string>
    requires forall i :: 0 <= i < |sts| ==> Structured(sts[i])
    decreases |sts|
  {
    if sts == [] then []
    else
      assert Structured(sts[0]);
      StatementLines(home, sts[0]) + AllStatementLines(home, sts[1..])
  }

  /** Writing to a stream that `close` has already closed. */
  datatype EmitError = StreamClosed

  /** The emitter: program name, home pose, the file's text so far, and whether the file is open. */
  datatype Generator = Generator(name: string, home: JointPoint, text: string, open: bool)

  /** The constructor: an open emitter whose file holds exactly the preamble. */
  function New(name: string, advance: int, home: JointPoint): (g: Generator)
    ensures g.open && g.name == name && g.home == home
    ensures NoNewline(name) ==> Lines(g.text) == PreambleLines(name, advance, home)
  {
    PreambleTextSplits(name, advance, home);
    Generator(name, home, JoinLines(PreambleLines(name, advance, home)), true)
  }

  /** The constructor's default look-ahead. */
  const DefaultAdvance: int := 3

  /** The constructor called with only a program name: look-ahead 3 and the default home pose. */
  function NewDefault(name: string): (g: Generator)
    ensures g.open && g.name == name && g.home == DefaultHome
    ensures NoNewline(name) ==> PreambleShaped(name, 3, DefaultHome, Lines(g.text))
    ensures NoNewline(name) ==> ParseHomePtp(Lines(g.text)[20]) == Some(JointPoint(0, -90, 90, 0, 90, 0, 0, 0, 0, 0))
  {
    PreambleShape(name, DefaultAdvance, DefaultHome);
    New(name, DefaultAdvance, DefaultHome)
  }

  lemma PreambleTextSplits(name: string, advance: int, home: JointPoint)
    ensures NoNewline(name) ==>
              Lines(JoinLines(PreambleLines(name, advance, home))) == PreambleLines(name, advance, home)
  {
    if NoNewline(name) {
      PreambleSingleLines(name, advance, home);
      LinesOfJoin(PreambleLines(name, advance, home));
    }
  }

  /**
    One statement writer. On an open emitter it keeps every character written so
    far and appends exactly the statement's text; on a closed one it fails.
   */
  function Emit(g: Generator, st: Statement): (r: Result<Generator, EmitError>)
    ensures r.Success? <==> g.open
    ensures r.Failure? ==> r.error == StreamClosed
    ensures r.Success? ==>
              && r.value.open && r.value.name == g.name && r.value.home == g.home
              && StartsWith(r.value.text, g.text)
              && r.value.text[|g.text|..] == Render(g.home, st)
  {
    if !g.open then Failure(StreamClosed)
    else Success(g.(text := g.text + Render(g.home, st)))
  }

  /**
    `close`: on an open emitter appends a blank line and `END` and closes the
    stream; a second close fails like any other write.
   */
  function Close(g: Generator): (r: Result<Generator, EmitError>)
    ensures r.Success? <==> g.open
    ensures r.Failure? ==> r.error == StreamClosed
    ensures r.Success? ==>
              && !r.value.open && r.value.name == g.name && r.value.home == g.home
              && StartsWith(r.value.text, g.text)
              && r.value.text[|g.text|..] == "\nEND\n"
  {
    if !g.open then Failure(StreamClosed)
    else Success(g.(text := g.text + JoinLines(FooterLines), open := false))
  }

  /** Issues the statements in order, stopping at the first failure. */
  function Run(g: Generator, sts: seq<Statement>): Result<Generator, EmitError>
    decreases |sts|
  {
    if sts == [] then Success(g)
    else
      match Emit(g, sts[0])
      case Failure(e) => Failure(e)
      case Success(g') => Run(g', sts[1..])
  }

  /** A whole program: construct, issue the statements, close. */
  function Program(name: string, advance: int, home: JointPoint, sts: seq<Statement>): Result<Generator, EmitError> {
    match Run(New(name, advance, home), sts)
    case Failure(e) => Failure(e)
    case Success(g) => Close(g)
  }

  // ---------------------------------------------------------------------------
  // Properties

  /**
    The constructor's file, read back line by line: the directives, `DEF` with the
    upper-cased name and two blank lines, the initialisation block, the home
    move, `;ENDFOLD`, and the `$ADVANCE` setting.
   */
  lemma ConstructorLayout(name: string, advance: int, home: JointPoint)
    requires NoNewline(name)
    ensures PreambleShaped(name, advance, home, Lines(New(name, advance, home).text))
  {
    PreambleShape(name, advance, home);
  }

  /** After `close`, every statement writer and a second `close` fail, so the footer stays last. */
  lemma NothingAfterClose(g: Generator, st: Statement)
    requires g.open
    ensures Close(g).Success?
    ensures Emit(Close(g).value, st) == Failure(StreamClosed)
    ensures Close(Close(g).value) == Failure(StreamClosed)
  {
  }

  /** A closed emitter rejects any non-empty sequence of statements at the first one. */
  lemma RunOnClosedFails(g: Generator, sts: seq<Statement>)
    requires !g.open && sts != []
    ensures Run(g, sts) == Failure(StreamClosed)
  {
  }

  /** A run that succeeds keeps everything written before it. */
  lemma RunKeepsPrefix(g: Generator, sts: seq<Statement>)
    requires g.open
    ensures Run(g, sts).Success?
    ensures StartsWith(Run(g, sts).value.text, g.text)
    ensures Run(g, sts).value.open
  {
    RunInCallOrder(g, sts);
    var t := g.text + RenderAll(g.home, sts);
    assert t[..|g.text|] == g.text;
  }

  /** On an open emitter the statements' texts are appended in call order and nothing else changes. */
  lemma {:induction false} RunInCallOrder(g: Generator, sts: seq<Statement>)
    requires g.open
    ensures Run(g, sts) == Success(g.(text := g.text + RenderAll(g.home, sts)))
    decreases |sts|
  {
    if sts != [] {
      var first := Render(g.home, sts[0]);
      var g' := g.(text := g.text + first);
      assert Emit(g, sts[0]) == Success(g');
      assert Run(g, sts) == Run(g', sts[1..]);
      RunInCallOrder(g', sts[1..]);
      assert RenderAll(g.home, sts) == first + RenderAll(g.home, sts[1..]);
      AppendAssoc(g.text, first, RenderAll(g.home, sts[1..]));
    } else {
      assert g.text + "" == g.text;
    }
  }

  lemma {:induction false} RenderAllIsJoin(home: JointPoint, sts: seq<Statement>)
    requires forall i :: 0 <= i < |sts| ==> Structured(sts[i])
    ensures RenderAll(home, sts) == JoinLines(AllStatementLines(home, sts))
    ensures AllNoNewline(AllStatementLines(home, sts))
    decreases |sts|
  {
    if sts != [] {
      var first := StatementLines(home, sts[0]);
      var rest := AllStatementLines(home, sts[1..]);
      assert AllStatementLines(home, sts) == first + rest;
      assert Render(home, sts[0]) == JoinLines(first);
      assert RenderAll(home, sts) == JoinLines(first) + RenderAll(home, sts[1..]);
      RenderAllIsJoin(home, sts[1..]);
      StatementSingleLines(home, sts[0]);
      JoinLinesAppend(first, rest);
      AllNoNewlineAppend(first, rest);
    }
  }

  /** The text of a whole program of templated statements, as lines. */
  lemma ProgramText(name: string, advance: int, home: JointPoint, sts: seq<Statement>)
    requires forall i :: 0 <= i < |sts| ==> Structured(sts[i])
    ensures Program(name, advance, home, sts) == Success(Generator(name, home,
              JoinLines(PreambleLines(name, advance, home) + AllStatementLines(home, sts) + FooterLines), false))
  {
    var pre := PreambleLines(name, advance, home);
    var body := AllStatementLines(home, sts);
    var g := New(name, advance, home);
    RunInCallOrder(g, sts);
    RenderAllIsJoin(home, sts);
    JoinLinesAppend(pre, body);
    JoinLinesAppend(pre + body, FooterLines);
  }

  /**
    A program of templated statements reads back, line by line, as the preamble,
    then every statement's lines in call order, then the blank line and `END`.
   */
  lemma ProgramLayout(name: string, advance: int, home: JointPoint, sts: seq<Statement>)
    requires NoNewline(name)
    requires forall i :: 0 <= i < |sts| ==> Structured(sts[i])
    ensures Program(name, advance, home, sts).Success?
    ensures Lines(Program(name, advance, home, sts).value.text)
              == PreambleLines(name, advance, home) + AllStatementLines(home, sts) + FooterLines
  {
    var pre := PreambleLines(name, advance, home);
    var body := AllStatementLines(home, sts);
    ProgramText(name, advance, home, sts);
    RenderAllIsJoin(home, sts);
    PreambleSingleLines(name, advance, home);
    FooterSingleLines();
    LinesOfJoinParts(pre, body, FooterLines);
  }
}
