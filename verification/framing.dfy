/**
  The framing of a generated program: one definition line, written by the
  constructor as the fifth line of the file, and one `END` line, written by
  `close` as the last. No templated statement writes a line that could be
  mistaken for either.
 */
module Framing {
  import opened Wrappers
  import opened Decimal
  import opened Text
  import opened Points
  import opened Krl
  import opened SrcGenerator

  /** A line that neither opens a program definition nor ends one. */
  predicate Ordinary(line: string) {
    !StartsWith(line, "DEF ") && line != "END"
  }

  predicate AllOrdinary(ls: seq<string>) {
    forall i :: 0 <= i < |ls| ==> Ordinary(ls[i])
  }

  /** A line whose first character is neither `D` nor `E` is ordinary. */
  lemma OrdinaryByLead(line: string, lead: string)
    requires StartsWith(line, lead) && |lead| > 0
    requires lead[0] != 'D' && lead[0] != 'E'
    ensures Ordinary(line)
  {
    assert line[0] == lead[0];
  }

  lemma AllOrdinaryAppend(a: seq<string>, b: seq<string>)
    requires AllOrdinary(a) && AllOrdinary(b)
    ensures AllOrdinary(a + b)
  {
  }

  lemma OneOrdinary(line: string)
    requires Ordinary(line)
    ensures AllOrdinary([line])
  {
  }

  lemma FixedLinesOrdinary()
    ensures Ordinary("") && Ordinary(";ENDFOLD") && Ordinary("SPLINE") && Ordinary("ENDSPLINE")
  {
    OrdinaryByLead(";ENDFOLD", ";");
    OrdinaryByLead("SPLINE", "S");
    assert "ENDSPLINE"[0] == 'E' && |"ENDSPLINE"| == 9;
  }

  lemma FoldEndOrdinary(first: string)
    requires Ordinary(first)
    ensures AllOrdinary([first, ";ENDFOLD", ""])
  {
    FixedLinesOrdinary();
  }

  // A line that one of the readers accepts is ordinary whenever the reader's
  // opening text starts with neither `D` nor `E`.

  lemma MotionLineOrdinary(lead: string, line: string)
    requires ParseCartesianMotion(lead, line).Some? || ParseJointMotion(lead, line).Some?
    requires |lead| > 0 && lead[0] != 'D' && lead[0] != 'E'
    ensures Ordinary(line)
  {
    if ParseCartesianMotion(lead, line).Some? {
      ParsedMotionStartsWithLead(lead, CartesianNames, line);
    } else {
      ParsedMotionStartsWithLead(lead, JointNames, line);
    }
    OrdinaryByLead(line, lead);
  }

  lemma FrameLineOrdinary(variable: string, line: string)
    requires ParseFrame(variable, line).Some?
    requires |variable| > 0 && variable[0] != 'D' && variable[0] != 'E'
    ensures Ordinary(line)
  {
    var open := variable + " = {FRAME: ";
    ParsedPoseStartsWithOpen(open, FrameNames, "}", line);
    assert open[0] == variable[0];
    OrdinaryByLead(line, open);
  }

  lemma WrappedLineOrdinary(open: string, close: string, line: string)
    requires ParseWrapped(open, close, line).Some?
    requires |open| > 0 && open[0] != 'D' && open[0] != 'E'
    ensures Ordinary(line)
  {
    ParsedWrappedStartsWithOpen(open, close, line);
    OrdinaryByLead(line, open);
  }

  lemma IndexedLineOrdinary(prefix: string, line: string)
    requires ParseIndexed(prefix, line).Some? || ParseIndexedInt(prefix, line).Some?
    requires |prefix| > 0 && prefix[0] != 'D' && prefix[0] != 'E'
    ensures Ordinary(line)
  {
    ParsedIndexedStartsWithPrefix(prefix, line);
    OrdinaryByLead(line, prefix);
  }

  lemma HomeOrdinary(home: JointPoint)
    ensures AllOrdinary(HomeLines(home))
  {
    var ls := HomeLines(home);
    ParsedPoseStartsWithOpen("PTP {", JointNames, "}", ls[0]);
    OrdinaryByLead(ls[0], "PTP {");
    FoldEndOrdinary(ls[0]);
    assert ls == [ls[0], ";ENDFOLD", ""];
  }

  lemma SplineOrdinary(points: seq<CartesianPoint>)
    ensures AllOrdinary(SplineLines(points))
  {
    var ls := SplineLines(points);
    FixedLinesOrdinary();
    forall i | 0 <= i < |ls|
      ensures Ordinary(ls[i])
    {
      if 0 < i < |ls| - 1 {
        assert ParseCartesianMotion("   ", ls[i]).Some?;
        MotionLineOrdinary("   ", ls[i]);
      }
    }
  }

  lemma JointSmoothOrdinary(values: Option<seq<int>>)
    ensures AllOrdinary(JointSmoothLines(values))
  {
    var ls := JointSmoothLines(values);
    forall i | 0 <= i < |ls|
      ensures Ordinary(ls[i])
    {
      IndexedLineOrdinary("$APO_DIS_PTP[", ls[i]);
    }
  }

  lemma BasOrdinary(varName: string, varValue: int)
    ensures Ordinary(SetBasLine(varName, varValue))
  {
    var line := SetBasLine(varName, varValue);
    assert StartsWith(line, "BAS(");
    OrdinaryByLead(line, "BAS(");
  }

  /** The motion writers' lines start with `LIN`, `PTP`, `SLIN`, `SPTP` or `SPLINE`. */
  lemma MotionOrdinary(home: JointPoint, st: Statement)
    requires st.Lin? || st.Ptp? || st.Joint? || st.Slin? || st.Sptp? || st.Spline? || st.Home?
    ensures AllOrdinary(StatementLines(home, st))
  {
    if st.Lin? || st.Ptp? || st.Joint? || st.Slin? {
      LinearMotionOrdinary(home, st);
    } else {
      SplineMotionOrdinary(home, st);
    }
  }

  /** `LIN`, `PTP` and `SLIN` lines start with their motion keyword. */
  lemma LinearMotionOrdinary(home: JointPoint, st: Statement)
    requires st.Lin? || st.Ptp? || st.Joint? || st.Slin?
    ensures AllOrdinary(StatementLines(home, st))
  {
    match st
    case Lin(p) => MotionLineOrdinary("LIN ", LinLine(p)); OneOrdinary(LinLine(p));
    case Ptp(p, u) => MotionLineOrdinary("PTP ", PtpLine(p, u)); OneOrdinary(PtpLine(p, u));
    case Joint(j) => MotionLineOrdinary("PTP ", JointLine(j)); OneOrdinary(JointLine(j));
    case Slin(p) => MotionLineOrdinary("SLIN ", SlinLine(p)); OneOrdinary(SlinLine(p));
  }

  /** `SPTP` lines, spline blocks and the home fold are made of ordinary lines. */
  lemma SplineMotionOrdinary(home: JointPoint, st: Statement)
    requires st.Sptp? || st.Spline? || st.Home?
    ensures AllOrdinary(StatementLines(home, st))
  {
    match st
    case Sptp(p, u) => MotionLineOrdinary("SPTP ", SptpLine(p, u)); OneOrdinary(SptpLine(p, u));
    case Spline(points) => SplineOrdinary(points);
    case Home => HomeOrdinary(home);
  }

  /** The frame and identifier writers' lines start with `$`, `BAS(` or `Vorfraesen`. */
  lemma FrameStatementOrdinary(home: JointPoint, st: Statement)
    requires st.BaseByPosition? || st.ToolByPosition? || st.BaseById? || st.ToolById? || st.Vorfraesen?
    ensures AllOrdinary(StatementLines(home, st))
  {
    if st.BaseByPosition? || st.ToolByPosition? {
      FramePoseOrdinary(home, st);
    } else {
      FrameIdOrdinary(home, st);
    }
  }

  /** Frame assignments start with `$BASE` or `$TOOL`. */
  lemma FramePoseOrdinary(home: JointPoint, st: Statement)
    requires st.BaseByPosition? || st.ToolByPosition?
    ensures AllOrdinary(StatementLines(home, st))
  {
    match st
    case BaseByPosition(f) => FrameLineOrdinary("$BASE", BaseFrameLine(f)); OneOrdinary(BaseFrameLine(f));
    case ToolByPosition(f) => FrameLineOrdinary("$TOOL", ToolFrameLine(f)); OneOrdinary(ToolFrameLine(f));
  }

  /** Frame selections by number start with `BAS(`; the milling call with `V`. */
  lemma FrameIdOrdinary(home: JointPoint, st: Statement)
    requires st.BaseById? || st.ToolById? || st.Vorfraesen?
    ensures AllOrdinary(StatementLines(home, st))
  {
    match st
    case BaseById(id) => WrappedLineOrdinary("BAS(#BASE, ", ")", BaseIdLine(id)); OneOrdinary(BaseIdLine(id));
    case ToolById(id) => WrappedLineOrdinary("BAS(#TOOL, ", ")", ToolIdLine(id)); OneOrdinary(ToolIdLine(id));
    case Vorfraesen => OrdinaryByLead(VorfraesenLine, "V"); OneOrdinary(VorfraesenLine);
  }

  /** The I/O and setting writers' lines start with `WAIT`, `$` or `BAS(`. */
  lemma SettingOrdinary(home: JointPoint, st: Statement)
    requires st.Delay? || st.DigitalOut? || st.AnalogOut? || st.LinSpeed? || st.JointSpeed? || st.LinSmooth?
    ensures AllOrdinary(StatementLines(home, st))
  {
    if st.Delay? || st.DigitalOut? || st.AnalogOut? {
      SignalOrdinary(home, st);
    } else {
      SpeedOrdinary(home, st);
    }
  }

  /** Waits and output assignments start with `WAIT`, `$OUT[` or `$ANOUT[`. */
  lemma SignalOrdinary(home: JointPoint, st: Statement)
    requires st.Delay? || st.DigitalOut? || st.AnalogOut?
    ensures AllOrdinary(StatementLines(home, st))
  {
    match st
    case Delay(t) => WrappedLineOrdinary("WAIT SEC ", "", DelayLine(t)); OneOrdinary(DelayLine(t));
    case DigitalOut(id, value) =>
      IndexedLineOrdinary("$OUT[", DigitalOutLine(id, value));
      OneOrdinary(DigitalOutLine(id, value));
    case AnalogOut(id, level) =>
      IndexedLineOrdinary("$ANOUT[", AnalogOutLine(id, level));
      OneOrdinary(AnalogOutLine(id, level));
  }

  /** Speed and smoothing settings start with `BAS(` or `$APO`. */
  lemma SpeedOrdinary(home: JointPoint, st: Statement)
    requires st.LinSpeed? || st.JointSpeed? || st.LinSmooth?
    ensures AllOrdinary(StatementLines(home, st))
  {
    match st
    case LinSpeed(speed) =>
      WrappedLineOrdinary("BAS(#VEL_CP, ", ")", LinSpeedLine(speed));
      OneOrdinary(LinSpeedLine(speed));
    case JointSpeed(percent) =>
      WrappedLineOrdinary("BAS(#VEL_PTP, ", ")", JointSpeedLine(percent));
      OneOrdinary(JointSpeedLine(percent));
    case LinSmooth(distance) =>
      WrappedLineOrdinary("$APO.CDIS = ", "", LinSmoothLine(distance));
      OneOrdinary(LinSmoothLine(distance));
  }

  /** No templated statement writes a definition line or an `END` line. */
  lemma StatementOrdinary(home: JointPoint, st: Statement)
    requires !st.FreeKrl?
    ensures AllOrdinary(StatementLines(home, st))
  {
    if st.Lin? || st.Ptp? || st.Joint? || st.Slin? || st.Sptp? || st.Spline? || st.Home? {
      MotionOrdinary(home, st);
    } else if st.BaseByPosition? || st.ToolByPosition? || st.BaseById? || st.ToolById? || st.Vorfraesen? {
      FrameStatementOrdinary(home, st);
    } else if st.Delay? || st.DigitalOut? || st.AnalogOut? || st.LinSpeed? || st.JointSpeed? || st.LinSmooth? {
      SettingOrdinary(home, st);
    } else {
      match st
      case JointSmooth(values) => JointSmoothOrdinary(values);
      case Bas(varName, varValue) =>
        BasOrdinary(varName, varValue);
        OneOrdinary(SetBasLine(varName, varValue));
    }
  }

  lemma {:induction false} AllStatementsOrdinary(home: JointPoint, sts: seq<Statement>)
    requires forall i :: 0 <= i < |sts| ==> Structured(sts[i])
    ensures AllOrdinary(AllStatementLines(home, sts))
    decreases |sts|
  {
    if sts != [] {
      assert Structured(sts[0]);
      StatementOrdinary(home, sts[0]);
      AllStatementsOrdinary(home, sts[1..]);
      AllOrdinaryAppend(StatementLines(home, sts[0]), AllStatementLines(home, sts[1..]));
    }
  }

  // ---------------------------------------------------------------------------
  // The preamble

  /** Apart from the definition line, the header holds `&` directives and blank lines. */
  lemma HeaderOrdinary(name: string)
    ensures forall i :: 0 <= i < 7 && i != 4 ==> Ordinary(HeaderLines(name)[i])
  {
    var h := HeaderLines(name);
    FixedLinesOrdinary();
    forall i | 0 <= i < 7 && i != 4
      ensures Ordinary(h[i])
    {
      if i < 4 {
        if i == 0 {} else if i == 1 {} else if i == 2 {} else {}
        OrdinaryByLead(h[i], "&");
      }
    }
  }

  lemma IniFoldOrdinary()
    ensures AllOrdinary(IniFoldLines)
  {
    var ls := IniFoldLines;
    FixedLinesOrdinary();
    forall i | 0 <= i < |ls|
      ensures Ordinary(ls[i])
    {
      if i == 0 || i == 1 || i == 5 || i == 6 {
        if i == 0 {} else if i == 1 {} else if i == 5 {} else {}
        OrdinaryByLead(ls[i], ";");
      } else if i == 2 {
        OrdinaryByLead(ls[i], "G");
      } else if i == 3 {
        OrdinaryByLead(ls[i], "I");
      } else if i == 4 {
        OrdinaryByLead(ls[i], "B");
      }
    }
  }

  lemma StartPositionOrdinary()
    ensures AllOrdinary(StartPositionLines)
  {
    var ls := StartPositionLines;
    forall i | 0 <= i < |ls|
      ensures Ordinary(ls[i])
    {
      if i == 0 {
        OrdinaryByLead(ls[i], ";");
      } else if i == 1 {
        OrdinaryByLead(ls[i], "$");
      } else if i == 2 {
        OrdinaryByLead(ls[i], "P");
      } else if i == 3 {
        OrdinaryByLead(ls[i], "F");
      } else {
        OrdinaryByLead(ls[i], "B");
      }
    }
  }

  lemma AdvanceOrdinary(advance: int)
    ensures AllOrdinary(AdvanceLines(advance))
  {
    var ls := AdvanceLines(advance);
    WrappedRoundTrip("$ADVANCE = ", advance, "");
    WrappedLineOrdinary("$ADVANCE = ", "", ls[0]);
    FixedLinesOrdinary();
  }

  /** Everything the constructor writes after the header is ordinary. */
  lemma PreambleTailOrdinary(advance: int, home: JointPoint)
    ensures AllOrdinary(InitLines + HomeLines(home) + AdvanceLines(advance))
  {
    IniFoldOrdinary();
    StartPositionOrdinary();
    AllOrdinaryAppend(IniFoldLines, StartPositionLines);
    HomeOrdinary(home);
    AllOrdinaryAppend(InitLines, HomeLines(home));
    AdvanceOrdinary(advance);
    AllOrdinaryAppend(InitLines + HomeLines(home), AdvanceLines(advance));
  }

  // ---------------------------------------------------------------------------
  // The whole program

  /** The fifth line is the only definition line and the last line the only `END`. */
  predicate FramedOnceLines(ls: seq<string>) {
    && (forall i :: 0 <= i < |ls| ==> (StartsWith(ls[i], "DEF ") <==> i == 4))
    && (forall i :: 0 <= i < |ls| ==> (ls[i] == "END" <==> i == |ls| - 1))
  }

  /** A header, ordinary lines and a final `END` hold one definition line and one `END`. */
  lemma FramedOnce(name: string, mid: seq<string>)
    requires AllOrdinary(mid)
    ensures FramedOnceLines(HeaderLines(name) + mid + ["END"])
  {
    var h := HeaderLines(name);
    var ls := h + mid + ["END"];
    HeaderOrdinary(name);
    DefRoundTrip(name);
    forall i | 0 <= i < |ls|
      ensures (StartsWith(ls[i], "DEF ") <==> i == 4) && (ls[i] == "END" <==> i == |ls| - 1)
    {
      if i < 7 {
        assert ls[i] == h[i];
        if i != 4 {
          assert Ordinary(h[i]);
        }
      } else if i < 7 + |mid| {
        assert ls[i] == mid[i - 7];
      } else {
        assert ls[i] == "END";
      }
    }
  }

  lemma LinesAssoc(a: seq<string>, b: seq<string>, c: seq<string>, d: seq<string>)
    ensures a + b + c + d == a + (b + c + d)
  {
  }

  lemma PreambleSplits(name: string, advance: int, home: JointPoint)
    ensures PreambleLines(name, advance, home) == HeaderLines(name) + (InitLines + HomeLines(home) + AdvanceLines(advance))
  {
    LinesAssoc(HeaderLines(name), InitLines, HomeLines(home), AdvanceLines(advance));
  }

  lemma Regroup(h: seq<string>, tail: seq<string>, body: seq<string>)
    ensures (h + tail) + body + FooterLines == h + (tail + body + [""]) + ["END"]
  {
  }

  lemma BlankAfterOrdinary(a: seq<string>, b: seq<string>)
    requires AllOrdinary(a) && AllOrdinary(b)
    ensures AllOrdinary(a + b + [""])
  {
    FixedLinesOrdinary();
    AllOrdinaryAppend(a, b);
    AllOrdinaryAppend(a + b, [""]);
  }

  /** Between the header and `END`, a program of templated statements writes only ordinary lines. */
  lemma MiddleOrdinary(advance: int, home: JointPoint, sts: seq<Statement>)
    requires forall i :: 0 <= i < |sts| ==> Structured(sts[i])
    ensures AllOrdinary(InitLines + HomeLines(home) + AdvanceLines(advance) + AllStatementLines(home, sts) + [""])
  {
    var tail := InitLines + HomeLines(home) + AdvanceLines(advance);
    var body := AllStatementLines(home, sts);
    PreambleTailOrdinary(advance, home);
    AllStatementsOrdinary(home, sts);
    BlankAfterOrdinary(tail, body);
  }

  /** A header followed by ordinary lines and the footer is framed once. */
  lemma FramedFromParts(name: string, pre: seq<string>, tail: seq<string>, body: seq<string>)
    requires pre == HeaderLines(name) + tail
    requires AllOrdinary(tail + body + [""])
    ensures FramedOnceLines(pre + body + FooterLines)
  {
    Regroup(HeaderLines(name), tail, body);
    FramedOnce(name, tail + body + [""]);
  }

  /** The program's lines, framed once. */
  lemma FramedProgramLines(name: string, advance: int, home: JointPoint, sts: seq<Statement>)
    requires forall i :: 0 <= i < |sts| ==> Structured(sts[i])
    ensures FramedOnceLines(PreambleLines(name, advance, home) + AllStatementLines(home, sts) + FooterLines)
  {
    var tail := InitLines + HomeLines(home) + AdvanceLines(advance);
    PreambleSplits(name, advance, home);
    MiddleOrdinary(advance, home, sts);
    FramedFromParts(name, PreambleLines(name, advance, home), tail, AllStatementLines(home, sts));
  }

  /**
    A program of templated statements holds exactly one definition line, the
    fifth, and exactly one `END` line, the last: the constructor and `close`
    frame the program once, and nothing in between looks like either.
   */
  lemma FramingOnce(name: string, advance: int, home: JointPoint, sts: seq<Statement>)
    requires NoNewline(name)
    requires forall i :: 0 <= i < |sts| ==> Structured(sts[i])
    ensures Program(name, advance, home, sts).Success?
    ensures FramedOnceLines(Lines(Program(name, advance, home, sts).value.text))
  {
    ProgramLayout(name, advance, home, sts);
    FramedProgramLines(name, advance, home, sts);
  }
}
