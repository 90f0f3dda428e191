/**
  The KUKA Robot Language templates the emitter writes, one function per
  statement kind, each returning its line(s) without the terminating newline.
  Every template is paired with a reader for its line shape, and each template's
  contract states that reading its output gives back the arguments: the numbers
  are rendered losslessly and the trailing smoothing token is the one chosen.
 */
module Krl {
  import opened Wrappers
  import opened Decimal
  import opened Text
  import opened Points
  import opened Fields

  /** The approximation token closing a motion line: `C_DIS` (continuous path) or `C_PTP` (exact). */
  datatype Smoothing = CDis | CPtp

  function SmoothingToken(s: Smoothing): string {
    match s
    case CDis => "C_DIS"
    case CPtp => "C_PTP"
  }

  /** The choice made by the `useLinSmoothing` flag of the PTP and SPTP writers. */
  function SmoothingFor(useLinSmoothing: bool): Smoothing {
    if useLinSmoothing then CDis else CPtp
  }

  const CartesianNames: seq<string> := ["X", "Y", "Z", "A", "B", "C", "E1", "E2", "E3", "E4"]
  const JointNames: seq<string> := ["A1", "A2", "A3", "A4", "A5", "A6", "E1", "E2", "E3", "E4"]
  const FrameNames: seq<string> := ["X", "Y", "Z", "A", "B", "C"]

  lemma FieldNamesAreSingleLine()
    ensures |CartesianNames| == 10 && AllNoNewline(CartesianNames)
    ensures |JointNames| == 10 && AllNoNewline(JointNames)
    ensures |FrameNames| == 6 && AllNoNewline(FrameNames)
  {
  }

  // ---------------------------------------------------------------------------
  // Generic line shapes and their readers

  /** A field list between a fixed opening and a fixed closing text. */
  function Pose(open: string, names: seq<string>, values: seq<int>, close: string): string
    requires |names| == |values| >= 1
  {
    open + RenderFields(names, values) + close
  }

  function ParsePose(open: string, names: seq<string>, close: string, line: string): (r: Option<seq<int>>)
    ensures r.Some? ==> |r.value| == |names|
  {
    if |open| + |close| <= |line| && StartsWith(line, open) && EndsWith(line, close) then
      ParseFields(names, line[|open|..|line| - |close|])
    else None
  }

  lemma PoseRoundTrip(open: string, names: seq<string>, values: seq<int>, close: string)
    requires |names| == |values| >= 1
    ensures ParsePose(open, names, close, Pose(open, names, values, close)) == Some(values)
  {
    var body := RenderFields(names, values);
    var line := Pose(open, names, values, close);
    assert line[..|open|] == open;
    assert line[|line| - |close|..] == close;
    assert line[|open|..|line| - |close|] == body;
    ParseRenderFields(names, values);
  }

  lemma PoseSingleLine(open: string, names: seq<string>, values: seq<int>, close: string)
    requires |names| == |values| >= 1
    requires NoNewline(open) && NoNewline(close) && AllNoNewline(names)
    ensures NoNewline(Pose(open, names, values, close))
  {
  }

  /** A number between a fixed opening and a fixed closing text. */
  function Wrapped(open: string, v: int, close: string): string {
    open + IntToString(v) + close
  }

  function ParseWrapped(open: string, close: string, line: string): Option<int> {
    if |open| + |close| <= |line| && StartsWith(line, open) && EndsWith(line, close) then
      ParseInt(line[|open|..|line| - |close|])
    else None
  }

  lemma WrappedRoundTrip(open: string, v: int, close: string)
    ensures ParseWrapped(open, close, Wrapped(open, v, close)) == Some(v)
    ensures NoNewline(open) && NoNewline(close) ==> NoNewline(Wrapped(open, v, close))
  {
    var line := Wrapped(open, v, close);
    assert line[..|open|] == open;
    assert line[|line| - |close|..] == close;
    assert line[|open|..|line| - |close|] == IntToString(v);
    ParseIntRoundTrip(v);
    NoOtherCharInNumber(v, '\n');
  }

  /** The only line the reader turns into `v` is the one written for `v`: the line is fixed character by character. */
  lemma WrappedCanonical(open: string, close: string, line: string, v: int)
    requires ParseWrapped(open, close, line) == Some(v)
    ensures line == Wrapped(open, v, close)
  {
    var mid := line[|open|..|line| - |close|];
    ParseIntCanonical(mid, v);
    assert line == line[..|open|] + mid + line[|line| - |close|..];
  }

  /** A wrapped number between single-line texts is one line that reads back. */
  lemma WrappedLine(open: string, v: int, close: string)
    requires NoNewline(open) && NoNewline(close)
    ensures NoNewline(Wrapped(open, v, close))
    ensures ParseWrapped(open, close, Wrapped(open, v, close)) == Some(v)
  {
    WrappedRoundTrip(open, v, close);
  }

  // A line a reader accepts starts with the reader's fixed opening text.

  lemma ParsedPoseStartsWithOpen(open: string, names: seq<string>, close: string, line: string)
    requires ParsePose(open, names, close, line).Some?
    ensures StartsWith(line, open)
  {
  }

  lemma ParsedWrappedStartsWithOpen(open: string, close: string, line: string)
    requires ParseWrapped(open, close, line).Some?
    ensures StartsWith(line, open)
  {
  }

  /** An indexed assignment `<prefix><index>] = <value>`. */
  function Indexed(prefix: string, index: int, value: string): string {
    prefix + IntToString(index) + "] = " + value
  }

  /** Reads the index up to the first `]` and returns it with the assigned text. */
  function ParseIndexed(prefix: string, line: string): Option<(int, string)> {
    if !StartsWith(line, prefix) then None
    else
      var rest := line[|prefix|..];
      var k := IndexOf(rest, ']');
      if !StartsWith(rest[k..], "] = ") then None
      else
        match ParseInt(rest[..k])
        case None => None
        case Some(index) => Some((index, rest[k + 4..]))
  }

  function ParseIndexedInt(prefix: string, line: string): Option<(int, int)> {
    match ParseIndexed(prefix, line)
    case None => None
    case Some((index, text)) =>
      match ParseInt(text)
      case None => None
      case Some(v) => Some((index, v))
  }

  lemma ParsedIndexedStartsWithPrefix(prefix: string, line: string)
    requires ParseIndexed(prefix, line).Some? || ParseIndexedInt(prefix, line).Some?
    ensures StartsWith(line, prefix)
  {
  }

  lemma IndexedSplits(prefix: string, index: int, value: string)
    ensures var line := Indexed(prefix, index, value);
      && StartsWith(line, prefix) && line[|prefix|..] == IntToString(index) + "] = " + value
  {
    var line := Indexed(prefix, index, value);
    assert line == prefix + (IntToString(index) + "] = " + value);
  }

  /** After the index, the reader finds `] = ` and then exactly the assigned text. */
  lemma IndexedRestSplits(index: int, value: string)
    ensures var n := IntToString(index);
      var rest := n + "] = " + value;
      && IndexOf(rest, ']') == |n| && StartsWith(rest[|n|..], "] = ")
      && rest[..|n|] == n && rest[|n| + 4..] == value
  {
    var n := IntToString(index);
    var rest := n + "] = " + value;
    assert rest == n + [']'] + (" = " + value);
    NoOtherCharInNumber(index, ']');
    IndexOfAfterPrefix(n, ']', " = " + value);
    assert rest[..|n|] == n;
    assert rest[|n|..][..4] == "] = ";
    assert rest[|n| + 4..] == value;
  }

  lemma ParseIndexedOf(prefix: string, line: string, rest: string, k: nat, index: int, value: string)
    requires StartsWith(line, prefix) && line[|prefix|..] == rest
    requires IndexOf(rest, ']') == k && StartsWith(rest[k..], "] = ")
    requires ParseInt(rest[..k]) == Some(index) && rest[k + 4..] == value
    ensures ParseIndexed(prefix, line) == Some((index, value))
  {
  }

  lemma IndexedRoundTrip(prefix: string, index: int, value: string)
    ensures ParseIndexed(prefix, Indexed(prefix, index, value)) == Some((index, value))
    ensures NoNewline(prefix) && NoNewline(value) ==> NoNewline(Indexed(prefix, index, value))
  {
    var n := IntToString(index);
    IndexedSplits(prefix, index, value);
    IndexedRestSplits(index, value);
    ParseIntRoundTrip(index);
    ParseIndexedOf(prefix, Indexed(prefix, index, value), n + "] = " + value, |n|, index, value);
    NoOtherCharInNumber(index, '\n');
  }

  lemma IndexedIntRoundTrip(prefix: string, index: int, v: int)
    ensures ParseIndexedInt(prefix, Indexed(prefix, index, IntToString(v))) == Some((index, v))
    ensures NoNewline(prefix) ==> NoNewline(Indexed(prefix, index, IntToString(v)))
  {
    IndexedRoundTrip(prefix, index, IntToString(v));
    ParseIntRoundTrip(v);
    NoOtherCharInNumber(v, '\n');
  }

  /** Splits off the trailing ` C_DIS` or ` C_PTP` of a motion line. */
  function SplitSmoothing(line: string): Option<(string, Smoothing)> {
    if EndsWith(line, " C_DIS") then Some((line[..|line| - 6], CDis))
    else if EndsWith(line, " C_PTP") then Some((line[..|line| - 6], CPtp))
    else None
  }

  lemma SplitSmoothingRoundTrip(head: string, s: Smoothing)
    ensures SplitSmoothing(head + " " + SmoothingToken(s)) == Some((head, s))
  {
    var line := head + " " + SmoothingToken(s);
    assert |SmoothingToken(s)| == 5;
    assert line[|line| - 6..] == " " + SmoothingToken(s);
    assert line[..|line| - 6] == head;
    match s {
      case CDis => assert line[|line| - 6..] == " C_DIS";
      case CPtp => assert line[|line| - 6..] == " C_PTP";
    }
  }

  // ---------------------------------------------------------------------------
  // Motion lines

  /** `<lead>{<field list>} <token>`: the shape of every motion line. */
  function Motion(lead: string, names: seq<string>, values: seq<int>, s: Smoothing): string
    requires |names| == |values| >= 1
  {
    Pose(lead + "{", names, values, "}") + " " + SmoothingToken(s)
  }

  function ParseMotion(lead: string, names: seq<string>, line: string): (r: Option<(seq<int>, Smoothing)>)
    ensures r.Some? ==> |r.value.0| == |names|
  {
    match SplitSmoothing(line)
    case None => None
    case Some((head, s)) =>
      match ParsePose(lead + "{", names, "}", head)
      case None => None
      case Some(vs) => Some((vs, s))
  }

  lemma ParsedMotionStartsWithLead(lead: string, names: seq<string>, line: string)
    requires ParseMotion(lead, names, line).Some?
    ensures StartsWith(line, lead)
  {
    var (head, _) := SplitSmoothing(line).value;
    assert head == line[..|line| - 6];
    ParsedPoseStartsWithOpen(lead + "{", names, "}", head);
    assert line[..|lead|] == head[..|lead + "{"|][..|lead|];
  }

  lemma MotionRoundTrip(lead: string, names: seq<string>, values: seq<int>, s: Smoothing)
    requires |names| == |values| >= 1
    ensures ParseMotion(lead, names, Motion(lead, names, values, s)) == Some((values, s))
  {
    var head := Pose(lead + "{", names, values, "}");
    SplitSmoothingRoundTrip(head, s);
    PoseRoundTrip(lead + "{", names, values, "}");
  }

  lemma MotionSingleLine(lead: string, names: seq<string>, values: seq<int>, s: Smoothing)
    requires |names| == |values| >= 1
    requires NoNewline(lead) && AllNoNewline(names)
    ensures NoNewline(Motion(lead, names, values, s))
  {
    PoseSingleLine(lead + "{", names, values, "}");
    match s {
      case CDis =>
      case CPtp =>
    }
  }

  /** `<lead>{X .., Y .., Z .., A .., B .., C .., E1 .., E2 .., E3 .., E4 ..} <token>` */
  function CartesianMotion(lead: string, p: CartesianPoint, s: Smoothing): string {
    Motion(lead, CartesianNames, CartesianValues(p), s)
  }

  /** Reads a Cartesian motion line that starts with `lead`. */
  function ParseCartesianMotion(lead: string, line: string): Option<(CartesianPoint, Smoothing)> {
    match ParseMotion(lead, CartesianNames, line)
    case None => None
    case Some((vs, s)) => Some((CartesianFromValues(vs), s))
  }

  lemma CartesianMotionRoundTrip(lead: string, p: CartesianPoint, s: Smoothing)
    ensures ParseCartesianMotion(lead, CartesianMotion(lead, p, s)) == Some((p, s))
  {
    FieldNamesAreSingleLine();
    MotionRoundTrip(lead, CartesianNames, CartesianValues(p), s);
  }

  lemma CartesianMotionSingleLine(lead: string, p: CartesianPoint, s: Smoothing)
    requires NoNewline(lead)
    ensures NoNewline(CartesianMotion(lead, p, s))
  {
    FieldNamesAreSingleLine();
    MotionSingleLine(lead, CartesianNames, CartesianValues(p), s);
  }

  /** `<lead>{A1 .., A2 .., A3 .., A4 .., A5 .., A6 .., E1 .., E2 .., E3 .., E4 ..} <token>` */
  function JointMotion(lead: string, j: JointPoint, s: Smoothing): string {
    Motion(lead, JointNames, JointValues(j), s)
  }

  function ParseJointMotion(lead: string, line: string): Option<(JointPoint, Smoothing)> {
    match ParseMotion(lead, JointNames, line)
    case None => None
    case Some((vs, s)) => Some((JointFromValues(vs), s))
  }

  lemma JointMotionRoundTrip(lead: string, j: JointPoint, s: Smoothing)
    ensures ParseJointMotion(lead, JointMotion(lead, j, s)) == Some((j, s))
  {
    FieldNamesAreSingleLine();
    MotionRoundTrip(lead, JointNames, JointValues(j), s);
  }

  lemma JointMotionSingleLine(lead: string, j: JointPoint, s: Smoothing)
    requires NoNewline(lead)
    ensures NoNewline(JointMotion(lead, j, s))
  {
    FieldNamesAreSingleLine();
    MotionSingleLine(lead, JointNames, JointValues(j), s);
  }

  /** `linMotion`: a LIN line, always approximated with C_DIS. */
  function LinLine(p: CartesianPoint): (line: string)
    ensures NoNewline(line)
    ensures ParseCartesianMotion("LIN ", line) == Some((p, CDis))
  {
    CartesianMotionSingleLine("LIN ", p, CDis);
    CartesianMotionRoundTrip("LIN ", p, CDis);
    CartesianMotion("LIN ", p, CDis)
  }

  /** `ptpMotion`: a Cartesian PTP line, C_DIS when `useLinSmoothing` holds and C_PTP otherwise. */
  function PtpLine(p: CartesianPoint, useLinSmoothing: bool): (line: string)
    ensures NoNewline(line)
    ensures ParseCartesianMotion("PTP ", line) == Some((p, if useLinSmoothing then CDis else CPtp))
  {
    CartesianMotionSingleLine("PTP ", p, SmoothingFor(useLinSmoothing));
    CartesianMotionRoundTrip("PTP ", p, SmoothingFor(useLinSmoothing));
    CartesianMotion("PTP ", p, SmoothingFor(useLinSmoothing))
  }

  /** `jointMotion`: a joint-space PTP line, always exact (C_PTP). */
  function JointLine(j: JointPoint): (line: string)
    ensures NoNewline(line)
    ensures ParseJointMotion("PTP ", line) == Some((j, CPtp))
  {
    JointMotionSingleLine("PTP ", j, CPtp);
    JointMotionRoundTrip("PTP ", j, CPtp);
    JointMotion("PTP ", j, CPtp)
  }

  /** `slinMotion`: a SLIN line, always approximated with C_DIS. */
  function SlinLine(p: CartesianPoint): (line: string)
    ensures NoNewline(line)
    ensures ParseCartesianMotion("SLIN ", line) == Some((p, CDis))
  {
    CartesianMotionSingleLine("SLIN ", p, CDis);
    CartesianMotionRoundTrip("SLIN ", p, CDis);
    CartesianMotion("SLIN ", p, CDis)
  }

  /** `sptpMotion`: a SPTP line, C_DIS when `useLinSmoothing` holds and C_PTP otherwise. */
  function SptpLine(p: CartesianPoint, useLinSmoothing: bool): (line: string)
    ensures NoNewline(line)
    ensures ParseCartesianMotion("SPTP ", line) == Some((p, if useLinSmoothing then CDis else CPtp))
  {
    CartesianMotionSingleLine("SPTP ", p, SmoothingFor(useLinSmoothing));
    CartesianMotionRoundTrip("SPTP ", p, SmoothingFor(useLinSmoothing));
    CartesianMotion("SPTP ", p, SmoothingFor(useLinSmoothing))
  }

  /** One point of a spline block: three spaces, the brace list, C_DIS. */
  function SplineEntry(p: CartesianPoint): (line: string)
    ensures NoNewline(line)
    ensures ParseCartesianMotion("   ", line) == Some((p, CDis))
  {
    CartesianMotionSingleLine("   ", p, CDis);
    CartesianMotionRoundTrip("   ", p, CDis);
    CartesianMotion("   ", p, CDis)
  }

  /** The entry lines of a spline block, one per point in list order. */
  function SplineEntries(points: seq<CartesianPoint>): (es: seq<string>)
    ensures |es| == |points|
    ensures forall i :: 0 <= i < |points| ==> ParseCartesianMotion("   ", es[i]) == Some((points[i], CDis))
    ensures AllNoNewline(es)
  {
    seq(|points|, i requires 0 <= i < |points| => SplineEntry(points[i]))
  }

  /** `splineMotion`: `SPLINE`, one entry per point in list order, `ENDSPLINE`. */
  function SplineLines(points: seq<CartesianPoint>): (ls: seq<string>)
    ensures |ls| == |points| + 2
    ensures ls[0] == "SPLINE" && ls[|ls| - 1] == "ENDSPLINE"
    ensures forall i :: 0 <= i < |points| ==> ParseCartesianMotion("   ", ls[i + 1]) == Some((points[i], CDis))
    ensures AllNoNewline(ls)
  {
    var es := SplineEntries(points);
    Bracketed("SPLINE", es, "ENDSPLINE");
    ["SPLINE"] + es + ["ENDSPLINE"]
  }

  /** A block between an opening and a closing line. */
  lemma Bracketed(first: string, mid: seq<string>, last: string)
    ensures var ls := [first] + mid + [last];
      && |ls| == |mid| + 2 && ls[0] == first && ls[|ls| - 1] == last
      && (forall i :: 0 <= i < |mid| ==> ls[i + 1] == mid[i])
      && (NoNewline(first) && AllNoNewline(mid) && NoNewline(last) ==> AllNoNewline(ls))
  {
  }

  /** The home PTP line: the joint brace list with no approximation token. */
  function HomePtpLine(home: JointPoint): string {
    Pose("PTP {", JointNames, JointValues(home), "}")
  }

  function ParseHomePtp(line: string): Option<JointPoint> {
    match ParsePose("PTP {", JointNames, "}", line)
    case None => None
    case Some(vs) => Some(JointFromValues(vs))
  }

  lemma HomePtpSingleLine(home: JointPoint)
    ensures NoNewline(HomePtpLine(home))
  {
    FieldNamesAreSingleLine();
    PoseSingleLine("PTP {", JointNames, JointValues(home), "}");
  }

  lemma HomePtpRoundTrip(home: JointPoint)
    ensures ParseHomePtp(HomePtpLine(home)) == Some(home)
  {
    FieldNamesAreSingleLine();
    PoseRoundTrip("PTP {", JointNames, JointValues(home), "}");
  }

  lemma FoldEndSingleLines(first: string)
    requires NoNewline(first)
    ensures AllNoNewline([first, ";ENDFOLD", ""])
  {
  }

  /** `homeMotion` (and the constructor's home move): the home PTP line, `;ENDFOLD`, a blank line. */
  function HomeLines(home: JointPoint): (ls: seq<string>)
    ensures |ls| == 3 && AllNoNewline(ls)
    ensures ParseHomePtp(ls[0]) == Some(home)
    ensures ls[1] == ";ENDFOLD" && ls[2] == ""
  {
    HomePtpSingleLine(home);
    FoldEndSingleLines(HomePtpLine(home));
    HomePtpRoundTrip(home);
    [HomePtpLine(home), ";ENDFOLD", ""]
  }

  // ---------------------------------------------------------------------------
  // Frames, identifiers and settings

  function FrameLine(variable: string, f: Position): string {
    Pose(variable + " = {FRAME: ", FrameNames, PositionValues(f), "}")
  }

  /** Reads `<variable> = {FRAME: X .., Y .., Z .., A .., B .., C ..}`. */
  function ParseFrame(variable: string, line: string): Option<Position> {
    match ParsePose(variable + " = {FRAME: ", FrameNames, "}", line)
    case None => None
    case Some(vs) => Some(PositionFromValues(vs))
  }

  lemma FrameSingleLine(variable: string, f: Position)
    requires NoNewline(variable)
    ensures NoNewline(FrameLine(variable, f))
  {
    FieldNamesAreSingleLine();
    PoseSingleLine(variable + " = {FRAME: ", FrameNames, PositionValues(f), "}");
  }

  lemma FrameRoundTrip(variable: string, f: Position)
    ensures ParseFrame(variable, FrameLine(variable, f)) == Some(f)
  {
    FieldNamesAreSingleLine();
    PoseRoundTrip(variable + " = {FRAME: ", FrameNames, PositionValues(f), "}");
  }

  /** `setBaseByPosition`: assigns the frame to `$BASE`. */
  function BaseFrameLine(f: Position): (line: string)
    ensures NoNewline(line)
    ensures ParseFrame("$BASE", line) == Some(f)
  {
    FrameSingleLine("$BASE", f);
    FrameRoundTrip("$BASE", f);
    FrameLine("$BASE", f)
  }

  /** `setToolByPosition`: assigns the frame to `$TOOL`. */
  function ToolFrameLine(f: Position): (line: string)
    ensures NoNewline(line)
    ensures ParseFrame("$TOOL", line) == Some(f)
  {
    FrameSingleLine("$TOOL", f);
    FrameRoundTrip("$TOOL", f);
    FrameLine("$TOOL", f)
  }

  lemma BaseIdOpenSingle()
    ensures NoNewline("BAS(#BASE, ") && NoNewline(")")
  {
  }

  /** `setBaseByID`: `BAS(#BASE, <id>)`. */
  function BaseIdLine(id: int): (line: string)
    ensures NoNewline(line)
    ensures ParseWrapped("BAS(#BASE, ", ")", line) == Some(id)
  {
    BaseIdOpenSingle();
    WrappedLine("BAS(#BASE, ", id, ")");
    Wrapped("BAS(#BASE, ", id, ")")
  }

  lemma ToolIdOpenSingle()
    ensures NoNewline("BAS(#TOOL, ") && NoNewline(")")
  {
  }

  /** `setToolByID`: `BAS(#TOOL, <id>)`. */
  function ToolIdLine(id: int): (line: string)
    ensures NoNewline(line)
    ensures ParseWrapped("BAS(#TOOL, ", ")", line) == Some(id)
  {
    ToolIdOpenSingle();
    WrappedLine("BAS(#TOOL, ", id, ")");
    Wrapped("BAS(#TOOL, ", id, ")")
  }

  /** `vorfraesen`: the fixed pre-milling call. */
  const VorfraesenLine: string := "Vorfraesen()"

  /** `delay`: `WAIT SEC <t>`. */
  function DelayLine(t: int): (line: string)
    ensures NoNewline(line)
    ensures ParseWrapped("WAIT SEC ", "", line) == Some(t)
  {
    WrappedRoundTrip("WAIT SEC ", t, "");
    Wrapped("WAIT SEC ", t, "")
  }

  /** `setDOut`: `$OUT[<id>] = <value>`, the value passed through as written. */
  function DigitalOutLine(id: int, value: string): (line: string)
    ensures NoNewline(value) ==> NoNewline(line)
    ensures ParseIndexed("$OUT[", line) == Some((id, value))
  {
    IndexedRoundTrip("$OUT[", id, value);
    Indexed("$OUT[", id, value)
  }

  /** `setAOut`: `$ANOUT[<id>] = <value>`. */
  function AnalogOutLine(id: int, value: int): (line: string)
    ensures NoNewline(line)
    ensures ParseIndexedInt("$ANOUT[", line) == Some((id, value))
  {
    IndexedIntRoundTrip("$ANOUT[", id, value);
    Indexed("$ANOUT[", id, IntToString(value))
  }

  lemma LinSpeedOpenSingle()
    ensures NoNewline("BAS(#VEL_CP, ") && NoNewline(")")
  {
  }

  /** `setLinSpeed`: `BAS(#VEL_CP, <speed>)`. */
  function LinSpeedLine(speed: int): (line: string)
    ensures NoNewline(line)
    ensures ParseWrapped("BAS(#VEL_CP, ", ")", line) == Some(speed)
  {
    LinSpeedOpenSingle();
    WrappedLine("BAS(#VEL_CP, ", speed, ")");
    Wrapped("BAS(#VEL_CP, ", speed, ")")
  }

  lemma JointSpeedOpenSingle()
    ensures NoNewline("BAS(#VEL_PTP, ") && NoNewline(")")
  {
  }

  /** `setJointSpeed`: `BAS(#VEL_PTP, <percent>)`. */
  function JointSpeedLine(percent: int): (line: string)
    ensures NoNewline(line)
    ensures ParseWrapped("BAS(#VEL_PTP, ", ")", line) == Some(percent)
  {
    JointSpeedOpenSingle();
    WrappedLine("BAS(#VEL_PTP, ", percent, ")");
    Wrapped("BAS(#VEL_PTP, ", percent, ")")
  }

  /** `setLinSmooth`: `$APO.CDIS = <distance>`. */
  function LinSmoothLine(distance: int): (line: string)
    ensures NoNewline(line)
    ensures ParseWrapped("$APO.CDIS = ", "", line) == Some(distance)
  {
    WrappedRoundTrip("$APO.CDIS = ", distance, "");
    Wrapped("$APO.CDIS = ", distance, "")
  }

  /** The value list `setJointSmooth` writes when it is given none. */
  const DefaultJointSmoothing: seq<int> := [0, 0, 0, 0, 0, 0, 0, 0, 0, 0, 0, 0]

  /** One entry of the joint approximation array, `$APO_DIS_PTP[<index>] = <value>`. */
  function JointSmoothLine(index: int, value: int): (line: string)
    ensures NoNewline(line)
    ensures ParseIndexedInt("$APO_DIS_PTP[", line) == Some((index, value))
  {
    IndexedIntRoundTrip("$APO_DIS_PTP[", index, value);
    Indexed("$APO_DIS_PTP[", index, IntToString(value))
  }

  /**
    `setJointSmooth`: one line per value, with 1-based consecutive indices; with
    no list, twelve lines assigning 0.
   */
  function JointSmoothLines(values: Option<seq<int>>): (ls: seq<string>)
    ensures values.Some? ==> |ls| == |values.value|
    ensures values.None? ==> |ls| == 12
    ensures forall i :: 0 <= i < |ls| ==>
              ParseIndexedInt("$APO_DIS_PTP[", ls[i]) == Some((i + 1, if values.Some? then values.value[i] else 0))
    ensures AllNoNewline(ls)
  {
    var vs := values.GetOr(DefaultJointSmoothing);
    DefaultJointSmoothingIsZeros();
    JointSmoothEntries(vs)
  }

  lemma DefaultJointSmoothingIsZeros()
    ensures |DefaultJointSmoothing| == 12
    ensures forall i :: 0 <= i < 12 ==> DefaultJointSmoothing[i] == 0
  {
  }

  /** The entries for a value list: 1-based consecutive indices, values in list order. */
  function JointSmoothEntries(vs: seq<int>): (ls: seq<string>)
    ensures |ls| == |vs|
    ensures forall i :: 0 <= i < |vs| ==> ParseIndexedInt("$APO_DIS_PTP[", ls[i]) == Some((i + 1, vs[i]))
    ensures AllNoNewline(ls)
  {
    seq(|vs|, i requires 0 <= i < |vs| => JointSmoothLine(i + 1, vs[i]))
  }

  function BasLine(varName: string, varValue: int): string {
    "BAS(" + varName + ", " + IntToString(varValue) + ")"
  }

  /** The position of the last `c` in `s`, or -1 when there is none. */
  function LastIndexOf(s: string, c: char): (k: int)
    ensures -1 <= k < |s|
    ensures k >= 0 ==> s[k] == c
    ensures forall j :: k < j < |s| ==> s[j] != c
    decreases |s|
  {
    if |s| == 0 then -1
    else if s[|s| - 1] == c then |s| - 1
    else LastIndexOf(s[..|s| - 1], c)
  }

  /** Reads `BAS(<name>, <value>)`; the name runs up to the last comma. */
  function ParseBas(line: string): Option<(string, int)> {
    if |line| < 5 || !StartsWith(line, "BAS(") || line[|line| - 1] != ')' then None
    else
      var inner := line[4..|line| - 1];
      var k := LastIndexOf(inner, ',');
      if k < 0 || k + 1 >= |inner| || inner[k + 1] != ' ' then None
      else
        match ParseInt(inner[k + 2..])
        case None => None
        case Some(v) => Some((inner[..k], v))
  }

  lemma {:induction false} LastIndexOfBeforeSuffix(a: string, c: char, b: string)
    requires c !in b
    ensures LastIndexOf(a + [c] + b, c) == |a|
    decreases |b|
  {
    var s := a + [c] + b;
    if b != [] {
      assert s[..|s| - 1] == a + [c] + b[..|b| - 1];
      assert s[|s| - 1] == b[|b| - 1];
      LastIndexOfBeforeSuffix(a, c, b[..|b| - 1]);
    }
  }

  /** `setBAS`: `BAS(<varName>, <varValue>)`, the name passed through as written. */
  function SetBasLine(varName: string, varValue: int): (line: string)
    ensures NoNewline(varName) ==> NoNewline(line)
    ensures ParseBas(line) == Some((varName, varValue))
  {
    BasSingleLine(varName, varValue);
    BasRoundTrip(varName, varValue);
    BasLine(varName, varValue)
  }

  lemma BasSingleLine(varName: string, varValue: int)
    ensures NoNewline(varName) ==> NoNewline(BasLine(varName, varValue))
  {
    NoOtherCharInNumber(varValue, '\n');
  }

  /** The text between `BAS(` and the closing parenthesis. */
  lemma BasInner(inner: string, line: string)
    requires line == "BAS(" + inner + ")"
    ensures |line| >= 5 && StartsWith(line, "BAS(") && line[|line| - 1] == ')'
    ensures line[4..|line| - 1] == inner
  {
    assert line[..4] == "BAS(";
  }

  /** The name runs up to the last comma, which a rendered number never holds. */
  lemma BasInnerSplit(varName: string, varValue: int)
    ensures var n := IntToString(varValue);
      var inner := varName + [','] + (" " + n);
      var k := LastIndexOf(inner, ',');
      && k == |varName| && k + 1 < |inner| && inner[k + 1] == ' '
      && inner[..k] == varName && inner[k + 2..] == n
  {
    var n := IntToString(varValue);
    var inner := varName + [','] + (" " + n);
    NoOtherCharInNumber(varValue, ',');
    LastIndexOfBeforeSuffix(varName, ',', " " + n);
    assert inner[..|varName|] == varName;
    assert inner[|varName| + 2..] == n;
  }

  lemma ParseBasOf(line: string, inner: string, varName: string, varValue: int)
    requires |line| >= 5 && StartsWith(line, "BAS(") && line[|line| - 1] == ')'
    requires line[4..|line| - 1] == inner
    requires LastIndexOf(inner, ',') == |varName| && |varName| + 1 < |inner| && inner[|varName| + 1] == ' '
    requires inner[..|varName|] == varName && ParseInt(inner[|varName| + 2..]) == Some(varValue)
    ensures ParseBas(line) == Some((varName, varValue))
  {
  }

  lemma BasRoundTrip(varName: string, varValue: int)
    ensures ParseBas(BasLine(varName, varValue)) == Some((varName, varValue))
  {
    var n := IntToString(varValue);
    var inner := varName + [','] + (" " + n);
    var line := BasLine(varName, varValue);
    assert line == "BAS(" + inner + ")";
    BasInner(inner, line);
    BasInnerSplit(varName, varValue);
    ParseIntRoundTrip(varValue);
    ParseBasOf(line, inner, varName, varValue);
  }

  /**
    The identifier and speed writers are `setBAS` with a fixed variable name:
    the same line comes out either way.
   */
  lemma BasShorthands(v: int)
    ensures SetBasLine("#BASE", v) == BaseIdLine(v)
    ensures SetBasLine("#TOOL", v) == ToolIdLine(v)
    ensures SetBasLine("#VEL_CP", v) == LinSpeedLine(v)
    ensures SetBasLine("#VEL_PTP", v) == JointSpeedLine(v)
  {
    var n := IntToString(v);
    assert BasLine("#BASE", v) == "BAS(#BASE, " + n + ")";
    assert BasLine("#TOOL", v) == "BAS(#TOOL, " + n + ")";
    assert BasLine("#VEL_CP", v) == "BAS(#VEL_CP, " + n + ")";
    assert BasLine("#VEL_PTP", v) == "BAS(#VEL_PTP, " + n + ")";
  }

  // ---------------------------------------------------------------------------
  // Program framing

  /** The program definition line, with the name upper-cased. */
  function DefLine(name: string): string {
    "DEF " + ToUpper(name) + " ( )"
  }

  /** Reads the program name back from a definition line. */
  function ParseDef(line: string): Option<string> {
    if |line| >= 8 && StartsWith(line, "DEF ") && EndsWith(line, " ( )") then Some(line[4..|line| - 4])
    else None
  }

  /** The definition line names the program, upper-cased. */
  lemma DefRoundTrip(name: string)
    ensures ParseDef(DefLine(name)) == Some(ToUpper(name))
    ensures StartsWith(DefLine(name), "DEF ") && DefLine(name) != "END"
  {
    var line := DefLine(name);
    assert line[..4] == "DEF ";
    assert line[|line| - 4..] == " ( )";
    assert line[4..|line| - 4] == ToUpper(name);
  }

  /** The access, release, template and edit-mask directives that open the file. */
  const Directives: seq<string> := [
    "&ACCESS RVP",
    "&REL 1",
    "&PARAM " + "TEMPLATE = " + "C:\\KRC" + "\\Roboter" + "\\Template" + "\\vorgabe",
    "&PARAM " + "EDITMASK = *"
  ]

  /** The directives, the definition line and two blank lines. */
  function HeaderLines(name: string): seq<string> {
    Directives + [DefLine(name), "", ""]
  }

  // Long literal lines below are spelled as concatenations of short pieces
  // only to keep the verifier's character-by-character reasoning cheap.

  /** The fixed initialisation fold and the blank line after it. */
  const IniFoldLines: seq<string> := [
    ";FOLD INI",
    ";FOLD BASISTECH INI",
    "GLOBAL " + "INTERRUPT " + "DECL 3 " + "WHEN " + "$STOPMESS" + "==TRUE " + "DO " + "IR_STOPM ( )",
    "INTERRUPT ON 3",
    "BAS (#INITMOV,0 )",
    ";ENDFOLD " + "(BASISTECH " + "INI)",
    ";ENDFOLD (INI)",
    ""
  ]

  /** The two halves of the start-position fold's title line. */
  const StartFoldHead: string := ";FOLD START" + "POSITION - " + "BASE IS 0, " + "TOOL IS 0, " + "SPEED IS " + "100%, "
  const StartFoldTail: string := "POSITION IS " + "externally " + "defined " + "-> se " + "generating " + "script"

  /** The opening of the start-position fold, up to the home move. */
  const StartPositionLines: seq<string> := [
    StartFoldHead + StartFoldTail,
    "$BWDSTART = FALSE",
    "PDAT_ACT = " + "{VEL 100," + "ACC 100," + "APO_DIST 50}",
    "FDAT_ACT = " + "{TOOL_NO 0," + "BASE_NO 0," + "IPO_FRAME " + "#BASE}",
    "BAS " + "(#PTP_PARAMS,100)"
  ]

  /** Everything the constructor writes between the header and the home move. */
  const InitLines: seq<string> := IniFoldLines + StartPositionLines

  /** The look-ahead setting and a blank line. */
  function AdvanceLines(advance: int): seq<string> {
    [Wrapped("$ADVANCE = ", advance, ""), ""]
  }

  /** Everything the constructor writes, line by line. */
  function PreambleLines(name: string, advance: int, home: JointPoint): seq<string> {
    HeaderLines(name) + InitLines + HomeLines(home) + AdvanceLines(advance)
  }

  // One lemma per fixed line keeps each character-by-character check small.

  lemma DirectivesLine0Single()
    ensures NoNewline(Directives[0])
  {
  }

  lemma DirectivesLine1Single()
    ensures NoNewline(Directives[1])
  {
  }

  lemma DirectivesLine2Single()
    ensures NoNewline(Directives[2])
  {
  }

  lemma DirectivesLine3Single()
    ensures NoNewline(Directives[3])
  {
  }

  lemma DirectivesSingleLines()
    ensures AllNoNewline(Directives)
  {
    DirectivesLine0Single();
    DirectivesLine1Single();
    DirectivesLine2Single();
    DirectivesLine3Single();
    forall i | 0 <= i < |Directives|
      ensures NoNewline(Directives[i])
    {
      if i == 0 {} else if i == 1 {} else if i == 2 {} else {}
    }
  }

  lemma DefBlockSingleLines(def: string)
    requires NoNewline(def)
    ensures AllNoNewline([def, "", ""])
  {
  }

  lemma HeaderSingleLines(name: string)
    requires NoNewline(name)
    ensures AllNoNewline(HeaderLines(name))
  {
    assert NoNewline(DefLine(name));
    DirectivesSingleLines();
    DefBlockSingleLines(DefLine(name));
    AllNoNewlineAppend(Directives, [DefLine(name), "", ""]);
  }

  lemma IniFoldLine0Single()
    ensures NoNewline(IniFoldLines[0])
  {
  }

  lemma IniFoldLine1Single()
    ensures NoNewline(IniFoldLines[1])
  {
  }

  lemma IniFoldLine2Single()
    ensures NoNewline(IniFoldLines[2])
  {
  }

  lemma IniFoldLine3Single()
    ensures NoNewline(IniFoldLines[3])
  {
  }

  lemma IniFoldLine4Single()
    ensures NoNewline(IniFoldLines[4])
  {
  }

  lemma IniFoldLine5Single()
    ensures NoNewline(IniFoldLines[5])
  {
  }

  lemma IniFoldLine6Single()
    ensures NoNewline(IniFoldLines[6])
  {
  }

  lemma IniFoldLine7Single()
    ensures NoNewline(IniFoldLines[7])
  {
  }

  lemma IniFoldSingleLines()
    ensures AllNoNewline(IniFoldLines)
  {
    IniFoldLine0Single();
    IniFoldLine1Single();
    IniFoldLine2Single();
    IniFoldLine3Single();
    IniFoldLine4Single();
    IniFoldLine5Single();
    IniFoldLine6Single();
    IniFoldLine7Single();
    forall i | 0 <= i < |IniFoldLines|
      ensures NoNewline(IniFoldLines[i])
    {
      if i == 0 {} else if i == 1 {} else if i == 2 {} else if i == 3 {} else if i == 4 {} else if i == 5 {} else if i == 6 {} else {}
    }
  }

  lemma StartFoldHeadSingle()
    ensures NoNewline(StartFoldHead)
  {
  }

  lemma StartFoldTailSingle()
    ensures NoNewline(StartFoldTail)
  {
  }

  lemma StartPositionLine0Single()
    ensures NoNewline(StartPositionLines[0])
  {
    StartFoldHeadSingle();
    StartFoldTailSingle();
  }

  lemma StartPositionLine1Single()
    ensures NoNewline(StartPositionLines[1])
  {
  }

  lemma StartPositionLine2Single()
    ensures NoNewline(StartPositionLines[2])
  {
  }

  lemma StartPositionLine3Single()
    ensures NoNewline(StartPositionLines[3])
  {
  }

  lemma StartPositionLine4Single()
    ensures NoNewline(StartPositionLines[4])
  {
  }

  lemma StartPositionSingleLines()
    ensures AllNoNewline(StartPositionLines)
  {
    StartPositionLine0Single();
    StartPositionLine1Single();
    StartPositionLine2Single();
    StartPositionLine3Single();
    StartPositionLine4Single();
    forall i | 0 <= i < |StartPositionLines|
      ensures NoNewline(StartPositionLines[i])
    {
      if i == 0 {} else if i == 1 {} else if i == 2 {} else if i == 3 {} else {}
    }
  }

  lemma InitSingleLines()
    ensures AllNoNewline(InitLines)
  {
    IniFoldSingleLines();
    StartPositionSingleLines();
    AllNoNewlineAppend(IniFoldLines, StartPositionLines);
  }

  lemma AdvanceSingleLines(advance: int)
    ensures AllNoNewline(AdvanceLines(advance))
  {
    WrappedRoundTrip("$ADVANCE = ", advance, "");
  }

  /** With a single-line program name, no preamble line holds a newline. */
  lemma PreambleSingleLines(name: string, advance: int, home: JointPoint)
    requires NoNewline(name)
    ensures AllNoNewline(PreambleLines(name, advance, home))
  {
    HeaderSingleLines(name);
    InitSingleLines();
    AdvanceSingleLines(advance);
    var h := HeaderLines(name);
    var m := HomeLines(home);
    AllNoNewlineAppend(h, InitLines);
    AllNoNewlineAppend(h + InitLines, m);
    AllNoNewlineAppend(h + InitLines + m, AdvanceLines(advance));
  }

  /**
    The constructor's lines: the four directives, the definition line naming the
    program upper-cased, two blank lines, the fixed initialisation block, the
    home move closing the start-position fold, and the look-ahead setting.
   */
  predicate PreambleShaped(name: string, advance: int, home: JointPoint, ls: seq<string>) {
    && |ls| == 25
    && ls[..4] == Directives
    && ParseDef(ls[4]) == Some(ToUpper(name)) && ls[5] == "" && ls[6] == ""
    && ls[7..20] == InitLines
    && ParseHomePtp(ls[20]) == Some(home) && ls[21] == ";ENDFOLD" && ls[22] == ""
    && ParseWrapped("$ADVANCE = ", "", ls[23]) == Some(advance) && ls[24] == ""
  }

  lemma PreambleShape(name: string, advance: int, home: JointPoint)
    ensures PreambleShaped(name, advance, home, PreambleLines(name, advance, home))
  {
    HeaderShape(name);
    InitLength();
    WrappedRoundTrip("$ADVANCE = ", advance, "");
    ShapedFromParts(name, advance, home, HeaderLines(name), InitLines, HomeLines(home), AdvanceLines(advance));
  }

  lemma ShapedFromParts(name: string, advance: int, home: JointPoint,
                        h: seq<string>, init: seq<string>, m: seq<string>, adv: seq<string>)
    requires |h| == 7 && h[..4] == Directives
    requires ParseDef(h[4]) == Some(ToUpper(name)) && h[5] == "" && h[6] == ""
    requires init == InitLines && |init| == 13
    requires |m| == 3 && ParseHomePtp(m[0]) == Some(home) && m[1] == ";ENDFOLD" && m[2] == ""
    requires |adv| == 2 && ParseWrapped("$ADVANCE = ", "", adv[0]) == Some(advance) && adv[1] == ""
    ensures PreambleShaped(name, advance, home, h + init + m + adv)
  {
    PartsAt(h, init, m, adv);
  }

  /** Where each part of a concatenation of a 7-, a 13-, a 3- and a 2-line block lands. */
  lemma PartsAt(h: seq<string>, init: seq<string>, m: seq<string>, adv: seq<string>)
    requires |h| == 7 && |init| == 13 && |m| == 3 && |adv| == 2
    ensures var ls := h + init + m + adv;
      && |ls| == 25 && ls[..4] == h[..4] && ls[4] == h[4] && ls[5] == h[5] && ls[6] == h[6]
      && ls[7..20] == init
      && ls[20] == m[0] && ls[21] == m[1] && ls[22] == m[2] && ls[23] == adv[0] && ls[24] == adv[1]
  {
  }

  lemma HeaderShape(name: string)
    ensures var h := HeaderLines(name);
      && |h| == 7 && h[..4] == Directives
      && ParseDef(h[4]) == Some(ToUpper(name)) && h[5] == "" && h[6] == ""
  {
    DefRoundTrip(name);
  }

  lemma InitLength()
    ensures |InitLines| == 13
  {
  }

  /** What `close` writes: a blank line and `END`. */
  const FooterLines: seq<string> := ["", "END"]

  lemma FooterSingleLines()
    ensures AllNoNewline(FooterLines)
  {
  }
}
