/**
  The brace-enclosed field list shared by every pose template:
  `NAME value, NAME value, ..., NAME value` (a single space after each name,
  a comma and a space between entries). `ParseFields` reads such a list back.
 */
module Fields {
  import opened Wrappers
  import opened Decimal
  import opened Text

  /** One `NAME value` entry. */
  function Field(name: string, v: int): string {
    name + " " + IntToString(v)
  }

  /** The entries for `names` and `values`, pairwise and in order, separated by ", ". */
  function RenderFields(names: seq<string>, values: seq<int>): (s: string)
    requires |names| == |values| >= 1
    ensures AllNoNewline(names) ==> NoNewline(s)
    decreases |names|
  {
    NoOtherCharInNumber(values[0], '\n');
    if |names| == 1 then Field(names[0], values[0])
    else Field(names[0], values[0]) + ", " + RenderFields(names[1..], values[1..])
  }

  /**
    Reads a field list with exactly the given names, in that order. Each value
    runs up to the next comma (the last one to the end of the text).
   */
  function ParseFields(names: seq<string>, s: string): (r: Option<seq<int>>)
    ensures r.Some? ==> |r.value| == |names|
    decreases |names|
  {
    if |names| == 0 then None
    else
      var lead := names[0] + " ";
      if !StartsWith(s, lead) then None
      else
        var rest := s[|lead|..];
        if |names| == 1 then
          match ParseInt(rest)
          case Some(v) => Some([v])
          case None => None
        else
          var k := IndexOf(rest, ',');
          if k + 1 >= |rest| || rest[k + 1] != ' ' then None
          else
            match ParseInt(rest[..k])
            case None => None
            case Some(v) =>
              match ParseFields(names[1..], rest[k + 2..])
              case None => None
              case Some(vs) => Some([v] + vs)
  }

  /** A rendered number holds no comma, so the reader stops right after it. */
  lemma CommaAfterNumber(v: int, tail: string)
    ensures IndexOf(IntToString(v) + ", " + tail, ',') == |IntToString(v)|
  {
    var n := IntToString(v);
    NoOtherCharInNumber(v, ',');
    IndexOfAfterPrefix(n, ',', " " + tail);
    assert IntToString(v) + ", " + tail == n + [','] + (" " + tail);
  }

  /** A single entry reads back as its value. */
  lemma ParseLastField(name: string, v: int)
    ensures ParseFields([name], Field(name, v)) == Some([v])
  {
    var lead := name + " ";
    var s := Field(name, v);
    ParseIntRoundTrip(v);
    assert s[..|lead|] == lead;
    assert s[|lead|..] == IntToString(v);
  }

  /** An entry followed by `, ` reads back as its value, then whatever the rest reads as. */
  lemma ParseFieldThen(names: seq<string>, v: int, tail: string)
    requires |names| >= 2
    ensures ParseFields(names, Field(names[0], v) + ", " + tail)
              == match ParseFields(names[1..], tail)
                 case None => None
                 case Some(vs) => Some([v] + vs)
  {
    var lead := names[0] + " ";
    var n := IntToString(v);
    var s := Field(names[0], v) + ", " + tail;
    ParseIntRoundTrip(v);
    assert s == lead + (n + ", " + tail);
    assert s[..|lead|] == lead;
    var rest := s[|lead|..];
    assert rest == n + ", " + tail;
    CommaAfterNumber(v, tail);
    assert rest[..|n|] == n;
    assert rest[|n| + 2..] == tail;
  }

  lemma ParseRenderOneField(names: seq<string>, values: seq<int>)
    requires |names| == |values| == 1
    ensures ParseFields(names, RenderFields(names, values)) == Some(values)
  {
    assert names == [names[0]];
    assert values == [values[0]];
    assert RenderFields(names, values) == Field(names[0], values[0]);
    ParseLastField(names[0], values[0]);
  }

  /** A field list of two or more entries is its first entry, `, ` and the rest. */
  lemma RenderFieldsCons(names: seq<string>, values: seq<int>)
    requires |names| == |values| >= 2
    ensures RenderFields(names, values) == Field(names[0], values[0]) + ", " + RenderFields(names[1..], values[1..])
  {
  }

  /** If the tail of a field list reads back, so does the whole list. */
  lemma ParseRenderFieldsStep(names: seq<string>, values: seq<int>)
    requires |names| == |values| >= 2
    requires ParseFields(names[1..], RenderFields(names[1..], values[1..])) == Some(values[1..])
    ensures ParseFields(names, RenderFields(names, values)) == Some(values)
  {
    RenderFieldsCons(names, values);
    ParseFieldsOf(names, values, RenderFields(names, values), RenderFields(names[1..], values[1..]));
  }

  /** A first entry, `, ` and a tail that reads back as the remaining values read back as all the values. */
  lemma ParseFieldsOf(names: seq<string>, values: seq<int>, s: string, tail: string)
    requires |names| == |values| >= 2
    requires s == Field(names[0], values[0]) + ", " + tail
    requires ParseFields(names[1..], tail) == Some(values[1..])
    ensures ParseFields(names, s) == Some(values)
  {
    ParseFieldCons(names, values[0], tail, values[1..]);
    assert [values[0]] + values[1..] == values;
  }

  lemma ParseFieldCons(names: seq<string>, v: int, tail: string, vs: seq<int>)
    requires |names| >= 2
    requires ParseFields(names[1..], tail) == Some(vs)
    ensures ParseFields(names, Field(names[0], v) + ", " + tail) == Some([v] + vs)
  {
    ParseFieldThen(names, v, tail);
  }

  /** Reading back a rendered field list gives back its values. */
  lemma {:induction false} ParseRenderFields(names: seq<string>, values: seq<int>)
    requires |names| == |values| >= 1
    ensures ParseFields(names, RenderFields(names, values)) == Some(values)
    decreases |names|
  {
    if |names| == 1 {
      ParseRenderOneField(names, values);
    } else {
      ParseRenderFields(names[1..], values[1..]);
      ParseRenderFieldsStep(names, values);
    }
  }
}
