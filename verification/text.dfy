/**
  Strings as sequences of lines. A program file is written as lines, each
  followed by a newline; `Lines` is the independent reader that splits text back
  at its newlines, so claims about "the n-th line of the file" can be stated.
 */
module Text {

  predicate NoNewline(s: string) {
    '\n' !in s
  }

  predicate AllNoNewline(ls: seq<string>) {
    forall i :: 0 <= i < |ls| ==> NoNewline(ls[i])
  }

  predicate StartsWith(s: string, prefix: string) {
    |prefix| <= |s| && s[..|prefix|] == prefix
  }

  predicate EndsWith(s: string, suffix: string) {
    |suffix| <= |s| && s[|s| - |suffix|..] == suffix
  }

  /** The text that writes every line of `ls` in order, each followed by a newline. */
  function JoinLines(ls: seq<string>): (s: string)
    ensures |ls| > 0 ==> |s| > 0 && s[|s| - 1] == '\n'
    decreases |ls|
  {
    if ls == [] then "" else ls[0] + "\n" + JoinLines(ls[1..])
  }

  /** The position of the first `c` in `s`, or `|s|` when there is none. */
  function IndexOf(s: string, c: char): (k: nat)
    ensures k <= |s|
    ensures k < |s| ==> s[k] == c
    ensures forall j :: 0 <= j < k ==> s[j] != c
    decreases |s|
  {
    if |s| == 0 then 0 else if s[0] == c then 0 else 1 + IndexOf(s[1..], c)
  }

  /**
    Splits text at its newlines. A trailing newline ends the last line rather
    than opening an empty one; an unterminated tail is a line of its own.
   */
  function Lines(s: string): (ls: seq<string>)
    ensures AllNoNewline(ls)
    decreases |s|
  {
    if s == [] then []
    else
      var k := IndexOf(s, '\n');
      if k == |s| then [s] else [s[..k]] + Lines(s[k + 1..])
  }

  /** ASCII upper-casing of one character; every other character is kept. */
  function UpperChar(c: char): char {
    if 'a' <= c <= 'z' then (c as int - 32) as char else c
  }

  /** Upper-cases the ASCII letters of `s` and keeps everything else in place. */
  function ToUpper(s: string): (r: string)
    ensures |r| == |s|
    ensures forall i :: 0 <= i < |s| ==> !('a' <= r[i] <= 'z')
    ensures forall i :: 0 <= i < |s| && !('a' <= s[i] <= 'z') ==> r[i] == s[i]
    ensures forall i :: 0 <= i < |s| && 'a' <= s[i] <= 'z' ==> r[i] as int + 32 == s[i] as int
    ensures NoNewline(s) ==> NoNewline(r)
  {
    seq(|s|, i requires 0 <= i < |s| => UpperChar(s[i]))
  }

  /** When `a` holds no `c`, the first `c` in `a + [c] + b` is at `|a|`. */
  lemma {:induction false} IndexOfAfterPrefix(a: string, c: char, b: string)
    requires c !in a
    ensures IndexOf(a + [c] + b, c) == |a|
    decreases |a|
  {
    if a != [] {
      assert (a + [c] + b)[1..] == a[1..] + [c] + b;
      IndexOfAfterPrefix(a[1..], c, b);
    }
  }

  /** Reading back text that starts with whole lines yields those lines first. */
  lemma {:induction false} LinesOfJoinThen(ls: seq<string>, t: string)
    requires AllNoNewline(ls)
    ensures Lines(JoinLines(ls) + t) == ls + Lines(t)
    decreases |ls|
  {
    if ls != [] {
      var rest := JoinLines(ls[1..]) + t;
      assert NoNewline(ls[0]);
      calc {
        Lines(JoinLines(ls) + t);
        { assert JoinLines(ls) + t == ls[0] + "\n" + rest; }
        Lines(ls[0] + "\n" + rest);
        { LinesStep(ls[0], rest); }
        [ls[0]] + Lines(rest);
        { LinesOfJoinThen(ls[1..], t); }
        [ls[0]] + (ls[1..] + Lines(t));
        { assert ls == [ls[0]] + ls[1..]; }
        ls + Lines(t);
      }
    } else {
      assert JoinLines(ls) + t == t;
    }
  }

  /** One step of `Lines`: a newline-free line followed by its newline. */
  lemma LinesStep(line: string, rest: string)
    requires NoNewline(line)
    ensures Lines(line + "\n" + rest) == [line] + Lines(rest)
  {
    var s := line + "\n" + rest;
    IndexOfAfterPrefix(line, '\n', rest);
    assert s[..|line|] == line;
    assert s[|line| + 1..] == rest;
  }

  /** Joined lines end with a newline, so whatever is written next starts a fresh line. */
  /** One line written with its newline. */
  lemma JoinOne(line: string)
    ensures JoinLines([line]) == line + "\n"
  {
    assert JoinLines([line]) == line + "\n" + JoinLines([]);
  }

  lemma JoinEndsWithNewline(ls: seq<string>)
    ensures ls != [] ==> EndsWith(JoinLines(ls), "\n")
  {
    if ls != [] {
      var s := JoinLines(ls);
      assert s[|s| - 1..] == [s[|s| - 1]];
    }
  }

  /** Splitting the text of newline-free lines gives back exactly those lines. */
  lemma LinesOfJoin(ls: seq<string>)
    requires AllNoNewline(ls)
    ensures Lines(JoinLines(ls)) == ls
  {
    LinesOfJoinThen(ls, "");
    assert JoinLines(ls) + "" == JoinLines(ls);
  }

  /** Three blocks of newline-free lines, written one after another, read back as their concatenation. */
  lemma LinesOfJoinParts(a: seq<string>, b: seq<string>, c: seq<string>)
    requires AllNoNewline(a) && AllNoNewline(b) && AllNoNewline(c)
    ensures Lines(JoinLines(a + b + c)) == a + b + c
  {
    AllNoNewlineAppend(a, b);
    AllNoNewlineAppend(a + b, c);
    LinesOfJoin(a + b + c);
  }

  lemma AllNoNewlineAppend(a: seq<string>, b: seq<string>)
    requires AllNoNewline(a) && AllNoNewline(b)
    ensures AllNoNewline(a + b)
  {
  }

  lemma AppendAssoc(a: string, b: string, c: string)
    ensures (a + b) + c == a + (b + c)
  {
  }

  /** Writing two groups of lines one after the other writes their concatenation. */
  lemma {:induction false} JoinLinesAppend(a: seq<string>, b: seq<string>)
    ensures JoinLines(a + b) == JoinLines(a) + JoinLines(b)
    decreases |a|
  {
    if a == [] {
      assert a + b == b;
    } else {
      assert (a + b)[1..] == a[1..] + b;
      JoinLinesAppend(a[1..], b);
    }
  }
}
