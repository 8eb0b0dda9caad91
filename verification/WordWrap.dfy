/** Wrapping chat messages. A character is one byte of the message. */
module WordWraps {

  predicate NoSpace(s: string) {
    forall k :: 0 <= k < |s| ==> s[k] != ' '
  }

  /** strings.LastIndex(s, " ") */
  method LastSpace(s: string) returns (i: int)
    ensures -1 <= i < |s|
    ensures i >= 0 ==> s[i] == ' ' && NoSpace(s[i + 1..])
    ensures i < 0 ==> NoSpace(s)
  {
    i := |s| - 1;
    while i >= 0 && s[i] != ' '
      invariant -1 <= i < |s|
      invariant NoSpace(s[i + 1..])
    {
      i := i - 1;
    }
  }

  function Split(message: string): (lines: seq<string>)
    ensures |lines| >= 1
  {
    if message == "" then [""]
    else if message[0] == '\n' then [""] + Split(message[1..])
    else
      var rest := Split(message[1..]);
      [[message[0]] + rest[0]] + rest[1..]
  }

  function Join(lines: seq<string>): string {
    if |lines| == 0 then ""
    else if |lines| == 1 then lines[0]
    else lines[0] + " " + Join(lines[1..])
  }

  /** The message with each newline turned into a space. */
  function Flat(message: string): (r: string)
    ensures |r| == |message|
    ensures forall k :: 0 <= k < |r| ==> r[k] == if message[k] == '\n' then ' ' else message[k]
  {
    seq(|message|, k requires 0 <= k < |message| => if message[k] == '\n' then ' ' else message[k])
  }

  /** A break of the line at position i: the latest space that leaves at most `width` characters
      in front of it, or, if there is none, the last space of all. */
  predicate BreakAt(line: string, width: nat, i: nat) {
    && |line| > width
    && i < |line| && line[i] == ' '
    && (if i <= width then NoSpace(line[i + 1..width + 1])
        else NoSpace(line[..width + 1]) && NoSpace(line[i + 1..]))
  }

  /** A line that is not broken: it fits, or there is nowhere to break it. */
  predicate Unbroken(line: string, width: nat) {
    |line| <= width || NoSpace(line)
  }

  /** `out` is the line, broken as late as possible, until the rest needs no break. */
  predicate Wrapped(line: string, width: nat, out: seq<string>) {
    && |out| >= 1
    && if |out| == 1 then out[0] == line && Unbroken(line, width)
       else
         && |out[0]| < |line| && line[..|out[0]|] == out[0]
         && BreakAt(line, width, |out[0]|)
         && Wrapped(line[|out[0]| + 1..], width, out[1..])
  }

  /** Each line of the message is wrapped on its own. */
  predicate AllWrapped(lines: seq<string>, width: nat, parts: seq<seq<string>>) {
    |lines| == |parts| && forall k :: 0 <= k < |lines| ==> Wrapped(lines[k], width, parts[k])
  }

  function Concat(parts: seq<seq<string>>): seq<string> {
    if parts == [] then [] else Concat(parts[..|parts| - 1]) + parts[|parts| - 1]
  }

  // ------------------------------------------------------------------
  // Laws of wrapping.

  /** Joining the pieces with single spaces gives the line back. */
  lemma {:induction false} WrappedJoins(line: string, width: nat, out: seq<string>)
    requires Wrapped(line, width, out)
    ensures Join(out) == line
    decreases |line|
  {
    if |out| > 1 {
      var i := |out[0]|;
      WrappedJoins(line[i + 1..], width, out[1..]);
      assert line == line[..i] + [' '] + line[i + 1..];
    }
  }

  /** A line is wrapped in exactly one way. */
  lemma {:induction false} WrappedUnique(line: string, width: nat, a: seq<string>, b: seq<string>)
    requires Wrapped(line, width, a) && Wrapped(line, width, b)
    ensures a == b
    decreases |line|
  {
    if |a| == 1 || |b| == 1 {
      OneBreakOrNone(line, width, if |a| == 1 then b else a);
    } else {
      SameBreak(line, width, |a[0]|, |b[0]|);
      WrappedUnique(line[|a[0]| + 1..], width, a[1..], b[1..]);
      assert a == [a[0]] + a[1..] && b == [b[0]] + b[1..];
    }
  }

  /** No later space would have left a piece that fits, and a piece that does not fit has no
      space early enough. */
  lemma LatestBreak(line: string, width: nat, i: nat, j: nat)
    requires BreakAt(line, width, i)
    ensures i < j < |line| && line[j] == ' ' ==> i <= width < j
    ensures j <= width < i ==> line[j] != ' '
  {
    if i < j < |line| && i > width {
      assert line[i + 1..][j - i - 1] == line[j];
    } else if i < j <= width {
      assert line[i + 1..width + 1][j - i - 1] == line[j];
    } else if j <= width < i {
      assert line[..width + 1][j] == line[j];
    }
  }

  lemma SameBreak(line: string, width: nat, i: nat, j: nat)
    requires BreakAt(line, width, i) && BreakAt(line, width, j)
    ensures i == j
  {
    LatestBreak(line, width, i, j);
    LatestBreak(line, width, j, i);
  }

  lemma OneBreakOrNone(line: string, width: nat, out: seq<string>)
    requires Wrapped(line, width, out) && Unbroken(line, width)
    ensures |out| == 1
  {
    if |out| > 1 {
      assert false;
    }
  }

  /** Each piece is at most `width` long or has no space in its first `width + 1` characters. */
  lemma {:induction false} WrappedFits(line: string, width: nat, out: seq<string>, k: nat)
    requires Wrapped(line, width, out) && k < |out|
    ensures |out[k]| <= width || NoSpace(out[k][..width + 1])
    decreases |line|
  {
    if k > 0 {
      WrappedFits(line[|out[0]| + 1..], width, out[1..], k - 1);
    } else if |out| > 1 && |out[0]| > width {
      assert out[0][..width + 1] == line[..width + 1];
    }
  }

  /** A piece that fits is as long as it can be: with the next piece up to any of its word ends it would
      not fit. */
  lemma {:induction false} Greedy(line: string, width: nat, out: seq<string>, k: nat, j: nat)
    requires Wrapped(line, width, out) && k + 1 < |out| && |out[k]| <= width
    requires j <= |out[k + 1]| && (j == |out[k + 1]| || out[k + 1][j] == ' ')
    ensures |out[k]| + 1 + j > width
    decreases |line|
  {
    var i := |out[0]|;
    if k > 0 {
      Greedy(line[i + 1..], width, out[1..], k - 1, j);
    } else {
      var rest := line[i + 1..];
      assert Wrapped(rest, width, out[1..]);
      if i + 1 + j < |line| {
        assert line[i + 1 + j] == rest[j];
        LatestBreak(line, width, i, i + 1 + j);
      }
    }
  }

  /** A piece that is too long is the last but one: no space follows it. */
  lemma {:induction false} TooLong(line: string, width: nat, out: seq<string>, k: nat)
    requires Wrapped(line, width, out) && k + 1 < |out| && |out[k]| > width
    ensures |out| == k + 2 && NoSpace(out[k + 1])
    decreases |line|
  {
    if k > 0 {
      TooLong(line[|out[0]| + 1..], width, out[1..], k - 1);
    } else {
      OneBreakOrNone(line[|out[0]| + 1..], width, out[1..]);
    }
  }

  /** Lines put together again with newlines. */
  function Unsplit(lines: seq<string>): string {
    if |lines| == 0 then ""
    else if |lines| == 1 then lines[0]
    else lines[0] + ['\n'] + Unsplit(lines[1..])
  }

  /** The lines of a message are what lies between its newlines. */
  lemma {:induction false} SplitLines(message: string)
    ensures Unsplit(Split(message)) == message
    ensures forall k :: 0 <= k < |Split(message)| ==> '\n' !in Split(message)[k]
  {
    if message != "" {
      var rest := Split(message[1..]);
      SplitLines(message[1..]);
      if message[0] == '\n' {
        assert ([""] + rest)[1..] == rest;
        assert message == [message[0]] + message[1..];
      } else {
        UnsplitHead(message[0], rest);
        assert message == [message[0]] + message[1..];
      }
    }
  }

  lemma UnsplitHead(c: char, lines: seq<string>)
    requires |lines| >= 1
    ensures Unsplit([[c] + lines[0]] + lines[1..]) == [c] + Unsplit(lines)
  {
    var rest := lines[1..];
    assert ([[c] + lines[0]] + rest)[1..] == rest;
    AppendAssociative([c], lines[0], ['\n'], Unsplit(rest));
  }

  lemma {:induction false} JoinAppend(a: seq<string>, b: seq<string>)
    requires |a| >= 1 && |b| >= 1
    ensures Join(a + b) == Join(a) + " " + Join(b)
  {
    if |a| == 1 {
      assert (a + b)[1..] == b;
    } else {
      JoinAppend(a[1..], b);
      assert (a + b)[1..] == a[1..] + b;
    }
  }

  lemma {:induction false} SplitJoins(message: string)
    ensures Join(Split(message)) == Flat(message)
  {
    if message == "" {
    } else {
      var rest := Split(message[1..]);
      SplitJoins(message[1..]);
      assert Flat(message) == [Flat(message)[0]] + Flat(message[1..]);
      if message[0] == '\n' {
        assert ([""] + rest)[1..] == rest;
      } else {
        JoinHead(message[0], rest);
      }
    }
  }

  lemma JoinFirst(first: string, rest: seq<string>)
    ensures Join([first] + rest) == if rest == [] then first else first + " " + Join(rest)
  {
    assert ([first] + rest)[1..] == rest;
  }

  lemma JoinHead(c: char, lines: seq<string>)
    requires |lines| >= 1
    ensures Join([[c] + lines[0]] + lines[1..]) == [c] + Join(lines)
  {
    hide Join;
    var rest := lines[1..];
    JoinFirst([c] + lines[0], rest);
    JoinFirst(lines[0], rest);
    assert [lines[0]] + rest == lines;
    AppendAssociative([c], lines[0], " ", Join(rest));
  }

  lemma AppendAssociative(a: string, b: string, c: string, d: string)
    ensures a + b + c + d == a + (b + c + d)
  {
  }

  lemma {:induction false} AllWrappedJoins(lines: seq<string>, width: nat, parts: seq<seq<string>>)
    requires AllWrapped(lines, width, parts) && |lines| >= 1
    ensures |Concat(parts)| >= 1 && Join(Concat(parts)) == Join(lines)
  {
    var n := |lines| - 1;
    WrappedJoins(lines[n], width, parts[n]);
    if n == 0 {
      assert Concat(parts) == parts[0];
    } else {
      AllWrappedJoins(lines[..n], width, parts[..n]);
      JoinAppend(Concat(parts[..n]), parts[n]);
      JoinAppend(lines[..n], [lines[n]]);
      assert lines[..n] + [lines[n]] == lines;
    }
  }

  lemma {:induction false} AllFit(lines: seq<string>, width: nat, parts: seq<seq<string>>, k: nat)
    requires AllWrapped(lines, width, parts) && k < |Concat(parts)|
    ensures |Concat(parts)[k]| <= width || NoSpace(Concat(parts)[k][..width + 1])
    decreases |parts|
  {
    var n := |parts| - 1;
    var before := Concat(parts[..n]);
    if k < |before| {
      AllFit(lines[..n], width, parts[..n], k);
    } else {
      WrappedFits(lines[n], width, parts[n], k - |before|);
    }
  }

  lemma WrapStep(full: string, line: string, width: nat, i: nat, done: seq<string>)
    requires forall tail :: Wrapped(line, width, tail) ==> Wrapped(full, width, done + tail)
    requires BreakAt(line, width, i)
    ensures forall tail :: Wrapped(line[i + 1..], width, tail) ==> Wrapped(full, width, done + [line[..i]] + tail)
  {
    forall tail | Wrapped(line[i + 1..], width, tail)
      ensures Wrapped(full, width, done + [line[..i]] + tail)
    {
      var longer := [line[..i]] + tail;
      assert longer[1..] == tail;
      assert Wrapped(line, width, longer);
      assert done + longer == done + [line[..i]] + tail;
    }
  }

  lemma NothingDone(line: string, width: nat)
    ensures forall tail :: Wrapped(line, width, tail) ==> Wrapped(line, width, [] + tail)
  {
    forall tail | Wrapped(line, width, tail)
      ensures Wrapped(line, width, [] + tail)
    {
      assert [] + tail == tail;
    }
  }

  /** The inner loop of WordWrap. */
  method WrapLine(whole: string, width: nat) returns (out: seq<string>)
    ensures Wrapped(whole, width, out)
  {
    var line := whole;
    out := [];
    NothingDone(whole, width);
    while true
      invariant forall tail :: Wrapped(line, width, tail) ==> Wrapped(whole, width, out + tail)
      decreases |line|
    {
      if |line| <= width {
        break;
      }
      var i := LastSpace(line[..width + 1]);
      if i < 0 {
        i := LastSpace(line);
        if i < 0 {
          break;
        }
      }
      assert BreakAt(line, width, i);
      WrapStep(whole, line, width, i, out);
      out := out + [line[..i]];
      line := line[i + 1..];
    }
    assert Wrapped(line, width, [line]);
    out := out + [line];
  }

  method WordWrap(message: string, width: nat) returns (result: seq<string>, ghost parts: seq<seq<string>>)
    ensures AllWrapped(Split(message), width, parts) && result == Concat(parts)
    ensures Join(result) == Flat(message)
    ensures forall k :: 0 <= k < |result| ==>
              |result[k]| <= width || NoSpace(result[k][..width + 1])
  {
    hide Wrapped;
    result, parts := [], [];
    var lines := Split(message);
    for n := 0 to |lines|
      invariant |parts| == n && AllWrapped(lines[..n], width, parts) && result == Concat(parts)
    {
      var out := WrapLine(lines[n], width);
      result := result + out;
      parts := parts + [out];
      assert parts[..n] + [out] == parts;
    }
    assert lines[..|lines|] == lines;
    SplitJoins(message);
    AllWrappedJoins(lines, width, parts);
    forall k | 0 <= k < |result|
      ensures |result[k]| <= width || NoSpace(result[k][..width + 1])
    {
      AllFit(lines, width, parts, k);
    }
  }
}
