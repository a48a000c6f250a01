/**
  Text files read line by line, as Python's `readline()` does in text mode:
  each call returns the text up to and including the next `\n`, the last
  line may lack its `\n`, and the empty string means end of file.
 */
module TextFile {

  /** A line as `readline()` returns it when more text follows: it ends in
      its only `\n`. */
  predicate Terminated(line: string) {
    |line| > 0 && line[|line| - 1] == '\n' && '\n' !in line[..|line| - 1]
  }

  /** Length of the first line of `s`: up to and including the first `\n`,
      or all of `s` when it has none. */
  function LineEnd(s: string): (n: nat)
    ensures n <= |s|
    ensures s != [] ==> n > 0
    ensures n == |s| || s[n - 1] == '\n'
    ensures forall i :: 0 <= i < n - 1 ==> s[i] != '\n'
  {
    if s == [] then 0 else if s[0] == '\n' then 1 else 1 + LineEnd(s[1..])
  }

  /** One `readline()` on the unread text `s`: the line read and the text
      left unread. */
  function ReadLine(s: string): (p: (string, string))
    ensures p.0 + p.1 == s
    ensures p.0 == [] <==> s == []
    ensures p.0 != [] ==> '\n' !in p.0[..|p.0| - 1]
    ensures p.1 != [] ==> Terminated(p.0)
  {
    var n := LineEnd(s);
    assert s[..n] + s[n..] == s;
    (s[..n], s[n..])
  }

  /** Every line that successive `readline()` calls return before end of file. */
  function SplitLines(s: string): (lines: seq<string>)
    ensures forall i :: 0 <= i < |lines| ==> lines[i] != [] && '\n' !in lines[i][..|lines[i]| - 1]
    ensures forall i :: 0 <= i < |lines| - 1 ==> Terminated(lines[i])
    ensures s != [] && s[|s| - 1] == '\n' ==> forall i :: 0 <= i < |lines| ==> Terminated(lines[i])
    decreases |s|
  {
    var p := ReadLine(s);
    if p.0 == [] then [] else [p.0] + SplitLines(p.1)
  }

  /** The lines not yet processed, when `line` was read last and `rest` is unread. */
  function Unread(line: string, rest: string): seq<string> {
    if line == [] then [] else [line] + SplitLines(rest)
  }

  /** The lines of a text hold only characters of the text. */
  lemma {:induction false} SplitLinesOmit(s: string, c: char)
    requires c !in s
    ensures forall i :: 0 <= i < |SplitLines(s)| ==> c !in SplitLines(s)[i]
    decreases |s|
  {
    var p := ReadLine(s);
    if p.0 != [] {
      SplitLinesOmit(p.1, c);
    }
  }

  /** The lines still to come are the line read next and those after it. */
  lemma ReadLineUnread(s: string)
    ensures Unread(ReadLine(s).0, ReadLine(s).1) == SplitLines(s)
  {
  }

  /** The text of a sequence of lines written one after another. */
  function Join(lines: seq<string>): string {
    if lines == [] then [] else lines[0] + Join(lines[1..])
  }

  /** Reading a file line by line and writing the lines back gives the file. */
  lemma {:induction false} JoinSplitLines(s: string)
    ensures Join(SplitLines(s)) == s
    decreases |s|
  {
    var p := ReadLine(s);
    if p.0 != [] {
      JoinSplitLines(p.1);
    }
  }

  lemma {:induction false} JoinAppend(a: seq<string>, b: seq<string>)
    ensures Join(a + b) == Join(a) + Join(b)
  {
    if a != [] {
      assert (a + b)[0] == a[0];
      assert (a + b)[1..] == a[1..] + b;
      JoinAppend(a[1..], b);
    } else {
      assert a + b == b;
    }
  }

  lemma {:induction false} LineEndTerminated(line: string, rest: string)
    requires Terminated(line)
    ensures LineEnd(line + rest) == |line|
  {
    if |line| > 1 {
      assert line[1..][..|line| - 2] == line[1..|line| - 1];
      assert (line + rest)[1..] == line[1..] + rest;
      LineEndTerminated(line[1..], rest);
    }
  }

  /** Lines that each end in their only `\n`, written out and followed by any
      text `t`, read back as those lines followed by the lines of `t`. */
  lemma {:induction false} SplitJoinAppend(lines: seq<string>, t: string)
    requires forall i :: 0 <= i < |lines| ==> Terminated(lines[i])
    ensures SplitLines(Join(lines) + t) == lines + SplitLines(t)
  {
    if lines == [] {
      assert Join(lines) + t == t;
    } else {
      var rest := Join(lines[1..]) + t;
      var s := Join(lines) + t;
      assert s == lines[0] + rest;
      LineEndTerminated(lines[0], rest);
      assert s[..|lines[0]|] == lines[0] && s[|lines[0]|..] == rest;
      assert ReadLine(s) == (lines[0], rest);
      assert SplitLines(s) == [lines[0]] + SplitLines(rest);
      SplitJoinAppend(lines[1..], t);
      Recons(lines, SplitLines(t));
    }
  }

  lemma SplitJoin(lines: seq<string>)
    requires forall i :: 0 <= i < |lines| ==> Terminated(lines[i])
    ensures SplitLines(Join(lines)) == lines
  {
    SplitJoinAppend(lines, []);
    assert Join(lines) + [] == Join(lines);
    assert lines + [] == lines;
  }

  lemma Recons<T>(xs: seq<T>, ys: seq<T>)
    requires xs != []
    ensures [xs[0]] + (xs[1..] + ys) == xs + ys
  {
    assert xs == [xs[0]] + xs[1..];
  }
}
