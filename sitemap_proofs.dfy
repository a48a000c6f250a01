/**
  What the sitemap generator promises, proved about the model: how each kind
  of line is read, where every entry comes from, how `parse` groups
  priorities, that `parse` output reads back through `generate`, and what
  `add` makes of an existing sitemap and a new file.
 */
module SitemapProofs {
  import opened PyFloat
  import opened TextFile
  import opened SitemapGenerator

  // ---------------------------------------------------------------------
  // Reading lines (generate)
  // ---------------------------------------------------------------------

  /** Every entry of one run carries the run's single date and "monthly";
      there is at most one entry per line. */
  lemma {:induction false} ScanStamps(lines: seq<string>, current: string, date: string)
    ensures |Scan(lines, current, date)| <= |lines|
    ensures forall k :: 0 <= k < |Scan(lines, current, date)| ==>
      Scan(lines, current, date)[k].lastmod == date && Scan(lines, current, date)[k].changefreq == Monthly
  {
    if lines != [] {
      ScanStamps(lines[1..], Next(current, lines[0]), date);
    }
  }

  /** Reading `a` and then `b` is reading `a + b`: the priority in force
      after `a` carries into `b`. */
  lemma {:induction false} ScanAppend(a: seq<string>, b: seq<string>, current: string, date: string)
    ensures Scan(a + b, current, date) == Scan(a, current, date) + Scan(b, After(a, current), date)
    ensures After(a + b, current) == After(b, After(a, current))
  {
    if a == [] {
      NilAppend(b);
      NilAppend(Scan(b, current, date));
    } else {
      var n := Next(current, a[0]);
      assert a == [a[0]] + a[1..];
      Assoc([a[0]], a[1..], b);
      ScanCons(a[0], a[1..] + b, current, date);
      ScanCons(a[0], a[1..], current, date);
      ScanAppend(a[1..], b, n, date);
      var first := if Classify(a[0]) == UrlLine then [UrlEntry(Chop(a[0]), date, Monthly, current)] else [];
      Assoc(first, Scan(a[1..], n, date), Scan(b, After(a[1..], n), date));
      if first == [] {
        NilAppend(Scan(a[1..] + b, n, date));
        NilAppend(Scan(a[1..], n, date));
      }
    }
  }

  /** The effect of one line in the middle of a file: a blank line adds no
      entry and keeps the priority; a priority line adds no entry and makes
      its text, without the newline, the priority; any other line adds one
      entry, its text without the newline at the current priority. */
  lemma LineEffect(a: seq<string>, line: string, b: seq<string>, current: string, date: string)
    ensures line == "\n" ==>
      Scan(a + [line] + b, current, date) == Scan(a + b, current, date) &&
      After(a + [line] + b, current) == After(a + b, current)
    ensures Classify(line) == PriorityLine ==>
      Scan(a + [line] + b, current, date) == Scan(a, current, date) + Scan(b, Chop(line), date) &&
      After(a + [line], current) == Chop(line)
    ensures Classify(line) == UrlLine ==>
      Scan(a + [line] + b, current, date) ==
        Scan(a, current, date) + [UrlEntry(Chop(line), date, Monthly, After(a, current))] + Scan(b, After(a, current), date)
  {
    var p := After(a, current);
    Assoc(a, [line], b);
    ScanAppend(a, [line] + b, current, date);
    ScanAppend(a, b, current, date);
    ScanAppend(a, [line], current, date);
    ScanCons(line, b, p, date);
    ScanCons(line, [], p, date);
    if Classify(line) == UrlLine {
      Assoc(Scan(a, current, date), [UrlEntry(Chop(line), date, Monthly, p)], Scan(b, p, date));
    }
  }

  /** `generate` fails exactly when the first line read is not a number; so
      an empty file and a file whose first line is blank fail. */
  lemma GenerateRejects(lines: seq<string>, date: string)
    ensures GenerateLines(lines, date) == FormatError <==> lines == [] || !IsNumber(lines[0])
    ensures lines == [] || lines[0] == "\n" ==> GenerateLines(lines, date) == FormatError
    ensures GenerateText("", date) == FormatError
  {
    BlankIsNotNumber("");
    BlankIsNotNumber("\n");
  }

  /** Only a line that is exactly `"\n"` is skipped: any other line of
      whitespace is no number and becomes an entry. */
  lemma SpaceLineIsUrl(line: string)
    requires line != [] && line != "\n"
    requires forall i :: 0 <= i < |line| ==> IsSpace(line[i])
    ensures Classify(line) == UrlLine
  {
    BlankIsNotNumber(line);
  }

  /** A blank line after the first line changes nothing in the result of
      `generate`; blank lines never become entries. */
  lemma BlankLineIgnored(a: seq<string>, b: seq<string>, date: string)
    requires a != []
    ensures GenerateLines(a + ["\n"] + b, date) == GenerateLines(a + b, date)
  {
    var x := a + ["\n"] + b;
    assert x[0] == a[0] && (a + b)[0] == a[0];
    assert x[1..] == a[1..] + ["\n"] + b;
    assert (a + b)[1..] == a[1..] + b;
    LineEffect(a[1..], "\n", b, Chop(a[0]), date);
  }

  // ---------------------------------------------------------------------
  // Where each entry comes from
  // ---------------------------------------------------------------------

  function Shift(s: seq<nat>): (r: seq<nat>)
    ensures |r| == |s| && forall k :: 0 <= k < |s| ==> r[k] == s[k] + 1
  {
    seq(|s|, k requires 0 <= k < |s| => s[k] + 1)
  }

  /** The positions of the URL lines of `lines`, in increasing order. */
  function UrlIndices(lines: seq<string>): (idx: seq<nat>)
    ensures |idx| <= |lines|
    ensures forall k :: 0 <= k < |idx| ==> idx[k] < |lines|
  {
    if lines == [] then []
    else
      var tail := Shift(UrlIndices(lines[1..]));
      if Classify(lines[0]) == UrlLine then [0] + tail else tail
  }

  /** The positions listed are those of URL lines, in increasing order. */
  lemma {:induction false} UrlIndicesOrdered(lines: seq<string>)
    ensures forall k :: 0 <= k < |UrlIndices(lines)| ==> Classify(lines[UrlIndices(lines)[k]]) == UrlLine
    ensures forall k, k' :: 0 <= k < k' < |UrlIndices(lines)| ==> UrlIndices(lines)[k] < UrlIndices(lines)[k']
  {
    if lines != [] {
      UrlIndicesOrdered(lines[1..]);
      var idx, tidx := UrlIndices(lines), UrlIndices(lines[1..]);
      forall k | 0 <= k < |idx|
        ensures Classify(lines[idx[k]]) == UrlLine
      {
        if idx[k] != 0 {
          var k' := if Classify(lines[0]) == UrlLine then k - 1 else k;
          assert idx[k] == tidx[k'] + 1;
          assert lines[1..][tidx[k']] == lines[idx[k]];
        }
      }
    }
  }

  /** Every URL line is listed. */
  lemma {:induction false} UrlIndicesComplete(lines: seq<string>, j: nat)
    requires j < |lines| && Classify(lines[j]) == UrlLine
    ensures j in UrlIndices(lines)
  {
    if j > 0 {
      assert lines[1..][j - 1] == lines[j];
      UrlIndicesComplete(lines[1..], j - 1);
      var tidx := UrlIndices(lines[1..]);
      var k :| 0 <= k < |tidx| && tidx[k] == j - 1;
      var idx := UrlIndices(lines);
      assert idx[if Classify(lines[0]) == UrlLine then k + 1 else k] == j;
    }
  }

  lemma AfterPrefix(lines: seq<string>, j: nat, current: string)
    requires j < |lines|
    ensures After(lines[..j + 1], current) == After(lines[1..][..j], Next(current, lines[0]))
  {
    var x := lines[..j + 1];
    assert x[0] == lines[0];
    assert x[1..] == lines[1..][..j];
  }

  /** One entry per URL line. */
  lemma {:induction false} ScanLength(lines: seq<string>, current: string, date: string)
    ensures |Scan(lines, current, date)| == |UrlIndices(lines)|
  {
    if lines != [] {
      ScanLength(lines[1..], Next(current, lines[0]), date);
    }
  }

  /** Entry `k` of a read comes from the `k`-th URL line `j`: its location
      is that line without its newline, and its priority is the one in force
      after the lines before `j`. */
  lemma {:induction false} ScanAt(lines: seq<string>, current: string, date: string, k: nat)
    requires k < |UrlIndices(lines)|
    ensures k < |Scan(lines, current, date)|
    ensures Scan(lines, current, date)[k] ==
      UrlEntry(Chop(lines[UrlIndices(lines)[k]]), date, Monthly, After(lines[..UrlIndices(lines)[k]], current))
  {
    ScanLength(lines, current, date);
    var tail := lines[1..];
    var n := Next(current, lines[0]);
    var idx, tidx := UrlIndices(lines), UrlIndices(tail);
    var url := Classify(lines[0]) == UrlLine;
    if url && k == 0 {
      assert idx[0] == 0 && lines[..0] == [];
    } else {
      var k' := if url then k - 1 else k;
      assert k' < |tidx| && idx[k] == tidx[k'] + 1;
      ScanAt(tail, n, date, k');
      var j := tidx[k'];
      assert Scan(lines, current, date)[k] == Scan(tail, n, date)[k'] by {
        assert Scan(lines, current, date) == if url then [UrlEntry(Chop(lines[0]), date, Monthly, current)] + Scan(tail, n, date) else Scan(tail, n, date);
      }
      assert tail[j] == lines[j + 1];
      AfterPrefix(lines, j, current);
    }
  }

  lemma ScanProvenance(lines: seq<string>, current: string, date: string)
    ensures |Scan(lines, current, date)| == |UrlIndices(lines)|
    ensures forall k :: 0 <= k < |UrlIndices(lines)| ==>
      Scan(lines, current, date)[k] ==
        UrlEntry(Chop(lines[UrlIndices(lines)[k]]), date, Monthly, After(lines[..UrlIndices(lines)[k]], current))
  {
    ScanLength(lines, current, date);
    forall k | 0 <= k < |UrlIndices(lines)|
      ensures Scan(lines, current, date)[k] ==
        UrlEntry(Chop(lines[UrlIndices(lines)[k]]), date, Monthly, After(lines[..UrlIndices(lines)[k]], current))
    {
      ScanAt(lines, current, date, k);
    }
  }

  /** Without a priority line the priority stays what it was. */
  lemma {:induction false} AfterNoPriority(lines: seq<string>, current: string)
    requires forall t :: 0 <= t < |lines| ==> Classify(lines[t]) != PriorityLine
    ensures After(lines, current) == current
  {
    if lines != [] {
      AfterNoPriority(lines[1..], current);
    }
  }

  /** The priority after some lines is the text of the last priority line
      among them, without its newline. */
  lemma {:induction false} AfterLastPriority(lines: seq<string>, current: string, m: nat)
    requires m < |lines| && Classify(lines[m]) == PriorityLine
    requires forall t :: m < t < |lines| ==> Classify(lines[t]) != PriorityLine
    ensures After(lines, current) == Chop(lines[m])
  {
    if m == 0 {
      AfterNoPriority(lines[1..], Chop(lines[0]));
    } else {
      AfterLastPriority(lines[1..], Next(current, lines[0]), m - 1);
    }
  }

  /** The last priority line before position `j`, when the first line is one. */
  function LastPriorityBefore(lines: seq<string>, j: nat): (m: nat)
    requires 0 < j <= |lines| && Classify(lines[0]) == PriorityLine
    ensures m < j && Classify(lines[m]) == PriorityLine
    ensures forall t :: m < t < j ==> Classify(lines[t]) != PriorityLine
  {
    if Classify(lines[j - 1]) == PriorityLine then j - 1 else LastPriorityBefore(lines, j - 1)
  }

  /** `p` is the text of the most recent priority line before line `j`. */
  ghost predicate MostRecentPriority(lines: seq<string>, j: nat, p: string) {
    exists m :: 0 <= m < j <= |lines| && Classify(lines[m]) == PriorityLine && p == Chop(lines[m]) &&
      forall t :: m < t < j ==> Classify(lines[t]) != PriorityLine
  }

  /** What a successful `generate` produces: one entry per URL line, in
      file order, whose location is the line without its newline, whose
      priority is the most recent priority line before it, and whose date
      and change frequency are the run's. */
  lemma GenerateEntries(lines: seq<string>, date: string)
    requires GenerateLines(lines, date).Ok?
    ensures |GenerateLines(lines, date).value| == |UrlIndices(lines)|
    ensures forall k :: 0 <= k < |UrlIndices(lines)| ==>
      var e, j := GenerateLines(lines, date).value[k], UrlIndices(lines)[k];
      e.loc == Chop(lines[j]) && e.lastmod == date && e.changefreq == Monthly &&
      MostRecentPriority(lines, j, e.priority)
  {
    BlankIsNotNumber("\n");
    ScanLength(lines[1..], Chop(lines[0]), date);
    forall k | 0 <= k < |UrlIndices(lines)|
      ensures var e, j := GenerateLines(lines, date).value[k], UrlIndices(lines)[k];
        e.loc == Chop(lines[j]) && e.lastmod == date && e.changefreq == Monthly &&
        MostRecentPriority(lines, j, e.priority)
    {
      GenerateEntryAt(lines, date, k);
    }
  }

  /** `GenerateEntries` for the entry of the `k`-th URL line. */
  lemma GenerateEntryAt(lines: seq<string>, date: string, k: nat)
    requires lines != [] && IsNumber(lines[0]) && k < |UrlIndices(lines)|
    ensures k < |Scan(lines[1..], Chop(lines[0]), date)|
    ensures var e, j := Scan(lines[1..], Chop(lines[0]), date)[k], UrlIndices(lines)[k];
      e.loc == Chop(lines[j]) && e.lastmod == date && e.changefreq == Monthly &&
      MostRecentPriority(lines, j, e.priority)
  {
    BlankIsNotNumber("\n");
    assert Classify(lines[0]) == PriorityLine;
    var tail := lines[1..];
    var tidx := UrlIndices(tail);
    assert UrlIndices(lines) == Shift(tidx);
    ScanAt(tail, Chop(lines[0]), date, k);
    var j := UrlIndices(lines)[k];
    assert j == tidx[k] + 1 && tail[tidx[k]] == lines[j];
    AfterPrefix(lines, tidx[k], Chop(lines[0]));
    var m := LastPriorityBefore(lines, j);
    AfterLastPriority(lines[..j], Chop(lines[0]), m);
  }

  /** URL lines before the first priority line of a read take the priority
      the read started with. */
  lemma InheritedPriority(lines: seq<string>, current: string, date: string, k: nat)
    requires k < |UrlIndices(lines)|
    requires forall t :: 0 <= t < UrlIndices(lines)[k] ==> Classify(lines[t]) != PriorityLine
    ensures k < |Scan(lines, current, date)| && Scan(lines, current, date)[k].priority == current
  {
    ScanProvenance(lines, current, date);
    AfterNoPriority(lines[..UrlIndices(lines)[k]], current);
  }

  // ---------------------------------------------------------------------
  // Writing entries back as text (parse)
  // ---------------------------------------------------------------------

  predicate PriorityChangesAt(entries: seq<UrlEntry>, k: nat)
    requires k < |entries|
  {
    k == 0 || entries[k].priority != entries[k - 1].priority
  }

  /** The number of positions before `n` where the priority differs from
      the entry before (the first entry always counts). */
  function ChangeCount(entries: seq<UrlEntry>, n: nat): nat
    requires n <= |entries|
  {
    if n == 0 then 0 else ChangeCount(entries, n - 1) + (if PriorityChangesAt(entries, n - 1) then 1 else 0)
  }

  lemma {:induction false} ParseLinesFromCount(entries: seq<UrlEntry>, i: nat)
    requires 1 <= i <= |entries|
    ensures |ParseLinesFrom(entries[i..], Some(entries[i - 1].priority))| ==
      |entries| - i + ChangeCount(entries, |entries|) - ChangeCount(entries, i)
    decreases |entries| - i
  {
    if i < |entries| {
      assert entries[i..][0] == entries[i];
      assert entries[i..][1..] == entries[i + 1..];
      ParseLinesFromCount(entries, i + 1);
    }
  }

  /** `parse` writes one line per entry and one priority line before the
      first entry and before each entry whose priority differs from the
      previous one. */
  lemma ParseLineCount(entries: seq<UrlEntry>)
    ensures |ParseLines(entries)| == |entries| + ChangeCount(entries, |entries|)
  {
    if entries != [] {
      ParseLinesFromCount(entries, 1);
    }
  }

  /** An entry `parse` can write so that `generate` reads it back: its
      priority is a number, its location is not, the location is not empty,
      and neither holds a line end (`\n`, or the `\r` that the text-mode
      re-read of the written file turns into one). */
  predicate ExportableEntry(e: UrlEntry) {
    IsNumber(e.priority) && '\n' !in e.priority && '\r' !in e.priority &&
    e.loc != [] && '\n' !in e.loc && '\r' !in e.loc && !IsNumber(e.loc)
  }

  predicate Exportable(entries: seq<UrlEntry>) {
    forall k :: 0 <= k < |entries| ==> ExportableEntry(entries[k])
  }

  /** The entry as `generate` writes it again on `date`. */
  function Stamp(e: UrlEntry, date: string): UrlEntry {
    e.(lastmod := date, changefreq := Monthly)
  }

  /** The entries as `generate` writes them again on `date`: each keeps its
      location and priority and gets the new date and `"monthly"`. */
  function Restamp(entries: seq<UrlEntry>, date: string): (r: seq<UrlEntry>)
    ensures |r| == |entries|
    ensures forall k :: 0 <= k < |r| ==>
      r[k].loc == entries[k].loc && r[k].priority == entries[k].priority &&
      r[k].lastmod == date && r[k].changefreq == Monthly
  {
    seq(|entries|, k requires 0 <= k < |entries| => Stamp(entries[k], date))
  }

  /** The two lines `parse` writes for an exportable entry are a priority
      line and a URL line that read back as its priority and location. */
  lemma ExportedLines(e: UrlEntry)
    requires ExportableEntry(e)
    ensures Classify(e.priority + "\n") == PriorityLine && Chop(e.priority + "\n") == e.priority
    ensures Classify(e.loc + "\n") == UrlLine && Chop(e.loc + "\n") == e.loc
    ensures Terminated(e.priority + "\n") && Terminated(e.loc + "\n")
  {
    BlankIsNotNumber("");
    NewlineKeepsNumber(e.priority);
    NewlineKeepsNumber(e.loc);
    assert (e.priority + "\n")[..|e.priority|] == e.priority;
    assert (e.loc + "\n")[..|e.loc|] == e.loc;
    assert e.loc + "\n" != "\n" by {
      assert |e.loc + "\n"| > 1;
    }
  }

  lemma {:induction false} ParseLinesTerminated(entries: seq<UrlEntry>, last: Option<string>)
    requires Exportable(entries)
    ensures forall i :: 0 <= i < |ParseLinesFrom(entries, last)| ==> Terminated(ParseLinesFrom(entries, last)[i])
  {
    if entries != [] {
      ExportedLines(entries[0]);
      ParseLinesTerminated(entries[1..], Some(entries[0].priority));
    }
  }

  /** From the first entry on, `parse` writes its priority line and then
      the lines it writes after that priority. */
  lemma ParseLinesHead(entries: seq<UrlEntry>)
    requires entries != []
    ensures ParseLines(entries) == [entries[0].priority + "\n"] + ParseLinesFrom(entries, Some(entries[0].priority))
  {
    var e := entries[0];
    var later := ParseLinesFrom(entries[1..], Some(e.priority));
    NilAppend([e.loc + "\n"]);
    Assoc([e.priority + "\n"], [e.loc + "\n"], later);
  }

  lemma RestampCons(entries: seq<UrlEntry>, date: string)
    requires entries != []
    ensures Restamp(entries, date) == [Stamp(entries[0], date)] + Restamp(entries[1..], date)
  {
  }

  /** Reading the lines `parse` writes, with the priority last written as
      the current one, gives the entries back, re-stamped, and ends at the
      last entry's priority. */
  lemma {:induction false} ScanParseLines(entries: seq<UrlEntry>, current: string, date: string)
    requires Exportable(entries)
    ensures Scan(ParseLinesFrom(entries, Some(current)), current, date) == Restamp(entries, date)
    ensures After(ParseLinesFrom(entries, Some(current)), current) ==
      if entries == [] then current else entries[|entries| - 1].priority
  {
    if entries != [] {
      var e := entries[0];
      var url := [e.loc + "\n"];
      var later := ParseLinesFrom(entries[1..], Some(e.priority));
      ExportedLines(e);
      ScanParseLines(entries[1..], e.priority, date);
      RestampCons(entries, date);
      ScanCons(e.loc + "\n", later, e.priority, date);
      if current != e.priority {
        Assoc([e.priority + "\n"], url, later);
        ScanCons(e.priority + "\n", url + later, current, date);
      } else {
        NilAppend(url);
      }
    }
  }

  // ---------------------------------------------------------------------
  // Round trips between the two formats
  // ---------------------------------------------------------------------

  /** The text `parse` writes reads back through `generate` as the same
      locations and priorities, in the same order, stamped with the new
      run's date; a sitemap without entries parses to an empty text, which
      `generate` rejects. */
  lemma RoundTrip(entries: seq<UrlEntry>, date: string)
    requires Exportable(entries)
    ensures entries == [] ==> GenerateText(ParseText(entries), date) == FormatError
    ensures entries != [] ==> GenerateText(ParseText(entries), date) == Ok(Restamp(entries, date))
  {
    ParseLinesTerminated(entries, None);
    SplitJoin(ParseLines(entries));
    BlankIsNotNumber("");
    if entries != [] {
      var e := entries[0];
      ParseLinesHead(entries);
      ConsParts(e.priority + "\n", ParseLinesFrom(entries, Some(e.priority)));
      ExportedLines(e);
      ScanParseLines(entries, e.priority, date);
    }
  }

  lemma {:induction false} ScanExportable(lines: seq<string>, current: string, date: string)
    requires forall i :: 0 <= i < |lines| ==> Terminated(lines[i]) && '\r' !in lines[i]
    requires IsNumber(current) && '\n' !in current && '\r' !in current
    ensures Exportable(Scan(lines, current, date))
  {
    if lines != [] {
      var line := lines[0];
      assert Chop(line) + "\n" == line;
      NewlineKeepsNumber(Chop(line));
      BlankIsNotNumber("");
      ScanCons(line, lines[1..], current, date);
      assert lines == [line] + lines[1..];
      ScanExportable(lines[1..], Next(current, line), date);
    }
  }

  lemma RestampStamped(entries: seq<UrlEntry>, date: string)
    requires forall k :: 0 <= k < |entries| ==> entries[k].lastmod == date && entries[k].changefreq == Monthly
    ensures Restamp(entries, date) == entries
  {
  }

  /** A file whose lines all end in a newline, that holds no `\r` (as no
      text read in text mode does) and that yields at least one entry
      generates the same sitemap again after a `parse`: generate, parse,
      generate is stable. */
  lemma GenerateParseGenerate(text: string, date: string)
    requires text != [] && text[|text| - 1] == '\n' && '\r' !in text
    requires GenerateText(text, date).Ok? && GenerateText(text, date).value != []
    ensures GenerateText(ParseText(GenerateText(text, date).value), date) == GenerateText(text, date)
  {
    var lines := SplitLines(text);
    var first := Chop(lines[0]);
    assert first + "\n" == lines[0];
    NewlineKeepsNumber(first);
    var es := Scan(lines[1..], first, date);
    SplitLinesOmit(text, '\r');
    ScanExportable(lines[1..], first, date);
    ScanStamps(lines[1..], first, date);
    RestampStamped(es, date);
    RoundTrip(es, date);
  }

  // ---------------------------------------------------------------------
  // Merging (add)
  // ---------------------------------------------------------------------

  /** `add` keeps the existing entries in order, re-stamped with the new
      date, and follows them with the new file's entries, read with the last
      existing priority as the current one. Into an empty sitemap, `add` is
      `generate` of the new file, first-line check included. */
  lemma AddResult(newText: string, sitemap: seq<UrlEntry>, date: string)
    requires Exportable(sitemap)
    ensures sitemap == [] ==> Merged(newText, sitemap, date) == GenerateText(newText, date)
    ensures sitemap != [] ==>
      Merged(newText, sitemap, date) == Ok(Restamp(sitemap, date) + Scan(SplitLines(newText), sitemap[|sitemap| - 1].priority, date))
  {
    var lines := ParseLines(sitemap);
    if sitemap == [] {
      NilAppend(newText);
    } else {
      var e := sitemap[0];
      var added := SplitLines(newText);
      var rest := ParseLinesFrom(sitemap, Some(e.priority));
      ParseLinesTerminated(sitemap, None);
      SplitJoinAppend(lines, newText);
      ParseLinesHead(sitemap);
      Assoc([e.priority + "\n"], rest, added);
      ConsParts(e.priority + "\n", rest + added);
      ExportedLines(e);
      ScanAppend(rest, added, e.priority, date);
      ScanParseLines(sitemap, e.priority, date);
    }
  }

  // ---------------------------------------------------------------------
  // Worked examples
  // ---------------------------------------------------------------------

  /** How `generate` classifies the lines of the examples below. */
  lemma ExampleKinds()
    ensures Classify("0.9\n") == PriorityLine && Chop("0.9\n") == "0.9"
    ensures Classify("0.5\n") == PriorityLine && Chop("0.5\n") == "0.5"
    ensures Classify("A\n") == UrlLine && Chop("A\n") == "A"
    ensures Classify("B\n") == UrlLine && Chop("B\n") == "B"
    ensures Classify("C\n") == UrlLine && Chop("C\n") == "C"
  {
    assert IsNumber("0.9\n") && IsNumber("0.5\n");
    BadStartIsNotNumber("A\n");
    BadStartIsNotNumber("B\n");
    BadStartIsNotNumber("C\n");
  }

  /** A priority line followed by a URL line gives that URL at that priority. */
  lemma PriorityThenUrl(pline: string, uline: string, current: string, date: string)
    requires Classify(pline) == PriorityLine && Classify(uline) == UrlLine
    ensures Scan([pline, uline], current, date) == [UrlEntry(Chop(uline), date, Monthly, Chop(pline))]
  {
    ScanCons(uline, [], Chop(pline), date);
    assert [uline] == [uline] + [];
    ScanCons(pline, [uline], current, date);
    assert [pline, uline] == [pline] + [uline];
  }

  /** A priority carries forward until the next priority line. */
  lemma CarryForwardExample(date: string)
    ensures GenerateLines(["0.9\n", "A\n", "B\n", "0.5\n", "C\n"], date) == Ok([
      UrlEntry("A", date, Monthly, "0.9"),
      UrlEntry("B", date, Monthly, "0.9"),
      UrlEntry("C", date, Monthly, "0.5")])
  {
    var lines := ["0.9\n", "A\n", "B\n", "0.5\n", "C\n"];
    var a, b, c := UrlEntry("A", date, Monthly, "0.9"), UrlEntry("B", date, Monthly, "0.9"), UrlEntry("C", date, Monthly, "0.5");
    ExampleKinds();
    PriorityThenUrl("0.5\n", "C\n", "0.9", date);
    ScanCons("B\n", ["0.5\n", "C\n"], "0.9", date);
    assert Scan(["B\n", "0.5\n", "C\n"], "0.9", date) == [b, c] by {
      assert ["B\n", "0.5\n", "C\n"] == ["B\n"] + ["0.5\n", "C\n"];
    }
    ScanCons("A\n", ["B\n", "0.5\n", "C\n"], "0.9", date);
    assert Scan(lines[1..], "0.9", date) == [a, b, c] by {
      assert lines[1..] == ["A\n"] + ["B\n", "0.5\n", "C\n"];
    }
  }

  /** A file that starts with a URL is rejected. */
  lemma LeadingUrlExample(date: string)
    ensures GenerateLines(["http://x.com/\n"], date) == FormatError
  {
    BadStartIsNotNumber("http://x.com/\n");
  }

  /** Without well-formedness the round trip fails: a location that is a
      number is read back as a priority line, and its entry is lost. */
  lemma NumericLocationLost(date: string)
    ensures ParseLines([UrlEntry("0.5", date, Monthly, "0.9")]) == ["0.9\n", "0.5\n"]
    ensures GenerateLines(ParseLines([UrlEntry("0.5", date, Monthly, "0.9")]), date) == Ok([])
  {
    var es := [UrlEntry("0.5", date, Monthly, "0.9")];
    assert "0.9" + "\n" == "0.9\n" && "0.5" + "\n" == "0.5\n";
    assert es[1..] == [];
    assert ParseLinesFrom([], Some("0.9")) == [];
    assert ParseLines(es) == ["0.9\n"] + ["0.5\n"] + [];
    assert IsNumber("0.9\n") && IsNumber("0.5\n");
    assert Scan(["0.5\n"], "0.9", date) == [];
  }

  /** `CarryForwardExample` on the file's text rather than its lines. */
  lemma CarryForwardText(text: string, date: string)
    requires text == "0.9\nA\nB\n0.5\nC\n"
    ensures GenerateText(text, date) == Ok([
      UrlEntry("A", date, Monthly, "0.9"),
      UrlEntry("B", date, Monthly, "0.9"),
      UrlEntry("C", date, Monthly, "0.5")])
  {
    var lines := ["0.9\n", "A\n", "B\n", "0.5\n", "C\n"];
    assert Join(lines) == text;
    assert forall i :: 0 <= i < |lines| ==> Terminated(lines[i]);
    SplitJoin(lines);
    CarryForwardExample(date);
  }

  /** `LeadingUrlExample` on the file's text rather than its lines. */
  lemma LeadingUrlText(text: string, date: string)
    requires text == "http://x.com/\n"
    ensures GenerateText(text, date) == FormatError
  {
    assert Join(["http://x.com/\n"]) == text;
    SplitJoin(["http://x.com/\n"]);
    LeadingUrlExample(date);
  }

  /** Consecutive equal priorities are written once. */
  lemma CollapseExample(date: string)
    ensures ParseLines([
      UrlEntry("A", date, Monthly, "0.9"),
      UrlEntry("B", date, Monthly, "0.9"),
      UrlEntry("C", date, Monthly, "0.8")]) == ["0.9\n", "A\n", "B\n", "0.8\n", "C\n"]
  {
    var a, b, c := UrlEntry("A", date, Monthly, "0.9"), UrlEntry("B", date, Monthly, "0.9"), UrlEntry("C", date, Monthly, "0.8");
    var es := [a, b, c];
    assert "0.9" != "0.8" by {
      assert "0.9"[2] != "0.8"[2];
    }
    assert "0.9" + "\n" == "0.9\n" && "0.8" + "\n" == "0.8\n";
    assert "A" + "\n" == "A\n" && "B" + "\n" == "B\n" && "C" + "\n" == "C\n";
    assert es[1..] == [b, c] && [b, c][1..] == [c] && [c][1..] == [];
    assert ParseLinesFrom([], Some("0.8")) == [];
    assert ParseLinesFrom([c], Some("0.9")) == ["0.8\n"] + ["C\n"] + [];
    assert ParseLinesFrom([b, c], Some("0.9")) == [] + ["B\n"] + ["0.8\n", "C\n"];
    assert ParseLines(es) == ["0.9\n"] + ["A\n"] + ["B\n", "0.8\n", "C\n"];
  }

  lemma MergeExampleEntry(earlier: string)
    ensures ExportableEntry(UrlEntry("A", earlier, Monthly, "0.9"))
  {
    assert IsNumber("0.9\n");
    NewlineKeepsNumber("0.9");
    BadStartIsNotNumber("A");
  }

  /** The new file of the merge example, read after the old last priority. */
  lemma MergeExampleNew(date: string)
    ensures Scan(["0.5\n", "B\n"], "0.9", date) == [UrlEntry("B", date, Monthly, "0.5")]
  {
    ExampleKinds();
    PriorityThenUrl("0.5\n", "B\n", "0.9", date);
  }

  lemma MergeExampleAdd(newText: string, earlier: string, date: string)
    ensures Merged(newText, [UrlEntry("A", earlier, Monthly, "0.9")], date) ==
      Ok([UrlEntry("A", date, Monthly, "0.9")] + Scan(SplitLines(newText), "0.9", date))
  {
    var e := UrlEntry("A", earlier, Monthly, "0.9");
    MergeExampleEntry(earlier);
    AddResult(newText, [e], date);
    assert Restamp([e], date) == [UrlEntry("A", date, Monthly, "0.9")];
  }

  /** Merging a new file whose lines are `0.5` and `B` into a sitemap with
      one entry `A` at priority `0.9`. */
  lemma MergeExample(newText: string, earlier: string, date: string)
    requires SplitLines(newText) == ["0.5\n", "B\n"]
    ensures Merged(newText, [UrlEntry("A", earlier, Monthly, "0.9")], date) ==
      Ok([UrlEntry("A", date, Monthly, "0.9"), UrlEntry("B", date, Monthly, "0.5")])
  {
    var a, b := UrlEntry("A", date, Monthly, "0.9"), UrlEntry("B", date, Monthly, "0.5");
    MergeExampleAdd(newText, earlier, date);
    MergeExampleNew(date);
    assert [a] + [b] == [a, b];
  }
}
