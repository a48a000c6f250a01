/**
  The sitemap generator: `generate` reads a text of priority lines and URL
  lines into the `<url>` entries of a sitemaps.org 0.9 `<urlset>`, `parse`
  writes the entries of a sitemap back as such a text, and `add` merges a
  new text into an existing sitemap by parsing the sitemap, appending the
  new text and generating from the result.

  A sitemap is modelled as its sequence of entries; the XML text, its
  namespace and its indentation are not. The current date is a parameter.
 */
module SitemapGenerator {
  import opened PyFloat
  import opened TextFile

  /** One `<url>` element with its four children's texts. */
  datatype UrlEntry = UrlEntry(loc: string, lastmod: string, changefreq: string, priority: string)

  /** The outcome of `generate`: the entries, or the exit with
      "Input text not correctly formatted". */
  datatype Outcome<T> = Ok(value: T) | FormatError

  datatype Option<T> = None | Some(value: T)

  /** The only change frequency the generator writes. */
  const Monthly: string := "monthly"

  /** Python's `line[:-1]`: the text without its last character. */
  function Chop(line: string): (r: string)
    ensures line != [] ==> r + [line[|line| - 1]] == line
    ensures line == [] ==> r == []
  {
    if line == [] then [] else line[..|line| - 1]
  }

  /** How the loop of `generate` treats a line, in the order it tests them. */
  datatype LineKind = Blank | PriorityLine | UrlLine

  function Classify(line: string): LineKind {
    if line == "\n" then Blank
    else if IsNumber(line) then PriorityLine
    else UrlLine
  }

  /** The current priority after `line`: a priority line replaces it, any
      other line keeps it. */
  function Next(current: string, line: string): string {
    if Classify(line) == PriorityLine then Chop(line) else current
  }

  /** The current priority after reading `lines`, starting from `current`. */
  function After(lines: seq<string>, current: string): string {
    if lines == [] then current else After(lines[1..], Next(current, lines[0]))
  }

  /** The entries the loop of `generate` appends while it reads `lines`,
      starting from the priority `current`, stamped with `date`. */
  function Scan(lines: seq<string>, current: string, date: string): seq<UrlEntry> {
    if lines == [] then []
    else
      var rest := Scan(lines[1..], Next(current, lines[0]), date);
      if Classify(lines[0]) == UrlLine then [UrlEntry(Chop(lines[0]), date, Monthly, current)] + rest
      else rest
  }

  /** `generate` on the lines a file reads as: the first `readline()` must be
      a number (the end-of-file result `""` is not), and it sets the
      priority for what follows. */
  function GenerateLines(lines: seq<string>, date: string): Outcome<seq<UrlEntry>> {
    var first := if lines == [] then "" else lines[0];
    if !IsNumber(first) then FormatError
    else Ok(Scan(lines[1..], Chop(lines[0]), date))
  }

  /** `generate` on the text of a file. */
  function GenerateText(text: string, date: string): Outcome<seq<UrlEntry>> {
    GenerateLines(SplitLines(text), date)
  }

  /** The lines `parse` writes for `entries` when the priority written last
      is `last` (`None` for the start value 0, which equals no text). */
  function ParseLinesFrom(entries: seq<UrlEntry>, last: Option<string>): (lines: seq<string>)
    ensures |entries| <= |lines| <= 2 * |entries|
  {
    if entries == [] then []
    else
      var e := entries[0];
      (if last != Some(e.priority) then [e.priority + "\n"] else []) + [e.loc + "\n"]
        + ParseLinesFrom(entries[1..], Some(e.priority))
  }

  function ParseLines(entries: seq<UrlEntry>): seq<string> {
    ParseLinesFrom(entries, None)
  }

  /** The text `parse` writes for a sitemap with `entries`. */
  function ParseText(entries: seq<UrlEntry>): string {
    Join(ParseLines(entries))
  }

  /** `add`: the sitemap's parse text followed by the new file's text, generated. */
  function Merged(newText: string, sitemap: seq<UrlEntry>, date: string): Outcome<seq<UrlEntry>> {
    GenerateText(ParseText(sitemap) + newText, date)
  }

  /** The reading loop of `generate` (sitemapGenerator.py:113-162). */
  method Generate(text: string, date: string) returns (r: Outcome<seq<UrlEntry>>)
    ensures r == GenerateText(text, date)
  {
    ghost var lines := SplitLines(text);
    var p := ReadLine(text);
    var line, rest := p.0, p.1;
    ReadLineUnread(text);
    if line != "" {
      ConsParts(line, SplitLines(rest));
    }
    assert (if lines == [] then "" else lines[0]) == line;
    if !IsNumber(line) {
      return FormatError;
    }
    BlankIsNotNumber("");
    BlankIsNotNumber("\n");
    // `currentPriority = 0`: None until the first line, a number, replaces it
    var current: Option<string> := None;
    var urls: seq<UrlEntry> := [];
    while line != ""
      invariant line == [] ==> rest == []
      invariant |lines| > 0 && IsNumber(lines[0])
      invariant current.None? ==> urls == [] && line == lines[0] && SplitLines(rest) == lines[1..]
      invariant current.Some? ==> urls + Scan(Unread(line, rest), current.value, date) == Scan(lines[1..], Chop(lines[0]), date)
      decreases |line| + |rest|
    {
      ghost var c := if current.Some? then current.value else Chop(line);
      ReadStep(line, rest, c, date);
      if line == "\n" {
        p := ReadLine(rest);
        line, rest := p.0, p.1;
        continue;
      }
      if IsNumber(line) {
        if current.None? {
          NilAppend(Scan(SplitLines(rest), Chop(line), date));
        }
        current := Some(Chop(line));
        p := ReadLine(rest);
        line, rest := p.0, p.1;
        continue;
      }
      var entry := UrlEntry(Chop(line), date, Monthly, current.value);
      Assoc(urls, [entry], Scan(SplitLines(rest), c, date));
      urls := urls + [entry];
      p := ReadLine(rest);
      line, rest := p.0, p.1;
    }
    AppendNil(urls);
    return Ok(urls);
  }

  lemma AppendNil<T>(a: seq<T>)
    ensures a + [] == a
  {
  }

  lemma NilAppend<T>(b: seq<T>)
    ensures [] + b == b
  {
  }

  lemma Assoc<T>(a: seq<T>, b: seq<T>, c: seq<T>)
    ensures a + (b + c) == (a + b) + c
  {
  }

  lemma ConsParts<T>(x: T, xs: seq<T>)
    ensures ([x] + xs)[0] == x && ([x] + xs)[1..] == xs
  {
  }

  /** What reading one more line adds to the entries and does to the priority. */
  lemma ScanCons(line: string, lines: seq<string>, current: string, date: string)
    ensures Classify(line) != UrlLine ==> Scan([line] + lines, current, date) == Scan(lines, Next(current, line), date)
    ensures Classify(line) == UrlLine ==>
      Scan([line] + lines, current, date) == [UrlEntry(Chop(line), date, Monthly, current)] + Scan(lines, current, date)
    ensures After([line] + lines, current) == After(lines, Next(current, line))
  {
    ConsParts(line, lines);
  }

  /** One turn of the reading loop of `generate`, on the lines still unread. */
  lemma ReadStep(line: string, rest: string, current: string, date: string)
    requires line != ""
    ensures Unread(ReadLine(rest).0, ReadLine(rest).1) == SplitLines(rest)
    ensures line == "\n" ==> Scan(Unread(line, rest), current, date) == Scan(SplitLines(rest), current, date)
    ensures line != "\n" && IsNumber(line) ==>
      Scan(Unread(line, rest), current, date) == Scan(SplitLines(rest), Chop(line), date)
    ensures line != "\n" && !IsNumber(line) ==>
      Scan(Unread(line, rest), current, date) == [UrlEntry(Chop(line), date, Monthly, current)] + Scan(SplitLines(rest), current, date)
  {
    ReadLineUnread(rest);
    ScanCons(line, SplitLines(rest), current, date);
  }

  /** The entry loop of `parse` (sitemapGenerator.py:186-227). */
  method Parse(entries: seq<UrlEntry>) returns (out: string)
    ensures out == ParseText(entries)
  {
    // `currentPriority = 0`: equal to no priority text
    var current: Option<string> := None;
    out := "";
    for i := 0 to |entries|
      invariant out + Join(ParseLinesFrom(entries[i..], current)) == ParseText(entries)
    {
      var e := entries[i];
      ghost var later := Join(ParseLinesFrom(entries[i + 1..], Some(e.priority)));
      ParseStep(entries, i, current);
      ghost var written := if current != Some(e.priority) then e.priority + "\n" else "";
      Assoc(out, written, (e.loc + "\n") + later);
      Assoc(out + written, e.loc + "\n", later);
      if current != Some(e.priority) {
        current := Some(e.priority);
        out := out + e.priority + "\n";
      }
      out := out + e.loc + "\n";
    }
    AppendNil(out);
  }

  /** The text `parse` writes for one entry and those after it. */
  lemma ParseStep(entries: seq<UrlEntry>, i: nat, last: Option<string>)
    requires i < |entries|
    ensures Join(ParseLinesFrom(entries[i..], last)) ==
      (if last != Some(entries[i].priority) then entries[i].priority + "\n" else "")
      + ((entries[i].loc + "\n") + Join(ParseLinesFrom(entries[i + 1..], Some(entries[i].priority))))
  {
    var e := entries[i];
    var written := if last != Some(e.priority) then [e.priority + "\n"] else [];
    assert entries[i..][0] == e;
    assert entries[i..][1..] == entries[i + 1..];
    var later := ParseLinesFrom(entries[i + 1..], Some(e.priority));
    JoinAppend(written + [e.loc + "\n"], later);
    JoinAppend(written, [e.loc + "\n"]);
  }

  /** `add` (sitemapGenerator.py:248-268): parse the sitemap, append the new
      file line by line, generate from the result. */
  method Add(newText: string, sitemap: seq<UrlEntry>, date: string) returns (r: Outcome<seq<UrlEntry>>)
    ensures r == Merged(newText, sitemap, date)
  {
    var tmp := Parse(sitemap);
    var p := ReadLine(newText);
    var line, rest := p.0, p.1;
    while line != ""
      invariant line == [] ==> rest == []
      invariant tmp + line + rest == ParseText(sitemap) + newText
      decreases |line| + |rest|
    {
      p := ReadLine(rest);
      assert tmp + line + rest == (tmp + line) + p.0 + p.1 by {
        assert rest == p.0 + p.1;
      }
      tmp := tmp + line;
      line, rest := p.0, p.1;
    }
    assert tmp == ParseText(sitemap) + newText by {
      assert tmp + line + rest == tmp;
    }
    r := Generate(tmp, date);
  }
}
