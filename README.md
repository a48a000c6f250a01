# Sitemap generator, modelled in Dafny

`sitemapGenerator.py` converts between two forms of a website's URL list:

- a **text file** of priority lines and URL lines. A numeric line sets the
  priority of the URL lines after it, and a line that is exactly `"\n"` is
  skipped;
- a **sitemap**: a sitemaps.org 0.9 `<urlset>` of `<url>` entries, each with
  `loc`, `lastmod`, `changefreq` and `priority`.

`generate` reads a text file into a sitemap and gives every entry the current
date and `"monthly"`. `parse` writes a sitemap back as a text file. `add`
parses a sitemap, appends a new text file to the result and generates from
the concatenation.

The model has four modules:

- `PyFloat` (`py_float.dfy`) is the `isNumber` test. It is a finite
  automaton that accepts exactly the ASCII texts that `float()` of
  Python 3.6 and later accepts:
  - surrounding whitespace;
  - an optional sign;
  - digits with one `_` allowed between two of them;
  - an optional fraction and exponent;
  - `inf` / `infinity` / `nan` in any letter case.
- `TextFile` (`text_file.dfy`) is `readline()` on a text: `ReadLine`,
  `SplitLines` for all the lines a file reads as, and `Join` to write lines
  back.
- `SitemapGenerator` (`sitemap.dfy`) holds the entries (`UrlEntry`) and the
  specification functions:
  - `Classify` / `Next` / `After` / `Scan` / `GenerateLines` / `GenerateText`
    for `generate`;
  - `ParseLinesFrom` / `ParseLines` / `ParseText` for `parse`;
  - `Merged` for `add`.

  It also holds the three loops as methods — `Generate`, `Parse`, `Add` —
  each proved equal to its specification function. The `readline()` loop of
  `generate` keeps `currentPriority` as an `Option`. The start value `0` is
  `None`, and the first line, which must be a number, replaces it.
- `SitemapProofs` (`sitemap_proofs.dfy`) proves what the tool promises:
  - how each kind of line is treated;
  - where every entry comes from;
  - how many lines `parse` writes;
  - that `parse` output reads back through `generate`;
  - what `add` makes of an old sitemap and a new file;
  - four worked examples.

A sitemap is modelled as its sequence of entries. The run's date is a
parameter.

An entry is **well-formed** (`ExportableEntry`; a sitemap is well-formed,
`Exportable`, when all its entries are) when:

- its priority is a number, as `isNumber` decides;
- its location is not empty and is not a number;
- neither text holds a line end: `\n`, or `\r`, which the text-mode re-read
  of a written file turns into one.

Only well-formed sitemaps survive `parse` followed by `generate`. An entry
with location `"0.5"` is written as the line `"0.5\n"`, which `generate`
reads as a priority line, so the entry is lost (`NumericLocationLost`).
`generate` itself makes such an entry from the text `"0.9\n0.5x"`. A later
entry with priority `"high"` comes back as a URL entry with location `high`.

Some consequences of the code that are easy to miss:

- Only the very first line read is checked to be a number. A file that
  starts with a blank line is rejected.
- Only a line that is exactly `"\n"` is skipped. A line of spaces is no
  number, so it becomes an entry (`SpaceLineIsUrl`).
- A sitemap without entries parses to the empty text. So `add` into an empty
  sitemap applies the first-line check to the new file.
- The last character of every line is dropped, newline or not. A final line
  without `\n` therefore loses a real character, as the source's own comment
  at `sitemapGenerator.py:108` warns.

## Model

| member | source | states |
|---|---|---|
| `PyFloat.BlankIsNotNumber` | sitemapGenerator.py:14-19 | no text made only of whitespace is a number; in particular neither `""` (end of file) nor `"\n"` is |
| `PyFloat.TrailingSpaceKeepsNumber` | sitemapGenerator.py:14-19 | appending one whitespace character does not change whether a text is a number |
| `PyFloat.NewlineKeepsNumber` | sitemapGenerator.py:14-19 | `p + "\n"` is a number exactly when `p` is |
| `PyFloat.BadStartIsNotNumber` | sitemapGenerator.py:14-19 | a text whose first character cannot begin a number is not one |
| `PyFloat.RunSnoc` | sitemapGenerator.py:14-19 | reading one more character is one more automaton step |
| `TextFile.LineEnd` | sitemapGenerator.py:128 | the first line of a text runs to its first `\n`, or to the end of a text without `\n` |
| `TextFile.ReadLine` | sitemapGenerator.py:128 | one `readline()`: the line and the rest together are the input; the line is empty only at end of file; a line followed by more text ends in its only `\n` |
| `TextFile.SplitLines` | sitemapGenerator.py:133-162 | the lines successive `readline()` calls return are non-empty, hold no inner `\n`, and all but the last (all, when the text ends in `\n`) end in `\n` |
| `TextFile.JoinSplitLines` | sitemapGenerator.py:259-262 | writing back the lines read from a text gives the text |
| `TextFile.JoinAppend` | sitemapGenerator.py:259-262 | writing two runs of lines writes the first run's text, then the second's |
| `TextFile.LineEndTerminated` | sitemapGenerator.py:128 | a line ending in its only `\n` is read whole, whatever follows it |
| `TextFile.SplitJoinAppend` | sitemapGenerator.py:252-262 | newline-terminated lines written out and followed by any text read back as those lines followed by the text's lines |
| `TextFile.SplitJoin` | sitemapGenerator.py:224-227 | newline-terminated lines written out read back as the same lines |
| `PyFloat.IsNumber` | sitemapGenerator.py:14-19 | definition: `float()` accepts the text, as the automaton `Step` run from `Lead` over the whole text ends in an accepting state |
| `TextFile.Join` | sitemapGenerator.py:224-231 | definition: the text written by writing the lines one after another, as `parse` builds and saves `stringOut` |
| `SitemapGenerator.Classify` | sitemapGenerator.py:136-147 | definition: the loop's tests in their order: the line `"\n"` is blank, otherwise a number is a priority line, otherwise the line is a URL line |
| `SitemapGenerator.Next` | sitemapGenerator.py:141-144 | definition: a priority line replaces the current priority by its text without its last character; any other line keeps it |
| `SitemapGenerator.After` | sitemapGenerator.py:133-162 | definition: the current priority after the loop has read the lines in order |
| `SitemapGenerator.Scan` | sitemapGenerator.py:133-162 | definition: the entries the loop appends: one for each URL line, in order, with the line without its last character, the run's date, `"monthly"` and the current priority |
| `SitemapGenerator.GenerateLines` | sitemapGenerator.py:128-162 | definition: `FormatError` unless the first `readline()` is a number; otherwise that line sets the priority and the remaining lines are read as `Scan` does |
| `SitemapGenerator.Chop` | sitemapGenerator.py:142 | `line[:-1]`: the line without its last character, and empty for the empty line |
| `SitemapGenerator.Generate` | sitemapGenerator.py:113-162 | the `readline()` loop returns `FormatError` or exactly the entries `GenerateText` specifies for the file's text |
| `SitemapGenerator.ParseLinesFrom` | sitemapGenerator.py:214-227 | `parse` writes between one and two lines per entry |
| `SitemapGenerator.Parse` | sitemapGenerator.py:186-227 | the entry loop builds exactly `ParseText` of the entries |
| `SitemapGenerator.Add` | sitemapGenerator.py:248-268 | `add` generates from the parse text of the sitemap followed by the new file's text (`Merged`) |
| `SitemapProofs.ScanStamps` | sitemapGenerator.py:123-124 | every entry of a run carries the run's single date and `"monthly"`, and there is at most one entry per line |
| `SitemapProofs.ScanAppend` | sitemapGenerator.py:133-162 | reading `a + b` is reading `a` and then `b` with the priority left by `a` |
| `SitemapProofs.LineEffect` | sitemapGenerator.py:136-159 | wherever it stands, a `"\n"` line changes neither entries nor priority; a priority line adds no entry and sets the priority to its text without its last character; any other line adds exactly one entry with its text without its last character at the current priority |
| `SitemapProofs.GenerateRejects` | sitemapGenerator.py:128-131 | `generate` fails exactly when there is no first line or it is not a number, so an empty file and a file starting with a blank line fail |
| `SitemapProofs.SpaceLineIsUrl` | sitemapGenerator.py:136-150 | a whitespace line other than `"\n"` is neither skipped nor a priority: it becomes an entry |
| `SitemapProofs.BlankLineIgnored` | sitemapGenerator.py:136-138 | inserting a `"\n"` line anywhere after the first line leaves the result of `generate` unchanged |
| `SitemapProofs.UrlIndices` | sitemapGenerator.py:133-162 | the positions of the URL lines lie within the file |
| `SitemapProofs.UrlIndicesOrdered` | sitemapGenerator.py:136-147 | the positions listed are URL lines, in increasing order |
| `SitemapProofs.UrlIndicesComplete` | sitemapGenerator.py:136-147 | every URL line is listed |
| `SitemapProofs.ScanLength` | sitemapGenerator.py:133-162 | a read yields exactly one entry per URL line |
| `SitemapProofs.ScanAt` | sitemapGenerator.py:147-159 | entry `k` comes from the `k`-th URL line: that line without its last character, at the priority in force after the lines before it |
| `SitemapProofs.ScanProvenance` | sitemapGenerator.py:133-162 | `ScanLength` and `ScanAt` for all entries at once |
| `SitemapProofs.AfterNoPriority` | sitemapGenerator.py:141-144 | without a priority line the priority does not change |
| `SitemapProofs.AfterLastPriority` | sitemapGenerator.py:141-144 | the priority after some lines is the last priority line among them, without its last character |
| `SitemapProofs.LastPriorityBefore` | sitemapGenerator.py:141-144 | the position of the most recent priority line before a line |
| `SitemapProofs.GenerateEntries` | sitemapGenerator.py:128-162 | a successful `generate` yields one entry per URL line, in file order, with that line's text without its last character, the most recent preceding priority line's text, the run's date and `"monthly"` |
| `SitemapProofs.GenerateEntryAt` | sitemapGenerator.py:141-159 | the entry of the `k`-th URL line has that line's text without its last character, the most recent preceding priority, the run's date and `"monthly"` |
| `SitemapProofs.InheritedPriority` | sitemapGenerator.py:141-159 | URL lines before any priority line of a read take the priority the read started with |
| `SitemapProofs.ParseLinesFromCount` | sitemapGenerator.py:214-227 | from entry `i` on, `parse` writes one line per entry plus one per priority change |
| `SitemapProofs.ParseLineCount` | sitemapGenerator.py:188-227 | `parse` writes `|entries|` location lines plus one priority line for the first entry and for each change of priority |
| `SitemapProofs.Restamp` | sitemapGenerator.py:152-156 | re-stamping keeps the number of entries, and each entry keeps its location and priority and gets the new date as `lastmod` and `"monthly"` as `changefreq` |
| `SitemapProofs.ExportedLines` | sitemapGenerator.py:222-227 | the priority line and the location line `parse` writes for a well-formed entry read back as a priority line and a URL line with the same texts |
| `SitemapProofs.ParseLinesTerminated` | sitemapGenerator.py:224-227 | for a well-formed sitemap, every line `parse` writes ends in its only `\n` |
| `SitemapProofs.ParseLinesHead` | sitemapGenerator.py:222-224 | `parse` always starts with the first entry's priority line |
| `SitemapProofs.ScanParseLines` | sitemapGenerator.py:214-227 | for a well-formed sitemap, reading the lines `parse` writes gives the entries back, re-stamped, and ends at the last entry's priority |
| `SitemapProofs.RoundTrip` | sitemapGenerator.py:175-176 | for a well-formed sitemap, `generate` of `parse` output gives the same locations and priorities in the same order, with the new date; a sitemap without entries gives `FormatError` |
| `SitemapProofs.NumericLocationLost` | sitemapGenerator.py:222-227 | an entry whose location is the number `0.5` is written as a priority line, so reading `parse` output back gives no entry for it |
| `SitemapProofs.ScanExportable` | sitemapGenerator.py:141-150 | entries read from newline-terminated lines without `\r`, starting from a priority that is a number without `\n` or `\r`, are well-formed |
| `SitemapProofs.RestampStamped` | sitemapGenerator.py:152-156 | re-stamping entries that already carry the date and `"monthly"` changes nothing |
| `SitemapProofs.GenerateParseGenerate` | sitemapGenerator.py:175-176 | for a newline-terminated file without `\r` and with at least one entry, generate, parse, generate gives the sitemap the first generate gave |
| `SitemapProofs.AddResult` | sitemapGenerator.py:248-268 | for a well-formed sitemap, `add` keeps the existing entries in order, re-stamped, then the new file's entries read from the last existing priority; into an empty sitemap it is `generate` of the new file |
| `SitemapProofs.ExampleKinds` | sitemapGenerator.py:136-150 | how the lines `0.9`, `0.5`, `A`, `B`, `C` are classified |
| `SitemapProofs.PriorityThenUrl` | sitemapGenerator.py:141-159 | a priority line followed by a URL line gives one entry: that URL at that priority |
| `SitemapProofs.CarryForwardExample` | sitemapGenerator.py:133-162 | `0.9, A, B, 0.5, C` gives `A` and `B` at `0.9`, then `C` at `0.5` |
| `SitemapProofs.LeadingUrlExample` | sitemapGenerator.py:128-131 | a file starting with `http://x.com/` is rejected |
| `SitemapProofs.CarryForwardText` | sitemapGenerator.py:113-162 | the text `"0.9\nA\nB\n0.5\nC\n"` gives `A` and `B` at `0.9`, then `C` at `0.5` |
| `SitemapProofs.LeadingUrlText` | sitemapGenerator.py:113-131 | the text `"http://x.com/\n"` is rejected |
| `SitemapProofs.CollapseExample` | sitemapGenerator.py:214-227 | entries at `0.9, 0.9, 0.8` parse to the lines `0.9, A, B, 0.8, C` |
| `SitemapProofs.MergeExampleEntry` | sitemapGenerator.py:214-227 | the entry `A` at `0.9` is one `parse` writes so that it reads back |
| `SitemapProofs.MergeExampleNew` | sitemapGenerator.py:141-159 | the new file `0.5`, `B` read after `0.9` gives `B` at `0.5` |
| `SitemapProofs.MergeExampleAdd` | sitemapGenerator.py:248-268 | adding to the sitemap `A` at `0.9` keeps `A`, re-stamped, then reads the new file from `0.9` |
| `SitemapProofs.MergeExample` | sitemapGenerator.py:248-268 | adding the file `0.5`, `B` to the sitemap `A` at `0.9` gives `A` at `0.9`, then `B` at `0.5`, both with the new date |

## Left out

- The XML side is not modelled, and the sitemap is its sequence of entries. This covers:
  - building the tree and writing it (`sitemapGenerator.py:117-119`, `164-167`);
  - `reindent` (`21-28`, `169-172`);
  - `ET.parse` and its error exit (`193-196`);
  - the namespace prefix taken from `root.tag` (`210`).
- Malformed sitemaps are not modelled: a `<url>` without one of its four children, or a `loc` or `priority` child with no text (`222-227`), makes `parse` fail in Python. A `lastmod` or `changefreq` with no text reads as `None` (`217-218`) and does no harm, since neither is used. The model's entries always carry four texts.
- `SitemapGenerator.Parse` treats an entry whose `loc` or `priority` is the empty text `""` as an ordinary text and writes the line `"\n"` for it. In Python such an entry is an element with no text (`<loc />`): its `.text` reads back as `None`, and `currentPriority + '\n'` (`224`) or `loc + '\n'` (`227`) raises `TypeError`. `generate` itself can produce such an entry, for example from a final URL line of one character without `\n`, whose only character is dropped.
- `SitemapGenerator.Generate` returns `Ok` for every text whose first line is a number. Characters that XML 1.0 cannot hold, such as `\f` and `\v` (which `float()` strips, so a priority line may carry them), make the XML write (`167`) or the re-parse in `reindent` (`23`) fail in Python.
- The `lastmod` and `changefreq` children that `parse` reads (`217-218`) are never used. The model ignores them in the same way.
- File I/O is not modelled:
  - opening, closing and writing files, and the default output names;
  - the `"tmp"` file of `add`;
  - `os.remove` (`269`), which does not run when `generate` exits early, so `"tmp"` is left behind then.

  Texts are values, and a method's result stands for the file it writes.
- `datetime.now()` / `strftime` (`123-124`): the date is a parameter, and its format is not modelled.
- `sys.exit` with its messages is the `FormatError` outcome. The process exit itself is not modelled.
- `main` (`31-84`) is not modelled: argument dispatch, usage messages and default file names. Its check on `add`'s sitemap argument is `argv[3][-3:] != 'xml'`, which requires no dot.
- `print` progress messages are not modelled.
- `PyFloat.IsNumber` handles only ASCII text. Python 3's `float()` also accepts non-ASCII digits and Unicode whitespace.
- `PyFloat.IsNumber` follows Python 3.6 and later. Before 3.6, and in Python 2, `float()` accepts no `_`, so a line such as `"1_0\n"` is a URL line there.
- `PyFloat.IsNumber` says only whether `float()` succeeds, not which value it gives. The source never checks that a priority lies in `[0, 1]`, and neither does the model.
- Text-mode newline translation (`\r\n` and `\r` to `\n`) and character decoding happen before `readline()`. The model starts from the translated text of the files the user gives, so that text holds no `\r`.
- `SitemapGenerator.Add`: `Merged` hands the text written to `"tmp"` (`252`, `259-262`) straight to `generate`, without the text-mode re-read of that file (`115`). The re-read would turn a `\r` that `ET.parse` decoded from `&#13;` into a line end, which splits a location in two or strips it from a priority. The model's result agrees with Python's when that text holds no `\r`: for a well-formed sitemap and a new text read in text mode.
