/** The CSV loader of the web client, `loadPOIData` in
    `lakbai/src/lib/poiData.ts`: the text of `POI-Legazpi.csv` is trimmed,
    split into lines, the first line is taken as the header, and each later
    line with at least five `;`-separated fields becomes a POI.  The `fetch`
    is not part of this model: the response text is a parameter, `None` when
    the request or reading its text threw.  `parseFloat` is a parameter too,
    `None` standing for `NaN`. */
module PoiData {
  import opened Wrappers
  import opened Text

  /** A POI as the client holds it; a `None` number is `NaN`. */
  datatype WebPoi = WebPoi(poiID: Option<int>, poiName: string, lat: Option<real>, long: Option<real>, theme: string)

  /** The POI made from the first five fields of a line. */
  function FromFields(parts: seq<string>, parseFloat: string -> Option<real>): WebPoi
    requires |parts| >= 5
  {
    WebPoi(ParseInt(parts[0]), parts[1], parseFloat(parts[2]), parseFloat(parts[3]), parts[4])
  }

  /** One line of the body: skipped when blank after trimming or when it has
      fewer than five fields. */
  function ParseLine(line: string, parseFloat: string -> Option<real>): Option<WebPoi> {
    var t := Trim(line);
    if t == "" then None
    else
      var parts := Split(t, ';');
      if |parts| >= 5 then Some(FromFields(parts, parseFloat)) else None
  }

  /** `ParseLine` as a value, for the loop over lines. */
  function Parser(parseFloat: string -> Option<real>): string -> Option<WebPoi> {
    line => ParseLine(line, parseFloat)
  }

  /** What `parse` makes of each line, in line order, skipping the lines it
      makes nothing of. */
  function Keep(lines: seq<string>, parse: string -> Option<WebPoi>): seq<WebPoi> {
    if lines == [] then []
    else
      var prev := Keep(lines[..|lines| - 1], parse);
      match parse(lines[|lines| - 1])
      case None => prev
      case Some(p) => prev + [p]
  }

  /** `text.trim().split('\n')`. */
  function Lines(text: string): (r: seq<string>)
    ensures |r| >= 1
  {
    Split(Trim(text), '\n')
  }

  /** `loadPOIData`: everything after the header line, or nothing when the
      response could not be read. */
  function LoadPoiData(response: Option<string>, parseFloat: string -> Option<real>): seq<WebPoi> {
    match response
    case None => []
    case Some(text) => Keep(Lines(text)[1..], Parser(parseFloat))
  }

  /** The loop of `loadPOIData`, starting at line 1. */
  method LoadPoiDataLoop(response: Option<string>, parseFloat: string -> Option<real>) returns (pois: seq<WebPoi>)
    ensures pois == LoadPoiData(response, parseFloat)
  {
    pois := [];
    if response.None? {
      return;
    }
    var lines := Lines(response.value);
    for i := 1 to |lines|
      invariant pois == Keep(lines[1..i], Parser(parseFloat))
    {
      KeepNext(lines, i, Parser(parseFloat));
      var line := Trim(lines[i]);
      if line == "" {
        continue;
      }
      var parts := Split(line, ';');
      if |parts| >= 5 {
        pois := pois + [WebPoi(ParseInt(parts[0]), parts[1], parseFloat(parts[2]), parseFloat(parts[3]), parts[4])];
      }
    }
    assert lines[1..|lines|] == lines[1..];
  }

  /** One more line adds what `parse` makes of it. */
  lemma KeepNext(lines: seq<string>, i: nat, parse: string -> Option<WebPoi>)
    requires 1 <= i < |lines|
    ensures Keep(lines[1..i + 1], parse) ==
      Keep(lines[1..i], parse) + match parse(lines[i]) case None => [] case Some(p) => [p]
  {
    assert lines[1..i + 1][..i - 1] == lines[1..i];
  }

  // ---------------------------------------------------------------------
  // What the loader promises
  // ---------------------------------------------------------------------

  /** Parsing two runs of lines one after the other gives the POIs of the
      first, then those of the second: line order is kept. */
  lemma {:induction false} KeepAppend(a: seq<string>, b: seq<string>, parse: string -> Option<WebPoi>)
    ensures Keep(a + b, parse) == Keep(a, parse) + Keep(b, parse)
  {
    if b != [] {
      var m := |b| - 1;
      assert (a + b)[..|a + b| - 1] == a + b[..m];
      assert (a + b)[|a + b| - 1] == b[m];
      KeepAppend(a, b[..m], parse);
    } else {
      assert a + b == a;
    }
  }

  /** Each POI comes from one line, at most one per line, and every line
      that parses gives its POI. */
  lemma {:induction false} KeepSpec(lines: seq<string>, parse: string -> Option<WebPoi>)
    ensures |Keep(lines, parse)| <= |lines|
    ensures forall p :: p in Keep(lines, parse) <==> exists i :: 0 <= i < |lines| && parse(lines[i]) == Some(p)
  {
    if lines != [] {
      var m := |lines| - 1;
      KeepSpec(lines[..m], parse);
      assert forall i :: 0 <= i < m ==> lines[..m][i] == lines[i];
    }
  }

  /** The header never yields a POI, there are at most as many POIs as body
      lines, and each POI is the parse of a body line. */
  lemma LoadSpec(text: string, parseFloat: string -> Option<real>)
    ensures var pois := LoadPoiData(Some(text), parseFloat);
      && |pois| <= |Lines(text)| - 1
      && forall p :: p in pois ==> exists i :: 1 <= i < |Lines(text)| && ParseLine(Lines(text)[i], parseFloat) == Some(p)
  {
    var lines := Lines(text);
    KeepSpec(lines[1..], Parser(parseFloat));
    forall p | p in LoadPoiData(Some(text), parseFloat)
      ensures exists i :: 1 <= i < |lines| && ParseLine(lines[i], parseFloat) == Some(p)
    {
      var i :| 0 <= i < |lines[1..]| && Parser(parseFloat)(lines[1..][i]) == Some(p);
      assert lines[1..][i] == lines[i + 1];
    }
  }

  /** A line that is blank after trimming gives nothing, and so does one with
      fewer than five fields. */
  lemma SkippedLines(line: string, parseFloat: string -> Option<real>)
    ensures ParseLine(line, parseFloat).Some? <==> Trim(line) != "" && |Split(Trim(line), ';')| >= 5
  {
  }

  /** Fields after the fifth are ignored: a trimmed line with five fields
      parses the same whatever further fields follow. */
  lemma ExtraFieldsIgnored(line: string, extra: string, parseFloat: string -> Option<real>)
    requires Trim(line) == line && |Split(line, ';')| >= 5
    requires extra != [] ==> !IsSpace(extra[|extra| - 1])
    ensures ParseLine(line + ";" + extra, parseFloat) == ParseLine(line, parseFloat)
  {
    var parts := Split(line, ';');
    SeveralFieldsNonEmpty(line);
    ParseExtended(line, extra, parseFloat);
    ParseLineOf(line, parts, parseFloat);
    FromFieldsAppend(parts, Split(extra, ';'), parseFloat);
  }

  /** A line with one more field parses from the line's fields and the new ones. */
  lemma ParseExtended(line: string, extra: string, parseFloat: string -> Option<real>)
    requires line != [] && Trim(line) == line && |Split(line, ';')| >= 5
    requires extra != [] ==> !IsSpace(extra[|extra| - 1])
    ensures ParseLine(line + ";" + extra, parseFloat) == Some(FromFields(Split(line, ';') + Split(extra, ';'), parseFloat))
  {
    ExtendedLine(line, extra);
    ParseLineOf(line + ";" + extra, Split(line, ';') + Split(extra, ';'), parseFloat);
  }

  /** Only the first five fields matter. */
  lemma FromFieldsAppend(parts: seq<string>, rest: seq<string>, parseFloat: string -> Option<real>)
    requires |parts| >= 5
    ensures FromFields(parts + rest, parseFloat) == FromFields(parts, parseFloat)
  {
    var more := parts + rest;
    assert more[0] == parts[0] && more[1] == parts[1] && more[2] == parts[2];
    assert more[3] == parts[3] && more[4] == parts[4];
  }

  /** A line with several fields is not empty. */
  lemma SeveralFieldsNonEmpty(line: string)
    requires |Split(line, ';')| >= 2
    ensures line != []
  {
    assert Split("", ';') == [""];
  }

  /** A field appended to a trimmed line is one more field of it. */
  lemma ExtendedLine(line: string, extra: string)
    requires line != [] && Trim(line) == line
    requires extra != [] ==> !IsSpace(extra[|extra| - 1])
    ensures var s := line + ";" + extra;
      s != "" && Trim(s) == s && Split(s, ';') == Split(line, ';') + Split(extra, ';')
  {
    var s := line + ";" + extra;
    AppendTrimmed(line, extra);
    SplitAppend(line, extra, ';');
    assert s == line + [';'] + extra;
  }

  /** Appending a field to a trimmed line keeps it trimmed when the field
      does not end in white space. */
  lemma AppendTrimmed(line: string, extra: string)
    requires line != [] && Trim(line) == line
    requires extra != [] ==> !IsSpace(extra[|extra| - 1])
    ensures Trim(line + ";" + extra) == line + ";" + extra
  {
    var s := line + ";" + extra;
    assert s[0] == line[0];
    TrimFixed(line);
    assert !IsSpace(s[|s| - 1]) by {
      if extra == [] { assert s[|s| - 1] == ';'; }
      else { assert s[|s| - 1] == extra[|extra| - 1]; }
    }
    TrimFixed(s);
  }

  // ---------------------------------------------------------------------
  // Loading written rows back
  // ---------------------------------------------------------------------

  /** A row as the CSV file holds it: the id, then name, coordinates and
      theme as written. */
  datatype CsvRow = CsvRow(id: int, name: string, lat: string, long: string, theme: string)

  function Fields(r: CsvRow): seq<string> {
    [IntToString(r.id), r.name, r.lat, r.long, r.theme]
  }

  /** The line for a row: its fields joined with `;`. */
  function FormatLine(r: CsvRow): string {
    JoinWith(Fields(r), ';')
  }

  /** A row the file can hold: no field contains the separator or a line
      break, and the theme does not end in white space. */
  predicate Writable(r: CsvRow) {
    && ';' !in r.name && ';' !in r.lat && ';' !in r.long && ';' !in r.theme
    && '\n' !in r.name && '\n' !in r.lat && '\n' !in r.long && '\n' !in r.theme
    && (r.theme != [] ==> !IsSpace(r.theme[|r.theme| - 1]))
  }

  function FormatLines(rows: seq<CsvRow>): (r: seq<string>)
    ensures |r| == |rows| && forall i :: 0 <= i < |rows| ==> r[i] == FormatLine(rows[i])
  {
    seq(|rows|, i requires 0 <= i < |rows| => FormatLine(rows[i]))
  }

  /** What the client reads for a row. */
  function Expected(r: CsvRow, parseFloat: string -> Option<real>): WebPoi {
    WebPoi(Some(r.id), r.name, parseFloat(r.lat), parseFloat(r.long), r.theme)
  }

  /** A trimmed, non-blank line with at least five fields gives the POI of
      those fields. */
  lemma ParseLineOf(line: string, parts: seq<string>, parseFloat: string -> Option<real>)
    requires line != "" && Trim(line) == line && Split(line, ';') == parts && |parts| >= 5
    ensures ParseLine(line, parseFloat) == Some(FromFields(parts, parseFloat))
  {
  }

  /** The fields of a writable row hold no separator and no line break. */
  lemma FieldsClean(r: CsvRow)
    requires Writable(r)
    ensures forall f :: f in Fields(r) ==> ';' !in f && '\n' !in f
  {
    IntToStringDigits(r.id);
  }

  /** A written line holds no line break and splits into the row's fields. */
  lemma FormatLineSplits(r: CsvRow)
    requires Writable(r)
    ensures Split(FormatLine(r), ';') == Fields(r)
    ensures '\n' !in FormatLine(r)
  {
    FieldsClean(r);
    SplitJoinWith(Fields(r), ';');
    JoinWithChars(Fields(r), ';');
  }

  /** A written line starts with the id's first character and ends with the
      theme's last, or with the separator before an empty theme. */
  lemma FormatLineEnds(r: CsvRow)
    ensures var line := FormatLine(r); var id := IntToString(r.id);
      && id != [] && line != [] && line[0] == id[0]
      && line[|line| - 1] == (if r.theme == [] then ';' else r.theme[|r.theme| - 1])
  {
    JoinWithEnds(Fields(r), ';');
  }

  /** A written line is non-empty and already trimmed. */
  lemma FormatLineTrimmed(r: CsvRow)
    requires Writable(r)
    ensures FormatLine(r) != "" && Trim(FormatLine(r)) == FormatLine(r)
  {
    var line := FormatLine(r);
    var id := IntToString(r.id);
    FormatLineEnds(r);
    IntToStringDigits(r.id);
    assert id[0] in id;
    TrimFixed(line);
  }

  /** A written line parses back to its row. */
  lemma LineRoundTrip(r: CsvRow, parseFloat: string -> Option<real>)
    requires Writable(r)
    ensures ParseLine(FormatLine(r), parseFloat) == Some(Expected(r, parseFloat))
  {
    FormatLineSplits(r);
    FormatLineTrimmed(r);
    ParseLineOf(FormatLine(r), Fields(r), parseFloat);
    ParseIntRoundTrip(r.id);
  }

  /** Loading a file made of a header and written rows gives back exactly
      those rows, in order. */
  lemma LoadRoundTrip(header: string, rows: seq<CsvRow>, parseFloat: string -> Option<real>)
    requires header != [] && Trim(header) == header && '\n' !in header
    requires forall r :: r in rows ==> Writable(r)
    ensures LoadPoiData(Some(JoinWith([header] + FormatLines(rows), '\n')), parseFloat) ==
      seq(|rows|, i requires 0 <= i < |rows| => Expected(rows[i], parseFloat))
  {
    var lines := [header] + FormatLines(rows);
    TextTrimmed(header, rows);
    SplitJoinWith(lines, '\n');
    assert Lines(JoinWith(lines, '\n'))[1..] == FormatLines(rows);
    KeepFormatted(rows, parseFloat);
  }

  /** The file text of a header and written rows is already trimmed and no
      line holds a line break. */
  lemma TextTrimmed(header: string, rows: seq<CsvRow>)
    requires header != [] && Trim(header) == header && '\n' !in header
    requires forall r :: r in rows ==> Writable(r)
    ensures var lines := [header] + FormatLines(rows);
      && Trim(JoinWith(lines, '\n')) == JoinWith(lines, '\n')
      && forall l :: l in lines ==> '\n' !in l
  {
    LinesNoBreak(header, rows);
    LastLineEnd(header, rows);
    TrimFixed(header);
    JoinTrimmed([header] + FormatLines(rows), '\n');
  }

  lemma LinesNoBreak(header: string, rows: seq<CsvRow>)
    requires '\n' !in header
    requires forall r :: r in rows ==> Writable(r)
    ensures forall l :: l in [header] + FormatLines(rows) ==> '\n' !in l
  {
    forall l | l in [header] + FormatLines(rows) ensures '\n' !in l {
      if l != header {
        var i :| 0 <= i < |rows| && l == FormatLine(rows[i]);
        FormatLineSplits(rows[i]);
      }
    }
  }

  lemma LastLineEnd(header: string, rows: seq<CsvRow>)
    requires header != [] && Trim(header) == header
    requires forall r :: r in rows ==> Writable(r)
    ensures var lines := [header] + FormatLines(rows); var last := lines[|lines| - 1];
      last != [] && !IsSpace(last[|last| - 1])
  {
    var lines := [header] + FormatLines(rows);
    var last := lines[|lines| - 1];
    if rows != [] {
      assert last == FormatLine(rows[|rows| - 1]);
      FormatLineTrimmed(rows[|rows| - 1]);
      TrimFixed(last);
    } else {
      TrimFixed(header);
    }
  }

  lemma KeepFormatted(rows: seq<CsvRow>, parseFloat: string -> Option<real>)
    requires forall r :: r in rows ==> Writable(r)
    ensures Keep(FormatLines(rows), Parser(parseFloat)) ==
      seq(|rows|, i requires 0 <= i < |rows| => Expected(rows[i], parseFloat))
  {
    var out := seq(|rows|, i requires 0 <= i < |rows| => Expected(rows[i], parseFloat));
    forall i | 0 <= i < |rows| ensures Parser(parseFloat)(FormatLines(rows)[i]) == Some(out[i]) {
      LineRoundTrip(rows[i], parseFloat);
    }
    KeepAll(FormatLines(rows), Parser(parseFloat), out);
  }

  /** When every line parses, each gives the POI at its own position. */
  lemma {:induction false} KeepAll(lines: seq<string>, parse: string -> Option<WebPoi>, out: seq<WebPoi>)
    requires |lines| == |out| && forall i :: 0 <= i < |lines| ==> parse(lines[i]) == Some(out[i])
    ensures Keep(lines, parse) == out
  {
    if lines != [] {
      var m := |lines| - 1;
      KeepAll(lines[..m], parse, out[..m]);
    }
  }
}
