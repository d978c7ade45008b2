/** The browser's CSV export of a report table: every header and cell is
    wrapped in double quotes with inner quotes doubled, body cells are first
    cleaned of the amount formatting (`$`, thousands dots, decimal comma),
    fields are joined with ';' and lines with '\n'.

    A reader of the format (`ParseCsv`) is defined here only to state the
    round-trip property: reading an export back gives the header row and
    the cleaned body rows exactly. */
module Csv {

  import opened Tables

  // ---------------------------------------------------------------------
  // Cell cleaning

  /** The position of the first `c` in `s`, or -1 (`indexOf`). */
  function IndexOf(s: string, c: char): (i: int)
    ensures -1 <= i < |s|
    ensures i == -1 <==> c !in s
    ensures 0 <= i ==> s[i] == c && forall j :: 0 <= j < i ==> s[j] != c
  {
    if s == [] then -1
    else if s[0] == c then 0
    else
      var j := IndexOf(s[1..], c);
      if j == -1 then -1 else j + 1
  }

  /** `s.replace(c, '')` with a string pattern: only the first `c` goes. */
  function RemoveFirst(s: string, c: char): string {
    if s == [] then []
    else if s[0] == c then s[1..]
    else [s[0]] + RemoveFirst(s[1..], c)
  }

  /** Without a `c` nothing changes. */
  lemma {:induction false} RemoveFirstAbsent(s: string, c: char)
    requires c !in s
    ensures RemoveFirst(s, c) == s
  {
    if s != [] {
      RemoveFirstAbsent(s[1..], c);
      assert s == [s[0]] + s[1..];
    }
  }

  /** When the first `c` is at `i`, it is the one removed: what precedes it
      and what follows it are kept as they were. */
  lemma {:induction false} RemoveFirstAt(s: string, c: char, i: int)
    requires 0 <= i < |s| && s[i] == c
    requires forall j :: 0 <= j < i ==> s[j] != c
    ensures RemoveFirst(s, c) == s[..i] + s[i + 1..]
  {
    if i > 0 {
      var t := s[1..];
      RemoveFirstAt(t, c, i - 1);
      assert s[..i] == [s[0]] + t[..i - 1];
      assert s[i + 1..] == t[i..];
    }
  }

  /** Exactly one `c` fewer, when there was one. */
  lemma {:induction false} RemoveFirstCount(s: string, c: char)
    ensures multiset(RemoveFirst(s, c)) == if c in s then multiset(s) - multiset{c} else multiset(s)
  {
    if s != [] {
      var t := s[1..];
      assert s == [s[0]] + t;
      assert multiset(s) == multiset{s[0]} + multiset(t);
      if s[0] == c {
        assert RemoveFirst(s, c) == t;
      } else {
        RemoveFirstCount(t, c);
        assert RemoveFirst(s, c) == [s[0]] + RemoveFirst(t, c);
        assert c in s <==> c in t;
      }
    }
  }

  /** `s.replace(/c/g, '')`: every `c` goes, everything else stays in order. */
  function RemoveAll(s: string, c: char): string {
    if s == [] then []
    else (if s[0] == c then [] else [s[0]]) + RemoveAll(s[1..], c)
  }

  /** No `c` is left and every other character keeps its count. */
  lemma {:induction false} RemoveAllCount(s: string, c: char)
    ensures multiset(RemoveAll(s, c)) == multiset(s)[c := 0]
  {
    if s != [] {
      var t := s[1..];
      RemoveAllCount(t, c);
      assert s == [s[0]] + t;
      assert multiset(s) == multiset{s[0]} + multiset(t);
      if s[0] == c {
        assert RemoveAll(s, c) == RemoveAll(t, c);
      } else {
        assert RemoveAll(s, c) == [s[0]] + RemoveAll(t, c);
      }
    }
  }

  /** Without a `c` nothing changes. */
  lemma {:induction false} RemoveAllAbsent(s: string, c: char)
    requires c !in s
    ensures RemoveAll(s, c) == s
  {
    if s != [] {
      RemoveAllAbsent(s[1..], c);
      assert s == [s[0]] + s[1..];
    }
  }

  /** `s.replace(c, d)` with a string pattern: only the first `c` becomes `d`. */
  function ReplaceFirst(s: string, c: char, d: char): string {
    if s == [] then []
    else if s[0] == c then [d] + s[1..]
    else [s[0]] + ReplaceFirst(s[1..], c, d)
  }

  /** The replaced `c` is the first one and nothing else changes. */
  lemma {:induction false} ReplaceFirstUpdates(s: string, c: char, d: char)
    ensures c !in s ==> ReplaceFirst(s, c, d) == s
    ensures c in s ==> ReplaceFirst(s, c, d) == s[IndexOf(s, c) := d]
  {
    if s != [] && s[0] != c {
      ReplaceFirstUpdates(s[1..], c, d);
      assert s == [s[0]] + s[1..];
    }
  }

  /** One `c` has become one `d`, when there was a `c`. */
  lemma ReplaceFirstCount(s: string, c: char, d: char)
    ensures multiset(ReplaceFirst(s, c, d)) == if c in s then multiset(s) - multiset{c} + multiset{d} else multiset(s)
  {
    ReplaceFirstUpdates(s, c, d);
  }

  /** A body cell as exported: the first '$' removed, every '.' removed,
      and then, if a ',' is left, the first one turned into '.'. */
  function CleanCell(s: string): string {
    var sinPesos := RemoveFirst(s, '$');
    var sinMiles := RemoveAll(sinPesos, '.');
    if ',' in sinMiles then ReplaceFirst(sinMiles, ',', '.') else sinMiles
  }

  /** What cleaning does to each character: one '$' and one ',' fewer (when
      there was one), a single '.' exactly when the cell had a ',', and every
      other character kept. */
  lemma CleanCellCounts(s: string)
    ensures var r := CleanCell(s);
      multiset(r)['$'] == (if '$' in s then multiset(s)['$'] - 1 else 0) &&
      multiset(r)[','] == (if ',' in s then multiset(s)[','] - 1 else 0) &&
      multiset(r)['.'] == (if ',' in s then 1 else 0) &&
      forall x :: x != '$' && x != '.' && x != ',' ==> multiset(r)[x] == multiset(s)[x]
  {
    var a := RemoveFirst(s, '$');
    RemoveFirstCount(s, '$');
    var b := RemoveAll(a, '.');
    RemoveAllCount(a, '.');
    ReplaceFirstCount(b, ',', '.');
    assert '$' in s <==> '$' in multiset(s);
    assert ',' in s <==> ',' in multiset(s);
    assert ',' in b <==> ',' in multiset(b);
    CleanCounts(multiset(s), multiset(a), multiset(b), multiset(CleanCell(s)));
  }

  /** The counting behind `CleanCellCounts`, on the multisets of the cell
      after each step. */
  lemma CleanCounts(ms: multiset<char>, ma: multiset<char>, mb: multiset<char>, mr: multiset<char>)
    requires ma == if '$' in ms then ms - multiset{'$'} else ms
    requires mb == ma['.' := 0]
    requires mr == if ',' in mb then mb - multiset{','} + multiset{'.'} else mb
    ensures mr['$'] == (if '$' in ms then ms['$'] - 1 else 0)
    ensures mr[','] == (if ',' in ms then ms[','] - 1 else 0)
    ensures mr['.'] == (if ',' in ms then 1 else 0)
    ensures forall x :: x != '$' && x != '.' && x != ',' ==> mr[x] == ms[x]
  {
    assert ma[','] == ms[','];
  }

  /** A Chilean amount comes out as a plain decimal. */
  lemma CleanAmountExample()
    ensures CleanCell("$1.234,56") == "1234.56"
  {
    assert RemoveFirst("$1.234,56", '$') == "1.234,56";
    assert RemoveAll("1.234,56", '.') == "1234,56";
    assert "1234,56" == "1234" + [','] + "56";
    assert ReplaceFirst("1234,56", ',', '.') == "1234.56";
  }

  /** Only the first comma of a cell becomes a point. */
  lemma CleanFirstCommaExample()
    ensures CleanCell("1,5,7") == "1.5,7"
  {
    assert RemoveAll("1,5,7", '.') == "1,5,7";
    assert "1,5,7" == "1" + [','] + "5,7";
    assert ReplaceFirst("1,5,7", ',', '.') == "1.5,7";
  }

  // ---------------------------------------------------------------------
  // Quoting and layout

  /** `s.replace(/"/g, '""')`. */
  function Escape(s: string): string {
    if s == [] then []
    else (if s[0] == '"' then "\"\"" else [s[0]]) + Escape(s[1..])
  }

  /** `"${Escape(s)}"`. */
  function Quote(s: string): string {
    "\"" + Escape(s) + "\""
  }

  /** `ls.join(sep)`: "" for no elements. */
  function Join(ls: seq<string>, sep: char): string {
    if ls == [] then ""
    else if |ls| == 1 then ls[0]
    else ls[0] + [sep] + Join(ls[1..], sep)
  }

  /** Every header text quoted, in order. */
  function QuoteAll(cells: seq<string>): seq<string> {
    seq(|cells|, i requires 0 <= i < |cells| => Quote(cells[i]))
  }

  /** One exported line: the quoted cells joined with ';'. */
  function Line(cells: seq<string>): string {
    Join(QuoteAll(cells), ';')
  }

  /** Every cell of a body row cleaned, in order. */
  function CleanRow(row: seq<string>): seq<string> {
    seq(|row|, i requires 0 <= i < |row| => CleanCell(row[i]))
  }

  function CleanRows(body: seq<seq<string>>): seq<seq<string>> {
    seq(|body|, k requires 0 <= k < |body| => CleanRow(body[k]))
  }

  /** The exported file: the header line, then one line per body row. */
  function CsvText(headers: seq<string>, body: seq<seq<string>>): string {
    Join([Line(headers)] + seq(|body|, k requires 0 <= k < |body| => Line(CleanRow(body[k]))), '\n')
  }

  // ---------------------------------------------------------------------
  // Reading an export back

  /** The body of a quoted field, after its opening quote: a doubled quote
      stands for one quote, and a single quote closes the field. Gives the
      field's text and what follows the closing quote. */
  function ReadBody(s: string, acc: string): (r: Option<(string, string)>)
    ensures r.Some? ==> |r.value.1| < |s|
    decreases |s|
  {
    if s == [] then None
    else if s[0] == '"' then
      if |s| > 1 && s[1] == '"' then ReadBody(s[2..], acc + "\"")
      else Some((acc, s[1..]))
    else ReadBody(s[1..], acc + [s[0]])
  }

  /** One quoted field at the start of `s`. */
  function ReadQuoted(s: string): (r: Option<(string, string)>)
    ensures r.Some? ==> |r.value.1| < |s|
  {
    if s != [] && s[0] == '"' then ReadBody(s[1..], "") else None
  }

  /** One or more quoted fields separated by ';'. */
  function ParseFields(s: string): (r: Option<(seq<string>, string)>)
    ensures r.Some? ==> |r.value.1| < |s|
    decreases |s|
  {
    match ReadQuoted(s)
    case None => None
    case Some((f, rest)) =>
      if rest != [] && rest[0] == ';' then
        match ParseFields(rest[1..])
        case None => None
        case Some((fs, rest')) => Some(([f] + fs, rest'))
      else Some(([f], rest))
  }

  /** A line: no fields when it is empty, else one or more fields. */
  function ParseRecord(s: string): (r: Option<(seq<string>, string)>)
    ensures r.Some? ==> |r.value.1| <= |s|
  {
    if s == [] || s[0] == '\n' then Some(([], s)) else ParseFields(s)
  }

  /** Lines separated by '\n'. */
  function ParseCsv(s: string): Option<seq<seq<string>>>
    decreases |s|
  {
    match ParseRecord(s)
    case None => None
    case Some((fs, rest)) =>
      if rest == [] then Some([fs])
      else if rest[0] == '\n' then
        match ParseCsv(rest[1..])
        case None => None
        case Some(rs) => Some([fs] + rs)
      else None
  }

  /** Escaping is undone by reading a quoted field: the field's text comes
      back exactly, whatever quotes, ';' or '\n' it holds. */
  lemma {:induction false} ReadBodyEscape(t: string, rest: string, acc: string)
    requires rest == [] || rest[0] != '"'
    ensures ReadBody(Escape(t) + "\"" + rest, acc) == Some((acc + t, rest))
  {
    var s := Escape(t) + "\"" + rest;
    if t == [] {
      assert s == "\"" + rest;
      assert acc + t == acc;
    } else if t[0] == '"' {
      ReadBodyEscape(t[1..], rest, acc + "\"");
      assert s == "\"\"" + (Escape(t[1..]) + "\"" + rest);
      assert s[2..] == Escape(t[1..]) + "\"" + rest;
      assert acc + "\"" + t[1..] == acc + t;
    } else {
      ReadBodyEscape(t[1..], rest, acc + [t[0]]);
      assert s == [t[0]] + (Escape(t[1..]) + "\"" + rest);
      assert s[1..] == Escape(t[1..]) + "\"" + rest;
      assert acc + [t[0]] + t[1..] == acc + t;
    }
  }

  lemma ReadQuotedQuote(t: string, rest: string)
    requires rest == [] || rest[0] != '"'
    ensures ReadQuoted(Quote(t) + rest) == Some((t, rest))
  {
    ReadBodyEscape(t, rest, "");
    assert (Quote(t) + rest)[1..] == Escape(t) + "\"" + rest;
    assert "" + t == t;
  }

  /** A line of one or more quoted fields reads back as those fields. */
  lemma {:induction false} FieldsRoundTrip(cells: seq<string>, rest: string)
    requires cells != []
    requires rest == [] || rest[0] == '\n'
    ensures ParseFields(Line(cells) + rest) == Some((cells, rest))
  {
    var q := QuoteAll(cells);
    if |cells| == 1 {
      assert Line(cells) == Quote(cells[0]);
      ReadQuotedQuote(cells[0], rest);
      assert [cells[0]] == cells;
    } else {
      var tail := Line(cells[1..]) + rest;
      assert QuoteAll(cells[1..]) == q[1..];
      assert Line(cells) + rest == Quote(cells[0]) + ([';'] + tail);
      ReadQuotedQuote(cells[0], [';'] + tail);
      FieldsRoundTrip(cells[1..], rest);
      assert [cells[0]] + cells[1..] == cells;
    }
  }

  lemma RecordRoundTrip(cells: seq<string>, rest: string)
    requires rest == [] || rest[0] == '\n'
    ensures ParseRecord(Line(cells) + rest) == Some((cells, rest))
  {
    if cells == [] {
      assert Line(cells) + rest == rest;
    } else {
      FieldsRoundTrip(cells, rest);
      assert Line(cells)[0] == '"';
    }
  }

  /** Lines written by `Line` and joined with '\n' read back as the rows. */
  lemma {:induction false} LinesRoundTrip(rows: seq<seq<string>>)
    requires rows != []
    ensures ParseCsv(Join(seq(|rows|, k requires 0 <= k < |rows| => Line(rows[k])), '\n')) == Some(rows)
  {
    var lines := seq(|rows|, k requires 0 <= k < |rows| => Line(rows[k]));
    if |rows| == 1 {
      RecordRoundTrip(rows[0], "");
      assert Join(lines, '\n') == Line(rows[0]) + "";
      assert [rows[0]] == rows;
    } else {
      var resto := rows[1..];
      var lineasResto := seq(|resto|, k requires 0 <= k < |resto| => Line(resto[k]));
      assert lines[1..] == lineasResto;
      var tail := Join(lineasResto, '\n');
      assert Join(lines, '\n') == Line(rows[0]) + (['\n'] + tail);
      RecordRoundTrip(rows[0], ['\n'] + tail);
      LinesRoundTrip(resto);
      assert (['\n'] + tail)[1..] == tail;
      assert [rows[0]] + resto == rows;
    }
  }

  /** Reading an export back gives the header row followed by the cleaned
      body rows: one record per table row, plus the header. */
  lemma CsvRoundTrip(headers: seq<string>, body: seq<seq<string>>)
    ensures ParseCsv(CsvText(headers, body)) == Some([headers] + CleanRows(body))
    ensures |ParseCsv(CsvText(headers, body)).value| == |body| + 1
  {
    var rows := [headers] + CleanRows(body);
    var lines := seq(|rows|, k requires 0 <= k < |rows| => Line(rows[k]));
    assert lines == [Line(headers)] + seq(|body|, k requires 0 <= k < |body| => Line(CleanRow(body[k])));
    LinesRoundTrip(rows);
  }

  // ---------------------------------------------------------------------
  // The export

  /** `exportTableToCSV`: the quoted headers joined with ';', then for each
      body row its cleaned and quoted cells joined with ';', all lines joined
      with '\n'. The file reads back as the header row and the cleaned body
      rows. */
  method ExportTableToCsv(headers: seq<string>, body: seq<seq<string>>) returns (text: string)
    ensures text == CsvText(headers, body)
    ensures ParseCsv(text) == Some([headers] + CleanRows(body))
  {
    var csv: seq<string> := [];
    var encabezados: seq<string> := [];
    for i := 0 to |headers|
      invariant encabezados == QuoteAll(headers[..i])
    {
      encabezados := encabezados + [Quote(headers[i])];
    }
    assert headers[..|headers|] == headers;
    csv := csv + [Join(encabezados, ';')];

    for k := 0 to |body|
      invariant |csv| == k + 1
      invariant csv[0] == Line(headers)
      invariant forall j :: 0 <= j < k ==> csv[j + 1] == Line(CleanRow(body[j]))
    {
      var fila := body[k];
      var datos: seq<string> := [];
      for i := 0 to |fila|
        invariant datos == QuoteAll(CleanRow(fila)[..i])
      {
        datos := datos + [Quote(CleanCell(fila[i]))];
      }
      assert CleanRow(fila)[..|fila|] == CleanRow(fila);
      csv := csv + [Join(datos, ';')];
    }
    assert csv == [Line(headers)] + seq(|body|, k requires 0 <= k < |body| => Line(CleanRow(body[k])));
    text := Join(csv, '\n');
    CsvRoundTrip(headers, body);
  }
}
