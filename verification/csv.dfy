/** The tabular report: each cell wrapped in double quotes with inner quotes
    doubled, cells joined by `,`, rows by a line break, and the header line made
    of the first record's keys. A reader for quoted cells is given as the
    writer's inverse. */
module Csv {
  import opened Results
  import opened JsStrings
  import opened Records

  /** `s.replace(/"/g, '""')`. */
  function DoubleQuotes(s: string): (r: string)
    ensures |r| >= |s|
    decreases |s|
  {
    if |s| == 0 then "" else (if s[0] == '"' then "\"\"" else [s[0]]) + DoubleQuotes(s[1..])
  }

  /** One cell of a data row: `"` + the text with quotes doubled + `"`. */
  function EscapeCell(s: string): (c: string)
    ensures |c| >= 2 && c[0] == '"' && c[|c| - 1] == '"'
    ensures c[1..|c| - 1] == DoubleQuotes(s)
  {
    "\"" + DoubleQuotes(s) + "\""
  }

  /** The reading of a cell body: a pair of quotes stands for one quote, and a
      lone quote is malformed. */
  function CollapseQuotes(s: string): Option<string>
    decreases |s|
  {
    if |s| == 0 then Some("")
    else if s[0] == '"' then
      if |s| >= 2 && s[1] == '"' then
        match CollapseQuotes(s[2..])
        case None => None
        case Some(t) => Some("\"" + t)
      else None
    else
      match CollapseQuotes(s[1..])
      case None => None
      case Some(t) => Some([s[0]] + t)
  }

  /** Strips the outer quotes of a cell and collapses doubled quotes. */
  function UnescapeCell(c: string): Option<string> {
    if |c| >= 2 && c[0] == '"' && c[|c| - 1] == '"' then CollapseQuotes(c[1..|c| - 1]) else None
  }

  lemma {:induction false} CollapseDoubleQuotes(s: string)
    ensures CollapseQuotes(DoubleQuotes(s)) == Some(s)
    decreases |s|
  {
    if |s| > 0 {
      var d := DoubleQuotes(s);
      CollapseDoubleQuotes(s[1..]);
      if s[0] == '"' {
        assert d[2..] == DoubleQuotes(s[1..]);
        assert "\"" + s[1..] == s;
      } else {
        assert d[1..] == DoubleQuotes(s[1..]);
        assert [s[0]] + s[1..] == s;
      }
    }
  }

  lemma {:induction false} DoubleQuotesOfCollapse(t: string)
    requires CollapseQuotes(t).Some?
    ensures DoubleQuotes(CollapseQuotes(t).value) == t
    decreases |t|
  {
    if |t| > 0 {
      if t[0] == '"' {
        DoubleQuotesOfCollapse(t[2..]);
        var u := CollapseQuotes(t[2..]).value;
        assert ("\"" + u)[1..] == u;
        assert t == "\"\"" + t[2..];
      } else {
        DoubleQuotesOfCollapse(t[1..]);
        var u := CollapseQuotes(t[1..]).value;
        assert ([t[0]] + u)[1..] == u;
        assert t == [t[0]] + t[1..];
      }
    }
  }

  /** Stripping the outer quotes of an escaped cell and collapsing doubled
      quotes gives back the original text. */
  lemma EscapeRoundTrip(s: string)
    ensures UnescapeCell(EscapeCell(s)) == Some(s)
  {
    CollapseDoubleQuotes(s);
  }

  /** Escaping is the only way to produce a readable cell: a cell that
      unescapes to `s` is exactly `EscapeCell(s)`. */
  lemma EscapeCanonical(c: string)
    requires UnescapeCell(c).Some?
    ensures EscapeCell(UnescapeCell(c).value) == c
  {
    var body := c[1..|c| - 1];
    DoubleQuotesOfCollapse(body);
    Framed(c);
  }

  /** A text that starts and ends with a quote is its middle, quoted. */
  lemma Framed(c: string)
    requires |c| >= 2 && c[0] == '"' && c[|c| - 1] == '"'
    ensures c == "\"" + c[1..|c| - 1] + "\""
  {
  }

  /** Escapes every cell of a row. */
  function EscapeAll(cells: seq<string>): (r: seq<string>)
    ensures |r| == |cells|
    ensures forall i :: 0 <= i < |cells| ==> r[i] == EscapeCell(cells[i])
    decreases |cells|
  {
    if |cells| == 0 then [] else [EscapeCell(cells[0])] + EscapeAll(cells[1..])
  }

  /** One data line: the escaped cells joined by `,`. */
  function EncodeRow(cells: seq<string>): string {
    Join(EscapeAll(cells), ",")
  }

  /** Data lines joined by a line break. */
  function EncodeRows(rows: seq<seq<string>>): string
    decreases |rows|
  {
    if |rows| == 0 then ""
    else if |rows| == 1 then EncodeRow(rows[0])
    else EncodeRow(rows[0]) + "\n" + EncodeRows(rows[1..])
  }

  /** The cell texts of one record, `Object.values(item).map(String)`. */
  function Cells(r: Rec): (cells: seq<string>)
    ensures |cells| == |r|
    ensures forall i :: 0 <= i < |r| ==> cells[i] == CellText(r[i].value)
  {
    var vs := Values(r);
    seq(|vs|, i requires 0 <= i < |vs| => CellText(vs[i]))
  }

  function CellRows(data: seq<Rec>): (rows: seq<seq<string>>)
    ensures |rows| == |data|
    ensures forall i :: 0 <= i < |data| ==> rows[i] == Cells(data[i])
  {
    seq(|data|, i requires 0 <= i < |data| => Cells(data[i]))
  }

  /** `generateCSV`'s file content: nothing for an empty list; otherwise the
      first record's keys joined by `,` (not escaped), a line break, and one
      data line per record in list order. */
  function CsvText(data: seq<Rec>): (text: Option<string>)
    ensures text.None? <==> |data| == 0
    ensures text.Some? ==> var header := Join(Keys(data[0]), ",");
      |header| < |text.value| && text.value[..|header|] == header && text.value[|header|] == '\n'
  {
    if |data| == 0 then None
    else
      var header := Join(Keys(data[0]), ",");
      var text := header + "\n" + EncodeRows(CellRows(data));
      assert text[..|header|] == header;
      Some(text)
  }

  // ---- Reading the report back -------------------------------------------

  /** Reads a quoted cell whose opening quote has been consumed; yields its
      text and what follows the closing quote. */
  function ReadQuoted(s: string): (r: Option<(string, string)>)
    ensures r.Some? ==> |r.value.1| < |s|
    decreases |s|
  {
    if |s| == 0 then None
    else if s[0] == '"' then
      if |s| >= 2 && s[1] == '"' then
        match ReadQuoted(s[2..])
        case None => None
        case Some((t, rest)) => Some(("\"" + t, rest))
      else Some(("", s[1..]))
    else
      match ReadQuoted(s[1..])
      case None => None
      case Some((t, rest)) => Some(([s[0]] + t, rest))
  }

  /** Reads the `,`-separated quoted cells of one line. */
  function ReadCells(s: string): (r: Option<(seq<string>, string)>)
    ensures r.Some? ==> |r.value.0| >= 1 && |r.value.1| < |s|
    decreases |s|
  {
    if |s| == 0 || s[0] != '"' then None
    else
      match ReadQuoted(s[1..])
      case None => None
      case Some((cell, rest)) =>
        if |rest| > 0 && rest[0] == ',' then
          match ReadCells(rest[1..])
          case None => None
          case Some((cells, rest')) => Some(([cell] + cells, rest'))
        else Some(([cell], rest))
  }

  /** Reads line-separated rows of quoted cells up to the end of the text. */
  function ReadRows(s: string): (r: Option<seq<seq<string>>>)
    ensures r.Some? ==> |r.value| >= 1
    decreases |s|
  {
    match ReadCells(s)
    case None => None
    case Some((cells, rest)) =>
      if |rest| == 0 then Some([cells])
      else if rest[0] == '\n' then
        match ReadRows(rest[1..])
        case None => None
        case Some(rows) => Some([cells] + rows)
      else None
  }

  /** Reads a whole report: the header line split at `,`, then the data rows. */
  function ReadCsv(text: string): Option<(seq<string>, seq<seq<string>>)> {
    if '\n' !in text then None
    else
      var i := IndexOf(text, '\n');
      match ReadRows(text[i + 1..])
      case None => None
      case Some(rows) => Some((Split(text[..i], ','), rows))
  }

  lemma {:induction false} ReadQuotedEscaped(t: string, rest: string)
    requires |rest| == 0 || rest[0] != '"'
    ensures ReadQuoted(DoubleQuotes(t) + "\"" + rest) == Some((t, rest))
    decreases |t|
  {
    var s := DoubleQuotes(t) + "\"" + rest;
    if |t| > 0 {
      ReadQuotedEscaped(t[1..], rest);
      if t[0] == '"' {
        assert s[2..] == DoubleQuotes(t[1..]) + "\"" + rest;
        assert "\"" + t[1..] == t;
      } else {
        assert s[1..] == DoubleQuotes(t[1..]) + "\"" + rest;
        assert [t[0]] + t[1..] == t;
      }
    } else {
      assert s == "\"" + rest;
      assert s[1..] == rest;
    }
  }

  /** An escaped cell followed by anything but a quote reads back as that
      cell's text. */
  lemma ReadCellHead(cell: string, rest: string)
    requires |rest| == 0 || rest[0] != '"'
    ensures var s := EscapeCell(cell) + rest;
      |s| > 0 && s[0] == '"' && ReadQuoted(s[1..]) == Some((cell, rest))
  {
    var s := EscapeCell(cell) + rest;
    assert s[1..] == DoubleQuotes(cell) + "\"" + rest;
    ReadQuotedEscaped(cell, rest);
  }

  lemma EncodeRowCons(cells: seq<string>)
    requires |cells| >= 1
    ensures EncodeRow(cells) ==
      if |cells| == 1 then EscapeCell(cells[0]) else EscapeCell(cells[0]) + "," + EncodeRow(cells[1..])
  {
    assert EscapeAll(cells)[1..] == EscapeAll(cells[1..]);
  }

  /** One escaped cell before the end of its line reads back alone. */
  lemma ReadLastCell(cell: string, rest: string)
    requires |rest| == 0 || rest[0] == '\n'
    ensures ReadCells(EscapeCell(cell) + rest) == Some(([cell], rest))
  {
    ReadCellHead(cell, rest);
  }

  /** An escaped cell followed by `,` and a readable line reads back in front
      of that line's cells. */
  lemma ReadCellThenMore(cell: string, tail: string, cells: seq<string>, rest: string)
    requires ReadCells(tail) == Some((cells, rest))
    ensures ReadCells(EscapeCell(cell) + ("," + tail)) == Some(([cell] + cells, rest))
  {
    var more := "," + tail;
    ReadCellHead(cell, more);
    assert more[1..] == tail;
  }

  lemma {:induction false} ReadCellsEncoded(cells: seq<string>, rest: string)
    requires |cells| >= 1
    requires |rest| == 0 || rest[0] == '\n'
    ensures ReadCells(EncodeRow(cells) + rest) == Some((cells, rest))
    decreases |cells|
  {
    if |cells| == 1 {
      EncodeRowCons(cells);
      ReadLastCell(cells[0], rest);
      assert [cells[0]] == cells;
    } else {
      var tail := EncodeRow(cells[1..]) + rest;
      EncodeRowThenRest(cells, rest);
      ReadCellsEncoded(cells[1..], rest);
      ReadCellThenMore(cells[0], tail, cells[1..], rest);
      assert [cells[0]] + cells[1..] == cells;
    }
  }

  lemma EncodeRowThenRest(cells: seq<string>, rest: string)
    requires |cells| >= 2
    ensures EncodeRow(cells) + rest == EscapeCell(cells[0]) + ("," + (EncodeRow(cells[1..]) + rest))
  {
    EncodeRowCons(cells);
  }

  /** Rows written by `EncodeRows` read back as the same rows, provided every
      row has a cell (an empty row would write an empty line). */
  lemma {:induction false} ReadRowsEncoded(rows: seq<seq<string>>)
    requires |rows| >= 1
    requires forall i :: 0 <= i < |rows| ==> |rows[i]| >= 1
    ensures ReadRows(EncodeRows(rows)) == Some(rows)
    decreases |rows|
  {
    if |rows| == 1 {
      assert EncodeRows(rows) == EncodeRow(rows[0]) + "";
      ReadCellsEncoded(rows[0], "");
      assert [rows[0]] == rows;
    } else {
      var more := "\n" + EncodeRows(rows[1..]);
      assert EncodeRows(rows) == EncodeRow(rows[0]) + more;
      ReadCellsEncoded(rows[0], more);
      assert more[1..] == EncodeRows(rows[1..]);
      ReadRowsEncoded(rows[1..]);
      assert [rows[0]] + rows[1..] == rows;
    }
  }

  /** Reading a generated report recovers the first record's keys as the
      header and every record's cell texts, in list order, provided the keys
      of the first record hold neither `,` nor a line break and no record is
      empty. */
  lemma CsvRoundTrip(data: seq<Rec>)
    requires |data| >= 1
    requires forall i :: 0 <= i < |data| ==> |data[i]| >= 1
    requires forall i :: 0 <= i < |data[0]| ==> ',' !in data[0][i].key && '\n' !in data[0][i].key
    ensures ReadCsv(CsvText(data).value) == Some((Keys(data[0]), CellRows(data)))
  {
    var keys := Keys(data[0]);
    var header := Join(keys, ",");
    var body := EncodeRows(CellRows(data));
    var text := CsvText(data).value;
    assert text == header + "\n" + body;
    JoinAvoids(keys, ",", '\n');
    IndexOfAfterPrefix(header, '\n', body);
    assert text[..|header|] == header;
    assert text[|header| + 1..] == body;
    ReadRowsEncoded(CellRows(data));
    SplitJoin(keys, ',');
  }

  /** A join holds a character only if a part or the separator does. */
  lemma {:induction false} JoinAvoids(parts: seq<string>, sep: string, c: char)
    requires c !in sep
    requires forall i :: 0 <= i < |parts| ==> c !in parts[i]
    ensures c !in Join(parts, sep)
    decreases |parts|
  {
    if |parts| > 1 {
      JoinAvoids(parts[1..], sep, c);
    }
  }
}
