/** The CSV report of the dashboard table (`downloadReport` in `page.tsx`):
    a header line, then one line per row, joined by newlines. */
module Report {
  import opened JsStrings
  import opened Universe
  import opened Rows

  const HeaderLine: string := "Symbol,Price,24h Change,Favorite"

  /** The column names, as the first line of the file. */
  const Header: string := HeaderLine + "\n"

  /** The four cells of one row: the symbol without its first "USDT", the
      formatted price without its thousands separators, the 24-hour change
      and whether the symbol is a favourite. */
  function Fields(row: Row, favs: seq<string>): (r: seq<string>)
    ensures |r| == 4
    ensures ',' !in r[1]
    ensures r[3] == "Yes" <==> row.symbol in favs
  {
    [ReplaceFirst(row.symbol, "USDT", ""),
     RemoveChar(row.price, ','),
     row.change24h,
     if row.symbol in favs then "Yes" else "No"]
  }

  /** One report line: the cells joined by commas, without quoting. */
  function CsvLine(row: Row, favs: seq<string>): (r: string)
    ensures |r| >= |Fields(row, favs)[0]| + 3
    ensures r[..|Fields(row, favs)[0]|] == Fields(row, favs)[0]
  {
    Join(Fields(row, favs), ',')
  }

  /** The report lines, one per row, in table order. */
  function CsvLines(rows: seq<Row>, favs: seq<string>): (r: seq<string>)
    ensures |r| == |rows|
    ensures forall i :: 0 <= i < |rows| ==> r[i] == CsvLine(rows[i], favs)
  {
    seq(|rows|, i requires 0 <= i < |rows| => CsvLine(rows[i], favs))
  }

  /** The text of the downloaded file. */
  function Csv(rows: seq<Row>, favs: seq<string>): (r: string)
    ensures |Header| <= |r| && r[..|Header|] == Header
  {
    Header + Join(CsvLines(rows, favs), '\n')
  }

  /** Removing a pattern adds no character. */
  lemma {:induction false} ReplaceFirstChars(s: string, p: string, q: string, c: char)
    requires c in ReplaceFirst(s, p, q)
    ensures c in s || c in q
    decreases |s|
  {
    if StartsWith(s, p) {
      if c in s[|p|..] {
        var i :| 0 <= i < |s[|p|..]| && s[|p|..][i] == c;
        assert s[|p| + i] == c;
      }
    } else if |s| > 0 {
      if c != s[0] {
        ReplaceFirstChars(s[1..], p, q, c);
      }
    }
  }

  /** A symbol whose base asset has no `U` loses exactly its "USDT" suffix. */
  lemma BaseAsset(s: string)
    requires EndsWith(s, "USDT") && 'U' !in s[..|s| - 4]
    ensures ReplaceFirst(s, "USDT", "") == s[..|s| - 4]
  {
    var n := |s| - 4;
    assert s[n..n + 4] == s[n..];
    assert OccursAt(s, "USDT", n);
    forall j | 0 <= j < n
      ensures !OccursAt(s, "USDT", j)
    {
      OccursHead(s, "USDT", j);
      assert s[..n][j] == s[j];
    }
    ReplaceFirstSplits(s, "USDT", "", n);
    assert s[n + 4..] == "";
  }

  /** An occurrence starts with the pattern's first character. */
  lemma OccursHead(s: string, p: string, j: int)
    requires |p| > 0
    ensures OccursAt(s, p, j) ==> s[j] == p[0]
  {
    if OccursAt(s, p, j) {
      assert s[j..j + |p|][0] == s[j];
    }
  }

  /** Every tracked symbol is reported by its base asset. */
  lemma UniverseBaseAsset(s: string)
    requires s in TopCryptos
    ensures ReplaceFirst(s, "USDT", "") + "USDT" == s
  {
    UniverseShape(s);
    BaseAsset(s);
  }

  /** An empty table gives a file with the header alone. */
  lemma EmptyReport(favs: seq<string>)
    ensures Csv([], favs) == Header
  {
  }

  /** A line splits back into its four cells when neither the symbol nor the
      24-hour change holds a comma; the last cell says whether the row is a
      favourite. */
  lemma LineColumns(row: Row, favs: seq<string>)
    requires ',' !in row.symbol && ',' !in row.change24h
    ensures Split(CsvLine(row, favs), ',') == Fields(row, favs)
    ensures |Split(CsvLine(row, favs), ',')| == 4
    ensures Split(CsvLine(row, favs), ',')[3] == "Yes" <==> row.symbol in favs
  {
    var f := Fields(row, favs);
    forall i | 0 <= i < |f|
      ensures ',' !in f[i]
    {
      if i == 0 && ',' in f[0] {
        ReplaceFirstChars(row.symbol, "USDT", "", ',');
      }
    }
    SplitJoin(f, ',');
  }

  /** The file splits back into the header line and the row lines when no
      cell holds a newline; an empty table leaves one empty last line. */
  lemma ReportLines(rows: seq<Row>, favs: seq<string>)
    requires forall i :: 0 <= i < |rows| ==>
               '\n' !in rows[i].symbol && '\n' !in rows[i].price && '\n' !in rows[i].change24h
    ensures Split(Csv(rows, favs), '\n') ==
              [HeaderLine] + if |rows| == 0 then [""] else CsvLines(rows, favs)
  {
    var lines := CsvLines(rows, favs);
    forall i | 0 <= i < |lines|
      ensures '\n' !in lines[i]
    {
      LineHasNoNewline(rows[i], favs);
    }
    assert '\n' !in HeaderLine;
    SplitPrefix(HeaderLine, '\n', Join(lines, '\n'));
    assert Csv(rows, favs) == HeaderLine + ['\n'] + Join(lines, '\n');
    if |rows| > 0 {
      SplitJoin(lines, '\n');
    }
  }

  /** A line has no newline when its cells have none. */
  lemma LineHasNoNewline(row: Row, favs: seq<string>)
    requires '\n' !in row.symbol && '\n' !in row.price && '\n' !in row.change24h
    ensures '\n' !in CsvLine(row, favs)
  {
    var f := Fields(row, favs);
    if '\n' in f[0] {
      ReplaceFirstChars(row.symbol, "USDT", "", '\n');
    }
    JoinChars(f, ',', '\n');
  }

  /** Joining adds only the separator. */
  lemma {:induction false} JoinChars(lines: seq<string>, sep: char, c: char)
    requires c != sep
    requires forall i :: 0 <= i < |lines| ==> c !in lines[i]
    ensures c !in Join(lines, sep)
  {
    if |lines| > 1 {
      JoinChars(lines[1..], sep, c);
      assert c !in lines[0];
    }
  }
}
