/**
 * The rows `TST_OT_ExportCSV.execute` hands to the CSV writer: a header, the
 * summary, then the projects and the files, each most seconds first.
 */
module Export {
  import opened Options
  import opened Dicts
  import opened Format
  import opened Ranking

  /** A cell as given to the writer: a string, or the integer `int(v)`. */
  datatype Cell = Text(text: string) | Number(value: int)

  /** One list handed to `writer.writerow`. */
  datatype Row = Row(cells: seq<Cell>)

  /** `writer.writerow([])` */
  function Blank(): Row {
    Row([])
  }

  /** The em dash of the section marker rows. */
  const Dash: string := "\U{2014}"

  function Header(): Row {
    Row([Text("Type"), Text("Key"), Text("Seconds"), Text("HH:MM:SS")])
  }

  function SectionMarker(name: string): Row {
    Row([Text(name), Text(Dash), Text(Dash), Text(Dash)])
  }

  /** `[kind, key, int(v), _format_hms(v)]` */
  function DataRow(kind: string, key: string, v: real): Row {
    Row([Text(kind), Text(key), Number(TruncateToInt(v)), Text(FormatHms(v))])
  }

  /** One data row per item, in the order given. */
  function ItemRows(kind: string, items: Dict): (rows: seq<Row>)
    ensures |rows| == |items|
  {
    if items == [] then [] else [DataRow(kind, items[0].0, items[0].1)] + ItemRows(kind, items[1..])
  }

  /** Row `i` is the row of item `i`. */
  lemma {:induction false} ItemRowsAt(kind: string, items: Dict, i: nat)
    requires i < |items|
    ensures ItemRows(kind, items)[i] == DataRow(kind, items[i].0, items[i].1)
  {
    if i > 0 {
      ItemRowsAt(kind, items[1..], i - 1);
    }
  }

  /** The rows of two item lists one after the other are the rows of the joined list. */
  lemma {:induction false} ItemRowsAppend(kind: string, a: Dict, b: Dict)
    ensures ItemRows(kind, a + b) == ItemRows(kind, a) + ItemRows(kind, b)
  {
    if a == [] {
      assert a + b == b;
    } else {
      var first := [DataRow(kind, a[0].0, a[0].1)];
      assert (a + b)[1..] == a[1..] + b;
      ItemRowsAppend(kind, a[1..], b);
      AppendAssoc(first, ItemRows(kind, a[1..]), ItemRows(kind, b));
    }
  }

  /** Writing one more item appends its row. */
  lemma {:induction false} ItemRowsSnoc(kind: string, items: Dict, i: nat)
    requires i < |items|
    ensures ItemRows(kind, items[..i + 1]) == ItemRows(kind, items[..i]) + [DataRow(kind, items[i].0, items[i].1)]
  {
    assert items[..i + 1] == items[..i] + [items[i]];
    ItemRowsAppend(kind, items[..i], [items[i]]);
  }

  lemma {:induction false} AppendAssoc<T>(a: seq<T>, b: seq<T>, c: seq<T>)
    ensures (a + b) + c == a + (b + c)
  {
  }

  /** The rows written for project and file items already in the order to write them. */
  function Report(total: real, ps: Dict, fs: Dict): seq<Row> {
    [Header(), DataRow("Summary", "TOTAL", total), Blank(), SectionMarker("Projects")]
    + ItemRows("Project", ps)
    + [Blank(), SectionMarker("Files")]
    + ItemRows("File", fs)
  }

  /** Every row written by one export, in order. */
  function CsvRows(total: real, projects: Dict, files: Dict): seq<Row> {
    Report(total, SortDesc(projects), SortDesc(files))
  }

  /** Sorting keeps the number of items. */
  lemma {:induction false} SortDescLength(s: Dict)
    ensures |SortDesc(s)| == |s|
  {
    SortDescFacts(s);
    assert |multiset(SortDesc(s))| == |multiset(s)|;
  }

  /**
   * Header, summary, a blank row and the project marker; one row per project
   * item; a blank row and the file marker; one row per file item.
   */
  lemma {:induction false} ReportLayout(total: real, ps: Dict, fs: Dict)
    ensures var rows := Report(total, ps, fs);
      && |rows| == 6 + |ps| + |fs|
      && rows[0] == Header()
      && rows[1] == DataRow("Summary", "TOTAL", total)
      && rows[2] == Blank() && rows[3] == SectionMarker("Projects")
      && (forall i :: 0 <= i < |ps| ==> rows[4 + i] == DataRow("Project", ps[i].0, ps[i].1))
      && rows[4 + |ps|] == Blank() && rows[5 + |ps|] == SectionMarker("Files")
      && (forall j :: 0 <= j < |fs| ==> rows[6 + |ps| + j] == DataRow("File", fs[j].0, fs[j].1))
  {
    var head: seq<Row> := [Header(), DataRow("Summary", "TOTAL", total), Blank(), SectionMarker("Projects")];
    var a, b := ItemRows("Project", ps), ItemRows("File", fs);
    Sections(head, a, [Blank(), SectionMarker("Files")], b);
    ReportProjectRows(total, ps, fs);
    ReportFileRows(total, ps, fs);
  }

  lemma {:induction false} ReportProjectRows(total: real, ps: Dict, fs: Dict)
    ensures var rows := Report(total, ps, fs);
      forall i :: 0 <= i < |ps| ==> rows[4 + i] == DataRow("Project", ps[i].0, ps[i].1)
  {
    var head: seq<Row> := [Header(), DataRow("Summary", "TOTAL", total), Blank(), SectionMarker("Projects")];
    var a := ItemRows("Project", ps);
    var front := head + a + [Blank(), SectionMarker("Files")];
    var rows := Report(total, ps, fs);
    assert rows == front + ItemRows("File", fs);
    forall i | 0 <= i < |ps|
      ensures rows[4 + i] == DataRow("Project", ps[i].0, ps[i].1)
    {
      ItemRowsAt("Project", ps, i);
      assert (head + a)[|head| + i] == a[i];
      assert front[4 + i] == (head + a)[4 + i];
    }
  }

  lemma {:induction false} ReportFileRows(total: real, ps: Dict, fs: Dict)
    ensures var rows := Report(total, ps, fs);
      forall j :: 0 <= j < |fs| ==> rows[6 + |ps| + j] == DataRow("File", fs[j].0, fs[j].1)
  {
    var front := [Header(), DataRow("Summary", "TOTAL", total), Blank(), SectionMarker("Projects")]
                 + ItemRows("Project", ps) + [Blank(), SectionMarker("Files")];
    var b := ItemRows("File", fs);
    var rows := Report(total, ps, fs);
    assert rows == front + b && |front| == 6 + |ps|;
    forall j | 0 <= j < |fs|
      ensures rows[6 + |ps| + j] == DataRow("File", fs[j].0, fs[j].1)
    {
      ItemRowsAt("File", fs, j);
      assert rows[|front| + j] == b[j];
    }
  }

  /**
   * The layout of the report, with the projects and the files each in stable
   * descending order of seconds.
   */
  lemma {:induction false} CsvLayout(total: real, projects: Dict, files: Dict)
    ensures var rows := CsvRows(total, projects, files);
      var ps, fs := SortDesc(projects), SortDesc(files);
      && |rows| == 6 + |projects| + |files|
      && rows[0] == Header()
      && rows[1] == DataRow("Summary", "TOTAL", total)
      && rows[2] == Blank() && rows[3] == SectionMarker("Projects")
      && (forall i :: 0 <= i < |ps| ==> rows[4 + i] == DataRow("Project", ps[i].0, ps[i].1))
      && rows[4 + |ps|] == Blank() && rows[5 + |ps|] == SectionMarker("Files")
      && (forall j :: 0 <= j < |fs| ==> rows[6 + |ps| + j] == DataRow("File", fs[j].0, fs[j].1))
  {
    var ps, fs := SortDesc(projects), SortDesc(files);
    SortDescLength(projects);
    SortDescLength(files);
    ReportLayout(total, ps, fs);
    assert CsvRows(total, projects, files) == Report(total, ps, fs);
  }

  /** Where the parts of `head + a + mid + b` land, for a four-row head and a two-row middle. */
  lemma {:induction false} Sections<T>(head: seq<T>, a: seq<T>, mid: seq<T>, b: seq<T>)
    requires |head| == 4 && |mid| == 2
    ensures var r := head + a + mid + b;
      && |r| == 6 + |a| + |b|
      && r[0] == head[0] && r[1] == head[1] && r[2] == head[2] && r[3] == head[3]
      && (forall k :: 4 <= k < 4 + |a| ==> r[k] == a[k - 4])
      && r[4 + |a|] == mid[0] && r[5 + |a|] == mid[1]
      && (forall k :: 6 + |a| <= k < |r| ==> r[k] == b[k - 6 - |a|])
  {
  }

  /** `int(v)` never goes up as `v` goes down. */
  lemma {:induction false} TruncateMonotone(x: real, y: real)
    requires x <= y
    ensures TruncateToInt(x) <= TruncateToInt(y)
  {
  }

  /** The number in the Seconds column of a row (0 for rows without one). */
  function SecondsCell(row: Row): int {
    if |row.cells| > 2 && row.cells[2].Number? then row.cells[2].value else 0
  }

  lemma {:induction false} DataRowSeconds(kind: string, key: string, v: real)
    ensures SecondsCell(DataRow(kind, key, v)) == TruncateToInt(v)
  {
  }

  /** The Seconds column of the project and of the file rows never increases. */
  lemma {:induction false} ItemRowsOrdered(kind: string, items: Dict)
    requires NonIncreasing(items)
    ensures var rows := ItemRows(kind, items);
      forall i, j :: 0 <= i < j < |rows| ==> SecondsCell(rows[j]) <= SecondsCell(rows[i])
  {
    var rows: seq<Row> := ItemRows(kind, items);
    forall i, j | 0 <= i < j < |rows|
      ensures SecondsCell(rows[j]) <= SecondsCell(rows[i])
    {
      ItemRowsAt(kind, items, i);
      ItemRowsAt(kind, items, j);
      DataRowSeconds(kind, items[i].0, items[i].1);
      DataRowSeconds(kind, items[j].0, items[j].1);
      TruncateMonotone(items[j].1, items[i].1);
    }
  }

  /**
   * The two duration columns of a data row agree: for a non-negative value the
   * HH:MM:SS text reads back as the Seconds number split into hours, minutes and
   * seconds; for a negative value the text is 00:00:00 and the number is not
   * positive.
   */
  lemma {:induction false} DataRowColumnsAgree(kind: string, key: string, v: real)
    ensures var row := DataRow(kind, key, v);
      && (v >= 0.0 ==> ParseHms(row.cells[3].text) == Some(Split(row.cells[2].value as nat)))
      && (v < 0.0 ==> row.cells[3].text == "00:00:00" && row.cells[2].value <= 0)
  {
    FormatHmsRoundTrip(v);
  }

  /** One project `/p1` and one file `/p1/f.txt` with 125 seconds each. */
  lemma {:induction false} ExportScenario()
    ensures var rows := CsvRows(125.0, [("/p1", 125.0)], [("/p1/f.txt", 125.0)]);
      && rows[1] == Row([Text("Summary"), Text("TOTAL"), Number(125), Text("00:02:05")])
      && rows[4] == Row([Text("Project"), Text("/p1"), Number(125), Text("00:02:05")])
      && rows[7] == Row([Text("File"), Text("/p1/f.txt"), Number(125), Text("00:02:05")])
      && |rows| == 8
  {
    assert WholeSeconds(125.0) == 125;
    assert Split(125) == Hms(0, 2, 5);
    assert FormatHms(125.0) == "00:02:05";
    assert TruncateToInt(125.0) == 125;
    CsvLayout(125.0, [("/p1", 125.0)], [("/p1/f.txt", 125.0)]);
    assert SortDesc([("/p1", 125.0)]) == [("/p1", 125.0)];
    assert SortDesc([("/p1/f.txt", 125.0)]) == [("/p1/f.txt", 125.0)];
  }
}
