/**
 * The table hook: a Tabulator table created on the first data refresh and refilled on every
 * later one, and its CSV export, which prefixes U+FEFF and hands the text over as UTF-16LE
 * bytes. A row is a record from field name to the text its value renders as.
 */
module TableHook {
  import opened JsText
  import opened Utf16

  /** A Tabulator column definition: the row field it shows and its header title. */
  datatype ColumnDef = ColumnDef(field: string, title: string)

  type Row = map<string, string>

  /** data[i][field] as Array.prototype.join renders it: a missing field is undefined, which
      joins as the empty string. */
  function Cell(row: Row, field: string): string
  {
    if field in row then row[field] else ""
  }

  /** The part of a Tabulator table the hook touches: its data and its column definitions. */
  class Table {
    var data: seq<Row>
    const columns: seq<ColumnDef>

    constructor (rows: seq<Row>, columns: seq<ColumnDef>)
      ensures data == rows && this.columns == columns
    {
      data := rows;
      this.columns := columns;
    }

    /** table.replaceData(rows): new rows, same columns. */
    method ReplaceData(rows: seq<Row>)
      modifies this`data
      ensures data == rows
    {
      data := rows;
    }
  }

  /** The header line: every title between double quotes, comma-separated. */
  function HeaderLine(columns: seq<ColumnDef>): string
  {
    Join(seq(|columns|, i requires 0 <= i < |columns| => Quote(columns[i].title)), ",")
  }

  /** One data line: the row's value for every column field, in column order. */
  function RowLine(columns: seq<ColumnDef>, row: Row): string
  {
    Join(seq(|columns|, i requires 0 <= i < |columns| => Cell(row, columns[i].field)), ",")
  }

  function CsvLines(columns: seq<ColumnDef>, data: seq<Row>): seq<string>
  {
    ["sep=,", HeaderLine(columns)] + seq(|data|, r requires 0 <= r < |data| => RowLine(columns, data[r]))
  }

  /** The exported text: U+FEFF, then the lines joined by CRLF. */
  function CsvText(columns: seq<ColumnDef>, data: seq<Row>): string
  {
    ['\U{FEFF}'] + Join(CsvLines(columns, data), "\r\n")
  }

  /** The export's line structure: `sep=,`, the header, then one line per row of the table,
      in the table's order, each holding that row's cells in column order. */
  lemma TableCsvLayout(columns: seq<ColumnDef>, data: seq<Row>)
    ensures var lines := CsvLines(columns, data);
            && |lines| == 2 + |data|
            && lines[0] == "sep=,"
            && lines[1] == HeaderLine(columns)
            && (forall r :: 0 <= r < |data| ==> lines[2 + r] == RowLine(columns, data[r]))
  {
  }

  lemma CsvTextStart(columns: seq<ColumnDef>, data: seq<Row>)
    ensures "\U{FEFF}sep=,\r\n" + HeaderLine(columns) <= CsvText(columns, data)
  {
    var lines := CsvLines(columns, data);
    var rest := Join(lines[1..], "\r\n");
    assert Join(lines, "\r\n") == "sep=," + "\r\n" + rest;
    JoinStartsWithFirst(lines[1..], "\r\n");
    assert lines[1..][0] == HeaderLine(columns);
  }

  lemma CsvTextEnd(columns: seq<ColumnDef>, data: seq<Row>)
    ensures var text, last := CsvText(columns, data),
                              if data == [] then HeaderLine(columns) else RowLine(columns, data[|data| - 1]);
            |last| < |text| && text[|text| - |last|..] == last
  {
    var lines := CsvLines(columns, data);
    JoinEndsWithLast(lines, "\r\n");
    var last := lines[|lines| - 1];
    assert last == if data == [] then HeaderLine(columns) else RowLine(columns, data[|data| - 1]);
    var joined := Join(lines, "\r\n");
    assert CsvText(columns, data)[|CsvText(columns, data)| - |last|..] == joined[|joined| - |last|..];
  }

  /** The text opens with U+FEFF, the separator hint and the header, and ends with the last
      row's line (the header's when there are no rows): no separator trails it. */
  lemma CsvTextBounds(columns: seq<ColumnDef>, data: seq<Row>)
    ensures var text, head := CsvText(columns, data), "\U{FEFF}sep=,\r\n" + HeaderLine(columns);
            head <= text
    ensures var text, last := CsvText(columns, data),
                              if data == [] then HeaderLine(columns) else RowLine(columns, data[|data| - 1]);
            |last| < |text| && text[|text| - |last|..] == last
  {
    CsvTextStart(columns, data);
    CsvTextEnd(columns, data);
  }

  /** The file the export hands over is the UTF-16LE encoding of the text: it starts with the
      little-endian byte-order mark, is two bytes per code unit, and decodes back to the text. */
  lemma CsvBytes(columns: seq<ColumnDef>, data: seq<Row>)
    ensures var bytes := EncodeLE(Units(CsvText(columns, data)));
            && |bytes| == 2 * |Units(CsvText(columns, data))|
            && bytes[..2] == [0xFF, 0xFE]
            && DecodeLE(bytes) == Units(CsvText(columns, data))
  {
    BomFirst(Join(CsvLines(columns, data), "\r\n"));
    EncodeLELayout(Units(CsvText(columns, data)));
    DecodeEncode(Units(CsvText(columns, data)));
  }

  /** The CSV text of downloadCSV, built line by line. */
  method BuildCsv(columns: seq<ColumnDef>, data: seq<Row>) returns (csv: string)
    ensures csv == CsvText(columns, data)
  {
    var fields := seq(|columns|, i requires 0 <= i < |columns| => columns[i].field);
    var titles := seq(|columns|, i requires 0 <= i < |columns| => columns[i].title);
    var quoted := seq(|titles|, i requires 0 <= i < |titles| => Quote(titles[i]));
    assert quoted == seq(|columns|, i requires 0 <= i < |columns| => Quote(columns[i].title));
    var csvRows := ["sep=,", Join(quoted, ",")];
    for i := 0 to |data|
      invariant csvRows == CsvLines(columns, data)[..2 + i]
    {
      var cells := seq(|fields|, j requires 0 <= j < |fields| => Cell(data[i], fields[j]));
      assert cells == seq(|columns|, j requires 0 <= j < |columns| => Cell(data[i], columns[j].field));
      var line := Join(cells, ",");
      csvRows := csvRows + [line];
    }
    assert csvRows == CsvLines(columns, data);
    csv := Join(csvRows, "\r\n");
    csv := ['\U{FEFF}'] + csv;
  }

  /** convertToUTF16: a byte array twice the string's length; byte 2i gets charCodeAt(i) and
      byte 2i + 1 gets charCodeAt(i) >> 8, each cut to 8 bits by the Uint8Array store. */
  method ConvertToUtf16(data: string) returns (byteArray: array<Byte>)
    ensures fresh(byteArray)
    ensures byteArray[..] == EncodeLE(Units(data))
  {
    var units := Units(data);
    byteArray := new Byte[|units| * 2];
    for i := 0 to |units|
      invariant forall j :: 0 <= j < i ==>
                  byteArray[j * 2] == Low(units[j]) && byteArray[j * 2 + 1] == High(units[j])
    {
      byteArray[i * 2] := ToUint8(units[i]);
      byteArray[i * 2 + 1] := ToUint8(units[i] / 0x100);
    }
    EncodeLEMatches(byteArray[..], units);
  }

  /** The hook's state. The table stays null until the first refresh, since Tabulator shows no
      data after replaceData on a table created empty. */
  class TableHook {
    var table: Table?

    constructor ()
      ensures table == null
    {
      table := null;
    }

    /** createOrUpdateTable: the first call creates the table with the rows and columns; later
        calls only replace the data, so the columns of the first call stay. */
    method CreateOrUpdateTable(rows: seq<Row>, columns: seq<ColumnDef>)
      modifies this`table, table
      ensures table != null && table.data == rows
      ensures old(table) == null ==> fresh(table) && table.columns == columns
      ensures old(table) != null ==> table == old(table) && table.columns == old(table.columns)
    {
      if table == null {
        table := new Table(rows, columns);
      } else {
        table.ReplaceData(rows);
      }
    }

    /** downloadCSV up to the file hand-off: the bytes of the file, or None where the source
        fails because no data has arrived yet and the table is still null. */
    method DownloadCsv() returns (file: Option<seq<Byte>>)
      ensures table == null <==> file == None
      ensures table != null ==> file == Some(EncodeLE(Units(CsvText(table.columns, table.data))))
    {
      if table == null {
        return None;
      }
      var csv := BuildCsv(table.columns, table.data);
      var bytes := ConvertToUtf16(csv);
      file := Some(bytes[..]);
    }
  }
}
