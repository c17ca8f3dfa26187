/**
 * The CSV download of the export menu (`exportToCSV` in
 * src/components/DataExport.tsx): a data URI holding a header line made
 * of the first record's keys and one line per record made of its values,
 * written without quoting or escaping.
 */
module DataExport {
  import opened Text

  /** One property of a record, in the record's own key order; values are already text. */
  datatype Field = Field(key: string, value: string)

  type Row = seq<Field>

  const CsvPrefix: string := "data:text/csv;charset=utf-8,"

  function Keys(row: Row): (r: seq<string>)
    ensures |r| == |row| && forall i :: 0 <= i < |row| ==> r[i] == row[i].key
  {
    seq(|row|, i requires 0 <= i < |row| => row[i].key)
  }

  function Values(row: Row): (r: seq<string>)
    ensures |r| == |row| && forall i :: 0 <= i < |row| ==> r[i] == row[i].value
  {
    seq(|row|, i requires 0 <= i < |row| => row[i].value)
  }

  /** `Object.keys(data[0] || {}).join(",")`: the first record's keys, nothing for no data. */
  function Header(data: seq<Row>): string
  {
    if data == [] then "" else Join(Keys(data[0]), ",")
  }

  /** `Object.values(row).join(",")`. */
  function RowLine(row: Row): string
  {
    Join(Values(row), ",")
  }

  function Lines(data: seq<Row>): (r: seq<string>)
    ensures |r| == |data| && forall i :: 0 <= i < |data| ==> r[i] == RowLine(data[i])
  {
    seq(|data|, i requires 0 <= i < |data| => RowLine(data[i]))
  }

  /** `csvContent`. */
  function CsvContent(data: seq<Row>): (r: string)
    ensures CsvPrefix <= r
  {
    CsvPrefix + Header(data) + "\n" + Join(Lines(data), "\n")
  }

  /** No key and no value of any record contains the character. */
  predicate Avoids(data: seq<Row>, c: char)
  {
    forall i, j :: 0 <= i < |data| && 0 <= j < |data[i]| ==> c !in data[i][j].key && c !in data[i][j].value
  }

  /** Without data the content is the prefix and one line break. */
  lemma EmptyExport()
    ensures CsvContent([]) == CsvPrefix + "\n"
  {
  }

  lemma LineAvoidsNewline(data: seq<Row>)
    requires Avoids(data, '\n')
    ensures '\n' !in Header(data)
    ensures forall i :: 0 <= i < |data| ==> '\n' !in Lines(data)[i]
  {
    if data != [] {
      JoinAvoids(Keys(data[0]), ",", '\n');
    }
    forall i | 0 <= i < |data| ensures '\n' !in Lines(data)[i] {
      JoinAvoids(Values(data[i]), ",", '\n');
    }
  }

  /**
   * When no key or value holds a line break, the text after the prefix
   * splits at line breaks into the header followed by one line per record,
   * in order, with nothing after the last one; without data it is an empty
   * header and an empty body.
   */
  lemma CsvLines(data: seq<Row>)
    requires Avoids(data, '\n')
    ensures var body := CsvContent(data)[|CsvPrefix|..];
      && (data != [] ==> Split(body, '\n') == [Header(data)] + Lines(data))
      && (data == [] ==> Split(body, '\n') == ["", ""])
  {
    var body := CsvContent(data)[|CsvPrefix|..];
    assert body == Header(data) + "\n" + Join(Lines(data), "\n");
    LineAvoidsNewline(data);
    var all := [Header(data)] + Lines(data);
    if data != [] {
      JoinCons(Header(data), Lines(data), "\n");
      SplitJoin(all, '\n');
    } else {
      SplitPiece("", '\n', "");
    }
  }

  /**
   * A record whose values hold no comma gives a line that splits at commas
   * into exactly its values; the header likewise gives the first record's keys.
   */
  lemma CsvCells(data: seq<Row>, k: nat)
    requires k < |data| && |data[k]| >= 1 && Avoids(data, ',')
    ensures Split(Lines(data)[k], ',') == Values(data[k])
    ensures |data[0]| >= 1 ==> Split(Header(data), ',') == Keys(data[0])
  {
    SplitJoin(Values(data[k]), ',');
    if |data[0]| >= 1 {
      SplitJoin(Keys(data[0]), ',');
    }
  }

  /**
   * Values are written unquoted: a comma inside a value adds a cell, so a
   * one-field record's line splits into two cells under a one-cell header.
   */
  lemma CommaShiftsColumns(key: string, before: string, after: string)
    requires ',' !in key && ',' !in before && ',' !in after
    ensures var data := [[Field(key, before + "," + after)]];
      && Split(Header(data), ',') == [key]
      && Split(Lines(data)[0], ',') == [before, after]
  {
    var data := [[Field(key, before + "," + after)]];
    assert Keys(data[0]) == [key];
    assert Values(data[0]) == [before + "," + after];
    SplitPiece(before, ',', after);
    SplitPiece(after, ',', "");
    SplitPiece(key, ',', "");
  }
}
