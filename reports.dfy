/**
 * The text of the reports page's CSV export: a header line of the first
 * row's keys, then one line per row whose cells are the JSON encodings of
 * the row's values under those keys (a falsy or missing value becomes `""`).
 * The cells are quoted the JSON way, not by doubling quotes as RFC 4180 does.
 */
module Reports {
  import opened Wrappers
  import opened Json

  /** `parts.join(sep)`. */
  function Join(parts: seq<string>, sep: string): string {
    if parts == [] then ""
    else if |parts| == 1 then parts[0]
    else parts[0] + sep + Join(parts[1..], sep)
  }

  /** The pieces of `s` between occurrences of `c` (`s.split(c)`), never empty. */
  function Split(s: string, c: char): (r: seq<string>)
    ensures |r| >= 1
    ensures forall i :: 0 <= i < |r| ==> c !in r[i]
    decreases |s|
  {
    if s == [] then [""]
    else if s[0] == c then [""] + Split(s[1..], c)
    else var rest := Split(s[1..], c); [[s[0]] + rest[0]] + rest[1..]
  }

  lemma {:induction false} SplitPrefix(p: string, tail: string, c: char)
    requires c !in p
    ensures Split(p + [c] + tail, c) == [p] + Split(tail, c)
    ensures Split(p, c) == [p]
    decreases |p|
  {
    if p == [] {
      assert p + [c] + tail == [c] + tail;
      assert ([c] + tail)[1..] == tail;
    } else {
      SplitPrefix(p[1..], tail, c);
      assert (p + [c] + tail)[1..] == p[1..] + [c] + tail;
      assert [p[0]] + p[1..] == p;
    }
  }

  /** Joining on `c` and splitting on `c` give back the parts, when no part contains `c`. */
  lemma {:induction false} SplitJoin(parts: seq<string>, c: char)
    requires |parts| >= 1
    requires forall i :: 0 <= i < |parts| ==> c !in parts[i]
    ensures Split(Join(parts, [c]), c) == parts
  {
    if |parts| == 1 {
      SplitPrefix(parts[0], "", c);
    } else {
      SplitJoin(parts[1..], c);
      SplitPrefix(parts[0], Join(parts[1..], [c]), c);
    }
  }

  lemma {:induction false} JoinAvoids(parts: seq<string>, sep: string, c: char)
    requires c !in sep
    requires forall i :: 0 <= i < |parts| ==> c !in parts[i]
    ensures c !in Join(parts, sep)
  {
    if |parts| > 1 {
      JoinAvoids(parts[1..], sep, c);
    }
  }

  /** `JSON.stringify(row[header] || '')`. */
  function CellText(row: seq<Field>, header: string): (t: string)
    ensures Lookup(row, header).None? || !Truthy(Lookup(row, header).value) ==> t == "\"\""
    ensures Lookup(row, header).Some? && Truthy(Lookup(row, header).value) ==> t == Stringify(Lookup(row, header).value)
  {
    var v := Lookup(row, header);
    if v.Some? && Truthy(v.value) then Stringify(v.value) else Stringify(Str(""))
  }

  /** The cells of one row, one per header, in header order. */
  function Cells(row: seq<Field>, headers: seq<string>): (cs: seq<string>)
    ensures |cs| == |headers|
    ensures forall i :: 0 <= i < |headers| ==> cs[i] == CellText(row, headers[i])
  {
    seq(|headers|, i requires 0 <= i < |headers| => CellText(row, headers[i]))
  }

  function RowLine(row: seq<Field>, headers: seq<string>): string {
    Join(Cells(row, headers), ",")
  }

  /** The record lines, one per row, in row order. */
  function RowLines(data: seq<seq<Field>>, headers: seq<string>): (ls: seq<string>)
    ensures |ls| == |data|
    ensures forall i :: 0 <= i < |data| ==> ls[i] == RowLine(data[i], headers)
  {
    seq(|data|, i requires 0 <= i < |data| => RowLine(data[i], headers))
  }

  /**
   * `exportToCsv`'s text: nothing for null or empty data, otherwise the
   * header line and the record lines joined by line breaks. The export
   * reads rows as objects; `None` is a null or undefined `data`.
   */
  function ExportToCsv(data: Option<seq<seq<Field>>>): (csv: Option<string>)
    ensures csv.None? <==> data.None? || |data.value| == 0
  {
    if data.None? || |data.value| == 0 then None
    else
      var headers := Keys(data.value[0]);
      Some(Join([Join(headers, ",")] + RowLines(data.value, headers), "\n"))
  }

  /** A record line never contains a line break, whatever the values. */
  lemma RowLineHasNoNewline(row: seq<Field>, headers: seq<string>)
    ensures '\n' !in RowLine(row, headers)
  {
    var cs := Cells(row, headers);
    forall i | 0 <= i < |cs|
      ensures '\n' !in cs[i]
    {
      var v := Lookup(row, headers[i]);
      if v.Some? && Truthy(v.value) {
        StringifyHasNoNewline(v.value);
      } else {
        StringifyHasNoNewline(Str(""));
      }
    }
    JoinAvoids(cs, ",", '\n');
  }

  /**
   * The export has exactly `1 + data.length` lines: the first row's keys
   * joined by commas, then each row's record line in input order. It holds
   * when no key of the first row contains a line break.
   */
  lemma CsvLines(data: seq<seq<Field>>)
    requires |data| > 0
    requires forall i :: 0 <= i < |data[0]| ==> '\n' !in data[0][i].key
    ensures var headers := Keys(data[0]);
            var lines := Split(ExportToCsv(Some(data)).value, '\n');
            && |lines| == 1 + |data|
            && lines[0] == Join(headers, ",")
            && forall i :: 0 <= i < |data| ==> lines[1 + i] == RowLine(data[i], headers)
  {
    var headers := Keys(data[0]);
    var parts := [Join(headers, ",")] + RowLines(data, headers);
    JoinAvoids(headers, ",", '\n');
    forall i | 0 <= i < |parts|
      ensures '\n' !in parts[i]
    {
      if i > 0 {
        RowLineHasNoNewline(data[i - 1], headers);
      }
    }
    SplitJoin(parts, '\n');
  }

  /**
   * A record line has exactly one cell per header, in header order, when no
   * cell's JSON text contains a comma.
   */
  lemma RowCells(row: seq<Field>, headers: seq<string>)
    requires |headers| >= 1
    requires forall i :: 0 <= i < |headers| ==> ',' !in CellText(row, headers[i])
    ensures Split(RowLine(row, headers), ',') == Cells(row, headers)
    ensures |Split(RowLine(row, headers), ',')| == |headers|
  {
    SplitJoin(Cells(row, headers), ',');
  }

  /** Keys only the later rows have are dropped: a row's line depends only on its values under the first row's keys. */
  lemma LineDependsOnHeadersOnly(a: seq<Field>, b: seq<Field>, headers: seq<string>)
    requires forall i :: 0 <= i < |headers| ==> Lookup(a, headers[i]) == Lookup(b, headers[i])
    ensures RowLine(a, headers) == RowLine(b, headers)
  {
    assert Cells(a, headers) == Cells(b, headers);
  }
}
