/** The bulk-import reader `parseCSVData` and the journal-number builder of
    src/utils/exportUtils.js. The reader drops decorative lines, cleans the
    header names, drops placeholder data lines and then walks each data line
    character by character: every `"` toggles a quoted mode and is dropped, a
    comma outside quotes ends a field. This is a simplified take on section 2
    of RFC 4180: a doubled quote is not an escaped quote. */
module ExportUtils {
  import opened Js

  // ------------------------------------------------------------ journal numbers

  /** The calendar date read from the clock: `getFullYear()`,
      `getMonth() + 1` and `getDate()`. */
  datatype CalendarDate = CalendarDate(year: nat, month: nat, day: nat)

  function Pad2(n: nat): string
  {
    PadStart(NatToString(n), 2, '0')
  }

  /** `YYYYMMDD` */
  function DateStamp(d: CalendarDate): string
  {
    NatToString(d.year) + Pad2(d.month) + Pad2(d.day)
  }

  /** `index.toString().padStart(3, '0')` */
  function Serial(index: nat): string
  {
    PadStart(NatToString(index), 3, '0')
  }

  /** `${prefix}-${YYYYMMDD}-${NNN}` for the date passed in. */
  function GenerateJournalNumber(prefix: string, index: nat, today: CalendarDate): (j: string)
    ensures |j| >= |prefix| + 6
    ensures j[..|prefix|] == prefix && j[|prefix|] == '-'
  {
    prefix + "-" + DateStamp(today) + "-" + Serial(index)
  }

  /** A padded number reads back as itself. */
  lemma PaddedValue(n: nat, width: nat)
    ensures var t := PadStart(NatToString(n), width, '0');
      (forall i :: 0 <= i < |t| ==> IsDigit(t[i])) && DigitsValue(t) == n
  {
    var s := NatToString(n);
    NatToStringValue(n);
    if |s| < width {
      LeadingZeros(width - |s|, s);
      assert PadStart(s, width, '0') == Zeros(width - |s|) + s;
    }
  }

  /** The serial part has at least three digits, exactly three below 1000,
      and reads back as the index. */
  lemma SerialValue(index: nat)
    ensures |Serial(index)| >= 3
    ensures index < 1000 ==> |Serial(index)| == 3
    ensures forall i :: 0 <= i < |Serial(index)| ==> IsDigit(Serial(index)[i])
    ensures DigitsValue(Serial(index)) == index
  {
    PaddedValue(index, 3);
    if index < 1000 {
      NatToStringShort(index, 3);
    }
  }

  /** A month or a day takes two digits and reads back as itself. */
  lemma Pad2Value(n: nat)
    requires n < 100
    ensures |Pad2(n)| == 2
    ensures forall i :: 0 <= i < 2 ==> IsDigit(Pad2(n)[i])
    ensures DigitsValue(Pad2(n)) == n
  {
    NatToStringShort(n, 2);
    PaddedValue(n, 2);
  }

  lemma AppendTwoDigits(a: string, b: string)
    requires forall i :: 0 <= i < |a| ==> IsDigit(a[i])
    requires |b| == 2 && forall i :: 0 <= i < 2 ==> IsDigit(b[i])
    ensures forall i :: 0 <= i < |a + b| ==> IsDigit((a + b)[i])
    ensures DigitsValue(a + b) == DigitsValue(a) * 100 + DigitsValue(b)
  {
    assert Pow10(2) == 100;
    DigitsValueAppend(a, b);
  }

  /** The stamp of a four-digit year is eight digits whose value is
      `year * 10000 + month * 100 + day`, so stamps order like the dates
      they stand for. */
  lemma DateStampValue(d: CalendarDate)
    requires 1000 <= d.year <= 9999 && d.month < 100 && d.day < 100
    ensures |DateStamp(d)| == 8
    ensures forall i :: 0 <= i < 8 ==> IsDigit(DateStamp(d)[i])
    ensures DigitsValue(DateStamp(d)) == d.year * 10000 + d.month * 100 + d.day
  {
    var y := NatToString(d.year);
    var m := Pad2(d.month);
    var dd := Pad2(d.day);
    YearDigits(d.year);
    Pad2Value(d.month);
    Pad2Value(d.day);
    AppendTwoDigits(y, m);
    AppendTwoDigits(y + m, dd);
    Shift(DigitsValue(y), d.month, d.day);
    assert DateStamp(d) == (y + m) + dd;
  }

  lemma YearDigits(year: nat)
    requires 1000 <= year <= 9999
    ensures |NatToString(year)| == 4 && DigitsValue(NatToString(year)) == year
  {
    NatToStringShort(year, 4);
    NatToStringLong(year, 4);
    NatToStringValue(year);
  }

  lemma Shift(y: nat, m: nat, d: nat)
    ensures (y * 100 + m) * 100 + d == y * 10000 + m * 100 + d
  {
  }

  /** A journal number splits back into its prefix, the date and the index:
      the layout `prefix-YYYYMMDD-NNN` for a four-digit year. */
  lemma JournalNumberLayout(prefix: string, index: nat, today: CalendarDate)
    requires 1000 <= today.year <= 9999 && today.month < 100 && today.day < 100
    ensures var j := GenerateJournalNumber(prefix, index, today);
      var p := |prefix|;
      |j| >= p + 13
      && j[..p] == prefix && j[p] == '-' && j[p + 9] == '-'
      && (forall i :: p + 1 <= i < p + 9 ==> IsDigit(j[i]))
      && (forall i :: p + 10 <= i < |j| ==> IsDigit(j[i]))
      && DigitsValue(j[p + 1..p + 9]) == today.year * 10000 + today.month * 100 + today.day
      && DigitsValue(j[p + 10..]) == index
  {
    var j := GenerateJournalNumber(prefix, index, today);
    var p := |prefix|;
    DateStampValue(today);
    SerialValue(index);
    assert j == prefix + "-" + DateStamp(today) + "-" + Serial(index);
    assert j[p + 1..p + 9] == DateStamp(today);
    assert j[p + 10..] == Serial(index);
  }

  // ---------------------------------------------------------- line filtering

  /** A line survives when it is not blank, does not start with `===` and
      does not mention "sample data" in any letter case. */
  predicate KeepLine(line: string)
  {
    Trim(line) != "" && !IsPrefix("===", line) && !Contains(Lower(line), "sample data")
  }

  /** `text.trim().split('\n').filter(...)` */
  function KeptLines(text: string): seq<string>
  {
    Filter(Split(Trim(text), '\n'), KeepLine)
  }

  /** `h.trim().replace(/"/g, '').replace('*', '')` */
  function CleanHeader(h: string): string
  {
    RemoveFirst(RemoveAll(Trim(h), '"'), '*')
  }

  /** The header line split on every comma, each name cleaned. */
  function Headers(line: string): (hs: seq<string>)
  {
    var parts := Split(line, ',');
    seq(|parts|, i requires 0 <= i < |parts| => CleanHeader(parts[i]))
  }

  /** The first cell by a naive comma split, trimmed and unquoted. */
  function FirstCell(line: string): string
  {
    RemoveAll(Trim(Split(line, ',')[0]), '"')
  }

  /** A data line is kept unless its first cell is empty or is the
      `dd/mm/yyyy` placeholder of the downloadable template. */
  predicate IsDataLine(line: string)
  {
    FirstCell(line) != "" && !Contains(Lower(FirstCell(line)), "dd/mm/yyyy")
  }

  function DataLines(lines: seq<string>): seq<string>
    requires |lines| >= 1
  {
    Filter(lines[1..], IsDataLine)
  }

  /** Header names carry no `"`, one per comma-separated part of the line. */
  lemma HeadersClean(line: string)
    ensures |Headers(line)| == |Split(line, ',')|
    ensures forall i :: 0 <= i < |Headers(line)| ==> '"' !in Headers(line)[i]
  {
    var hs := Headers(line);
    forall i | 0 <= i < |hs|
      ensures '"' !in hs[i]
    {
      var u := RemoveAll(Trim(Split(line, ',')[i]), '"');
      assert '"' !in u;
      assert hs[i] == RemoveFirst(u, '*');
    }
  }

  /** The required-column marker is dropped, bare or inside quotes:
      `Name*` and `"Name*"` both give `Name`. */
  lemma MarkedHeader(name: string)
    requires '"' !in name && '*' !in name
    requires name == [] || !IsJsSpace(name[0])
    ensures CleanHeader(name + "*") == name
    ensures CleanHeader("\"" + name + "*\"") == name
  {
    var bare := name + "*";
    assert TrimStart(bare) == bare;
    assert TrimEnd(bare) == bare;
    RemoveAllAbsent(bare, '"');
    RemoveFirstAt(name, '*', "");
    assert name + "*" == name + ['*'] + "";
    var quoted := "\"" + name + "*\"";
    assert TrimStart(quoted) == quoted;
    assert TrimEnd(quoted) == quoted;
    assert quoted == "\"" + (bare + "\"");
    RemoveAllAppend("\"", bare + "\"", '"');
    RemoveAllAppend(bare, "\"", '"');
    assert RemoveAll("\"", '"') == "";
    assert RemoveAll(quoted, '"') == bare;
  }

  // ---------------------------------------------------- quote-aware splitting

  /** The state of the character loop: the fields ended so far, the field
      being read and whether the reader is inside quotes. The loop pushes
      each field trimmed; the state keeps them as read, and `QuotedFields`
      trims them all. */
  datatype Splitter = Splitter(fields: seq<string>, current: string, inQuotes: bool)

  const Start := Splitter([], "", false)

  /** One character of the loop. */
  function Step(st: Splitter, c: char): Splitter
  {
    if c == '"' then st.(inQuotes := !st.inQuotes)
    else if c == ',' && !st.inQuotes then Splitter(st.fields + [st.current], "", st.inQuotes)
    else st.(current := st.current + [c])
  }

  /** The loop run over `s` from `st`, by recursion on the last character. */
  function Run(st: Splitter, s: string): Splitter
    decreases |s|
  {
    if |s| == 0 then st else Step(Run(st, s[..|s| - 1]), s[|s| - 1])
  }

  /** The fields the loop ends from `st`, the last one after the loop. */
  function RawFields(st: Splitter, s: string): seq<string>
  {
    var f := Run(st, s);
    f.fields + [f.current]
  }

  function TrimEach(parts: seq<string>): (r: seq<string>)
    ensures |r| == |parts|
  {
    seq(|parts|, i requires 0 <= i < |parts| => Trim(parts[i]))
  }

  /** The values the loop of `parseCSVData` produces for one line. */
  function QuotedFields(line: string): seq<string>
  {
    TrimEach(RawFields(Start, line))
  }

  lemma TrimEachAppend(a: seq<string>, b: seq<string>)
    ensures TrimEach(a + b) == TrimEach(a) + TrimEach(b)
  {
    var l, r := TrimEach(a + b), TrimEach(a) + TrimEach(b);
    forall i | 0 <= i < |l|
      ensures l[i] == r[i]
    {
      if i < |a| {
        assert (a + b)[i] == a[i];
      } else {
        assert (a + b)[i] == b[i - |a|];
      }
    }
  }

  /** The character loop of `parseCSVData`. */
  method SplitQuoted(line: string) returns (values: seq<string>)
    ensures values == QuotedFields(line)
  {
    values := [];
    var current := "";
    var inQuotes := false;
    ghost var fields: seq<string> := [];
    for i := 0 to |line|
      invariant Splitter(fields, current, inQuotes) == Run(Start, line[..i])
      invariant values == TrimEach(fields)
    {
      assert line[..i + 1][..i] == line[..i];
      var c := line[i];
      if c == '"' {
        inQuotes := !inQuotes;
      } else if c == ',' && !inQuotes {
        TrimEachAppend(fields, [current]);
        values := values + [Trim(current)];
        fields := fields + [current];
        current := "";
      } else {
        current := current + [c];
      }
    }
    assert line[..|line|] == line;
    TrimEachAppend(fields, [current]);
    values := values + [Trim(current)];
  }

  lemma {:induction false} RunAppend(st: Splitter, a: string, b: string)
    ensures Run(st, a + b) == Run(Run(st, a), b)
    decreases |b|
  {
    if |b| == 0 {
      assert a + b == a;
    } else {
      RunAppend(st, a, b[..|b| - 1]);
      assert (a + b)[..|a + b| - 1] == a + b[..|b| - 1];
    }
  }

  lemma RunOne(st: Splitter, c: char)
    ensures Run(st, [c]) == Step(st, c)
  {
    assert [c][..0] == [];
  }

  /** Inside quotes, quote-free text is copied into the current field,
      commas included. */
  lemma {:induction false} RunInQuotes(st: Splitter, s: string)
    requires st.inQuotes && '"' !in s
    ensures Run(st, s) == st.(current := st.current + s)
    decreases |s|
  {
    if |s| > 0 {
      var s' := s[..|s| - 1];
      assert '"' !in s' by { assert forall c :: c in s' ==> c in s; }
      RunInQuotes(st, s');
      assert st.current + s' + [s[|s| - 1]] == st.current + s;
    }
  }

  lemma RawFieldsCons(st: Splitter, c: char, rest: string)
    ensures RawFields(st, [c] + rest) == RawFields(Step(st, c), rest)
  {
    RunAppend(st, [c], rest);
    RunOne(st, c);
  }

  lemma SplitAtComma(a: string, rest: string)
    requires ',' !in a
    ensures Split(a + ([','] + rest), ',') == [a] + Split(rest, ',')
  {
    Assoc3(a, [','], rest);
    SplitFirst(a, ',', rest);
  }

  /** Outside quotes, a quote-free text ends a field at every comma. */
  lemma {:induction false} FieldsPlain(st: Splitter, s: string)
    requires !st.inQuotes && '"' !in s && ',' !in st.current
    ensures RawFields(st, s) == st.fields + Split(st.current + s, ',')
    decreases |s|
  {
    if |s| == 0 {
      assert st.current + s == st.current;
      SplitNoSeparator(st.current, ',');
    } else {
      var c := s[0];
      var rest := s[1..];
      assert s == [c] + rest;
      assert '"' !in rest by { assert forall x :: x in rest ==> x in s; }
      RawFieldsCons(st, c, rest);
      var st' := Step(st, c);
      if c == ',' {
        assert st' == Splitter(st.fields + [st.current], "", false);
        FieldsPlain(st', rest);
        assert "" + rest == rest;
        SplitAtComma(st.current, rest);
        Assoc3(st.fields, [st.current], Split(rest, ','));
      } else {
        assert st' == st.(current := st.current + [c]);
        FieldsPlain(st', rest);
        assert st'.current + rest == st.current + s;
      }
    }
  }

  /** A line without quotes is split at every comma, each field trimmed. */
  lemma PlainLine(line: string)
    requires '"' !in line
    ensures QuotedFields(line) == TrimEach(Split(line, ','))
  {
    FieldsPlain(Start, line);
    assert "" + line == line;
  }

  lemma RawFieldsAppend(st: Splitter, a: string, b: string)
    ensures RawFields(st, a + b) == RawFields(Run(st, a), b)
  {
    RunAppend(st, a, b);
  }

  /** An opening quote and quote-free text: the text is the field so far. */
  lemma OpenQuote(a: string)
    requires '"' !in a
    ensures Run(Start, "\"" + a) == Splitter([], a, true)
  {
    RunOne(Start, '"');
    RunInQuotes(Start.(inQuotes := true), a);
    RunAppend(Start, "\"", a);
  }

  /** A closing quote and a comma end the field. */
  lemma CloseQuoteComma(a: string)
    ensures Run(Splitter([], a, true), "\",") == Splitter([a], "", false)
  {
    var inside := Splitter([], a, true);
    assert "\"," == ['"'] + [','];
    RunAppend(inside, ['"'], [',']);
    RunOne(inside, '"');
    RunOne(inside.(inQuotes := false), ',');
  }

  /** A comma inside quotes never splits a field: a quoted first field is
      read whole, and the quote-free rest is split at its commas. */
  lemma QuotedFieldKeepsCommas(a: string, rest: string)
    requires '"' !in a && '"' !in rest
    ensures QuotedFields("\"" + a + "\"," + rest) == [Trim(a)] + TrimEach(Split(rest, ','))
  {
    var head := "\"" + a;
    var line := "\"" + a + "\"," + rest;
    assert Run(Start, head + "\",") == Splitter([a], "", false) by {
      OpenQuote(a);
      CloseQuoteComma(a);
      RunAppend(Start, head, "\",");
    }
    assert RawFields(Start, line) == [a] + Split(rest, ',') by {
      assert line == (head + "\",") + rest;
      RawFieldsAppend(Start, head + "\",", rest);
      FieldsPlain(Splitter([a], "", false), rest);
      assert "" + rest == rest;
    }
    TrimEachAppend([a], Split(rest, ','));
  }

  /** Two quotes in a row inside a quoted field leave the reader inside it. */
  lemma QuotePair(st: Splitter)
    requires st.inQuotes
    ensures Run(st, "\"\"") == st
  {
    assert "\"\"" == ['"'] + ['"'];
    RunAppend(st, ['"'], ['"']);
    RunOne(st, '"');
    RunOne(st.(inQuotes := false), '"');
  }

  /** A doubled quote is not an escape: each `"` just toggles the mode, so
      `"a""b"` reads as the single field `ab`. */
  lemma DoubledQuoteNotEscape(a: string, b: string)
    requires '"' !in a && '"' !in b
    ensures QuotedFields("\"" + a + "\"\"" + b + "\"") == [Trim(a + b)]
  {
    var head := "\"" + a;
    var line := "\"" + a + "\"\"" + b + "\"";
    assert Run(Start, head + "\"\"") == Splitter([], a, true) by {
      OpenQuote(a);
      QuotePair(Splitter([], a, true));
      RunAppend(Start, head, "\"\"");
    }
    assert Run(Start, head + "\"\"" + b) == Splitter([], a + b, true) by {
      RunInQuotes(Splitter([], a, true), b);
      RunAppend(Start, head + "\"\"", b);
    }
    assert Run(Start, line) == Splitter([], a + b, false) by {
      assert line == (head + "\"\"" + b) + "\"";
      RunAppend(Start, head + "\"\"" + b, "\"");
      RunOne(Splitter([], a + b, true), '"');
    }
  }

  predicate QuoteFree(st: Splitter)
  {
    '"' !in st.current && forall i :: 0 <= i < |st.fields| ==> '"' !in st.fields[i]
  }

  lemma {:induction false} RunQuoteFree(st: Splitter, s: string)
    requires QuoteFree(st)
    ensures QuoteFree(Run(st, s))
    decreases |s|
  {
    if |s| > 0 {
      RunQuoteFree(st, s[..|s| - 1]);
    }
  }

  /** No value the loop produces contains a `"`. */
  lemma NoQuoteInFields(line: string)
    ensures forall i :: 0 <= i < |QuotedFields(line)| ==> '"' !in QuotedFields(line)[i]
  {
    RunQuoteFree(Start, line);
    var raw := RawFields(Start, line);
    forall i | 0 <= i < |raw|
      ensures '"' !in QuotedFields(line)[i]
    {
      if '"' in Trim(raw[i]) {
        TrimChars(raw[i], '"');
      }
    }
  }

  // --------------------------------------------------------------- row fill

  /** `(values[idx] || '').replace(/"/g, '')` */
  function Cell(values: seq<string>, idx: nat): string
  {
    RemoveAll(if idx < |values| && values[idx] != "" then values[idx] else "", '"')
  }

  /** `headers.forEach((header, idx) => { row[header] = ... })`: a later
      duplicate header overwrites an earlier one. */
  function RowOf(headers: seq<string>, values: seq<string>): Record
    decreases |headers|
  {
    if |headers| == 0 then map[]
    else RowOf(headers[..|headers| - 1], values)[headers[|headers| - 1] := Cell(values, |headers| - 1)]
  }

  method BuildRow(headers: seq<string>, values: seq<string>) returns (row: Record)
    ensures row == RowOf(headers, values)
  {
    row := map[];
    for idx := 0 to |headers|
      invariant row == RowOf(headers[..idx], values)
    {
      assert headers[..idx + 1][..idx] == headers[..idx];
      row := row[headers[idx] := Cell(values, idx)];
    }
    assert headers[..|headers|] == headers;
  }

  /** The keys of a row are exactly the header names. */
  lemma {:induction false} RowKeys(headers: seq<string>, values: seq<string>)
    ensures forall k :: k in RowOf(headers, values) <==> k in headers
    decreases |headers|
  {
    if |headers| > 0 {
      var init := headers[..|headers| - 1];
      RowKeys(init, values);
      InitLast(headers);
    }
  }

  /** The field under a header is the value at that header's position with
      quotes removed, and `''` past the end of the values; when a name
      repeats, the last position wins. Values past the last header are
      never read. */
  lemma {:induction false} RowValue(headers: seq<string>, values: seq<string>, i: nat)
    requires i < |headers|
    requires forall j :: i < j < |headers| ==> headers[j] != headers[i]
    ensures headers[i] in RowOf(headers, values)
    ensures RowOf(headers, values)[headers[i]]
      == if i < |values| then RemoveAll(values[i], '"') else ""
    decreases |headers|
  {
    if i < |headers| - 1 {
      RowValue(headers[..|headers| - 1], values, i);
    }
  }

  /** No field value of a row contains a `"`. */
  lemma {:induction false} RowUnquoted(headers: seq<string>, values: seq<string>)
    ensures forall k :: k in RowOf(headers, values) ==> '"' !in RowOf(headers, values)[k]
    decreases |headers|
  {
    if |headers| > 0 {
      RowUnquoted(headers[..|headers| - 1], values);
    }
  }

  // ------------------------------------------------------------- the reader

  /** One row per data line, each filled from the quote-aware split. */
  function RowsOf(headers: seq<string>, dataRows: seq<string>): (rows: seq<Record>)
    ensures |rows| == |dataRows|
  {
    seq(|dataRows|, i requires 0 <= i < |dataRows| => RowOf(headers, QuotedFields(dataRows[i])))
  }

  /** `parseCSVData(text)`: an error when fewer than two lines survive the
      filter, otherwise one row per surviving data line. */
  function ParseCsv(text: string): Result<seq<Record>>
  {
    var lines := KeptLines(text);
    if |lines| < 2 then Err("File appears to be empty or invalid")
    else Ok(RowsOf(Headers(lines[0]), DataLines(lines)))
  }

  /** `dataRows.map(...)`: the loop over the characters and the header loop
      for every data line. */
  method ParseRows(headers: seq<string>, dataRows: seq<string>) returns (data: seq<Record>)
    ensures data == RowsOf(headers, dataRows)
  {
    data := [];
    for k := 0 to |dataRows|
      invariant data == RowsOf(headers, dataRows[..k])
    {
      var values := SplitQuoted(dataRows[k]);
      var row := BuildRow(headers, values);
      assert dataRows[..k + 1][..k] == dataRows[..k];
      data := data + [row];
    }
    assert dataRows[..|dataRows|] == dataRows;
  }

  method ParseCsvData(text: string) returns (r: Result<seq<Record>>)
    ensures r == ParseCsv(text)
  {
    var lines := KeptLines(text);
    if |lines| < 2 {
      return Err("File appears to be empty or invalid");
    }
    var headers := Headers(lines[0]);
    var dataRows := DataLines(lines);
    var data := ParseRows(headers, dataRows);
    return Ok(data);
  }

  /** The reader fails exactly when fewer than two lines survive, and then
      with the fixed message. */
  lemma ParseCsvFails(text: string)
    ensures ParseCsv(text).Err? <==> |KeptLines(text)| < 2
    ensures ParseCsv(text).Err? ==> ParseCsv(text).message == "File appears to be empty or invalid"
  {
  }

  /** Every surviving line is a non-blank, non-banner, non-sample line of
      the trimmed text, and they keep file order. */
  lemma KeptLinesSound(text: string)
    ensures IsSubsequence(KeptLines(text), Split(Trim(text), '\n'))
    ensures forall l :: l in KeptLines(text) <==> l in Split(Trim(text), '\n') && KeepLine(l)
    ensures forall l :: multiset(KeptLines(text))[l] == if KeepLine(l) then multiset(Split(Trim(text), '\n'))[l] else 0
  {
  }

  /** One row per surviving data line, in file order; a data line survives
      exactly when its first cell is non-empty and not the placeholder. */
  lemma ParsedRows(text: string)
    requires ParseCsv(text).Ok?
    ensures var lines := KeptLines(text);
      |ParseCsv(text).value| == |DataLines(lines)|
      && IsSubsequence(DataLines(lines), lines[1..])
      && (forall l :: l in DataLines(lines) <==> l in lines[1..] && IsDataLine(l))
      && forall l :: multiset(DataLines(lines))[l] == if IsDataLine(l) then multiset(lines[1..])[l] else 0
  {
  }

  /** Every parsed row has exactly the header names as keys, its values
      carry no `"`, and each value is the field of the quote-aware split at
      the header's position, or `''` when the line has fewer fields. */
  lemma ParsedRowShape(text: string, n: nat, i: nat)
    requires ParseCsv(text).Ok? && n < |ParseCsv(text).value|
    ensures var lines := KeptLines(text);
      var headers := Headers(lines[0]);
      var row := ParseCsv(text).value[n];
      var values := QuotedFields(DataLines(lines)[n]);
      (forall k :: k in row <==> k in headers)
      && (forall k :: k in row ==> '"' !in row[k])
      && (i < |headers| && (forall j :: i < j < |headers| ==> headers[j] != headers[i]) ==>
            headers[i] in row && row[headers[i]] == if i < |values| then values[i] else "")
  {
    var lines := KeptLines(text);
    var headers := Headers(lines[0]);
    var line := DataLines(lines)[n];
    var values := QuotedFields(line);
    RowKeys(headers, values);
    RowUnquoted(headers, values);
    NoQuoteInFields(line);
    if i < |headers| && (forall j :: i < j < |headers| ==> headers[j] != headers[i]) {
      RowValue(headers, values, i);
      if i < |values| {
        RemoveAllAbsent(values[i], '"');
      }
    }
  }
}
