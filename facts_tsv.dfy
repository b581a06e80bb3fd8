/**
 * The facts TSV file of a POWER split: a header row, then one tab-separated
 * row `head, head_lbl, rel, rel_lbl, tail, tail_lbl` per fact. `save` writes
 * it with a tab-delimited `csv.writer`; `load` reads it back with a
 * tab-delimited `csv.reader`, skips the header and parses the ids.
 *
 * Two layers are modelled: rows of fields (what the writer is given and the
 * reader yields) and the text of the file. Opening and closing the file is
 * not modelled; the file's contents are a string.
 */
module FactsTsv {
  import opened Wrappers
  import opened PyStrings
  import opened Seqs

  /** `Fact`, a frozen dataclass: equality is over all six fields. */
  datatype Fact = Fact(head: int, headLbl: string, rel: int, relLbl: string, tail: int, tailLbl: string)

  /** `Fact.__iter__`: the fields in declaration order. */
  function Iter(f: Fact): (int, string, int, string, int, string)
  {
    (f.head, f.headLbl, f.rel, f.relLbl, f.tail, f.tailLbl)
  }

  // ---------------------------------------------------------------------
  // Integers as text: `str(n)` and `int(s)`
  // ---------------------------------------------------------------------

  predicate IsDigit(c: char)
  {
    '0' <= c <= '9'
  }

  function DigitChar(d: nat): (c: char)
    requires d < 10
    ensures IsDigit(c)
  {
    ('0' as int + d) as char
  }

  function DigitValue(c: char): nat
    requires IsDigit(c)
  {
    c as int - '0' as int
  }

  /** The decimal digits of `n`, without leading zeros. */
  function NatToString(n: nat): string
  {
    if n < 10 then [DigitChar(n)] else NatToString(n / 10) + [DigitChar(n % 10)]
  }

  /** `str(n)` for an int. */
  function IntToString(n: int): string
  {
    if n < 0 then "-" + NatToString(-n) else NatToString(n)
  }

  /** The digits of an int literal: ASCII digits, single underscores allowed between two digits. */
  predicate IsDigitRun(s: string)
  {
    && s != []
    && IsDigit(s[0]) && IsDigit(s[|s| - 1])
    && (forall i :: 0 <= i < |s| ==> IsDigit(s[i]) || s[i] == '_')
    && (forall i :: 0 <= i < |s| - 1 ==> s[i] == '_' ==> IsDigit(s[i + 1]))
  }

  /** The value of a digit run; underscores are skipped. */
  function DigitsValue(s: string): nat
    requires forall i :: 0 <= i < |s| ==> IsDigit(s[i]) || s[i] == '_'
  {
    if s == [] then 0
    else if s[|s| - 1] == '_' then DigitsValue(s[..|s| - 1])
    else DigitsValue(s[..|s| - 1]) * 10 + DigitValue(s[|s| - 1])
  }

  /** An optional sign followed by a digit run. */
  function ParseDecimal(t: string): Option<int>
  {
    if t != [] && (t[0] == '-' || t[0] == '+') then
      if IsDigitRun(t[1..]) then
        var v: int := DigitsValue(t[1..]);
        Some(if t[0] == '-' then -v else v)
      else None
    else if IsDigitRun(t) then Some(DigitsValue(t))
    else None
  }

  /**
   * `int(s)`: the whitespace `int` skips is ignored at both ends; `None`
   * where Python raises a `ValueError`.
   */
  function ParseInt(s: string): Option<int>
  {
    ParseDecimal(TrimEnd(TrimStart(s, IsIntSpace), IsIntSpace))
  }

  /**
   * Surrounding no-break spaces and line breaks are skipped, but a leading
   * or trailing ASCII separator (U+001C to U+001F), for which `isspace`
   * holds, makes `int` raise.
   */
  lemma ExampleParseIntSpaces()
    ensures ParseInt("\U{A0} 42\n") == Some(42)
    ensures ParseInt("\U{1C}5") == None && ParseInt("5\U{1F}") == None
  {
    assert TrimStart("\U{A0} 42\n", IsIntSpace) == "42\n";
    assert TrimEnd("42\n", IsIntSpace) == "42";
    assert "42"[..1] == "4" && "4"[..0] == "";
    assert DigitsValue("42") == 42;
    assert TrimStart("\U{1C}5", IsIntSpace) == "\U{1C}5";
    assert TrimEnd("5\U{1F}", IsIntSpace) == "5\U{1F}";
  }

  /** `str(n)` is a non-empty digit string whose value is `n`. */
  lemma {:induction false} NatToStringDigits(n: nat)
    ensures NatToString(n) != []
    ensures forall i :: 0 <= i < |NatToString(n)| ==> IsDigit(NatToString(n)[i])
    ensures DigitsValue(NatToString(n)) == n
  {
    var s := NatToString(n);
    if n < 10 {
      assert s[..0] == [];
    } else {
      NatToStringDigits(n / 10);
      assert s[..|s| - 1] == NatToString(n / 10);
    }
  }

  /** `str(n)` of a natural number is a digit run `int` reads back as `n`. */
  lemma NatToStringParses(n: nat)
    ensures IsDigitRun(NatToString(n))
    ensures DigitsValue(NatToString(n)) == n
  {
    NatToStringDigits(n);
  }

  /** `int(str(n)) == n` for every int. */
  lemma IntRoundTrip(n: int)
    ensures ParseInt(IntToString(n)) == Some(n)
  {
    var s := IntToString(n);
    if n < 0 {
      var d := NatToString(-n);
      NatToStringParses(-n);
      assert s[1..] == d;
      assert !IsIntSpace(s[|s| - 1]) by {
        assert s[|s| - 1] == d[|d| - 1];
      }
      TrimUnchanged(s, IsIntSpace);
      assert ParseDecimal(s) == Some(n);
    } else {
      NatToStringParses(n);
      TrimUnchanged(s, IsIntSpace);
    }
  }

  /** `str(n)` holds only digits and a minus sign. */
  lemma IntToStringChars(n: int)
    ensures forall i :: 0 <= i < |IntToString(n)| ==> IsDigit(IntToString(n)[i]) || IntToString(n)[i] == '-'
  {
    if n < 0 {
      NatToStringDigits(-n);
      assert forall i :: 1 <= i < |IntToString(n)| ==> IntToString(n)[i] == NatToString(-n)[i - 1];
    } else {
      NatToStringDigits(n);
    }
  }

  // ---------------------------------------------------------------------
  // Rows
  // ---------------------------------------------------------------------

  type Row = seq<string>

  const Header: Row := ["head", "head_lbl", "rel", "rel_lbl", "tail", "tail_lbl"]

  /** The row `save` writes for a fact: the fields of `__iter__`, ids as `str`. */
  function FactRow(f: Fact): (row: Row)
    ensures |row| == 6
  {
    var (head, headLbl, rel, relLbl, tail, tailLbl) := Iter(f);
    [IntToString(head), headLbl, IntToString(rel), relLbl, IntToString(tail), tailLbl]
  }

  /** The rows `save` writes: the header, then one row per fact in list order. */
  function SaveRows(facts: seq<Fact>): (rows: seq<Row>)
    ensures |rows| == |facts| + 1 && rows[0] == Header
    ensures forall i :: 0 <= i < |facts| ==> rows[i + 1] == FactRow(facts[i])
  {
    [Header] + seq(|facts|, i requires 0 <= i < |facts| => FactRow(facts[i]))
  }

  /**
   * One step of `load`'s comprehension: unpacking into six names raises a
   * `ValueError` on any other field count, and so does an id `int` rejects.
   */
  function RowFact(row: Row): (r: Result<Fact>)
    ensures r.Failure? ==> r.error == ValueError
    ensures r.Success? <==>
      |row| == 6 && ParseInt(row[0]).Some? && ParseInt(row[2]).Some? && ParseInt(row[4]).Some?
    ensures r.Success? ==>
      && Some(r.value.head) == ParseInt(row[0]) && r.value.headLbl == row[1]
      && Some(r.value.rel) == ParseInt(row[2]) && r.value.relLbl == row[3]
      && Some(r.value.tail) == ParseInt(row[4]) && r.value.tailLbl == row[5]
  {
    if |row| != 6 then Failure(ValueError)
    else
      var head := ParseInt(row[0]);
      var rel := ParseInt(row[2]);
      var tail := ParseInt(row[4]);
      if head.None? || rel.None? || tail.None? then Failure(ValueError)
      else Success(Fact(head.value, row[1], rel.value, row[3], tail.value, row[5]))
  }

  /** `load`'s comprehension over the rows after the header: the first bad row raises. */
  function LoadFacts(rows: seq<Row>): Result<seq<Fact>>
  {
    MapResult(rows, RowFact)
  }

  /**
   * `load` succeeds exactly when every row gives a fact, and then gives one
   * fact per row, in row order; otherwise it raises a `ValueError`.
   */
  lemma LoadFactsSpec(rows: seq<Row>)
    ensures LoadFacts(rows).Success? <==> forall i :: 0 <= i < |rows| ==> RowFact(rows[i]).Success?
    ensures LoadFacts(rows).Failure? ==> LoadFacts(rows).error == ValueError
    ensures LoadFacts(rows).Success? ==> |LoadFacts(rows).value| == |rows|
    ensures LoadFacts(rows).Success? ==>
      forall i :: 0 <= i < |rows| ==> RowFact(rows[i]) == Success(LoadFacts(rows).value[i])
  {
    MapResultSpec(rows, RowFact);
  }

  /**
   * `load` on the rows the reader yields: `next` on no rows raises
   * `StopIteration`; otherwise the header row is skipped and every further
   * row must give a fact, in order, or `load` raises a `ValueError`.
   */
  function LoadRows(rows: seq<Row>): (r: Result<seq<Fact>>)
    ensures rows == [] ==> r == Failure(StopIteration)
    ensures rows != [] ==> (r.Success? <==> forall i :: 1 <= i < |rows| ==> RowFact(rows[i]).Success?)
    ensures rows != [] && r.Failure? ==> r.error == ValueError
    ensures r.Success? ==> |r.value| == |rows| - 1
    ensures r.Success? ==> forall i :: 0 <= i < |r.value| ==> RowFact(rows[i + 1]) == Success(r.value[i])
  {
    if rows == [] then Failure(StopIteration)
    else
      LoadFactsSpec(rows[1..]);
      assert forall i :: 1 <= i < |rows| ==> rows[i] == rows[1..][i - 1];
      LoadFacts(rows[1..])
  }

  /** A saved fact row parses back to the fact. */
  lemma RowFactOfFactRow(f: Fact)
    ensures RowFact(FactRow(f)) == Success(f)
  {
    IntRoundTrip(f.head);
    IntRoundTrip(f.rel);
    IntRoundTrip(f.tail);
  }

  /** On rows, `load` after `save` gives back the facts, whatever the labels. */
  lemma LoadSaveRows(facts: seq<Fact>)
    ensures LoadRows(SaveRows(facts)) == Success(facts)
  {
    var rows := SaveRows(facts)[1..];
    forall i | 0 <= i < |rows|
      ensures RowFact(rows[i]) == Success(facts[i])
    {
      RowFactOfFactRow(facts[i]);
    }
    LoadFactsSpec(rows);
    var r := LoadFacts(rows);
    assert r.value == facts;
  }

  // ---------------------------------------------------------------------
  // Text
  // ---------------------------------------------------------------------

  /** The excel dialect's minimal quoting applies to a field with a tab, a quote or a line break. */
  predicate NeedsQuotes(s: string)
  {
    '\t' in s || '"' in s || '\r' in s || '\n' in s
  }

  /** Inside quotes, a quote character is doubled. */
  function DoubleQuotes(s: string): string
  {
    if s == [] then [] else (if s[0] == '"' then "\"\"" else [s[0]]) + DoubleQuotes(s[1..])
  }

  function QuoteField(s: string): string
  {
    if NeedsQuotes(s) then "\"" + DoubleQuotes(s) + "\"" else s
  }

  /** `sep.join(fields)`. */
  function Join(fields: seq<string>, sep: char): string
  {
    if |fields| == 0 then ""
    else if |fields| == 1 then fields[0]
    else fields[0] + [sep] + Join(fields[1..], sep)
  }

  /** `s.split(sep)`: the pieces between separators, at least one. */
  function Split(s: string, sep: char): (parts: seq<string>)
    ensures |parts| >= 1
  {
    if s == [] then [""]
    else
      var rest := Split(s[1..], sep);
      if s[0] == sep then [""] + rest else [[s[0]] + rest[0]] + rest[1..]
  }

  /**
   * `csv_writer.writerow(row)`: the quoted fields joined by tabs, then the
   * dialect's `\r\n`. A row of one empty field is written as `""`.
   */
  function WriteRow(row: Row): string
  {
    if row == [""] then "\"\"\r\n"
    else Join(seq(|row|, i requires 0 <= i < |row| => QuoteField(row[i])), '\t') + "\r\n"
  }

  /** The text of the rows, written one after the other. */
  function RowsText(rows: seq<Row>): string
  {
    if rows == [] then "" else WriteRow(rows[0]) + RowsText(rows[1..])
  }

  /** `FactsTsv.save`: the header row, then one row per fact. */
  method Save(facts: seq<Fact>) returns (text: string)
    ensures text == RowsText(SaveRows(facts))
  {
    text := WriteRow(Header);
    RowsTextSnoc([], Header);
    assert SaveRows([]) == [] + [Header];
    for i := 0 to |facts|
      invariant text == RowsText(SaveRows(facts[..i]))
    {
      var row := FactRow(facts[i]);
      RowsTextSnoc(SaveRows(facts[..i]), row);
      SaveRowsSnoc(facts[..i], facts[i]);
      TakeSnoc(facts, i);
      text := text + WriteRow(row);
    }
    assert facts[..|facts|] == facts;
  }

  lemma SaveRowsSnoc(facts: seq<Fact>, f: Fact)
    ensures SaveRows(facts + [f]) == SaveRows(facts) + [FactRow(f)]
  {
    var a := SaveRows(facts + [f]);
    var b := SaveRows(facts) + [FactRow(f)];
    assert |a| == |b|;
    forall i | 0 <= i < |a|
      ensures a[i] == b[i]
    {
      if 0 < i < |a| - 1 {
        assert (facts + [f])[i - 1] == facts[i - 1];
      }
    }
  }

  lemma {:induction false} RowsTextFlatten(rows: seq<Row>)
    ensures RowsText(rows) == Flatten(rows, WriteRow)
  {
    if rows != [] {
      RowsTextFlatten(rows[1..]);
    }
  }

  lemma RowsTextSnoc(rows: seq<Row>, row: Row)
    ensures RowsText(rows + [row]) == RowsText(rows) + WriteRow(row)
  {
    RowsTextFlatten(rows);
    RowsTextFlatten(rows + [row]);
    FlattenSnoc(rows, row, WriteRow);
  }

  /** Reading in text mode, as `load` opens the file: `\r\n` and a lone `\r` become `\n`. */
  function Translate(s: string): string
  {
    if s == [] then []
    else if s[0] == '\r' then
      if |s| > 1 && s[1] == '\n' then "\n" + Translate(s[2..]) else "\n" + Translate(s[1..])
    else [s[0]] + Translate(s[1..])
  }

  /** Iterating over the text's lines, without their `\n`; a final line break opens no further line. */
  function Lines(text: string): seq<string>
  {
    var parts := Split(text, '\n');
    if parts[|parts| - 1] == "" then parts[..|parts| - 1] else parts
  }

  /** The row `csv_reader` yields for a line without quote characters; a blank line gives `[]`. */
  function ReadLine(line: string): Row
  {
    if line == "" then [] else Split(line, '\t')
  }

  /** The rows `csv_reader` yields for the file's text. */
  function ReadRows(text: string): (rows: seq<Row>)
    ensures |rows| == |Lines(Translate(text))|
    ensures forall i :: 0 <= i < |rows| ==> rows[i] == ReadLine(Lines(Translate(text))[i])
  {
    var lines := Lines(Translate(text));
    seq(|lines|, i requires 0 <= i < |lines| => ReadLine(lines[i]))
  }

  /** `FactsTsv.load` on the file's text. */
  function LoadText(text: string): Result<seq<Fact>>
  {
    LoadRows(ReadRows(text))
  }

  // ---------------------------------------------------------------------
  // The text round trip
  // ---------------------------------------------------------------------

  /** A label the writer leaves unquoted and the reader gives back unchanged. */
  predicate Clean(s: string)
  {
    !NeedsQuotes(s)
  }

  predicate CleanFact(f: Fact)
  {
    Clean(f.headLbl) && Clean(f.relLbl) && Clean(f.tailLbl)
  }

  predicate CleanRow(row: Row)
  {
    |row| == 6 && forall i :: 0 <= i < 6 ==> Clean(row[i])
  }

  /** The tab-joined rows, one line each. */
  function Joined(rows: seq<Row>): (ls: seq<string>)
    ensures |ls| == |rows|
    ensures forall i :: 0 <= i < |rows| ==> ls[i] == Join(rows[i], '\t')
  {
    if rows == [] then [] else [Join(rows[0], '\t')] + Joined(rows[1..])
  }

  /** The lines, each followed by `\n`. */
  function LinesText(ls: seq<string>): string
  {
    if ls == [] then "" else ls[0] + "\n" + LinesText(ls[1..])
  }

  lemma {:induction false} SplitNoSep(a: string, sep: char)
    requires sep !in a
    ensures Split(a, sep) == [a]
  {
    if a != [] {
      SplitNoSep(a[1..], sep);
      assert [a[0]] + a[1..] == a;
    }
  }

  lemma {:induction false} SplitAt(a: string, b: string, sep: char)
    requires sep !in a
    ensures Split(a + [sep] + b, sep) == [a] + Split(b, sep)
  {
    if a == [] {
      assert ([] + [sep] + b)[1..] == b;
    } else {
      SplitAt(a[1..], b, sep);
      assert (a + [sep] + b)[1..] == a[1..] + [sep] + b;
      assert [a[0]] + a[1..] == a;
    }
  }

  /** Splitting a join at a separator no field contains gives back the fields. */
  lemma {:induction false} SplitJoin(fs: seq<string>, sep: char)
    requires fs != []
    requires forall i :: 0 <= i < |fs| ==> sep !in fs[i]
    ensures Split(Join(fs, sep), sep) == fs
  {
    if |fs| == 1 {
      SplitNoSep(fs[0], sep);
    } else {
      SplitJoin(fs[1..], sep);
      SplitAt(fs[0], Join(fs[1..], sep), sep);
      assert [fs[0]] + fs[1..] == fs;
    }
  }

  lemma {:induction false} JoinNoBreak(fs: seq<string>)
    requires forall i :: 0 <= i < |fs| ==> '\r' !in fs[i] && '\n' !in fs[i]
    ensures '\r' !in Join(fs, '\t') && '\n' !in Join(fs, '\t')
  {
    if |fs| > 1 {
      JoinNoBreak(fs[1..]);
    }
  }

  lemma {:induction false} TranslatePlain(a: string, t: string)
    requires '\r' !in a
    ensures Translate(a + t) == a + Translate(t)
  {
    if a == [] {
      assert a + t == t;
    } else {
      var s := a + t;
      assert s[0] == a[0] != '\r' && '\r' !in a[1..];
      assert s[1..] == a[1..] + t;
      TranslatePlain(a[1..], t);
      assert Translate(s) == [a[0]] + Translate(s[1..]);
      assert [a[0]] + (a[1..] + Translate(t)) == a + Translate(t);
    }
  }

  /** A clean row is written unquoted. */
  lemma WriteCleanRow(row: Row)
    requires CleanRow(row)
    ensures WriteRow(row) == Join(row, '\t') + "\r\n"
  {
    assert seq(|row|, i requires 0 <= i < |row| => QuoteField(row[i])) == row;
  }

  /** A written line without carriage returns reads back ending in `\n`. */
  lemma TranslateLine(j: string, rest: string)
    requires '\r' !in j
    ensures Translate(j + "\r\n" + rest) == j + "\n" + Translate(rest)
  {
    assert j + "\r\n" + rest == j + ("\r\n" + rest);
    TranslatePlain(j, "\r\n" + rest);
    assert ("\r\n" + rest)[2..] == rest;
  }

  /** Read back in text mode, the written clean rows are their tab-joined lines. */
  lemma {:induction false} TranslateRows(rows: seq<Row>)
    requires forall i :: 0 <= i < |rows| ==> CleanRow(rows[i])
    ensures Translate(RowsText(rows)) == LinesText(Joined(rows))
  {
    if rows != [] {
      var j := Join(rows[0], '\t');
      WriteCleanRow(rows[0]);
      JoinNoBreak(rows[0]);
      TranslateRows(rows[1..]);
      TranslateLine(j, RowsText(rows[1..]));
      assert Joined(rows)[1..] == Joined(rows[1..]);
    }
  }

  lemma {:induction false} SplitLinesText(ls: seq<string>)
    requires forall i :: 0 <= i < |ls| ==> '\n' !in ls[i]
    ensures Split(LinesText(ls), '\n') == ls + [""]
  {
    if ls != [] {
      SplitLinesText(ls[1..]);
      SplitAt(ls[0], LinesText(ls[1..]), '\n');
      assert ls[0] + "\n" + LinesText(ls[1..]) == ls[0] + ['\n'] + LinesText(ls[1..]);
      assert [ls[0]] + (ls[1..] + [""]) == ls + [""];
    }
  }

  /** Iterating over the lines of the text gives the lines back. */
  lemma LinesOfLinesText(ls: seq<string>)
    requires forall i :: 0 <= i < |ls| ==> '\n' !in ls[i]
    ensures Lines(LinesText(ls)) == ls
  {
    SplitLinesText(ls);
    DropSnoc(ls, "");
  }

  /** Splitting each tab-joined line at its tabs gives the clean rows back. */
  lemma ReadJoinedLines(rows: seq<Row>, text: string)
    requires forall i :: 0 <= i < |rows| ==> CleanRow(rows[i])
    requires Lines(Translate(text)) == Joined(rows)
    ensures ReadRows(text) == rows
  {
    var ls := Joined(rows);
    forall i | 0 <= i < |rows|
      ensures ReadRows(text)[i] == rows[i]
    {
      SplitJoin(rows[i], '\t');
      assert ls[i] == rows[i][0] + ['\t'] + Join(rows[i][1..], '\t');
    }
  }

  /** The reader yields exactly the clean rows that were written. */
  lemma ReadWrittenRows(rows: seq<Row>)
    requires forall i :: 0 <= i < |rows| ==> CleanRow(rows[i])
    ensures ReadRows(RowsText(rows)) == rows
  {
    TranslateRows(rows);
    var ls := Joined(rows);
    forall i | 0 <= i < |ls|
      ensures '\n' !in ls[i]
    {
      JoinNoBreak(rows[i]);
    }
    LinesOfLinesText(ls);
    ReadJoinedLines(rows, RowsText(rows));
  }

  /** The id columns of a fact row are clean. */
  lemma FactRowClean(f: Fact)
    requires CleanFact(f)
    ensures CleanRow(FactRow(f))
  {
    IntToStringChars(f.head);
    IntToStringChars(f.rel);
    IntToStringChars(f.tail);
  }

  /**
   * The file round trip: for facts whose labels hold no tab, quote or line
   * break, `load` after `save` gives back the same list of facts.
   */
  lemma SaveLoadRoundTrip(facts: seq<Fact>)
    requires forall i :: 0 <= i < |facts| ==> CleanFact(facts[i])
    ensures LoadText(RowsText(SaveRows(facts))) == Success(facts)
  {
    var rows := SaveRows(facts);
    forall i | 0 <= i < |rows|
      ensures CleanRow(rows[i])
    {
      if i > 0 {
        FactRowClean(facts[i - 1]);
      }
    }
    ReadWrittenRows(rows);
    LoadSaveRows(facts);
  }

  /** An empty file has no header to skip. */
  lemma LoadEmptyText()
    ensures LoadText("") == Failure(StopIteration)
  {
    assert Lines(Translate("")) == [];
  }
}
