/** How the corpus filter reads one row, which rows of a file become lines, and what a written row holds. */
module CorpusRows {
  import opened Options
  import opened Text
  import opened Corpus

  predicate NamesLanguage(c: string) { Lower(c) == "language" || Lower(c) == "lang" || Lower(c) == "locale" }

  /** Column k is the first of the file's columns that names the language. */
  ghost predicate FirstLanguage(fields: seq<string>, k: nat) {
    k < |fields| && NamesLanguage(fields[k]) && forall j :: 0 <= j < k ==> !NamesLanguage(fields[j])
  }

  lemma {:induction false} LanguageColumnIsFirst(fields: seq<string>)
    ensures forall k: nat :: FirstLanguage(fields, k) ==> LanguageColumn(fields) == Some(fields[k])
    ensures LanguageColumn(fields).Some? ==>
      exists k: nat :: FirstLanguage(fields, k) && LanguageColumn(fields) == Some(fields[k])
  {
    if fields != [] && !NamesLanguage(fields[0]) {
      var rest := fields[1..];
      LanguageColumnIsFirst(rest);
      forall k: nat | FirstLanguage(fields, k) ensures LanguageColumn(fields) == Some(fields[k]) {
        assert fields[k] == rest[k - 1];
        assert forall j :: 0 <= j < k - 1 ==> rest[j] == fields[j + 1];
        assert FirstLanguage(rest, k - 1);
      }
      if LanguageColumn(fields).Some? {
        var k: nat :| FirstLanguage(rest, k) && LanguageColumn(rest) == Some(rest[k]);
        assert forall j :: 0 < j < k + 1 ==> fields[j] == rest[j - 1];
        assert FirstLanguage(fields, k + 1);
      }
    } else if fields != [] {
      assert FirstLanguage(fields, 0);
    }
  }

  /** Begins, behind any space, with the letters e and n, large or small. */
  predicate StartsWithEn(value: string) {
    var v := TrimSpace(value);
    |v| >= 2 && (v[0] == 'e' || v[0] == 'E') && (v[1] == 'n' || v[1] == 'N')
  }

  lemma LowerIs(c: char, lower: char)
    requires 'a' <= lower <= 'z'
    ensures LowerChar(c) == lower <==> c == lower || c == lower - 'a' + 'A'
  {
  }

  lemma EnglishExactly(value: string)
    ensures IsEnglish(value) <==> StartsWithEn(value)
  {
    PrefixOfTwo(Lower(TrimSpace(value)), "en");
    var v := TrimSpace(value);
    if |v| >= 2 {
      LowerIs(v[0], 'e');
      LowerIs(v[1], 'n');
    }
  }

  lemma PrefixOfTwo(s: string, prefix: string)
    requires |prefix| == 2
    ensures HasPrefix(s, prefix) <==> |s| >= 2 && s[0] == prefix[0] && s[1] == prefix[1]
  {
    if |s| >= 2 && s[0] == prefix[0] && s[1] == prefix[1] { assert s[..2] == prefix; }
    if HasPrefix(s, prefix) { assert s[..2][0] == s[0] && s[..2][1] == s[1]; }
  }

  lemma StrippedIs(row: Row, column: string)
    ensures column in row ==> Stripped(row, column) == TrimSpace(row[column])
    ensures Stripped(row, column) == "" <==> (column in row ==> AllSpace(row[column]))
  {
    TrimSpaceEmpty(Get(row, column));
  }

  lemma EnglishInColumn(column: Option<string>, row: Row)
    ensures InEnglish(column, row) <==> column.Some? && column.value in row && StartsWithEn(row[column.value])
  {
    if column.Some? {
      EnglishExactly(Get(row, column.value));
      TrimSpaceEmpty(Get(row, column.value));
    }
  }

  /** A row is English exactly if the file has a column that names the language, and the row's value in the first such
      column starts with "en". */
  lemma EnglishIsRead(fields: seq<string>, row: Row)
    ensures ReadRow(fields, row).english <==>
      exists k: nat :: FirstLanguage(fields, k) && fields[k] in row && StartsWithEn(row[fields[k]])
  {
    LanguageColumnIsFirst(fields);
    EnglishInColumn(LanguageColumn(fields), row);
  }

  /** A row's body is its stripped body column. */
  lemma BodyIsRead(fields: seq<string>, row: Row)
    ensures "body" in row ==> ReadRow(fields, row).body == TrimSpace(row["body"])
    ensures "body" !in row ==> ReadRow(fields, row).body == ""
  {
    StrippedIs(row, "body");
  }

  /** Its subject counts as empty exactly if there is none or nothing but space in it. */
  lemma SubjectIsRead(fields: seq<string>, row: Row)
    ensures ReadRow(fields, row).emptySubject <==> ("subject" in row ==> AllSpace(row["subject"]))
  {
    StrippedIs(row, "subject");
  }

  // -------------------------------------------------------------- which rows

  /** The lines of a file sit, in order, at precisely its English rows, and each says what its row says. */
  ghost predicate LinesAt(reader: Reader, s: Source, rows: seq<Row>, lines: seq<Line>, at: seq<nat>) {
    && |at| == |lines| && (forall j, k :: 0 <= j < k < |at| ==> at[j] < at[k])
    && (forall i: nat :: i in at <==> i < |rows| && reader(s.fields, rows[i]).english)
    && forall k :: 0 <= k < |at| ==> at[k] < |rows| && LineSays(reader, s, rows[at[k]], lines[k])
  }

  ghost predicate LineSays(reader: Reader, s: Source, row: Row, l: Line) {
    && l.row == row && l.source == s.name
    && l.body == reader(s.fields, row).body && l.noSubject == reader(s.fields, row).emptySubject
  }

  lemma MoreLines(reader: Reader, s: Source, rows: seq<Row>, row: Row, lines: seq<Line>, at: seq<nat>)
    requires LinesAt(reader, s, rows, lines, at)
    ensures var more, reading := rows + [row], reader(s.fields, row);
      if reading.english
      then LinesAt(reader, s, more, lines + [Line(row, s.name, reading.body, reading.emptySubject)], at + [|rows|])
      else LinesAt(reader, s, more, lines, at)
  {
    var more := rows + [row];
    forall i: nat | i < |rows| ensures more[i] == rows[i] { }
    if reader(s.fields, row).english {
      forall i: nat ensures i in at + [|rows|] <==> i < |more| && reader(s.fields, more[i]).english { }
    }
  }

  lemma {:induction false} EnglishPositions(reader: Reader, s: Source, rows: seq<Row>) returns (at: seq<nat>)
    ensures LinesAt(reader, s, rows, EnglishLines(reader, s, rows), at)
  {
    if rows == [] { return []; }
    var n := |rows| - 1;
    var init := EnglishPositions(reader, s, rows[..n]);
    assert rows == rows[..n] + [rows[n]];
    MoreLines(reader, s, rows[..n], rows[n], EnglishLines(reader, s, rows[..n]), init);
    at := if reader(s.fields, rows[n]).english then init + [n] else init;
    if !reader(s.fields, rows[n]).english {
      assert EnglishLines(reader, s, rows) == EnglishLines(reader, s, rows[..n]);
    }
  }

  /** The input as a whole is the lines of its files, one file after the other. */
  lemma AllLinesInFileOrder(reader: Reader, sources: seq<Source>, last: Source)
    ensures AllLines(reader, []) == []
    ensures AllLines(reader, sources + [last]) == AllLines(reader, sources) + EnglishLines(reader, last, last.rows)
  {
    assert (sources + [last])[..|sources|] == sources;
  }

  // ------------------------------------------------------------------ the header

  /** These are the positions, in order, at which each of the names occurs first. */
  ghost predicate FirstAt(all: seq<string>, names: seq<string>, at: seq<nat>) {
    && |at| == |names| && (forall j, k :: 0 <= j < k < |at| ==> at[j] < at[k])
    && (forall k :: 0 <= k < |at| ==> at[k] < |all| && all[at[k]] == names[k] && names[k] !in all[..at[k]])
    && forall n :: n in all ==> n in names
  }

  lemma AddedName(all: seq<string>, names: seq<string>, at: seq<nat>, n: string)
    requires FirstAt(all, names, at)
    ensures n in names ==> FirstAt(all + [n], names, at)
    ensures n !in names ==> FirstAt(all + [n], names + [n], at + [|all|])
  {
    var more := all + [n];
    forall k | 0 <= k < |at| ensures more[..at[k]] == all[..at[k]] && more[at[k]] == all[at[k]] { }
    assert more[..|all|] == all;
  }

  /** The header has every column of every file once, in the order in which they first occur. */
  lemma {:induction false} HeaderInOrder(all: seq<string>) returns (at: seq<nat>)
    ensures FirstAt(all, Firsts(all), at)
  {
    if all == [] { return []; }
    var n := |all| - 1;
    var init := HeaderInOrder(all[..n]);
    assert all == all[..n] + [all[n]];
    AddedName(all[..n], Firsts(all[..n]), init, all[n]);
    at := if all[n] in Firsts(all[..n]) then init else init + [n];
  }

  // ----------------------------------------------------------- what is written

  /** A written row has every column of the header, the line's own value in those its row has and nothing in the others,
      and the name of the file it came from. */
  lemma WrittenRowHolds(columns: seq<string>, ls: seq<Line>, i: nat)
    requires i < |ls|
    ensures |ProjectAll(columns, ls)| == |ls|
    ensures var out := ProjectAll(columns, ls)[i];
      && out.source == ls[i].source && (forall c :: c in out.values <==> c in columns)
      && forall c :: c in columns ==> out.values[c] == if c in ls[i].row then ls[i].row[c] else ""
  {
  }
}
