/** Filtering a multi-file corpus down to its English rows, in one pass that drops repeated bodies and counts
    what it did. */
module Corpus {
  import opened Options
  import opened Text

  type Row = map<string, string>

  /** One CSV file: its name, its header, its rows. */
  datatype Source = Source(name: string, fields: seq<string>, rows: seq<Row>)

  /** An English row: the file it came from, its stripped body, and whether its stripped subject is empty. */
  datatype Line = Line(row: Row, source: string, body: string, noSubject: bool)

  /** What the loop looks at in one row. */
  datatype Reading = Reading(english: bool, body: string, emptySubject: bool)

  /** How a file with a given header reads a row. The program uses ReadRow. */
  type Reader = (seq<string>, Row) -> Reading

  datatype OutRow = OutRow(values: map<string, string>, source: string)

  datatype FileReport = FileReport(name: string, rows: nat, english: nat, kept: nat, duplicates: nat,
      emptySubject: nat, emptyBody: nat)

  datatype Report = Report(files: seq<FileReport>, rows: nat, english: nat, kept: nat, duplicates: nat,
      columns: seq<string>)

  function Get(row: Row, column: string): string { if column in row then row[column] else "" }

  predicate IsLanguageColumn(c: string) { Lower(c) in {"language", "lang", "locale"} }

  /** The first column whose lower-cased name is a language column's. */
  function LanguageColumn(columns: seq<string>): Option<string> {
    if columns == [] then None
    else if IsLanguageColumn(columns[0]) then Some(columns[0])
    else LanguageColumn(columns[1..])
  }

  /** "en", "EN", "en-GB" and "english", but not an empty or missing value. */
  predicate IsEnglish(value: string) { HasPrefix(Lower(TrimSpace(value)), "en") }

  predicate InEnglish(column: Option<string>, row: Row) { column.Some? && IsEnglish(Get(row, column.value)) }

  function Stripped(row: Row, column: string): string { TrimSpace(Get(row, column)) }

  function ReadRow(fields: seq<string>, row: Row): Reading {
    Reading(InEnglish(LanguageColumn(fields), row), Stripped(row, "body"), Stripped(row, "subject") == "")
  }

  function Project(columns: seq<string>, l: Line): OutRow {
    OutRow(map c | c in columns :: Get(l.row, c), l.source)
  }

  // ----------------------------------------------------------- reference

  /** The English rows of one file, in order. */
  function EnglishLines(reader: Reader, s: Source, rows: seq<Row>): seq<Line> {
    if rows == [] then []
    else
      EnglishLines(reader, s, rows[..|rows| - 1]) + LineOf(reader, s, rows[|rows| - 1])
  }

  /** The row as a line if it is English, and nothing otherwise. */
  function LineOf(reader: Reader, s: Source, row: Row): seq<Line> {
    var reading := reader(s.fields, row);
    if reading.english then [Line(row, s.name, reading.body, reading.emptySubject)] else []
  }

  function LinesOf(reader: Reader, s: Source): seq<Line> { EnglishLines(reader, s, s.rows) }

  /** All English rows, file by file. */
  function AllLines(reader: Reader, sources: seq<Source>): seq<Line> {
    if sources == [] then [] else AllLines(reader, sources[..|sources| - 1]) + LinesOf(reader, sources[|sources| - 1])
  }

  predicate SeenIn(ls: seq<Line>, body: string) { exists i :: 0 <= i < |ls| && ls[i].body == body }

  /** Whether line l is written when it comes after `before`. */
  predicate Keeps(dedupe: bool, before: seq<Line>, l: Line) { l.body == "" || !dedupe || !SeenIn(before, l.body) }

  /** The lines that are written: every line with an empty body, and the first line of each body. */
  function Kept(dedupe: bool, ls: seq<Line>): seq<Line> {
    if ls == [] then []
    else Kept(dedupe, ls[..|ls| - 1]) + if Keeps(dedupe, ls[..|ls| - 1], ls[|ls| - 1]) then [ls[|ls| - 1]] else []
  }

  function ProjectAll(columns: seq<string>, ls: seq<Line>): (out: seq<OutRow>)
    ensures |out| == |ls| && forall i :: 0 <= i < |ls| ==> out[i] == Project(columns, ls[i])
  {
    seq(|ls|, i requires 0 <= i < |ls| => Project(columns, ls[i]))
  }

  // ------------------------------------------------------------- one pass

  /** The files' headers, one after the other. */
  function Headers(sources: seq<Source>): seq<string> {
    if sources == [] then [] else Headers(sources[..|sources| - 1]) + sources[|sources| - 1].fields
  }

  /** Each name once, where it comes first. */
  function Firsts(names: seq<string>): seq<string> {
    if names == [] then []
    else
      var before := Firsts(names[..|names| - 1]);
      if names[|names| - 1] in before then before else before + [names[|names| - 1]]
  }

  lemma FirstsOneMore(names: seq<string>, n: string)
    ensures Firsts(names + [n]) == if n in Firsts(names) then Firsts(names) else Firsts(names) + [n]
  {
    assert (names + [n])[..|names|] == names;
  }

  lemma {:induction false} FirstsAreDistinct(names: seq<string>)
    ensures forall c :: c in Firsts(names) <==> c in names
    ensures forall i, j :: 0 <= i < j < |Firsts(names)| ==> Firsts(names)[i] != Firsts(names)[j]
  {
    if names != [] {
      var n := |names| - 1;
      FirstsAreDistinct(names[..n]);
      assert names == names[..n] + [names[n]];
    }
  }

  lemma {:induction false} HeadersHold(sources: seq<Source>)
    ensures forall c :: c in Headers(sources) <==> exists f :: 0 <= f < |sources| && c in sources[f].fields
  {
    if sources != [] {
      var n := |sources| - 1;
      HeadersHold(sources[..n]);
      forall c ensures c in Headers(sources) <==> exists f :: 0 <= f < |sources| && c in sources[f].fields {
        if f :| 0 <= f < |sources| && c in sources[f].fields { assert f < n ==> sources[..n][f] == sources[f]; }
      }
    }
  }

  /** First pass: the union of the headers, in first-seen order. */
  method UnionColumns(sources: seq<Source>) returns (columns: seq<string>)
    ensures columns == Firsts(Headers(sources))
    ensures forall c :: c in columns <==> exists f :: 0 <= f < |sources| && c in sources[f].fields
    ensures forall i, j :: 0 <= i < j < |columns| ==> columns[i] != columns[j]
  {
    columns := [];
    assert sources[..0] == [];
    for f := 0 to |sources|
      invariant columns == Firsts(Headers(sources[..f]))
    {
      ghost var names := Headers(sources[..f]);
      assert names + sources[f].fields[..0] == names;
      for k := 0 to |sources[f].fields|
        invariant columns == Firsts(names + sources[f].fields[..k])
      {
        HeaderOneMore(names, sources[f].fields, k);
        if sources[f].fields[k] !in columns { columns := columns + [sources[f].fields[k]]; }
      }
      assert sources[..f + 1][..f] == sources[..f] && sources[f].fields[..|sources[f].fields|] == sources[f].fields;
    }
    assert sources[..|sources|] == sources;
    HeadersHold(sources);
    FirstsAreDistinct(Headers(sources));
  }

  lemma HeaderOneMore(names: seq<string>, fields: seq<string>, k: nat)
    requires k < |fields|
    ensures Firsts(names + fields[..k + 1]) ==
      var so := Firsts(names + fields[..k]); if fields[k] in so then so else so + [fields[k]]
  {
    assert names + fields[..k + 1] == names + fields[..k] + [fields[k]];
    FirstsOneMore(names + fields[..k], fields[k]);
  }

  /** What the shared dedupe set holds after the lines `ls`. */
  ghost predicate SeenIs(seen: set<string>, dedupe: bool, ls: seq<Line>) {
    dedupe ==> forall b :: b in seen <==> b != "" && SeenIn(ls, b)
  }

  lemma SeenOneMore(ls: seq<Line>, l: Line, b: string)
    ensures SeenIn(ls + [l], b) <==> SeenIn(ls, b) || l.body == b
  {
    if i :| 0 <= i < |ls| && ls[i].body == b { assert (ls + [l])[i] == ls[i]; }
    assert (ls + [l])[|ls|] == l;
  }

  lemma KeptOneMore(dedupe: bool, ls: seq<Line>, l: Line)
    ensures Kept(dedupe, ls + [l]) == Kept(dedupe, ls) + if Keeps(dedupe, ls, l) then [l] else []
  {
    var all := ls + [l];
    assert all[..|all| - 1] == ls && all[|all| - 1] == l;
  }

  /** The decision taken for one English line: whether it is written, and the dedupe set afterwards. */
  method Decide(seen: set<string>, dedupe: bool, body: string, ghost before: seq<Line>, ghost l: Line)
      returns (write: bool, seen': set<string>)
    requires body == l.body && SeenIs(seen, dedupe, before)
    ensures write <==> Keeps(dedupe, before, l)
    ensures SeenIs(seen', dedupe, before + [l])
  {
    write, seen' := true, seen;
    forall b { SeenOneMore(before, l, b); }
    if body != "" && dedupe {
      if body in seen { return false, seen; }
      seen' := seen + {body};
    }
  }

  function EmptyBodies(ls: seq<Line>): nat {
    if ls == [] then 0 else EmptyBodies(ls[..|ls| - 1]) + if ls[|ls| - 1].body == "" then 1 else 0
  }

  function NoSubjects(ls: seq<Line>): nat {
    if ls == [] then 0 else NoSubjects(ls[..|ls| - 1]) + if ls[|ls| - 1].noSubject then 1 else 0
  }

  lemma CountOneMore(ls: seq<Line>, l: Line)
    ensures EmptyBodies(ls + [l]) == EmptyBodies(ls) + if l.body == "" then 1 else 0
    ensures NoSubjects(ls + [l]) == NoSubjects(ls) + if l.noSubject then 1 else 0
  {
    var all := ls + [l];
    assert all[..|all| - 1] == ls && all[|all| - 1] == l;
  }

  /** Part way through a file: `before` are the lines of earlier files, `ls` all lines so far. */
  ghost predicate Counted(dedupe: bool, before: seq<Line>, ls: seq<Line>, fr: FileReport) {
    && fr.english == |ls| - |before| && fr.kept == |Kept(dedupe, ls)| - |Kept(dedupe, before)|
    && fr.kept + fr.duplicates == fr.english
    && fr.emptyBody == EmptyBodies(ls) - EmptyBodies(before)
    && fr.emptySubject == NoSubjects(Kept(dedupe, ls)) - NoSubjects(Kept(dedupe, before))
  }

  /** The counters after one more English line. */
  function Bumped(fr: FileReport, l: Line, keeps: bool): FileReport {
    fr.(english := fr.english + 1,
        kept := fr.kept + (if keeps then 1 else 0),
        duplicates := fr.duplicates + (if keeps then 0 else 1),
        emptyBody := fr.emptyBody + (if l.body == "" then 1 else 0),
        emptySubject := fr.emptySubject + (if keeps && l.noSubject then 1 else 0))
  }

  lemma CountedOneMore(dedupe: bool, before: seq<Line>, ls: seq<Line>, l: Line, fr: FileReport)
    requires Counted(dedupe, before, ls, fr)
    ensures Counted(dedupe, before, ls + [l], Bumped(fr, l, Keeps(dedupe, ls, l)))
  {
    CountOneMore(ls, l);
    KeptCountOneMore(dedupe, ls, l);
  }

  lemma KeptCountOneMore(dedupe: bool, ls: seq<Line>, l: Line)
    ensures |Kept(dedupe, ls + [l])| == |Kept(dedupe, ls)| + if Keeps(dedupe, ls, l) then 1 else 0
    ensures NoSubjects(Kept(dedupe, ls + [l])) ==
      NoSubjects(Kept(dedupe, ls)) + if Keeps(dedupe, ls, l) && l.noSubject then 1 else 0
    ensures !Keeps(dedupe, ls, l) ==> Kept(dedupe, ls + [l]) == Kept(dedupe, ls)
  {
    KeptOneMore(dedupe, ls, l);
    if Keeps(dedupe, ls, l) {
      assert Kept(dedupe, ls + [l]) == Kept(dedupe, ls) + [l];
      CountOneMore(Kept(dedupe, ls), l);
    } else {
      assert Kept(dedupe, ls + [l]) == Kept(dedupe, ls);
    }
  }

  /** One English row. */
  method FilterRow(columns: seq<string>, dedupe: bool, l: Line, fr: FileReport, seen: set<string>, out: seq<OutRow>,
      ghost before: seq<Line>, ghost ls: seq<Line>) returns (fr': FileReport, seen': set<string>, out': seq<OutRow>)
    requires SeenIs(seen, dedupe, ls) && Counted(dedupe, before, ls, fr) && out == ProjectAll(columns, Kept(dedupe, ls))
    ensures SeenIs(seen', dedupe, ls + [l]) && Counted(dedupe, before, ls + [l], fr')
    ensures out' == ProjectAll(columns, Kept(dedupe, ls + [l]))
    ensures fr'.name == fr.name && fr'.rows == fr.rows
  {
    var write;
    write, seen' := Decide(seen, dedupe, l.body, ls, l);
    CountedOneMore(dedupe, before, ls, l, fr);
    fr' := Tally(fr, l, write);
    out' := Emit(columns, dedupe, l, write, out, ls);
  }

  method Tally(fr: FileReport, l: Line, write: bool) returns (fr': FileReport)
    ensures fr' == Bumped(fr, l, write)
  {
    fr' := fr.(english := fr.english + 1);
    if l.body == "" { fr' := fr'.(emptyBody := fr'.emptyBody + 1); }
    if !write { return fr'.(duplicates := fr'.duplicates + 1); }
    if l.noSubject { fr' := fr'.(emptySubject := fr'.emptySubject + 1); }
    fr' := fr'.(kept := fr'.kept + 1);
  }

  method Emit(columns: seq<string>, dedupe: bool, l: Line, write: bool, out: seq<OutRow>, ghost ls: seq<Line>)
      returns (out': seq<OutRow>)
    requires out == ProjectAll(columns, Kept(dedupe, ls)) && (write <==> Keeps(dedupe, ls, l))
    ensures out' == ProjectAll(columns, Kept(dedupe, ls + [l]))
  {
    KeptCountOneMore(dedupe, ls, l);
    if !write { return out; }
    KeptOneMore(dedupe, ls, l);
    ProjectOneMore(columns, Kept(dedupe, ls), l);
    out' := out + [Project(columns, l)];
  }

  lemma ProjectOneMore(columns: seq<string>, ls: seq<Line>, l: Line)
    ensures ProjectAll(columns, ls + [l]) == ProjectAll(columns, ls) + [Project(columns, l)]
  {
  }

  /** The inner loop: one file's rows, on top of what earlier files left in `seen` and `out`. */
  method FilterFile(reader: Reader, s: Source, columns: seq<string>, dedupe: bool, seen: set<string>, out: seq<OutRow>,
      ghost before: seq<Line>) returns (fr: FileReport, seen': set<string>, out': seq<OutRow>)
    requires SeenIs(seen, dedupe, before) && out == ProjectAll(columns, Kept(dedupe, before))
    ensures SeenIs(seen', dedupe, before + LinesOf(reader, s))
    ensures out' == ProjectAll(columns, Kept(dedupe, before + LinesOf(reader, s)))
    ensures fr.name == s.name && fr.rows == |s.rows|
    ensures Counted(dedupe, before, before + LinesOf(reader, s), fr)
  {
    fr, seen', out' := FileReport(s.name, 0, 0, 0, 0, 0, 0), seen, out;
    ghost var ls := before;
    assert s.rows[..0] == [] && before + [] == before;
    for r := 0 to |s.rows|
      invariant ls == before + EnglishLines(reader, s, s.rows[..r])
      invariant SeenIs(seen', dedupe, ls) && out' == ProjectAll(columns, Kept(dedupe, ls))
      invariant fr.name == s.name && fr.rows == r && Counted(dedupe, before, ls, fr)
    {
      var row := s.rows[r];
      var reading := reader(s.fields, row);
      fr := fr.(rows := fr.rows + 1);
      EnglishOneMore(reader, s, r, before);
      if !reading.english { continue; }
      var l := Line(row, s.name, reading.body, reading.emptySubject);
      fr, seen', out' := FilterRow(columns, dedupe, l, fr, seen', out', before, ls);
      ls := ls + [l];
    }
    assert s.rows[..|s.rows|] == s.rows;
  }

  lemma EnglishOneMore(reader: Reader, s: Source, r: nat, before: seq<Line>)
    requires r < |s.rows|
    ensures before + EnglishLines(reader, s, s.rows[..r + 1]) ==
      before + EnglishLines(reader, s, s.rows[..r]) + LineOf(reader, s, s.rows[r])
    ensures !reader(s.fields, s.rows[r]).english ==>
      before + EnglishLines(reader, s, s.rows[..r + 1]) == before + EnglishLines(reader, s, s.rows[..r])
  {
    assert s.rows[..r + 1][..r] == s.rows[..r];
    assert EnglishLines(reader, s, s.rows[..r]) + [] == EnglishLines(reader, s, s.rows[..r]);
  }

  /** The four counters the report also totals. */
  datatype Count = Rows | English | Written | Repeated

  function CountIn(fr: FileReport, k: Count): nat {
    match k
    case Rows => fr.rows
    case English => fr.english
    case Written => fr.kept
    case Repeated => fr.duplicates
  }

  function SumBy(files: seq<FileReport>, k: Count): nat {
    if files == [] then 0 else SumBy(files[..|files| - 1], k) + CountIn(files[|files| - 1], k)
  }

  /** One file's entry in the report: its rows are split into written and duplicate English rows and the rest. */
  ghost predicate Accounts(reader: Reader, s: Source, fr: FileReport) {
    && fr.name == s.name && fr.rows == |s.rows| && fr.english == |LinesOf(reader, s)|
    && fr.kept + fr.duplicates == fr.english && fr.emptyBody == EmptyBodies(LinesOf(reader, s))
  }

  function TotalOf(report: Report, k: Count): nat {
    match k
    case Rows => report.rows
    case English => report.english
    case Written => report.kept
    case Repeated => report.duplicates
  }

  /** The totals are those of the files. */
  ghost predicate Summed(report: Report) { forall k: Count :: TotalOf(report, k) == SumBy(report.files, k) }

  ghost predicate AllAccount(reader: Reader, sources: seq<Source>, files: seq<FileReport>) {
    |files| == |sources| && forall f :: 0 <= f < |sources| ==> Accounts(reader, sources[f], files[f])
  }

  /** The report agrees with itself and with what was written. */
  ghost predicate Balanced(reader: Reader, sources: seq<Source>, report: Report, out: seq<OutRow>) {
    && AllAccount(reader, sources, report.files) && Summed(report)
    && report.english == |AllLines(reader, sources)| && report.kept == |out|
    && report.kept + report.duplicates == report.english
  }

  lemma {:induction false} EmptyBodiesAdd(a: seq<Line>, b: seq<Line>)
    ensures EmptyBodies(a + b) == EmptyBodies(a) + EmptyBodies(b)
  {
    if b == [] {
      assert a + b == a;
    } else {
      EmptyBodiesAdd(a, b[..|b| - 1]);
      CountOneMore(a + b[..|b| - 1], b[|b| - 1]);
      assert a + b[..|b| - 1] + [b[|b| - 1]] == a + b;
    }
  }

  lemma CountedAccounts(reader: Reader, dedupe: bool, before: seq<Line>, s: Source, fr: FileReport)
    requires fr.name == s.name && fr.rows == |s.rows| && Counted(dedupe, before, before + LinesOf(reader, s), fr)
    ensures Accounts(reader, s, fr)
  {
    EmptyBodiesAdd(before, LinesOf(reader, s));
  }

  /** The report with one more file's counters. */
  function Extended(report: Report, fr: FileReport): Report {
    Report(report.files + [fr], report.rows + fr.rows, report.english + fr.english, report.kept + fr.kept,
           report.duplicates + fr.duplicates, report.columns)
  }

  lemma TotalOneMore(report: Report, fr: FileReport, k: Count)
    ensures TotalOf(Extended(report, fr), k) == TotalOf(report, k) + CountIn(fr, k)
  {
  }

  lemma SummedOneMore(report: Report, fr: FileReport)
    requires Summed(report)
    ensures Summed(Extended(report, fr))
  {
    forall k: Count ensures TotalOf(Extended(report, fr), k) == SumBy(Extended(report, fr).files, k) {
      TotalOneMore(report, fr, k);
      SumByOneMore(report.files, fr, k);
    }
  }

  lemma BalancedOneMore(reader: Reader, sources: seq<Source>, f: nat, report: Report, out: seq<OutRow>,
      fr: FileReport, out': seq<OutRow>)
    requires f < |sources| && Balanced(reader, sources[..f], report, out)
    requires Accounts(reader, sources[f], fr) && fr.kept == |out'| - |out|
    ensures Balanced(reader, sources[..f + 1], Extended(report, fr), out')
  {
    assert sources[..f + 1][..f] == sources[..f];
    SummedOneMore(report, fr);
  }

  lemma SumByOneMore(files: seq<FileReport>, fr: FileReport, k: Count)
    ensures SumBy(files + [fr], k) == SumBy(files, k) + CountIn(fr, k)
  {
    assert (files + [fr])[..|files|] == files;
  }

  function MissingSubjects(files: seq<FileReport>): nat {
    if files == [] then 0 else MissingSubjects(files[..|files| - 1]) + files[|files| - 1].emptySubject
  }

  lemma MissingOneMore(files: seq<FileReport>, fr: FileReport)
    ensures MissingSubjects(files + [fr]) == MissingSubjects(files) + fr.emptySubject
  {
    assert (files + [fr])[..|files|] == files;
  }

  /** filter_english. No sources is an error, as a mistyped directory should be. */
  method FilterEnglish(sources: seq<Source>, dedupe: bool) returns (r: Option<(seq<OutRow>, Report)>)
    ensures r == None <==> sources == []
    ensures r.Some? ==> r.value.0 == ProjectAll(r.value.1.columns, Kept(dedupe, AllLines(ReadRow, sources)))
    ensures r.Some? ==> Balanced(ReadRow, sources, r.value.1, r.value.0)
    ensures r.Some? ==> MissingSubjects(r.value.1.files) == NoSubjects(Kept(dedupe, AllLines(ReadRow, sources)))
    ensures r.Some? ==> r.value.1.columns == Firsts(Headers(sources))
  {
    r := FilterWith(ReadRow, sources, dedupe);
  }

  /** Where the second pass stands after these files. */
  ghost predicate Passed(reader: Reader, dedupe: bool, columns: seq<string>, sources: seq<Source>, report: Report,
      seen: set<string>, out: seq<OutRow>)
  {
    && SeenIs(seen, dedupe, AllLines(reader, sources))
    && out == ProjectAll(columns, Kept(dedupe, AllLines(reader, sources)))
    && report.columns == columns && Balanced(reader, sources, report, out)
    && MissingSubjects(report.files) == NoSubjects(Kept(dedupe, AllLines(reader, sources)))
  }

  lemma PassedOneMore(reader: Reader, dedupe: bool, columns: seq<string>, sources: seq<Source>, f: nat, report: Report,
      seen: set<string>, out: seq<OutRow>, fr: FileReport, seen': set<string>, out': seq<OutRow>)
    requires f < |sources| && Passed(reader, dedupe, columns, sources[..f], report, seen, out)
    requires var before := AllLines(reader, sources[..f]);
      var now := before + LinesOf(reader, sources[f]);
      && SeenIs(seen', dedupe, now) && out' == ProjectAll(columns, Kept(dedupe, now))
      && fr.name == sources[f].name && fr.rows == |sources[f].rows| && Counted(dedupe, before, now, fr)
    ensures Passed(reader, dedupe, columns, sources[..f + 1], Extended(report, fr), seen', out')
  {
    var before, lines := AllLines(reader, sources[..f]), LinesOf(reader, sources[f]);
    AllLinesOneMore(reader, sources, f);
    CountedAccounts(reader, dedupe, before, sources[f], fr);
    assert fr.kept == |out'| - |out|;
    BalancedOneMore(reader, sources, f, report, out, fr, out');
    MissingGrows(dedupe, before, before + lines, report.files, fr);
  }

  lemma AllLinesOneMore(reader: Reader, sources: seq<Source>, f: nat)
    requires f < |sources|
    ensures AllLines(reader, sources[..f + 1]) == AllLines(reader, sources[..f]) + LinesOf(reader, sources[f])
  {
    assert sources[..f + 1][..f] == sources[..f];
  }

  lemma MissingGrows(dedupe: bool, before: seq<Line>, now: seq<Line>, files: seq<FileReport>, fr: FileReport)
    requires Counted(dedupe, before, now, fr) && MissingSubjects(files) == NoSubjects(Kept(dedupe, before))
    ensures MissingSubjects(files + [fr]) == NoSubjects(Kept(dedupe, now))
  {
    MissingOneMore(files, fr);
  }

  /** The outer loop's body: one file, and its counters added to the totals. */
  method AddFile(reader: Reader, sources: seq<Source>, f: nat, columns: seq<string>, dedupe: bool, report: Report,
      seen: set<string>, out: seq<OutRow>)
      returns (report': Report, seen': set<string>, out': seq<OutRow>)
    requires f < |sources| && Passed(reader, dedupe, columns, sources[..f], report, seen, out)
    ensures Passed(reader, dedupe, columns, sources[..f + 1], report', seen', out')
  {
    var fr;
    fr, seen', out' := FilterFile(reader, sources[f], columns, dedupe, seen, out, AllLines(reader, sources[..f]));
    PassedOneMore(reader, dedupe, columns, sources, f, report, seen, out, fr, seen', out');
    report' := Extended(report, fr);
  }

  method FilterWith(reader: Reader, sources: seq<Source>, dedupe: bool) returns (r: Option<(seq<OutRow>, Report)>)
    ensures r == None <==> sources == []
    ensures r.Some? ==> r.value.0 == ProjectAll(r.value.1.columns, Kept(dedupe, AllLines(reader, sources)))
    ensures r.Some? ==> Balanced(reader, sources, r.value.1, r.value.0)
    ensures r.Some? ==> MissingSubjects(r.value.1.files) == NoSubjects(Kept(dedupe, AllLines(reader, sources)))
    ensures r.Some? ==> r.value.1.columns == Firsts(Headers(sources))
  {
    if sources == [] { return None; }
    var columns := UnionColumns(sources);
    var report := Report([], 0, 0, 0, 0, columns);
    var seen: set<string>, out: seq<OutRow> := {}, [];
    assert sources[..0] == [];
    for f := 0 to |sources|
      invariant Passed(reader, dedupe, columns, sources[..f], report, seen, out)
    {
      report, seen, out := AddFile(reader, sources, f, columns, dedupe, report, seen, out);
    }
    assert sources[..|sources|] == sources;
    return Some((out, report));
  }

  // -------------------------------------------------------- what is kept

  /** The written lines are lines of the input, in its order. */
  ghost predicate Subsequence(sub: seq<Line>, ls: seq<Line>, at: seq<nat>) {
    && |at| == |sub|
    && (forall k :: 0 <= k < |at| ==> at[k] < |ls| && ls[at[k]] == sub[k])
    && (forall j, k :: 0 <= j < k < |at| ==> at[j] < at[k])
  }

  /** Main result about the choice of lines: they sit at exactly those positions whose body is empty or new. */
  lemma {:induction false} KeptPositions(dedupe: bool, ls: seq<Line>) returns (at: seq<nat>)
    ensures Subsequence(Kept(dedupe, ls), ls, at)
    ensures forall i: nat :: i in at <==> i < |ls| && Keeps(dedupe, ls[..i], ls[i])
  {
    at := [];
    if ls != [] {
      var init, n := ls[..|ls| - 1], |ls| - 1;
      var before := KeptPositions(dedupe, init);
      at := before + if Keeps(dedupe, init, ls[n]) then [n] else [];
      forall i: nat | i < n ensures ls[..i] == init[..i] && ls[i] == init[i] { }
      assert ls[..n] == init;
    }
  }

  /** With dedupe on, no two written lines share a body, and no body is lost. */
  lemma {:induction false} BodiesOnceEach(ls: seq<Line>)
    ensures forall b :: SeenIn(Kept(true, ls), b) <==> SeenIn(ls, b)
    ensures forall i, j :: 0 <= i < j < |Kept(true, ls)| && Kept(true, ls)[i].body == Kept(true, ls)[j].body ==>
      Kept(true, ls)[i].body == ""
  {
    if ls != [] {
      var init, l := ls[..|ls| - 1], ls[|ls| - 1];
      BodiesOnceEach(init);
      assert ls == init + [l];
      KeptOneMore(true, init, l);
      forall b ensures SeenIn(Kept(true, ls), b) <==> SeenIn(ls, b) {
        SeenOneMore(init, l, b);
        SeenOneMore(Kept(true, init), l, b);
        assert Kept(true, init) + [] == Kept(true, init);
      }
    }
  }

  /** Filtering what was already filtered changes nothing. */
  lemma {:induction false} KeptTwice(dedupe: bool, ls: seq<Line>)
    ensures Kept(dedupe, Kept(dedupe, ls)) == Kept(dedupe, ls)
  {
    if ls != [] {
      var init, l := ls[..|ls| - 1], ls[|ls| - 1];
      KeptTwice(dedupe, init);
      if Keeps(dedupe, init, l) {
        KeptOneMore(dedupe, Kept(dedupe, init), l);
        if dedupe { BodiesOnceEach(init); }
      } else {
        assert Kept(dedupe, init) + [] == Kept(dedupe, init);
      }
    }
  }

  /** Without dedupe every English row is written. */
  lemma {:induction false} WithoutDedupeAllKept(ls: seq<Line>)
    ensures Kept(false, ls) == ls
  {
    if ls != [] { WithoutDedupeAllKept(ls[..|ls| - 1]); }
  }
}
