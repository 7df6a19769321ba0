/** Which embedded files are migrations, and in which order they run. */
module MigrationFiles {
  import opened Text
  import opened TextOrder
  import opened StableSort
  import opened MigrateRuns

  datatype Entry = Entry(name: string, isDir: bool)

  predicate IsSql(name: string) { HasSuffix(name, ".sql") }

  /** The entries of a directory have different names. */
  ghost predicate IsDirectory(entries: seq<Entry>) {
    forall i, j :: 0 <= i < j < |entries| ==> entries[i].name != entries[j].name
  }

  ghost predicate Increasing(names: seq<string>) {
    forall i, j :: 0 <= i < j < |names| ==> CompareText(names[i], names[j]) < 0
  }

  /** migrationFiles, for any test of what a migration is called. */
  method Listing(entries: seq<Entry>, named: string -> bool) returns (names: seq<string>)
    requires IsDirectory(entries)
    ensures Increasing(names)
    ensures forall n :: n in names <==>
      exists i :: 0 <= i < |entries| && entries[i].name == n && !entries[i].isDir && named(n)
  {
    var files: seq<string> := [];
    for i := 0 to |entries|
      invariant forall n :: n in files <==>
        exists j :: 0 <= j < i && entries[j].name == n && !entries[j].isDir && named(n)
      invariant forall j, k :: 0 <= j < k < |files| ==> files[j] != files[k]
    {
      if entries[i].isDir || !named(entries[i].name) { continue; }
      files := files + [entries[i].name];
    }
    names := Sort(CompareText, files);
    SortsNames(files);
    SortIsPermutation(CompareText, files);
    SameElements(names, files);
  }

  method MigrationFiles(entries: seq<Entry>) returns (names: seq<string>)
    requires IsDirectory(entries)
    ensures Increasing(names)
    ensures forall n :: n in names <==>
      exists i :: 0 <= i < |entries| && entries[i].name == n && !entries[i].isDir && IsSql(n)
  {
    names := Listing(entries, IsSql);
  }

  lemma SameElements<T>(a: seq<T>, b: seq<T>)
    requires multiset(a) == multiset(b)
    ensures forall x :: x in a <==> x in b
  {
    forall x ensures x in a <==> x in b { assert x in multiset(a) <==> x in multiset(b); }
  }

  lemma SortsNames(files: seq<string>)
    requires forall i, j :: 0 <= i < j < |files| ==> files[i] != files[j]
    ensures Increasing(Sort(CompareText, files))
  {
    TextIsConsistent();
    SortSorts(CompareText, files);
    SortIsPermutation(CompareText, files);
    var names := Sort(CompareText, files);
    forall i, j | 0 <= i < j < |names| ensures CompareText(names[i], names[j]) < 0 {
      if names[i] == names[j] {
        NoRepeats(files, names[i]);
        TwiceIsTwo(names, i, j);
        assert false;
      }
      TextFlips(names[i], names[j]);
    }
  }

  lemma TwiceIsTwo(names: seq<string>, i: nat, j: nat)
    requires i < j < |names| && names[i] == names[j]
    ensures multiset(names)[names[i]] >= 2
  {
    var (left, right) := (names[..j], names[j..]);
    assert names == left + right && names[i] == left[i] && names[j] == right[0];
    assert names[i] in multiset(left) && names[i] in multiset(right);
    assert multiset(left + right) == multiset(left) + multiset(right);
  }

  lemma {:induction false} NoRepeats(files: seq<string>, n: string)
    requires forall i, j :: 0 <= i < j < |files| ==> files[i] != files[j]
    ensures multiset(files)[n] <= 1
  {
    if files != [] {
      NoRepeats(files[1..], n);
      assert files == [files[0]] + files[1..];
      if files[0] == n { assert n !in files[1..]; }
    }
  }

  /** The order the files run in does not depend on how the directory lists them: an increasing list is determined by
      its elements. */
  lemma {:induction false} OrderIsDetermined(a: seq<string>, b: seq<string>)
    requires Increasing(a) && Increasing(b) && forall n :: n in a <==> n in b
    ensures a == b
  {
    assert (b != [] ==> b[0] in a) && (a != [] ==> a[0] in b);
    if a != [] {
      HeadIsLeast(a, b);
      assert a == [a[0]] + a[1..] && b == [b[0]] + b[1..];
      TextFlips(a[0], a[0]);
      forall k | 1 <= k < |a| ensures a[k] != a[0] { assert CompareText(a[0], a[k]) < 0; }
      forall k | 1 <= k < |b| ensures b[k] != b[0] { assert CompareText(b[0], b[k]) < 0; }
      forall n ensures n in a[1..] <==> n in b[1..] {
        if n in a[1..] { assert n in a && n != a[0]; }
        if n in b[1..] { assert n in b && n != b[0]; }
      }
      OrderIsDetermined(a[1..], b[1..]);
    }
  }

  lemma HeadIsLeast(a: seq<string>, b: seq<string>)
    requires a != [] && b != [] && Increasing(a) && Increasing(b) && forall n :: n in a <==> n in b
    ensures a[0] == b[0]
  {
    assert a[0] in b && b[0] in a;
    var i :| 0 <= i < |b| && b[i] == a[0];
    var j :| 0 <= j < |a| && a[j] == b[0];
    TextFlips(a[0], b[0]);
    if i > 0 && j > 0 { assert false; }
  }

  /** What the runner is handed always meets its assumption: the names of the files are distinct. */
  lemma IncreasingIsDistinct(files: seq<File>)
    requires Increasing(seq(|files|, i requires 0 <= i < |files| => files[i].name))
    ensures DistinctNames(Plan(files))
  {
    var names := seq(|files|, i requires 0 <= i < |files| => files[i].name);
    forall i, j | 0 <= i < j < |files| ensures files[i].name != files[j].name {
      assert CompareText(names[i], names[j]) < 0;
      TextFlips(names[i], names[j]);
    }
  }
}
