/** The migration runner: which part of a file it executes, and what a database looks like after any
    sequence of runs that fail, crash or succeed. */
module Migrations {
  import opened Text

  const UP_MARK := "-- +goose Up"
  const DOWN_MARK := "-- +goose Down"

  /** The part of a file that is executed. */
  function ExtractGooseUp(src: string): string {
    var up := Index(src, UP_MARK);
    if up < 0 then src
    else
      var body := src[up + |UP_MARK|..];
      var down := Index(body, DOWN_MARK);
      TrimSpace(if down >= 0 then body[..down] else body)
  }

  predicate Blank(s: string) { TrimSpace(s) == "" }

  lemma SliceOccurs(s: string, sub: string, lo: nat, hi: nat, i: nat)
    requires lo <= hi <= |s| && OccursAt(s[lo..hi], sub, i)
    ensures OccursAt(s, sub, lo + i)
  {
    forall k | 0 <= k < |sub| ensures s[lo + i..lo + i + |sub|][k] == sub[k] {
      assert s[lo..hi][i..i + |sub|][k] == sub[k];
    }
  }

  lemma SliceLacks(s: string, sub: string, lo: nat, hi: nat)
    requires lo <= hi <= |s| && !Contains(s, sub)
    ensures !Contains(s[lo..hi], sub)
  {
    if i: nat :| OccursAt(s[lo..hi], sub, i) { SliceOccurs(s, sub, lo, hi, i); }
  }

  lemma PrefixLacks(s: string, sub: string)
    requires Index(s, sub) >= 0 && sub != ""
    ensures !Contains(s[..Index(s, sub)], sub)
  {
    var r := Index(s, sub);
    if i: nat :| OccursAt(s[..r], sub, i) { SliceOccurs(s, sub, 0, r, i); }
  }

  lemma UpMarkGuards(src: string)
    requires Contains(src, UP_MARK)
    ensures !Contains(ExtractGooseUp(src), DOWN_MARK)
  {
    var body := src[Index(src, UP_MARK) + |UP_MARK|..];
    var down := Index(body, DOWN_MARK);
    var kept := if down >= 0 then body[..down] else body;
    if down >= 0 { PrefixLacks(body, DOWN_MARK); }
    var lo, hi := TrimSpaceIsSlice(kept);
    SliceLacks(kept, DOWN_MARK, lo, hi);
  }

  /** The executed text holds a Down marker exactly when the file has one and has no Up marker: such a file runs whole,
      its Down section included. */
  lemma DownRunsExactly(src: string)
    ensures Contains(ExtractGooseUp(src), DOWN_MARK) <==> Contains(src, DOWN_MARK) && !Contains(src, UP_MARK)
  {
    if Contains(src, UP_MARK) { UpMarkGuards(src); }
  }

  lemma ConcatOccurs(a: string, sub: string, b: string)
    ensures OccursAt(a + sub + b, sub, |a|) && (a + sub + b)[|a| + |sub|..] == b && (a + sub + b)[..|a|] == a
  {
  }

  lemma FirstOccurrence(s: string, sub: string, i: nat)
    requires OccursAt(s, sub, i) && forall j: nat :: j < i ==> !OccursAt(s, sub, j)
    ensures Index(s, sub) == i
  {
  }

  /** For a file of the usual shape, the executed text is the trimmed text between the first Up marker and the first
      Down marker after it. */
  lemma UpSectionIsBetweenMarks(src: string, head: string, body: string, up: string, tail: string)
    requires src == head + UP_MARK + body && body == up + DOWN_MARK + tail
    requires forall j: nat :: j < |head| ==> !OccursAt(src, UP_MARK, j)
    requires forall j: nat :: j < |up| ==> !OccursAt(body, DOWN_MARK, j)
    ensures ExtractGooseUp(src) == TrimSpace(up)
  {
    ConcatOccurs(head, UP_MARK, body);
    FirstOccurrence(src, UP_MARK, |head|);
    ConcatOccurs(up, DOWN_MARK, tail);
    FirstOccurrence(body, DOWN_MARK, |up|);
  }
}
