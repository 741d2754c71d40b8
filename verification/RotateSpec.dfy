/**
 Size-rotated log files. File 0 is the live file, file i its i-th backup; a file is the sequence of
 records written to it.
 */
module RotateSpec {

  type Record = seq<bv8>

  type Files = map<nat, seq<Record>>

  function Size(records: seq<Record>): nat
  {
    if records == [] then 0 else Size(records[..|records| - 1]) + |records[|records| - 1]|
  }

  function Last(keep: int): nat
  {
    if keep < 0 then 0 else keep
  }

  function UpTo(i: nat): (names: set<nat>)
    ensures i in names && 0 in names
  {
    if i == 0 then {0} else UpTo(i - 1) + {i}
  }

  lemma {:induction false} UpToHolds(i: nat, j: nat)
    ensures j in UpTo(i) <==> j <= i
  {
    if i > 0 {
      UpToHolds(i - 1, j);
    }
  }

  /** There is a file i after a rotation of files. */
  predicate Named(files: Files, keep: int, i: nat)
  {
    if i > Last(keep) then i in files else i == 0 || i - 1 in files
  }

  function Moved(files: Files, keep: int, i: nat): seq<Record>
    requires Named(files, keep, i)
  {
    if i > Last(keep) then files[i] else if i == 0 then [] else files[i - 1]
  }

  /**
   The files after a rotation: every one moved up by one, the oldest dropped, a new live file. What
   lies beyond the last backup is not touched.
   */
  function Rotated(files: Files, keep: int): (r: Files)
    ensures 0 in r
  {
    map i | i in files.Keys + UpTo(Last(keep)) && Named(files, keep, i) :: Moved(files, keep, i)
  }

  predicate NeedsRotation(files: Files, size: int, p: Record)
    requires 0 in files
  {
    Size(files[0]) > 0 && Size(files[0]) + |p| > size
  }

  function Write(files: Files, size: int, keep: int, p: Record): Files
    requires 0 in files
  {
    var ready := if NeedsRotation(files, size, p) then Rotated(files, keep) else files;
    ready[0 := ready[0] + [p]]
  }

  function WriteAll(files: Files, size: int, keep: int, records: seq<Record>): Files
    requires 0 in files
    ensures 0 in WriteAll(files, size, keep, records)
  {
    if records == [] then files
    else Write(WriteAll(files, size, keep, records[..|records| - 1]), size, keep, records[|records| - 1])
  }

  /** What the files hold from backup i down to the live file, oldest first. */
  function Contents(files: Files, i: nat): seq<Record>
  {
    (if i in files then files[i] else []) + if i == 0 then [] else Contents(files, i - 1)
  }

  ghost predicate SingleRecord(records: seq<Record>)
  {
    forall i, j :: 0 <= i < |records| && 0 <= j < |records| && records[i] != [] && records[j] != [] ==> i == j
  }

  /** A file keeps to the limit, or holds one record only, beside empty ones. */
  ghost predicate FileFits(records: seq<Record>, size: int)
  {
    Size(records) <= size || SingleRecord(records)
  }

  /** Which files there are, and what is in them, after writing log. */
  ghost predicate Keeps(files: Files, size: int, keep: int, log: seq<Record>)
  {
    && 0 in files
    && (forall i :: i in files ==> i <= Last(keep) && FileFits(files[i], size))
    && (forall i :: i in files && i > 0 ==> i - 1 in files)
    && |Contents(files, Last(keep))| <= |log|
    && Contents(files, Last(keep)) == log[|log| - |Contents(files, Last(keep))|..]
  }

  lemma {:induction false} SizeZero(records: seq<Record>)
    ensures Size(records) == 0 <==> forall i :: 0 <= i < |records| ==> records[i] == []
  {
    if records != [] {
      SizeZero(records[..|records| - 1]);
    }
  }

  lemma RotatedIs(files: Files, keep: int)
    ensures forall i: nat :: i in Rotated(files, keep) <==> Named(files, keep, i)
    ensures forall i: nat :: i in Rotated(files, keep) ==> Rotated(files, keep)[i] == Moved(files, keep, i)
  {
    hide Moved;
    forall i: nat
      ensures i in Rotated(files, keep) <==> Named(files, keep, i)
    {
      UpToHolds(Last(keep), i);
    }
  }

  /** After the shift, backups 1 to i hold what 0 to i - 1 held. */
  lemma {:induction false} ShiftedContents(files: Files, keep: int, i: nat)
    requires 1 <= i <= Last(keep)
    ensures Contents(Rotated(files, keep), i) == Contents(files, i - 1)
  {
    hide Rotated;
    RotatedIs(files, keep);
    var r := Rotated(files, keep);
    if i == 1 {
      assert Contents(r, 0) == [];
      assert Contents(r, 1) == Contents(files, 0);
    } else {
      ShiftedContents(files, keep, i - 1);
    }
  }

  /** A rotation forgets the oldest backup, if there are that many, and nothing else. */
  lemma RotationDropsOldest(files: Files, keep: int)
    requires 0 in files && forall i :: i in files ==> i <= Last(keep)
    ensures var oldest := if Last(keep) in files then files[Last(keep)] else [];
      Contents(files, Last(keep)) == oldest + Contents(Rotated(files, keep), Last(keep))
  {
    hide Rotated;
    RotatedIs(files, keep);
    if Last(keep) > 0 {
      ShiftedContents(files, keep, Last(keep));
      var all := Contents(files, Last(keep));
      var oldest := if Last(keep) in files then files[Last(keep)] else [];
      assert all == oldest + Contents(files, Last(keep) - 1);
    } else {
      assert Contents(Rotated(files, keep), 0) == [];
    }
  }

  /**
   A write loses the records of the oldest backup, and those only when every backup exists and the
   record does not fit the live file any more.
   */
  lemma WriteLosesOldestWhenFull(files: Files, size: int, keep: int, p: Record)
    requires 0 in files && forall i :: i in files ==> i <= Last(keep)
    ensures var full := Size(files[0]) > 0 && Size(files[0]) + |p| > size && Last(keep) in files;
      Contents(files, Last(keep)) + [p] ==
      (if full then files[Last(keep)] else []) + Contents(Write(files, size, keep, p), Last(keep))
  {
    hide Rotated, Size;
    RotatedIs(files, keep);
    RotationDropsOldest(files, keep);
    AppendContents(if NeedsRotation(files, size, p) then Rotated(files, keep) else files, Last(keep), p);
  }

  /** Only the live file changed, by this record at its end. */
  ghost predicate OnlyAppended(files: Files, w: Files, p: Record)
  {
    && 0 in files && w.Keys == files.Keys && w[0] == files[0] + [p]
    && forall i :: i in files && i > 0 ==> w[i] == files[i]
  }

  /** The record is alone in the live file, and every file became the next older backup. */
  ghost predicate MovedUp(files: Files, w: Files, last: nat, p: Record)
  {
    && 0 in w && w[0] == [p]
    && (forall i :: i in w && i > 0 ==> i <= last && i - 1 in files && w[i] == files[i - 1])
    && (forall i :: 0 < i <= last && i - 1 in files ==> i in w)
  }

  /** A record that fits, or comes first, moves nothing; any other one starts a new live file. */
  lemma WriteMoves(files: Files, size: int, keep: int, p: Record)
    requires 0 in files && forall i :: i in files ==> i <= Last(keep)
    ensures if Size(files[0]) == 0 || Size(files[0]) + |p| <= size then
              OnlyAppended(files, Write(files, size, keep, p), p)
            else MovedUp(files, Write(files, size, keep, p), Last(keep), p)
  {
    hide Rotated, Size;
    RotatedIs(files, keep);
  }

  lemma {:induction false} AppendContents(files: Files, i: nat, p: Record)
    requires 0 in files
    ensures Contents(files[0 := files[0] + [p]], i) == Contents(files, i) + [p]
  {
    var after := files[0 := files[0] + [p]];
    if i == 0 {
      assert Contents(after, 0) == files[0] + [p] && Contents(files, 0) == files[0];
    } else {
      var own := if i in files then files[i] else [];
      AppendContents(files, i - 1, p);
      assert Contents(after, i) == own + Contents(after, i - 1);
      Regroup(own, Contents(files, i - 1), [p]);
    }
  }

  lemma Regroup<T>(a: seq<T>, b: seq<T>, c: seq<T>)
    ensures a + (b + c) == (a + b) + c
  {
  }

  lemma AppendFits(records: seq<Record>, size: int, p: Record)
    requires FileFits(records, size) && (Size(records) == 0 || Size(records) + |p| <= size)
    ensures FileFits(records + [p], size)
  {
    assert (records + [p])[..|records|] == records;
    if Size(records) == 0 {
      SizeZero(records);
    }
  }

  lemma SuffixSuffix<T>(log: seq<T>, all: seq<T>, rest: seq<T>)
    requires |all| <= |log| && all == log[|log| - |all|..]
    requires |rest| <= |all| && rest == all[|all| - |rest|..]
    ensures rest == log[|log| - |rest|..]
  {
  }

  lemma SuffixAppend<T>(log: seq<T>, all: seq<T>, p: T)
    requires |all| <= |log| && all == log[|log| - |all|..]
    ensures all + [p] == (log + [p])[|log + [p]| - |all + [p]|..]
  {
  }

  lemma RotatedKeeps(files: Files, size: int, keep: int, log: seq<Record>)
    requires Keeps(files, size, keep, log)
    ensures Keeps(Rotated(files, keep), size, keep, log)
  {
    hide Contents, FileFits, Rotated;
    RotatedIs(files, keep);
    RotationDropsOldest(files, keep);
    SuffixSuffix(log, Contents(files, Last(keep)), Contents(Rotated(files, keep), Last(keep)));
    assert FileFits([], size) by { EmptyFits(size); }
  }

  lemma EmptyFits(size: int)
    ensures FileFits([], size)
  {
  }

  lemma WriteKeeps(files: Files, size: int, keep: int, p: Record, log: seq<Record>)
    requires Keeps(files, size, keep, log)
    ensures Keeps(Write(files, size, keep, p), size, keep, log + [p])
  {
    hide Contents, FileFits, Rotated, Size;
    var ready := if NeedsRotation(files, size, p) then Rotated(files, keep) else files;
    RotatedKeeps(files, size, keep, log);
    RotatedIs(files, keep);
    assert Size([]) == 0 by { SizeZero([]); }
    AppendFits(ready[0], size, p);
    AppendContents(ready, Last(keep), p);
    SuffixAppend(log, Contents(ready, Last(keep)), p);
  }

  /**
   Starting from an empty live file, the backups and the live file together hold a suffix of
   everything written, cut between records, in at most keep backups and the live file, each within
   the limit unless it holds a single record beside empty ones.
   */
  lemma {:induction false} FilesKeepSuffix(size: int, keep: int, records: seq<Record>)
    ensures Keeps(WriteAll(map[0 := []], size, keep, records), size, keep, records)
  {
    hide Write;
    if records == [] {
      EmptyKeeps(size, keep);
    } else {
      var init, p := records[..|records| - 1], records[|records| - 1];
      FilesKeepSuffix(size, keep, init);
      hide Keeps;
      WriteKeeps(WriteAll(map[0 := []], size, keep, init), size, keep, p, init);
      assert init + [p] == records;
    }
  }

  lemma EmptyKeeps(size: int, keep: int)
    ensures Keeps(map[0 := []], size, keep, [])
  {
    EmptyContents(Last(keep));
  }

  lemma {:induction false} EmptyContents(i: nat)
    ensures Contents(map[0 := []], i) == []
  {
    if i > 0 {
      EmptyContents(i - 1);
    }
  }

  // ---- One record only ----

  /** A file keeps to the limit, or holds one record only. */
  ghost predicate Strict(records: seq<Record>, size: int)
  {
    Size(records) <= size || |records| <= 1
  }

  ghost predicate AllStrict(files: Files, size: int)
  {
    forall i :: i in files ==> Strict(files[i], size)
  }

  lemma SizeAppend(records: seq<Record>, p: Record)
    ensures Size(records + [p]) == Size(records) + |p|
  {
    assert (records + [p])[..|records|] == records;
  }

  /**
   A write leaves a file over the limit with two records exactly when the record is over the limit by
   itself and the live file has empty records only.
   */
  lemma StrictKeptIff(files: Files, size: int, keep: int, p: Record)
    requires 0 in files && AllStrict(files, size)
    ensures AllStrict(Write(files, size, keep, p), size) <==>
              !(|p| > size && files[0] != [] && Size(files[0]) == 0)
  {
    hide Rotated, Size;
    RotatedIs(files, keep);
    SizeZero([]);
    var ready := if NeedsRotation(files, size, p) then Rotated(files, keep) else files;
    var w := Write(files, size, keep, p);
    SizeAppend(ready[0], p);
    assert w[0] == ready[0] + [p];
    assert forall i :: i in w && i != 0 ==> i in ready && Strict(w[i], size);
  }

  ghost predicate NoneEmpty(records: seq<Record>)
  {
    forall i :: 0 <= i < |records| ==> records[i] != []
  }

  ghost predicate NoneEmptyIn(files: Files)
  {
    forall i :: i in files ==> NoneEmpty(files[i])
  }

  lemma FitsIsStrict(records: seq<Record>, size: int)
    requires NoneEmpty(records)
    ensures FileFits(records, size) <==> Strict(records, size)
  {
    hide Size;
    if |records| > 1 {
      assert records[0] != [] && records[1] != [];
    }
  }

  lemma WriteNoneEmpty(files: Files, size: int, keep: int, p: Record)
    requires 0 in files && p != [] && NoneEmptyIn(files)
    ensures NoneEmptyIn(Write(files, size, keep, p))
  {
    hide Rotated, Size;
    RotatedIs(files, keep);
  }

  lemma {:induction false} FilesNoneEmpty(size: int, keep: int, records: seq<Record>)
    requires NoneEmpty(records)
    ensures NoneEmptyIn(WriteAll(map[0 := []], size, keep, records))
  {
    hide Write, Size;
    if records == [] {
      assert WriteAll(map[0 := []], size, keep, records) == map[0 := []];
    } else {
      var init := records[..|records| - 1];
      FilesNoneEmpty(size, keep, init);
      WriteNoneEmpty(WriteAll(map[0 := []], size, keep, init), size, keep, records[|records| - 1]);
    }
  }

  /** When no record is empty, every file keeps to the limit or holds one record only. */
  lemma FilesStrictWithoutEmpty(size: int, keep: int, records: seq<Record>)
    requires NoneEmpty(records)
    ensures AllStrict(WriteAll(map[0 := []], size, keep, records), size)
  {
    hide WriteAll, NoneEmpty, FileFits, Strict, Contents;
    var files := WriteAll(map[0 := []], size, keep, records);
    FilesKeepSuffix(size, keep, records);
    FilesNoneEmpty(size, keep, records);
    forall i | i in files
      ensures Strict(files[i], size)
    {
      FitsIsStrict(files[i], size);
    }
  }

  /** An empty record before an oversized one: the file exceeds the limit with two records in it. */
  lemma EmptyRecordsDoNotCount()
    ensures var big: Record := [1, 2, 3];
      WriteAll(map[0 := []], 2, 1, [[], big]) == map[0 := [[], big]] && Size([[], big]) > 2
  {
    var none: seq<Record> := [];
    var empty: Record := [];
    var big: Record := [1, 2, 3];
    assert [empty, big][..1] == [empty] && [empty][..0] == none;
    var start: Files := map[0 := none];
    var one: Files := map[0 := [empty]];
    assert none + [empty] == [empty] && [empty] + [big] == [empty, big];
    assert WriteAll(start, 2, 1, none) == start;
    SizeZero(none);
    assert !NeedsRotation(start, 2, empty);
    assert start[0 := [empty]] == one;
    assert WriteAll(start, 2, 1, [empty]) == one;
    SizeZero([empty]);
    assert !NeedsRotation(one, 2, big);
    assert one[0 := [empty, big]] == map[0 := [empty, big]];
  }
}
