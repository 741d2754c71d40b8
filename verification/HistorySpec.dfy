/**
 Screen history: the output of one agent rebuilt from overlapping screen snapshots.
 These functions on values specify what each method of the class History does.
 */
module HistorySpec {
  import opened Text

  const LIVE_LINES: nat := 8
  const ANCHOR_WINDOW: nat := 6
  const ANCHOR_LINES: nat := 3
  const MAX_LINES: nat := 2000
  const MAX_BYTES: nat := 262144
  const GAP_MARKER: string := "…"

  datatype State = State(
    committed: seq<string>,
    bytes: int,
    prev: seq<string>,
    tail: seq<string>,
    mark: int,
    truncated: bool)

  /** What Append reports, with the state it leaves. */
  datatype Appended = Appended(state: State, added: int, shift: int, gap: bool)

  const EMPTY: State := State([], 0, [], [], -1, false)

  // ---- Byte counter ----

  function Cost(lines: seq<string>): nat
  {
    if lines == [] then 0 else ByteLen(lines[0]) + 1 + Cost(lines[1..])
  }

  lemma {:induction false} CostConcat(a: seq<string>, b: seq<string>)
    ensures Cost(a + b) == Cost(a) + Cost(b)
  {
    if a == [] {
      assert a + b == b;
    } else {
      CostConcat(a[1..], b);
      assert (a + b)[1..] == a[1..] + b;
    }
  }

  lemma CostSplit(a: seq<string>, n: nat)
    requires n <= |a|
    ensures Cost(a) == Cost(a[..n]) + Cost(a[n..])
  {
    CostConcat(a[..n], a[n..]);
    assert a == a[..n] + a[n..];
  }

  // ---- Alignment of two screens ----

  /** Non-blank lines among the first n of overlap. */
  function TextLines(overlap: seq<string>, n: nat): (t: nat)
    requires n <= |overlap|
  {
    if n == 0 then 0
    else TextLines(overlap, n - 1) + (if Blank(overlap[n - 1]) then 0 else 1)
  }

  /** Non-blank lines among the first n of overlap that stable repeats in place. */
  function Hits(overlap: seq<string>, stable: seq<string>, n: nat): (t: nat)
    requires n <= |overlap| && n <= |stable|
  {
    if n == 0 then 0
    else Hits(overlap, stable, n - 1) + (if !Blank(overlap[n - 1]) && overlap[n - 1] == stable[n - 1] then 1 else 0)
  }

  lemma {:induction false} CountsMean(overlap: seq<string>, stable: seq<string>, n: nat)
    requires n <= |overlap| && n <= |stable|
    ensures TextLines(overlap, n) > 0 <==> exists i :: 0 <= i < n && !Blank(overlap[i])
    ensures Hits(overlap, stable, n) > 0 <==> exists i :: 0 <= i < n && !Blank(overlap[i]) && overlap[i] == stable[i]
    ensures (forall i :: 0 <= i < n ==> overlap[i] == stable[i]) ==> Hits(overlap, stable, n) == TextLines(overlap, n)
  {
    if n > 0 {
      CountsMean(overlap, stable, n - 1);
    }
  }

  function Window(overlap: seq<string>): (n: nat)
    ensures n <= |overlap|
  {
    if |overlap| > ANCHOR_WINDOW then ANCHOR_WINDOW else |overlap|
  }

  predicate Aligned(overlap: seq<string>, stable: seq<string>)
    requires |overlap| <= |stable|
  {
    var n := Window(overlap);
    var text := TextLines(overlap, n);
    text > 0 && Hits(overlap, stable, n) >= (if text < ANCHOR_LINES then text else ANCHOR_LINES)
  }

  /** The screens agree when the previous one is scrolled up by shift lines. */
  predicate FitsAt(prev: seq<string>, stable: seq<string>, shift: nat)
    requires shift <= |prev|
  {
    |prev| - shift <= |stable| && Aligned(prev[shift..], stable)
  }

  /** The first shift from `from` on at which the screens agree, or |prev|. */
  function FindShift(prev: seq<string>, stable: seq<string>, from: nat): (shift: nat)
    requires from <= |prev|
    ensures from <= shift <= |prev|
    ensures shift < |prev| ==> |prev| - shift <= |stable|
    decreases |prev| - from
  {
    if from == |prev| || FitsAt(prev, stable, from) then from else FindShift(prev, stable, from + 1)
  }

  // ---- Caps ----

  predicate WithinCaps(committed: seq<string>, bytes: int)
  {
    |committed| <= MAX_LINES && bytes <= MAX_BYTES
  }

  /** How many lines trim drops from the front. */
  function DropCount(committed: seq<string>, bytes: int): (drop: nat)
    ensures drop <= |committed|
  {
    if committed == [] || WithinCaps(committed, bytes) then 0
    else DropCount(committed[1..], bytes - (ByteLen(committed[0]) + 1)) + 1
  }

  lemma {:induction false} DropCountMeetsCaps(committed: seq<string>, bytes: int)
    ensures var drop := DropCount(committed, bytes);
      drop < |committed| ==> WithinCaps(committed[drop..], bytes - Cost(committed[..drop]))
  {
    var drop := DropCount(committed, bytes);
    if 0 < drop < |committed| {
      DropCountMeetsCaps(committed[1..], bytes - (ByteLen(committed[0]) + 1));
      assert committed[1..][drop - 1..] == committed[drop..];
      assert committed[..drop][1..] == committed[1..][..drop - 1];
    }
  }

  function Trim(h: State): State
  {
    var drop := DropCount(h.committed, h.bytes);
    if drop == 0 then h
    else
      var lost := if h.mark >= 0 then h.mark < drop else true;
      h.(committed := h.committed[drop..],
         bytes := h.bytes - Cost(h.committed[..drop]),
         mark := if h.mark < 0 then h.mark else if h.mark < drop then 0 else h.mark - drop,
         truncated := h.truncated || lost)
  }

  // ---- Operations ----

  function Commit(h: State, lines: seq<string>): State
  {
    h.(committed := h.committed + lines, bytes := h.bytes + Cost(lines))
  }

  function Cut(h: State, n: nat): State
    requires n <= |h.committed|
  {
    h.(committed := h.committed[..n], bytes := h.bytes - Cost(h.committed[n..]))
  }

  function StablePart(lines: seq<string>): seq<string>
  {
    if |lines| <= LIVE_LINES then [] else lines[..|lines| - LIVE_LINES]
  }

  function LivePart(lines: seq<string>): seq<string>
  {
    if |lines| <= LIVE_LINES then lines else lines[|lines| - LIVE_LINES..]
  }

  /** Replaces the overlap of the two screens, at the end of committed, by the new screen. */
  function Overwrite(h: State, stable: seq<string>, overlap: nat): State
    requires overlap <= |stable|
  {
    var keep := |h.committed| - overlap;
    if keep < 0 then Commit(Cut(h, 0), stable[-keep..]) else Commit(Cut(h, keep), stable)
  }

  function FirstScreen(h: State, stable: seq<string>): State
  {
    Trim(Commit(h, stable).(prev := stable))
  }

  function Scrolled(h: State, stable: seq<string>, overlap: nat): State
    requires overlap <= |stable|
  {
    Trim(Overwrite(h, stable, overlap).(prev := stable))
  }

  function Jumped(h: State, stable: seq<string>): State
  {
    Trim(Commit(h, [GAP_MARKER] + stable).(prev := stable))
  }

  function AppendStable(h: State, stable: seq<string>): Appended
    requires stable != []
  {
    if h.prev == [] then Appended(FirstScreen(h, stable), |stable|, 0, false)
    else
      var shift := FindShift(h.prev, stable, 0);
      if shift < |h.prev| then
        var overlap := |h.prev| - shift;
        Appended(Scrolled(h, stable, overlap), |stable| - overlap, shift, false)
      else Appended(Jumped(h, stable), |stable|, |h.prev|, true)
  }

  function Append(h: State, lines: seq<string>): Appended
  {
    var stable := StablePart(lines);
    var h0 := h.(tail := LivePart(lines));
    if stable == [] then Appended(h0, 0, 0, false) else AppendStable(h0, stable)
  }

  lemma FirstAppend(h: State, stable: seq<string>)
    requires stable != [] && h.prev == []
    ensures AppendStable(h, stable) == Appended(Trim(Commit(h, stable).(prev := stable)), |stable|, 0, false)
  {
    hide Trim, Commit;
  }

  lemma AlignedAppend(h: State, stable: seq<string>, shift: nat)
    requires stable != [] && shift < |h.prev| && FindShift(h.prev, stable, 0) == shift
    ensures |h.prev| - shift <= |stable|
    ensures var overlap := |h.prev| - shift;
      AppendStable(h, stable)
      == Appended(Trim(Overwrite(h, stable, overlap).(prev := stable)), |stable| - overlap, shift, false)
  {
    hide Trim, Overwrite, FindShift;
  }

  lemma {:induction false} NoneFits(prev: seq<string>, stable: seq<string>, from: nat)
    requires from <= |prev| && forall s: nat :: from <= s < |prev| ==> !FitsAt(prev, stable, s)
    ensures FindShift(prev, stable, from) == |prev|
    decreases |prev| - from
  {
    if from < |prev| {
      NoneFits(prev, stable, from + 1);
    }
  }

  lemma UnalignedAppend(h: State, stable: seq<string>)
    requires stable != [] && h.prev != [] && forall s: nat :: s < |h.prev| ==> !FitsAt(h.prev, stable, s)
    ensures AppendStable(h, stable)
      == Appended(Trim(Commit(h, [GAP_MARKER] + stable).(prev := stable)), |stable|, |h.prev|, true)
  {
    hide Trim, Commit, FitsAt;
    NoneFits(h.prev, stable, 0);
  }

  function Mark(h: State): State
  {
    h.(mark := |h.committed|, truncated := false)
  }

  /** The lines after the mark, then the tail; a gap marker first when some were dropped. */
  function Lines(h: State): seq<string>
  {
    var start := if h.mark <= 0 then 0 else if h.mark > |h.committed| then |h.committed| else h.mark;
    (if h.truncated then [GAP_MARKER] else []) + h.committed[start..] + h.tail
  }

  function CommittedTail(h: State, n: int): seq<string>
  {
    if n <= 0 then [] else if n > |h.committed| then h.committed else h.committed[|h.committed| - n..]
  }

  // ---- What every operation keeps, for arbitrary screens ----

  /** The last lines of committed and of the previous stable screen agree as far as both reach. */
  ghost predicate CommonTail(committed: seq<string>, prev: seq<string>)
  {
    if |committed| <= |prev| then committed == prev[|prev| - |committed|..]
    else prev == committed[|committed| - |prev|..]
  }

  ghost predicate Consistent(h: State)
  {
    && h.bytes == Cost(h.committed)
    && -1 <= h.mark <= |h.committed|
    && CommonTail(h.committed, h.prev)
    && (h.prev == [] ==> h.committed == [])
  }

  ghost predicate Valid(h: State)
  {
    Consistent(h) && |h.committed| <= MAX_LINES && h.bytes <= MAX_BYTES
  }

  lemma TrimDrops(h: State)
    ensures Trim(h).committed == h.committed[DropCount(h.committed, h.bytes)..]
  {
    hide DropCount, Cost;
  }

  lemma TrimRestoresCaps(h: State)
    requires Consistent(h)
    ensures Valid(Trim(h))
    ensures Trim(h).committed == h.committed[|h.committed| - |Trim(h).committed|..]
  {
    hide Cost;
    var drop := DropCount(h.committed, h.bytes);
    DropCountMeetsCaps(h.committed, h.bytes);
    CostSplit(h.committed, drop);
    if drop == |h.committed| {
      assert h.committed[..drop] == h.committed;
      assert h.committed[drop..] == [];
    }
  }

  lemma OverwriteKeepsConsistent(h: State, stable: seq<string>, overlap: nat)
    requires Consistent(h) && 0 < overlap <= |stable| && overlap <= |h.prev|
    ensures Consistent(Overwrite(h, stable, overlap).(prev := stable))
    ensures |Overwrite(h, stable, overlap).committed| == |h.committed| + |stable| - overlap
  {
    hide Cost;
    var keep := |h.committed| - overlap;
    if keep < 0 {
      CostSplit(h.committed, 0);
      assert h.committed[..0] + stable[-keep..] == stable[-keep..];
    } else {
      CostSplit(h.committed, keep);
      CostConcat(h.committed[..keep], stable);
      assert (h.committed[..keep] + stable)[keep..] == stable;
    }
  }

  lemma CommitKeepsConsistent(h: State, before: seq<string>, stable: seq<string>)
    requires Consistent(h) && stable != []
    ensures Consistent(Commit(h, before + stable).(prev := stable))
  {
    CostConcat(h.committed, before + stable);
    assert (h.committed + (before + stable))[|h.committed| + |before|..] == stable;
  }

  lemma FirstScreenKeepsValid(h: State, stable: seq<string>)
    requires Valid(h) && stable != []
    ensures Valid(FirstScreen(h, stable))
  {
    CommitKeepsConsistent(h, [], stable);
    assert [] + stable == stable;
    TrimRestoresCaps(Commit(h, stable).(prev := stable));
  }

  lemma ScrolledKeepsValid(h: State, stable: seq<string>, overlap: nat)
    requires Valid(h) && 0 < overlap <= |stable| && overlap <= |h.prev|
    ensures Valid(Scrolled(h, stable, overlap))
  {
    OverwriteKeepsConsistent(h, stable, overlap);
    TrimRestoresCaps(Overwrite(h, stable, overlap).(prev := stable));
  }

  lemma JumpedKeepsValid(h: State, stable: seq<string>)
    requires Valid(h) && stable != []
    ensures Valid(Jumped(h, stable))
  {
    CommitKeepsConsistent(h, [GAP_MARKER], stable);
    TrimRestoresCaps(Commit(h, [GAP_MARKER] + stable).(prev := stable));
  }

  lemma AppendStableKeepsValid(h: State, stable: seq<string>)
    requires Valid(h) && stable != []
    ensures Valid(AppendStable(h, stable).state)
  {
    hide Cost, Trim;
    if h.prev == [] {
      FirstScreenKeepsValid(h, stable);
    } else {
      var shift := FindShift(h.prev, stable, 0);
      if shift < |h.prev| {
        ScrolledKeepsValid(h, stable, |h.prev| - shift);
      } else {
        JumpedKeepsValid(h, stable);
      }
    }
  }

  /**
   For arbitrary screens: the byte counter is exact, both caps hold, the mark is inside
   committed and committed ends as the previous stable screen does.
   */
  lemma AppendKeepsValid(h: State, lines: seq<string>)
    requires Valid(h)
    ensures Valid(Append(h, lines).state)
  {
    hide Cost, AppendStable;
    var h0 := h.(tail := LivePart(lines));
    assert Valid(h0);
    if StablePart(lines) != [] {
      AppendStableKeepsValid(h0, StablePart(lines));
    }
  }

  /**
   A screen that agrees with the last one at no shift is reported as a gap; committed becomes the end of
   what it was, one gap marker and the new stable lines, all of it when that fits the caps.
   */
  lemma UnalignedScreenIsMarked(h: State, lines: seq<string>)
    requires Valid(h) && h.prev != [] && StablePart(lines) != []
    requires forall s: nat :: s < |h.prev| ==> !FitsAt(h.prev, StablePart(lines), s)
    ensures var r, whole := Append(h, lines), h.committed + [GAP_MARKER] + StablePart(lines);
      && r.gap && r.added == |StablePart(lines)|
      && r.state.prev == StablePart(lines) && r.state.tail == LivePart(lines)
      && |r.state.committed| <= |whole| && r.state.committed == Last(whole, |r.state.committed|)
      && (WithinCaps(whole, Cost(whole)) ==> r.state.committed == whole)
  {
    hide Cost, AppendStable, FitsAt, DropCount;
    var h0, stable := h.(tail := LivePart(lines)), StablePart(lines);
    var h1 := Commit(h0, [GAP_MARKER] + stable).(prev := stable);
    UnalignedAppend(h0, stable);
    CommitKeepsConsistent(h0, [GAP_MARKER], stable);
    TrimRestoresCaps(h1);
    TrimDrops(h1);
    assert h1.committed == h.committed + [GAP_MARKER] + stable;
    if WithinCaps(h1.committed, Cost(h1.committed)) {
      NothingToDrop(h1.committed, h1.bytes);
    }
  }

  lemma NothingToDrop(committed: seq<string>, bytes: int)
    requires WithinCaps(committed, bytes)
    ensures DropCount(committed, bytes) == 0
  {
  }

  /** Aligned in place: a screen with text near its top aligns with itself at shift 0. */
  lemma SelfAligned(stable: seq<string>)
    ensures Aligned(stable, stable) <==> exists i :: 0 <= i < Window(stable) && !Blank(stable[i])
  {
    CountsMean(stable, stable, Window(stable));
  }

  lemma ShiftZeroIffText(stable: seq<string>)
    requires stable != []
    ensures FindShift(stable, stable, 0) == 0 <==> exists i :: 0 <= i < Window(stable) && !Blank(stable[i])
  {
    SelfAligned(stable);
    assert stable[0..] == stable;
    assert FitsAt(stable, stable, 0) <==> Aligned(stable, stable);
  }

  /**
   Showing the same screen again changes nothing, exactly when one of the first lines of its
   stable part carries text; without one, lines are committed twice.
   */
  lemma ReappendIsNoOp(h: State, lines: seq<string>)
    requires Valid(h) && h.prev == StablePart(lines) && h.tail == LivePart(lines) && h.prev != []
    ensures var text := exists i :: 0 <= i < Window(h.prev) && !Blank(h.prev[i]);
      && (text <==> Append(h, lines) == Appended(h, 0, 0, false))
      && (!text ==> Append(h, lines).added > 0)
  {
    hide Cost, Trim, Aligned, FindShift, Overwrite, ByteLen;
    ShiftZeroIffText(h.prev);
    TrimLeavesValid(h);
    OverwriteSame(h, h.prev);
    assert h.(tail := LivePart(lines)) == h;
    if FindShift(h.prev, h.prev, 0) == 0 {
      AlignedAppend(h, h.prev, 0);
    }
  }

  lemma TrimLeavesValid(h: State)
    requires Valid(h)
    ensures Trim(h) == h
  {
    hide Cost;
  }

  lemma OverwriteSame(h: State, stable: seq<string>)
    requires Valid(h) && h.prev == stable && stable != []
    ensures Overwrite(h, stable, |stable|).(prev := stable) == h
  {
    hide Cost;
    var keep := |h.committed| - |stable|;
    if keep < 0 {
      assert h.committed[..0] == [] && h.committed[0..] == h.committed;
      assert [] + stable[-keep..] == h.committed;
    } else {
      CostSplit(h.committed, keep);
      assert h.committed[keep..] == stable;
      assert h.committed[..keep] + stable == h.committed;
    }
  }

  lemma EmptyIsValid()
    ensures Valid(EMPTY)
  {
  }

  /** A screen of nine blank lines, shown twice, has its one stable line committed twice. */
  lemma BlankScreenIsCommittedTwice()
    ensures var lines := seq(LIVE_LINES + 1, _ => "");
      var h := Append(EMPTY, lines).state;
      Valid(h) && h.prev == StablePart(lines) && h.tail == LivePart(lines) && Append(h, lines).added > 0
  {
    hide Cost, AppendStable;
    var lines := seq(LIVE_LINES + 1, _ => "");
    var stable := StablePart(lines);
    assert stable == [""];
    EmptyIsValid();
    AppendKeepsValid(EMPTY, lines);
    FirstAppend(EMPTY.(tail := LivePart(lines)), stable);
    ReappendIsNoOp(Append(EMPTY, lines).state, lines);
    assert forall i :: 0 <= i < |stable| ==> Blank(stable[i]);
  }
}
