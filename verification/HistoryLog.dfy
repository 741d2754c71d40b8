/**
 The bounded history against the log it rebuilds: an append-only sequence of lines of which
 every screen shows a window, above a bottom part that is still being redrawn. Where a screen
 shares nothing with the one before, the log holds one gap marker between their windows.
 */
module HistoryLog {
  import opened Text
  import opened HistorySpec

  /** No two non-blank lines are equal. */
  ghost predicate TextDistinct(lines: seq<string>)
  {
    forall i, j :: 0 <= i < j < |lines| && !Blank(lines[i]) ==> lines[i] != lines[j]
  }

  /**
   The unbounded view: the last window is log[top..end], the first one began at `first`, and a
   human message was marked when the log had reached `mark` (-1 without one).
   */
  datatype View = View(first: nat, top: nat, end: nat, mark: int)

  function Start(v: View): nat
  {
    if v.mark >= 0 then v.mark else v.first
  }

  /** The log position of the oldest committed line. */
  function Base(h: State, v: View): int
  {
    v.end - |h.committed|
  }

  ghost predicate Positions(log: seq<string>, v: View)
  {
    v.first <= v.top <= v.end <= |log| && v.mark <= v.end && (v.mark >= 0 ==> v.first <= v.mark)
  }

  /** committed is the log from some base to the end of the last window; the mark agrees. */
  ghost predicate Tracks(h: State, log: seq<string>, v: View)
  {
    && Positions(log, v)
    && v.first <= Base(h, v)
    && h.committed == log[Base(h, v)..v.end]
    && h.prev == log[v.top..v.end]
    && (v.mark < 0 <==> h.mark < 0)
    && (v.mark >= 0 ==> h.mark == if v.mark < Base(h, v) then 0 else v.mark - Base(h, v))
    && (h.truncated <==> Start(v) < Base(h, v))
  }

  // ---- One screen that slid forward ----

  /** A non-blank line of log[from..to] lies in the alignment window at its start. */
  ghost predicate Anchored(log: seq<string>, from: nat, to: nat)
  {
    from <= to <= |log| && exists i :: from <= i < to && i < from + ANCHOR_WINDOW && !Blank(log[i])
  }

  /** The next window log[top..end] follows v: it slid forward and shares an anchored overlap. */
  ghost predicate Slides(log: seq<string>, v: View, top: nat, end: nat)
  {
    && v.top <= top < end <= |log|
    && v.end <= end
    && (if v.top == v.end then top == v.top else top < v.end && Anchored(log, top, v.end))
  }

  /** The next window shares no text with the last one; the log has one gap marker between them. */
  ghost predicate Jumps(log: seq<string>, v: View, top: nat, end: nat)
  {
    && v.top < v.end < |log| && log[v.end] == GAP_MARKER
    && top == v.end + 1 && top < end <= |log|
    && forall i, j :: v.top <= i < v.end && top <= j < end && !Blank(log[i]) ==> log[i] != log[j]
  }

  /** The next window slid forward, over lines of which no two with text are equal, or jumped. */
  ghost predicate Follows(log: seq<string>, v: View, top: nat, end: nat)
  {
    (Slides(log, v, top, end) && TextDistinct(log[v.top..end])) || Jumps(log, v, top, end)
  }

  lemma PrefixAligned(overlap: seq<string>, stable: seq<string>, i: nat)
    requires |overlap| <= |stable| && overlap == stable[..|overlap|]
    requires i < Window(overlap) && !Blank(overlap[i])
    ensures Aligned(overlap, stable)
  {
    hide Blank, TextLines, Hits;
    CountsMean(overlap, stable, Window(overlap));
  }

  lemma TrueShiftFits(log: seq<string>, v: View, top: nat, end: nat)
    requires Positions(log, v) && v.top < v.end && Slides(log, v, top, end)
    ensures FitsAt(log[v.top..v.end], log[top..end], top - v.top)
  {
    hide Blank, Aligned;
    SliceOfSlice(log, v.top, v.end, top - v.top, v.end - v.top);
    SliceOfSlice(log, top, end, 0, v.end - top);
    var overlap := log[top..v.end];
    var i :| top <= i < v.end && i < top + ANCHOR_WINDOW && !Blank(log[i]);
    assert overlap[i - top] == log[i];
    PrefixAligned(overlap, log[top..end], i - top);
  }

  lemma EarlierShiftsDoNotFit(log: seq<string>, v: View, top: nat, end: nat, s: nat)
    requires Positions(log, v) && Slides(log, v, top, end) && TextDistinct(log[v.top..end])
    requires s < top - v.top && v.top < v.end
    ensures !FitsAt(log[v.top..v.end], log[top..end], s)
  {
    hide Blank, TextLines, Hits;
    var overlap, stable := log[v.top..v.end][s..], log[top..end];
    if |overlap| <= |stable| {
      var n := Window(overlap);
      CountsMean(overlap, stable, n);
      forall i | 0 <= i < n && !Blank(overlap[i])
        ensures overlap[i] != stable[i]
      {
        var window := log[v.top..end];
        assert overlap[i] == window[s + i] && stable[i] == window[top - v.top + i];
      }
    }
  }

  lemma {:induction false} FirstFit(prev: seq<string>, stable: seq<string>, from: nat, shift: nat)
    requires from <= shift < |prev| && FitsAt(prev, stable, shift)
    requires forall s :: from <= s < shift ==> !FitsAt(prev, stable, s)
    ensures FindShift(prev, stable, from) == shift
    decreases shift - from
  {
    if from < shift {
      FirstFit(prev, stable, from + 1, shift);
    }
  }

  /** The alignment search finds how far the screen really scrolled. */
  lemma FindsTrueShift(log: seq<string>, v: View, top: nat, end: nat)
    requires Positions(log, v) && v.top < v.end && Slides(log, v, top, end) && TextDistinct(log[v.top..end])
    ensures FindShift(log[v.top..v.end], log[top..end], 0) == top - v.top
  {
    TrueShiftFits(log, v, top, end);
    forall s: nat | 0 <= s < top - v.top
      ensures !FitsAt(log[v.top..v.end], log[top..end], s)
    {
      EarlierShiftsDoNotFit(log, v, top, end, s);
    }
    FirstFit(log[v.top..v.end], log[top..end], 0, top - v.top);
  }

  /** Dropping the head of committed moves the base, and only the base. */
  lemma TrimTracks(h: State, log: seq<string>, v: View)
    requires Tracks(h, log, v)
    ensures Tracks(Trim(h), log, v)
  {
    hide Cost;
    var drop := DropCount(h.committed, h.bytes);
    assert h.committed[drop..] == log[Base(h, v) + drop..v.end];
  }

  /** What committed becomes: the old log up to the overlap, then the whole new window. */
  lemma OverwrittenIsLog(h: State, log: seq<string>, base: nat, last: nat, top: nat, end: nat)
    requires base <= last <= end <= |log| && top < last && h.committed == log[base..last]
    ensures Overwrite(h, log[top..end], last - top).committed == log[base..end]
  {
    hide Cost;
    var c, stable, keep := h.committed, log[top..end], |h.committed| - (last - top);
    if keep < 0 {
      SliceOfSlice(log, top, end, -keep, end - top);
      assert stable[-keep..] == log[base..end];
      assert c[..0] + stable[-keep..] == stable[-keep..];
    } else {
      SliceOfSlice(log, base, last, 0, keep);
      SlicesJoin(log, base, top, end);
    }
  }

  lemma OverwriteTracks(h: State, log: seq<string>, v: View, top: nat, end: nat)
    requires Tracks(h, log, v) && v.top <= top < v.end <= end <= |log|
    ensures v.end - top <= end - top
    ensures Tracks(Overwrite(h, log[top..end], v.end - top).(prev := log[top..end]), log, v.(top := top, end := end))
  {
    hide Overwrite;
    OverwrittenIsLog(h, log, Base(h, v), v.end, top, end);
    OverwriteKeepsMark(h, log[top..end], v.end - top);
    var r := Overwrite(h, log[top..end], v.end - top);
    assert |r.committed| == end - Base(h, v);
  }

  lemma OverwriteKeepsMark(h: State, stable: seq<string>, overlap: nat)
    requires overlap <= |stable|
    ensures var r := Overwrite(h, stable, overlap); r.mark == h.mark && r.truncated == h.truncated && r.prev == h.prev
  {
  }

  lemma FirstScreenTracks(h: State, log: seq<string>, v: View, end: nat)
    requires Tracks(h, log, v) && v.top == v.end < end <= |log|
    ensures Tracks(FirstScreen(h, log[v.top..end]), log, v.(end := end))
  {
    hide Cost;
    var h1 := Commit(h, log[v.top..end]).(prev := log[v.top..end]);
    assert h1.committed == log[Base(h, v)..end];
    TrimTracks(h1, log, v.(end := end));
  }

  lemma ScrolledTracks(h: State, log: seq<string>, v: View, top: nat, end: nat)
    requires Tracks(h, log, v) && v.top <= top < v.end <= end <= |log|
    ensures v.end - top <= end - top
    ensures Tracks(Scrolled(h, log[top..end], v.end - top), log, v.(top := top, end := end))
  {
    hide Cost;
    OverwriteTracks(h, log, v, top, end);
    TrimTracks(Overwrite(h, log[top..end], v.end - top).(prev := log[top..end]), log, v.(top := top, end := end));
  }

  /** What one append of a window that slid forward reports and leaves behind. */
  lemma SlideTracks(h: State, log: seq<string>, v: View, top: nat, end: nat)
    requires Tracks(h, log, v) && Slides(log, v, top, end) && TextDistinct(log[v.top..end])
    ensures var r := AppendStable(h, log[top..end]);
      && !r.gap
      && r.shift == top - v.top
      && r.added == end - v.end
      && Tracks(r.state, log, v.(top := top, end := end))
  {
    hide Cost, AppendStable, Trim, Overwrite, Commit, FindShift;
    if v.top == v.end {
      FirstScreenTracks(h, log, v, end);
      FirstAppend(h, log[top..end]);
    } else {
      FindsTrueShift(log, v, top, end);
      ScrolledTracks(h, log, v, top, end);
      AlignedAppend(h, log[top..end], top - v.top);
    }
  }

  // ---- One screen that jumped ----

  lemma NothingSharedDoesNotFit(log: seq<string>, v: View, top: nat, end: nat, s: nat)
    requires Jumps(log, v, top, end) && s < v.end - v.top
    ensures !FitsAt(log[v.top..v.end], log[top..end], s)
  {
    hide Blank, TextLines, Hits;
    var overlap, stable := log[v.top..v.end][s..], log[top..end];
    if |overlap| <= |stable| {
      var n := Window(overlap);
      CountsMean(overlap, stable, n);
      forall i | 0 <= i < n && !Blank(overlap[i])
        ensures overlap[i] != stable[i]
      {
        assert overlap[i] == log[v.top + s + i] && stable[i] == log[top + i];
      }
    }
  }

  /** What one append of a window that shares nothing with the last one reports and leaves behind. */
  lemma JumpTracks(h: State, log: seq<string>, v: View, top: nat, end: nat)
    requires Tracks(h, log, v) && Jumps(log, v, top, end)
    ensures var r := AppendStable(h, log[top..end]);
      && r.gap
      && r.shift == v.end - v.top
      && r.added == end - top
      && Tracks(r.state, log, v.(top := top, end := end))
  {
    hide Cost, AppendStable, Trim, FindShift, FitsAt;
    var stable := log[top..end];
    forall s: nat | 0 <= s < |h.prev|
      ensures !FitsAt(h.prev, stable, s)
    {
      NothingSharedDoesNotFit(log, v, top, end, s);
    }
    UnalignedAppend(h, stable);
    var h1 := Commit(h, [GAP_MARKER] + stable).(prev := stable);
    assert [GAP_MARKER] + stable == log[v.end..end];
    assert h1.committed == log[Base(h, v)..end] by {
      SlicesJoin(log, Base(h, v), v.end, end);
    }
    TrimTracks(h1, log, v.(top := top, end := end));
  }

  lemma MarkTracks(h: State, log: seq<string>, v: View)
    requires Tracks(h, log, v)
    ensures Tracks(Mark(h), log, v.(mark := v.end))
  {
  }

  // ---- Whole runs ----

  /** A full screen over the window log[top..end], a screen of at most LIVE_LINES lines, or a mark. */
  datatype Op =
    | Screen(top: nat, end: nat, live: seq<string>)
    | Short(lines: seq<string>)
    | Message

  ghost predicate Legal(log: seq<string>, v: View, op: Op)
  {
    match op
    case Screen(top, end, live) => |live| == LIVE_LINES && Follows(log, v, top, end)
    case Short(lines) => |lines| <= LIVE_LINES
    case Message => true
  }

  ghost function NextView(v: View, op: Op): View
  {
    match op
    case Screen(top, end, _) => v.(top := top, end := end)
    case Short(_) => v
    case Message => v.(mark := v.end)
  }

  ghost predicate LegalRun(log: seq<string>, v: View, ops: seq<Op>)
    decreases ops
  {
    ops == [] || (Legal(log, v, ops[0]) && LegalRun(log, NextView(v, ops[0]), ops[1..]))
  }

  ghost function EndView(v: View, ops: seq<Op>): View
    decreases ops
  {
    if ops == [] then v else EndView(NextView(v, ops[0]), ops[1..])
  }

  /** The lines on the screen. */
  ghost function Shown(log: seq<string>, op: Op): seq<string>
    requires op.Screen? ==> op.top <= op.end <= |log|
  {
    match op
    case Screen(top, end, live) => log[top..end] + live
    case Short(lines) => lines
    case Message => []
  }

  ghost function Perform(h: State, log: seq<string>, op: Op): State
    requires op.Screen? ==> op.top <= op.end <= |log|
  {
    if op.Message? then Mark(h) else Append(h, Shown(log, op)).state
  }

  ghost function Run(h: State, log: seq<string>, v: View, ops: seq<Op>): State
    requires LegalRun(log, v, ops)
    decreases ops
  {
    if ops == [] then h else Run(Perform(h, log, ops[0]), log, NextView(v, ops[0]), ops[1..])
  }

  /** The bottom part of the last screen, after one operation. */
  ghost function LiveAfter(live: seq<string>, op: Op): seq<string>
  {
    match op
    case Screen(_, _, shown) => shown
    case Short(lines) => lines
    case Message => live
  }

  ghost function LiveEnd(live: seq<string>, ops: seq<Op>): seq<string>
    decreases ops
  {
    if ops == [] then live else LiveEnd(LiveAfter(live, ops[0]), ops[1..])
  }

  lemma ScreenParts(log: seq<string>, top: nat, end: nat, live: seq<string>)
    requires top < end <= |log| && |live| == LIVE_LINES
    ensures StablePart(log[top..end] + live) == log[top..end]
    ensures LivePart(log[top..end] + live) == live
  {
  }

  lemma StepTracks(h: State, log: seq<string>, v: View, op: Op)
    requires Tracks(h, log, v) && Legal(log, v, op)
    ensures Tracks(Perform(h, log, op), log, NextView(v, op))
    ensures Perform(h, log, op).tail == LiveAfter(h.tail, op)
  {
    hide Cost;
    match op
    case Screen(top, end, live) =>
      ScreenParts(log, top, end, live);
      var h0 := h.(tail := live);
      assert Tracks(h0, log, v);
      if top > v.end {
        JumpTracks(h0, log, v, top, end);
      } else {
        SlideTracks(h0, log, v, top, end);
      }
      AppendKeepsTail(h0, log[top..end]);
    case Short(lines) =>
    case Message => MarkTracks(h, log, v);
  }

  lemma AppendKeepsTail(h: State, stable: seq<string>)
    requires stable != []
    ensures AppendStable(h, stable).state.tail == h.tail
  {
  }

  /**
   Over any run of screens that slide or jump, short screens and marks, committed is the log from a
   base to the end of the last window, however much the caps dropped in between.
   */
  lemma {:induction false} RunTracks(h: State, log: seq<string>, v: View, ops: seq<Op>)
    requires Tracks(h, log, v) && LegalRun(log, v, ops)
    ensures Tracks(Run(h, log, v, ops), log, EndView(v, ops))
    ensures Run(h, log, v, ops).tail == LiveEnd(h.tail, ops)
    decreases ops
  {
    hide Cost;
    if ops != [] {
      StepTracks(h, log, v, ops[0]);
      RunTracks(Perform(h, log, ops[0]), log, NextView(v, ops[0]), ops[1..]);
    }
  }

  /** A new history tracks the log from the first line its first screen will show. */
  lemma EmptyTracks(log: seq<string>, first: nat)
    requires first <= |log|
    ensures Tracks(EMPTY, log, View(first, first, first, -1))
  {
  }

  lemma LinesWhileTracking(h: State, log: seq<string>, v: View)
    requires Tracks(h, log, v)
    ensures var base := Base(h, v);
      && 0 <= base <= v.end <= |log| && Start(v) <= v.end
      && Lines(h) == (if Start(v) < base then [GAP_MARKER] + log[base..v.end] else log[Start(v)..v.end]) + h.tail
  {
    hide Cost;
    var base := Base(h, v);
    if Start(v) < base || v.mark < 0 {
      assert h.committed[0..] == log[base..v.end];
    } else {
      assert h.committed[v.mark - base..] == log[v.mark..v.end];
    }
  }

  /**
   What a reader gets after any run: the log from the mark, or from the oldest line kept when the
   caps dropped lines after the mark, up to the end of the screen, with one gap marker between two
   screens that share nothing; a gap marker in front exactly when lines were dropped.
   */
  lemma LinesRefineLog(log: seq<string>, first: nat, ops: seq<Op>)
    requires first <= |log|
    requires LegalRun(log, View(first, first, first, -1), ops)
    ensures var v0 := View(first, first, first, -1);
      var h, v := Run(EMPTY, log, v0, ops), EndView(v0, ops);
      var base := Base(h, v);
      && 0 <= base <= v.end <= |log| && Start(v) <= v.end
      && Lines(h) == (if Start(v) < base then [GAP_MARKER] + log[base..v.end] else log[Start(v)..v.end])
                     + LiveEnd([], ops)
  {
    hide Lines, Run, EndView, LiveEnd, LegalRun;
    var v0 := View(first, first, first, -1);
    EmptyTracks(log, first);
    RunTracks(EMPTY, log, v0, ops);
    LinesWhileTracking(Run(EMPTY, log, v0, ops), log, EndView(v0, ops));
  }
}
