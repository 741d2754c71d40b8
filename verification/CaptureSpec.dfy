/**
 What the capture keeps per agent, and the live stream it publishes.
 */
module CaptureSpec {
  import opened Text
  import opened Agents
  import opened HistorySpec
  import opened HistoryLog

  // ---- Screens as text ----

  /** strings.Split on newlines. */
  function Split(text: string): (lines: seq<string>)
    ensures lines != []
  {
    if text == "" then [""]
    else if text[0] == '\n' then [""] + Split(text[1..])
    else
      var rest := Split(text[1..]);
      [[text[0]] + rest[0]] + rest[1..]
  }

  /** A line without trailing blanks, tabs and carriage returns. */
  function Normalized(line: string): string
  {
    if line != "" && line[|line| - 1] in {' ', '\t', '\r'} then Normalized(line[..|line| - 1]) else line
  }

  function NormalizedAll(lines: seq<string>): seq<string>
  {
    if lines == [] then [] else [Normalized(lines[0])] + NormalizedAll(lines[1..])
  }

  function ScreenLines(text: string): seq<string>
  {
    NormalizedAll(Split(text))
  }

  // ---- Merging one screen ----

  /** The history of one agent and the text of the last screen merged into it. */
  datatype Feed = Feed(history: State, last: Option<string>)

  /** The feed after a screen, with the lines it publishes. */
  datatype Merged = Merged(feed: Feed, lines: seq<string>)

  function Merge(f: Feed, text: string): Merged
  {
    if f.last == Some(text) then Merged(f, [])
    else
      var r := Append(f.history, ScreenLines(text));
      var lines := CommittedTail(r.state, r.added);
      Merged(Feed(r.state, Some(text)), if r.gap then [GAP_MARKER] + lines else lines)
  }

  // ---- The stream of a run ----

  /** These lines alone exceed neither cap. */
  predicate Fits(lines: seq<string>)
  {
    WithinCaps(lines, Cost(lines))
  }

  /** The text read for each operation of a run; a message reads nothing. */
  datatype Shot = Shot(op: Op, text: string)

  ghost predicate HasText(lines: seq<string>)
  {
    exists i :: 0 <= i < |lines| && !Blank(lines[i])
  }

  /** The log position from which the next window adds lines of its own, after a gap marker if it jumped. */
  ghost function NewFrom(v: View, next: View): nat
  {
    if next.top > v.end then next.top else v.end
  }

  ghost predicate LegalShots(log: seq<string>, v: View, shots: seq<Shot>)
    decreases shots
  {
    shots == []
    || (var op := shots[0].op;
        && Legal(log, v, op)
        && (!op.Message? ==> ScreenLines(shots[0].text) == Shown(log, op))
        && (op.Screen? && op.top > v.end ==> HasText(log[op.top..op.end]))
        && LegalShots(log, NextView(v, op), shots[1..]))
  }

  ghost function EndOfShots(v: View, shots: seq<Shot>): View
    decreases shots
  {
    if shots == [] then v else EndOfShots(NextView(v, shots[0].op), shots[1..])
  }

  /** One operation on the feed. */
  ghost function Take(f: Feed, shot: Shot): Merged
  {
    if shot.op.Message? then Merged(f.(history := Mark(f.history)), []) else Merge(f, shot.text)
  }

  ghost function EndFeed(f: Feed, shots: seq<Shot>): Feed
    decreases shots
  {
    if shots == [] then f else EndFeed(Take(f, shots[0]).feed, shots[1..])
  }

  /** Everything published, one operation after the other. */
  ghost function Stream(f: Feed, shots: seq<Shot>): seq<string>
    decreases shots
  {
    if shots == [] then [] else Take(f, shots[0]).lines + Stream(Take(f, shots[0]).feed, shots[1..])
  }

  /** The lines each screen adds to the log fit both caps by themselves. */
  ghost predicate NewLinesFit(log: seq<string>, v: View, shots: seq<Shot>)
    requires LegalShots(log, v, shots) && v.end <= |log|
    decreases shots
  {
    shots == []
    || (var next := NextView(v, shots[0].op);
        && NewFrom(v, next) <= next.end <= |log| && Fits(log[NewFrom(v, next)..next.end])
        && NewLinesFit(log, next, shots[1..]))
  }

  /** The last text merged shows the last window. */
  ghost predicate LastMatches(f: Feed, log: seq<string>, v: View)
    requires v.top <= v.end <= |log|
  {
    f.last.Some? && |ScreenLines(f.last.value)| > LIVE_LINES ==>
      v.top < v.end && StablePart(ScreenLines(f.last.value)) == log[v.top..v.end]
  }

  ghost predicate Following(f: Feed, log: seq<string>, v: View)
  {
    Tracks(f.history, log, v) && Valid(f.history) && LastMatches(f, log, v)
  }

  /** trim keeps a suffix that fits both caps. */
  lemma {:induction false} TrimKeepsFittingSuffix(committed: seq<string>, n: nat)
    requires n <= |committed| && Fits(Last(committed, n))
    ensures DropCount(committed, Cost(committed)) <= |committed| - n
  {
    if committed != [] && !Fits(committed) {
      assert Last(committed, |committed|) == committed;
      if n < |committed| {
        LastOfDrop(committed, 1, n);
        TrimKeepsFittingSuffix(committed[1..], n);
      }
    }
  }

  lemma SuffixFits(kept: seq<string>, n: nat)
    requires n <= |kept| && Fits(kept)
    ensures Fits(Last(kept, n))
  {
    hide Cost;
    CostSplit(kept, |kept| - n);
  }

  /** All the new lines came out, exactly when they fit the caps by themselves. */
  ghost predicate PublishedOrLost(out: seq<string>, added: seq<string>)
  {
    if Fits(added) then out == added else |out| < |added|
  }

  /** The gap marker of a jump came out, and so did the lines after it when they fit. */
  ghost predicate Publishes(out: seq<string>, log: seq<string>, v: View, next: View)
    requires v.end <= NewFrom(v, next) <= next.end <= |log|
  {
    var marker := log[v.end..NewFrom(v, next)];
    && |marker| <= |out| && out[..|marker|] == marker
    && PublishedOrLost(out[|marker|..], log[NewFrom(v, next)..next.end])
  }

  lemma NothingPublished()
    ensures PublishedOrLost([], [])
  {
  }

  lemma TailIsLast(h: State, n: nat)
    ensures CommittedTail(h, n) == if n <= |h.committed| then Last(h.committed, n) else h.committed
  {
  }

  /** After trim the last lines are all there exactly when they fit the caps by themselves. */
  lemma TrimPublishes(h: State, n: nat)
    requires Consistent(h) && n <= |h.committed|
    ensures PublishedOrLost(CommittedTail(Trim(h), n), Last(h.committed, n))
  {
    hide Cost, Fits, DropCount, Trim, Last, CommittedTail;
    var drop := DropCount(h.committed, h.bytes);
    TrimDrops(h);
    TailIsLast(Trim(h), n);
    TrimRestoresCaps(h);
    FitsMeansCaps(Trim(h));
    if drop + n <= |h.committed| {
      LastOfDrop(h.committed, drop, n);
      SuffixFits(Trim(h).committed, n);
    } else if Fits(Last(h.committed, n)) {
      TrimKeepsFittingSuffix(h.committed, n);
    }
  }

  lemma FitsMeansCaps(h: State)
    requires Valid(h)
    ensures Fits(h.committed)
  {
    hide Cost;
  }

  lemma FirstScreenEnds(h: State, log: seq<string>, v: View, end: nat)
    requires Tracks(h, log, v) && Valid(h) && v.top == v.end < end <= |log|
    ensures var u := Commit(h, log[v.top..end]).(prev := log[v.top..end]);
      Consistent(u) && end - v.end <= |u.committed| && Last(u.committed, end - v.end) == log[v.end..end]
  {
    hide Cost;
    var stable := log[v.top..end];
    CommitKeepsConsistent(h, [], stable);
    assert [] + stable == stable;
  }

  lemma ScrolledEnds(h: State, log: seq<string>, v: View, top: nat, end: nat)
    requires Tracks(h, log, v) && Valid(h) && v.top <= top < v.end <= end <= |log|
    ensures v.end - top <= end - top
    ensures var u := Overwrite(h, log[top..end], v.end - top).(prev := log[top..end]);
      Consistent(u) && end - v.end <= |u.committed| && Last(u.committed, end - v.end) == log[v.end..end]
  {
    hide Cost, Overwrite, Consistent;
    OverwriteKeepsConsistent(h, log[top..end], v.end - top);
    OverwriteTracks(h, log, v, top, end);
    SliceOfSlice(log, Base(h, v), end, v.end - Base(h, v), end - Base(h, v));
  }

  /**
   A screen that slid forward publishes the log lines it added, exactly when those lines fit the
   caps by themselves; otherwise some are lost.
   */
  lemma SlidePublishes(h: State, log: seq<string>, v: View, top: nat, end: nat)
    requires Tracks(h, log, v) && Valid(h) && Slides(log, v, top, end) && TextDistinct(log[v.top..end])
    ensures var r := AppendStable(h, log[top..end]);
      PublishedOrLost(CommittedTail(r.state, r.added), log[v.end..end])
  {
    hide AppendStable, Trim, Overwrite, Commit, FindShift, CommittedTail, PublishedOrLost, Consistent, Valid, Last;
    var stable := log[top..end];
    if v.top == v.end {
      FirstScreenEnds(h, log, v, end);
      TrimPublishes(Commit(h, stable).(prev := stable), end - v.end);
      assert log[v.top..v.end] == [];
      FirstAppend(h, stable);
    } else {
      FindsTrueShift(log, v, top, end);
      ScrolledEnds(h, log, v, top, end);
      TrimPublishes(Overwrite(h, stable, v.end - top).(prev := stable), end - v.end);
      AlignedAppend(h, stable, top - v.top);
    }
  }

  /** A screen that shares nothing with the last one publishes its stable part, exactly when that fits. */
  lemma JumpPublishes(h: State, log: seq<string>, v: View, top: nat, end: nat)
    requires Tracks(h, log, v) && Valid(h) && Jumps(log, v, top, end)
    ensures var r := AppendStable(h, log[top..end]);
      r.gap && PublishedOrLost(CommittedTail(r.state, r.added), log[top..end])
  {
    hide AppendStable, Trim, CommittedTail, PublishedOrLost, FitsAt, Cost;
    var stable := log[top..end];
    var h1 := Commit(h, [GAP_MARKER] + stable).(prev := stable);
    forall s: nat | 0 <= s < |h.prev|
      ensures !FitsAt(h.prev, stable, s)
    {
      NothingSharedDoesNotFit(log, v, top, end, s);
    }
    UnalignedAppend(h, stable);
    CommitKeepsConsistent(h, [GAP_MARKER], stable);
    assert Last(h1.committed, |stable|) == stable;
    TrimPublishes(h1, |stable|);
  }

  /** A window that shows the same lines is the same window. */
  lemma SameWindow(log: seq<string>, v: View, top: nat, end: nat)
    requires Positions(log, v) && v.top < v.end && Slides(log, v, top, end) && TextDistinct(log[v.top..end])
    requires log[v.top..v.end] == log[top..end]
    ensures top == v.top && end == v.end
  {
    assert |log[v.top..v.end]| == |log[top..end]|;
    var i :| top <= i < v.end && i < top + ANCHOR_WINDOW && !Blank(log[i]);
    assert log[top..end][i - top] == log[i];
    assert log[v.top..v.end][i - top] == log[v.top + (i - top)];
    var window := log[v.top..end];
    assert window[i - v.top] == log[i] && window[i - top] == log[v.top + (i - top)];
  }

  lemma ScreenFollows(f: Feed, log: seq<string>, v: View, shot: Shot)
    requires Following(f, log, v) && shot.op.Screen? && f.last != Some(shot.text)
    requires Legal(log, v, shot.op) && ScreenLines(shot.text) == Shown(log, shot.op)
    ensures var next := NextView(v, shot.op);
      && Following(Take(f, shot).feed, log, next)
      && v.end <= NewFrom(v, next) <= next.end <= |log|
      && Publishes(Take(f, shot).lines, log, v, next)
  {
    hide Cost, Slides, Jumps, TextDistinct, Valid, Follows, Tracks, AppendStable, PublishedOrLost, Take, CommittedTail;
    var Screen(top, end, live) := shot.op;
    TracksBounds(f.history, log, v);
    FollowedBounds(log, v, top, end);
    ScreenParts(log, top, end, live);
    AppendKeepsValid(f.history, ScreenLines(shot.text));
    StepTracks(f.history, log, v, shot.op);
    TailIrrelevant(f.history, log, v, live);
    TakenLines(f, log, shot);
    var h0 := f.history.(tail := live);
    if top > v.end {
      JumpPublishes(h0, log, v, top, end);
      var r := AppendStable(h0, log[top..end]);
      MarkerOut(log, v, top, end, CommittedTail(r.state, r.added));
    } else {
      SlideTracks(h0, log, v, top, end);
      SlidePublishes(h0, log, v, top, end);
      assert log[v.end..v.end] == [];
    }
  }

  lemma TracksBounds(h: State, log: seq<string>, v: View)
    requires Tracks(h, log, v)
    ensures v.top <= v.end <= |log|
  {
  }

  /** What a screen not seen before does, in terms of its stable part. */
  lemma TakenLines(f: Feed, log: seq<string>, shot: Shot)
    requires shot.op.Screen? && f.last != Some(shot.text) && shot.op.top < shot.op.end <= |log|
    requires |shot.op.live| == LIVE_LINES && ScreenLines(shot.text) == Shown(log, shot.op)
    ensures var r := AppendStable(f.history.(tail := shot.op.live), log[shot.op.top..shot.op.end]);
      var lines := CommittedTail(r.state, r.added);
      && r == Append(f.history, ScreenLines(shot.text))
      && Take(f, shot) == Merged(Feed(r.state, Some(shot.text)), if r.gap then [GAP_MARKER] + lines else lines)
  {
    hide Cost, AppendStable, CommittedTail, ScreenLines;
    ScreenParts(log, shot.op.top, shot.op.end, shot.op.live);
  }

  lemma MarkerOut(log: seq<string>, v: View, top: nat, end: nat, lines: seq<string>)
    requires v.end < top <= end <= |log| && log[v.end..top] == [GAP_MARKER]
    requires PublishedOrLost(lines, log[top..end])
    ensures Publishes([GAP_MARKER] + lines, log, v, v.(top := top, end := end))
  {
    hide PublishedOrLost;
    assert ([GAP_MARKER] + lines)[1..] == lines;
  }

  lemma TailIrrelevant(h: State, log: seq<string>, v: View, live: seq<string>)
    requires Valid(h) && Tracks(h, log, v)
    ensures Valid(h.(tail := live)) && Tracks(h.(tail := live), log, v)
  {
    hide Cost;
  }

  /** Where the next window lies, whether it slid or jumped. */
  lemma FollowedBounds(log: seq<string>, v: View, top: nat, end: nat)
    requires Follows(log, v, top, end) && v.top <= v.end
    ensures top < end <= |log| && v.end <= end
    ensures if top > v.end then Jumps(log, v, top, end) && log[v.end..top] == [GAP_MARKER]
            else Slides(log, v, top, end) && TextDistinct(log[v.top..end])
  {
  }

  lemma ShortFollows(f: Feed, log: seq<string>, v: View, shot: Shot)
    requires Following(f, log, v) && shot.op.Short? && f.last != Some(shot.text)
    requires Legal(log, v, shot.op) && ScreenLines(shot.text) == shot.op.lines
    ensures Following(Take(f, shot).feed, log, v) && Take(f, shot).lines == []
  {
    hide Cost, AppendStable, Tracks;
    AppendKeepsValid(f.history, shot.op.lines);
    StepTracks(f.history, log, v, shot.op);
  }

  lemma SameScreen(f: Feed, log: seq<string>, v: View, shot: Shot)
    requires Following(f, log, v) && shot.op.Screen? && f.last == Some(shot.text)
    requires Legal(log, v, shot.op) && ScreenLines(shot.text) == Shown(log, shot.op)
    requires shot.op.top > v.end ==> HasText(log[shot.op.top..shot.op.end])
    ensures NextView(v, shot.op) == v
  {
    hide Cost, Slides, Jumps, TextDistinct, HasText, Blank;
    var Screen(top, end, live) := shot.op;
    FollowedBounds(log, v, top, end);
    ScreenParts(log, top, end, live);
    if top > v.end {
      SameTextDoesNotJump(log, v, top, end);
    } else {
      SameWindow(log, v, top, end);
    }
  }

  lemma SameTextDoesNotJump(log: seq<string>, v: View, top: nat, end: nat)
    requires Jumps(log, v, top, end) && HasText(log[top..end])
    ensures log[v.top..v.end] != log[top..end]
  {
    hide Blank;
    var i :| 0 <= i < |log[top..end]| && !Blank(log[top..end][i]);
    var last, shown := log[v.top..v.end], log[top..end];
    if |last| == |shown| {
      assert last[i] == log[v.top + i] && shown[i] == log[top + i];
      assert last[i] != shown[i];
    }
  }

  lemma MessageFollows(f: Feed, log: seq<string>, v: View)
    requires Following(f, log, v)
    ensures Following(f.(history := Mark(f.history)), log, v.(mark := v.end))
  {
    hide Cost;
    MarkTracks(f.history, log, v);
  }

  lemma ShotFollows(f: Feed, log: seq<string>, v: View, shot: Shot)
    requires Following(f, log, v) && Legal(log, v, shot.op)
    requires !shot.op.Message? ==> ScreenLines(shot.text) == Shown(log, shot.op)
    requires shot.op.Screen? && shot.op.top > v.end ==> HasText(log[shot.op.top..shot.op.end])
    ensures var next := NextView(v, shot.op);
      && Following(Take(f, shot).feed, log, next)
      && v.end <= NewFrom(v, next) <= next.end <= |log|
      && Publishes(Take(f, shot).lines, log, v, next)
  {
    hide Cost, Append, Valid, PublishedOrLost, Legal, HasText;
    NothingPublished();
    assert v.end <= |log| && log[v.end..v.end] == [];
    if shot.op.Message? {
      MessageFollows(f, log, v);
    } else if f.last == Some(shot.text) {
      if shot.op.Screen? {
        SameScreen(f, log, v, shot);
      }
    } else if shot.op.Short? {
      ShortFollows(f, log, v, shot);
    } else {
      ScreenFollows(f, log, v, shot);
    }
  }

  /**
   The live stream of any run of screens that slide or jump, short screens and marks emits every log
   line exactly once and in order, provided the new lines of each screen fit the caps.
   */
  lemma {:induction false} StreamEmitsLog(f: Feed, log: seq<string>, v: View, shots: seq<Shot>)
    requires Following(f, log, v) && LegalShots(log, v, shots)
    requires NewLinesFit(log, v, shots)
    ensures v.end <= EndOfShots(v, shots).end <= |log|
    ensures Stream(f, shots) == log[v.end..EndOfShots(v, shots).end]
    ensures Following(EndFeed(f, shots), log, EndOfShots(v, shots))
    decreases shots
  {
    hide Cost, Take, HasText;
    if shots != [] {
      var next := NextView(v, shots[0].op);
      ShotFollows(f, log, v, shots[0]);
      PublishesWhole(Take(f, shots[0]).lines, log, v, next);
      StreamEmitsLog(Take(f, shots[0]).feed, log, next, shots[1..]);
      var end := EndOfShots(next, shots[1..]).end;
      SlicesJoin(log, v.end, next.end, end);
    }
  }

  lemma PublishesWhole(out: seq<string>, log: seq<string>, v: View, next: View)
    requires v.end <= NewFrom(v, next) <= next.end <= |log|
    requires Publishes(out, log, v, next) && Fits(log[NewFrom(v, next)..next.end])
    ensures out == log[v.end..next.end]
  {
    hide Fits;
    SlicesJoin(log, v.end, NewFrom(v, next), next.end);
    assert out == out[..NewFrom(v, next) - v.end] + out[NewFrom(v, next) - v.end..];
  }

  /**
   For arbitrary screens: what a merge publishes is the end of committed, headed by a gap marker
   when the screen could not be aligned.
   */
  lemma MergePublishesTail(f: Feed, text: string)
    requires Valid(f.history)
    ensures var m := Merge(f, text);
      && Valid(m.feed.history)
      && (f.last == Some(text) ==> m.lines == [])
      && (f.last != Some(text) ==>
            var r := Append(f.history, ScreenLines(text));
            var added := if r.gap then m.lines[1..] else m.lines;
            && (r.gap ==> m.lines != [] && m.lines[0] == GAP_MARKER)
            && |added| <= |r.state.committed|
            && added == r.state.committed[|r.state.committed| - |added|..]
            && |added| == if r.added <= |r.state.committed| then r.added else |r.state.committed|)
  {
    hide Cost;
    AppendKeepsValid(f.history, ScreenLines(text));
    AddedNotNegative(f.history, ScreenLines(text));
  }

  lemma AddedNotNegative(h: State, lines: seq<string>)
    ensures Append(h, lines).added >= 0
  {
  }

  // ---- Marks from status events ----

  /** How the capture sees one agent: its status, when it left working, and its feed. */
  datatype Watch = Watch(status: Option<Status>, left: Option<int>, feed: Feed)

  datatype Seen = Seen(status: Status, at: int)

  function ObserveStatus(w: Watch, ev: Seen, minAway: int): Watch
  {
    var seen := w.(status := Some(ev.status));
    var wasWorking := w.status == Some(Working);
    if ev.status == Working && !wasWorking then
      var away := if w.left.Some? then ev.at - w.left.value else minAway;
      if w.status.Some? && away < minAway then seen.(left := None)
      else seen.(left := None, feed := w.feed.(history := Mark(w.feed.history)))
    else if wasWorking && ev.status != Working then seen.(left := Some(ev.at))
    else seen
  }

  function ObserveAll(w: Watch, evs: seq<Seen>, minAway: int): Watch
    decreases evs
  {
    if evs == [] then w else ObserveAll(ObserveStatus(w, evs[0], minAway), evs[1..], minAway)
  }

  lemma {:induction false} AwayKeepsClock(w: Watch, evs: seq<Seen>, minAway: int)
    requires w.status != Some(Working)
    requires forall i :: 0 <= i < |evs| ==> evs[i].status != Working
    ensures var w' := ObserveAll(w, evs, minAway);
      && w'.status != Some(Working) && w'.left == w.left && w'.feed == w.feed
      && (w.status.Some? || evs != [] ==> w'.status.Some?)
    decreases evs
  {
    if evs != [] {
      AwayKeepsClock(ObserveStatus(w, evs[0], minAway), evs[1..], minAway);
    }
  }

  /**
   A pause outside working, however many status events it shows, counts as a human message
   exactly when it lasted minAway; shorter flaps leave the history alone.
   */
  lemma PauseMarksWhenLong(w: Watch, pause: seq<Seen>, back: int, minAway: int)
    requires w.status == Some(Working) && pause != []
    requires forall i :: 0 <= i < |pause| ==> pause[i].status != Working
    ensures var w' := ObserveStatus(ObserveAll(w, pause, minAway), Seen(Working, back), minAway);
      && w'.status == Some(Working)
      && w'.feed == (if back - pause[0].at >= minAway then w.feed.(history := Mark(w.feed.history)) else w.feed)
  {
    AwayKeepsClock(ObserveStatus(w, pause[0], minAway), pause[1..], minAway);
  }

  /** An agent that was never seen working is marked when it starts, seen before or not. */
  lemma FirstWorkMarks(w: Watch, before: seq<Seen>, start: int, minAway: int)
    requires w.status != Some(Working) && w.left.None?
    requires forall i :: 0 <= i < |before| ==> before[i].status != Working
    ensures var w' := ObserveStatus(ObserveAll(w, before, minAway), Seen(Working, start), minAway);
      w' == Watch(Some(Working), None, w.feed.(history := Mark(w.feed.history)))
  {
    AwayKeepsClock(w, before, minAway);
  }

  // ---- A screen that is not published whole ----

  function Join(lines: seq<string>): string
    requires lines != []
  {
    if |lines| == 1 then lines[0] else lines[0] + ['\n'] + Join(lines[1..])
  }

  lemma {:induction false} SplitFirst(line: string, rest: string)
    requires '\n' !in line
    ensures Split(line) == [line]
    ensures Split(line + ['\n'] + rest) == [line] + Split(rest)
  {
    var text := line + ['\n'] + rest;
    if line == "" {
      assert text[1..] == rest;
    } else {
      SplitFirst(line[1..], rest);
      assert text[1..] == line[1..] + ['\n'] + rest;
      assert [line[0]] + line[1..] == line;
    }
  }

  lemma {:induction false} SplitOfJoin(lines: seq<string>)
    requires lines != [] && forall i :: 0 <= i < |lines| ==> '\n' !in lines[i]
    ensures Split(Join(lines)) == lines
  {
    if |lines| == 1 {
      SplitFirst(lines[0], "");
    } else {
      SplitFirst(lines[0], Join(lines[1..]));
      SplitOfJoin(lines[1..]);
      assert [lines[0]] + lines[1..] == lines;
    }
  }

  lemma {:induction false} NormalizedKept(lines: seq<string>)
    requires forall i :: 0 <= i < |lines| ==> Normalized(lines[i]) == lines[i]
    ensures NormalizedAll(lines) == lines
  {
    hide Normalized;
    if lines != [] {
      NormalizedKept(lines[1..]);
      assert [lines[0]] + lines[1..] == lines;
    }
  }

  lemma {:induction false} ThreeBytesEach(s: string)
    requires forall i :: 0 <= i < |s| ==> 0x800 <= s[i] as int < 0x10000
    ensures ByteLen(s) == 3 * |s|
  {
    if s != "" {
      ThreeBytesEach(s[1..]);
    }
  }

  lemma {:induction false} EqualCosts(lines: seq<string>)
    requires forall i :: 0 <= i < |lines| ==> ByteLen(lines[i]) == 720
    ensures Cost(lines) == 721 * |lines|
  {
    hide ByteLen;
    if lines != [] {
      EqualCosts(lines[1..]);
    }
  }

  /** A first screen is published whole exactly when its stable part fits the caps. */
  lemma FirstScreenPublishes(text: string)
    requires StablePart(ScreenLines(text)) != []
    ensures PublishedOrLost(Merge(Feed(EMPTY, None), text).lines, StablePart(ScreenLines(text)))
  {
    hide Cost, ScreenLines, Trim, CommittedTail, PublishedOrLost, AppendStable, StablePart, LivePart;
    var lines := ScreenLines(text);
    var stable, h := StablePart(lines), EMPTY.(tail := LivePart(lines));
    FirstAppend(h, stable);
    EmptyIsValid();
    CommitKeepsConsistent(h, [], stable);
    assert [] + stable == stable;
    TrimPublishes(Commit(h, stable).(prev := stable), |stable|);
  }

  /** A rule across a terminal of 240 columns: 240 times the rune "─" of three bytes. */
  ghost predicate IsRule(line: string)
  {
    |line| == 240 && forall i :: 0 <= i < |line| ==> line[i] == '\U{2500}'
  }

  /** As many of them as one read asks for. */
  ghost predicate Ruled(lines: seq<string>)
  {
    |lines| == 400 && forall i :: 0 <= i < |lines| ==> IsRule(lines[i])
  }

  lemma RuleIsKept(line: string)
    requires IsRule(line)
    ensures '\n' !in line && Normalized(line) == line && ByteLen(line) == 720
  {
    ThreeBytesEach(line);
    hide ByteLen;
  }

  lemma RuledIsRead(lines: seq<string>)
    requires Ruled(lines)
    ensures ScreenLines(Join(lines)) == lines && Cost(StablePart(lines)) == 721 * 392
  {
    hide NormalizedAll, Normalized, Split, Join, IsRule, ByteLen;
    forall i | 0 <= i < |lines|
      ensures '\n' !in lines[i] && Normalized(lines[i]) == lines[i] && ByteLen(lines[i]) == 720
    {
      RuleIsKept(lines[i]);
    }
    SplitOfJoin(lines);
    NormalizedKept(lines);
    EqualCosts(StablePart(lines));
  }

  /** A first screen of them is over the cap on bytes, so it is not published whole. */
  lemma WideScreenIsCutShort()
    ensures var lines := Repeat(Repeat('\U{2500}', 240), 400);
      && ScreenLines(Join(lines)) == lines
      && |Merge(Feed(EMPTY, None), Join(lines)).lines| < |StablePart(lines)| == 392
  {
    hide ScreenLines, Merge, Join, Cost;
    var lines := Repeat(Repeat('\U{2500}', 240), 400);
    RuledIsRead(lines);
    FirstScreenPublishes(Join(lines));
  }
}
