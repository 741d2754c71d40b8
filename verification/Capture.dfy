/**
 The capture: one history per agent, the last screen merged into it, and the marks that status
 events make.
 */
module Capture {
  import opened Text
  import opened Agents
  import H = History
  import S = HistorySpec
  import C = CaptureSpec

  datatype EventKind = Appeared | Changed | Gone

  class Capture {
    var hist: map<string, H.History>
    var last: map<string, string>
    var status: map<string, Status>
    var left: map<string, int>
    const minAway: int

    /** No two agents share a history. */
    ghost predicate Valid()
      reads this
    {
      forall j, k :: j in hist && k in hist && j != k ==> hist[j] != hist[k]
    }

    ghost function Watched(key: string): C.Watch
      reads this, hist.Values
    {
      C.Watch(if key in status then Some(status[key]) else None,
              if key in left then Some(left[key]) else None,
              C.Feed(if key in hist then hist[key].Value() else S.EMPTY,
                     if key in last then Some(last[key]) else None))
    }

    constructor (minAway: int)
      ensures Valid() && hist == map[] && this.minAway == minAway
      ensures forall key :: Watched(key) == C.Watch(None, None, C.Feed(S.EMPTY, None))
    {
      hist, last, status, left := map[], map[], map[], map[];
      this.minAway := minAway;
    }

    /** The key's history, created on first use. */
    method HistoryOf(key: string) returns (h: H.History)
      requires Valid()
      modifies this
      ensures Valid() && key in hist && hist[key] == h
      ensures hist == old(hist)[key := h] && (key in old(hist) ==> h == old(hist)[key])
      ensures key !in old(hist) ==> fresh(h) && h.Value() == S.EMPTY
      ensures last == old(last) && status == old(status) && left == old(left)
    {
      if key in hist {
        return hist[key];
      }
      h := new H.History();
      hist := hist[key := h];
    }

    method MarkNow(key: string)
      requires Valid()
      modifies this, hist.Values
      ensures Valid()
      ensures last == old(last) && status == old(status) && left == old(left)
      ensures var before := old(Watched(key));
        Watched(key) == before.(feed := before.feed.(history := S.Mark(before.feed.history)))
      ensures forall k :: k != key ==> Watched(k) == old(Watched(k))
    {
      hide S.Mark;
      var h := HistoryOf(key);
      h.Mark();
    }

    /** A screen is merged once, however often it is read; returns the lines to publish. */
    method Merge(key: string, text: string) returns (lines: seq<string>)
      requires Valid()
      modifies this, hist.Values
      ensures Valid()
      ensures var before := old(Watched(key));
        Watched(key) == before.(feed := C.Merge(before.feed, text).feed)
        && lines == C.Merge(before.feed, text).lines
      ensures forall k :: k != key ==> Watched(k) == old(Watched(k))
    {
      hide S.Append, S.CommittedTail, C.ScreenLines;
      var h := HistoryOf(key);
      if key in last && last[key] == text {
        return [];
      }
      var added, shift, gap := h.Append(C.ScreenLines(text));
      last := last[key := text];
      lines := h.CommittedTail(added);
      if gap {
        lines := [S.GAP_MARKER] + lines;
      }
    }

    /**
     Merges a fresh screen and returns the history after the mark, whether there is a mark, and the
     lines to publish; without a screen nothing happens.
     */
    method Since(key: string, screen: Option<string>)
      returns (ok: bool, lines: seq<string>, marked: bool, published: seq<string>)
      requires Valid()
      modifies this, hist.Values
      ensures Valid() && ok == screen.Some?
      ensures var before := old(Watched(key));
        if screen.None? then Watched(key) == before && published == []
        else
          var m := C.Merge(before.feed, screen.value);
          && Watched(key) == before.(feed := m.feed)
          && lines == S.Lines(m.feed.history) && marked == (m.feed.history.mark >= 0)
          && published == m.lines
      ensures forall k :: k != key ==> Watched(k) == old(Watched(k))
    {
      hide C.Merge;
      if screen.None? {
        return false, [], false, [];
      }
      published := Merge(key, screen.value);
      var h := HistoryOf(key);
      lines := h.Lines();
      marked := h.Marked();
      ok := true;
    }

    method Forget(key: string)
      requires Valid()
      modifies this
      ensures Valid()
      ensures Watched(key) == C.Watch(None, None, C.Feed(S.EMPTY, None))
      ensures forall k :: k != key ==> Watched(k) == old(Watched(k))
    {
      hist := hist - {key};
      last := last - {key};
      status := status - {key};
      left := left - {key};
    }

    /** Folds one status event into the marks; a gone agent is forgotten. */
    method Observe(key: string, kind: EventKind, cur: Status, now: int)
      requires Valid()
      modifies this, hist.Values
      ensures Valid()
      ensures Watched(key) == if kind.Gone? then C.Watch(None, None, C.Feed(S.EMPTY, None))
                              else C.ObserveStatus(old(Watched(key)), C.Seen(cur, now), minAway)
      ensures forall k :: k != key ==> Watched(k) == old(Watched(k))
    {
      hide S.Mark;
      if kind.Gone? {
        Forget(key);
        return;
      }
      var known := key in status;
      var wasWorking := known && status[key] == Working;
      status := status[key := cur];
      if cur == Working && !wasWorking {
        var away := minAway;
        if key in left {
          away := now - left[key];
          left := left - {key};
        }
        if known && away < minAway {
          return;
        }
        MarkNow(key);
      } else if wasWorking && cur != Working {
        left := left[key := now];
      }
    }
  }
}
