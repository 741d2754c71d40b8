/**
 The history of one agent's screen, updated in place.
 */
module History {
  import opened Text
  import S = HistorySpec

  class History {
    var committed: seq<string>
    var bytes: int
    var prev: seq<string>
    var tail: seq<string>
    var mark: int
    var truncated: bool

    ghost function Value(): S.State
      reads this
    {
      S.State(committed, bytes, prev, tail, mark, truncated)
    }

    constructor ()
      ensures Value() == S.EMPTY
    {
      committed, bytes, prev, tail, mark, truncated := [], 0, [], [], -1, false;
    }

    /** Merges one screen snapshot. */
    method Append(lines: seq<string>) returns (added: int, shift: int, gap: bool)
      modifies this
      ensures S.Appended(Value(), added, shift, gap) == S.Append(old(Value()), lines)
    {
      hide S.Cost, S.Trim, S.Aligned;
      var stable, live := SplitLive(lines);
      tail := live;
      if stable == [] {
        return 0, 0, false;
      }
      if prev == [] {
        Commit(stable);
        prev := stable;
        Trim();
        return |stable|, 0, false;
      }
      shift := 0;
      while shift < |prev|
        invariant 0 <= shift <= |prev|
        invariant Value() == old(Value()).(tail := S.LivePart(lines))
        invariant S.FindShift(prev, stable, 0) == S.FindShift(prev, stable, shift)
      {
        var overlap := prev[shift..];
        if |overlap| <= |stable| {
          var ok := Aligned(overlap, stable);
          if ok {
            var keep, skip := |committed| - |overlap|, 0;
            if keep < 0 {
              keep, skip := 0, -keep;
            }
            Cut(keep);
            Commit(stable[skip..]);
            prev := stable;
            Trim();
            return |stable| - |overlap|, shift, false;
          }
        }
        shift := shift + 1;
      }
      S.CostConcat([S.GAP_MARKER], stable);
      assert committed + [S.GAP_MARKER] + stable == committed + ([S.GAP_MARKER] + stable);
      Commit([S.GAP_MARKER]);
      Commit(stable);
      prev := stable;
      Trim();
      return |stable|, shift, true;
    }

    /** A human message starts here. */
    method Mark()
      modifies this
      ensures Value() == S.Mark(old(Value()))
    {
      mark := |committed|;
      truncated := false;
    }

    method Marked() returns (m: bool)
      ensures m <==> Value().mark >= 0
    {
      m := mark >= 0;
    }

    method CommittedTail(n: int) returns (out: seq<string>)
      ensures out == S.CommittedTail(Value(), n)
    {
      if n <= 0 {
        return [];
      }
      var k := n;
      if k > |committed| {
        k := |committed|;
      }
      return committed[|committed| - k..];
    }

    method Lines() returns (out: seq<string>)
      ensures out == S.Lines(Value())
    {
      var start := 0;
      if mark > 0 {
        start := mark;
      }
      if start > |committed| {
        start := |committed|;
      }
      out := [];
      if truncated {
        out := out + [S.GAP_MARKER];
      }
      out := out + committed[start..];
      out := out + tail;
    }

    method Commit(lines: seq<string>)
      modifies this
      ensures Value() == S.Commit(old(Value()), lines)
    {
      var i := 0;
      while i < |lines|
        invariant 0 <= i <= |lines|
        invariant Value() == old(Value()).(bytes := bytes)
        invariant bytes + S.Cost(lines[i..]) == old(bytes) + S.Cost(lines)
      {
        assert lines[i..][1..] == lines[i + 1..];
        bytes := bytes + ByteLen(lines[i]) + 1;
        i := i + 1;
      }
      committed := committed + lines;
    }

    method Cut(n: nat)
      requires n <= |committed|
      modifies this
      ensures Value() == S.Cut(old(Value()), n)
    {
      var i := n;
      while i < |committed|
        invariant n <= i <= |committed|
        invariant Value() == old(Value()).(bytes := bytes)
        invariant bytes - S.Cost(committed[i..]) == old(bytes) - S.Cost(committed[n..])
      {
        assert committed[i..][1..] == committed[i + 1..];
        bytes := bytes - (ByteLen(committed[i]) + 1);
        i := i + 1;
      }
      committed := committed[..n];
    }

    /** Forgets as many of the oldest lines as the caps demand. */
    method Trim()
      modifies this
      ensures Value() == S.Trim(old(Value()))
    {
      var drop, rest := Excess(committed, bytes);
      if drop == 0 {
        return;
      }
      committed := committed[drop..];
      bytes := rest;
      if mark >= 0 {
        mark := mark - drop;
        if mark < 0 {
          mark := 0;
          truncated := true;
        }
      } else {
        truncated := true;
      }
    }
  }

  /** The loop of Trim: how many lines exceed the caps, and the bytes left without them. */
  method Excess(committed: seq<string>, bytes: int) returns (drop: nat, rest: int)
    ensures drop == S.DropCount(committed, bytes)
    ensures rest == bytes - S.Cost(committed[..drop])
  {
    drop, rest := 0, bytes;
    assert committed[0..] == committed;
    while drop < |committed| && (|committed| - drop > S.MAX_LINES || rest > S.MAX_BYTES)
      invariant 0 <= drop <= |committed|
      invariant rest + S.Cost(committed[..drop]) == bytes
      invariant S.DropCount(committed, bytes) == drop + S.DropCount(committed[drop..], rest)
    {
      assert committed[drop..][1..] == committed[drop + 1..];
      S.CostConcat(committed[..drop], [committed[drop]]);
      assert committed[..drop + 1] == committed[..drop] + [committed[drop]];
      rest := rest - (ByteLen(committed[drop]) + 1);
      drop := drop + 1;
    }
  }

  method SplitLive(lines: seq<string>) returns (stable: seq<string>, live: seq<string>)
    ensures stable == S.StablePart(lines) && live == S.LivePart(lines)
    ensures stable + live == lines
  {
    if |lines| <= S.LIVE_LINES {
      return [], lines;
    }
    var cut := |lines| - S.LIVE_LINES;
    return lines[..cut], lines[cut..];
  }

  method Aligned(overlap: seq<string>, stable: seq<string>) returns (ok: bool)
    requires |overlap| <= |stable|
    ensures ok == S.Aligned(overlap, stable)
  {
    hide IsSpace;
    var window: nat := |overlap|;
    if window > S.ANCHOR_WINDOW {
      window := S.ANCHOR_WINDOW;
    }
    var text, hits := 0, 0;
    for i := 0 to window
      invariant text == S.TextLines(overlap, i)
      invariant hits == S.Hits(overlap, stable, i)
    {
      var trimmed := TrimSpace(overlap[i]);
      BlankIsTrimmedAway(overlap[i]);
      if trimmed != "" {
        text := text + 1;
        if overlap[i] == stable[i] {
          hits := hits + 1;
        }
      }
    }
    if text == 0 {
      return false;
    }
    var need := S.ANCHOR_LINES;
    if text < need {
      need := text;
    }
    return hits >= need;
  }
}
