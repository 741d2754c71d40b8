/**
 Splitting a message into Telegram-sized pieces, and clamping topic names. Lengths are in UTF-16
 code units (section 2.1 of RFC 2781).
 */
module Format {
  import opened Text

  const DEFAULT_TOPIC_NAME: string := "agent"
  const TOPIC_NAME_MAX: int := 128

  function RuneUnits(c: char): (n: nat)
    ensures 1 <= n <= 2
  {
    if c as int >= 0x10000 then 2 else 1
  }

  function Units(s: string): nat
  {
    if s == "" then 0 else Units(s[..|s| - 1]) + RuneUnits(s[|s| - 1])
  }

  lemma {:induction false} UnitsBounds(s: string)
    ensures |s| <= Units(s) <= 2 * |s|
  {
    if s != "" {
      UnitsBounds(s[..|s| - 1]);
    }
  }

  lemma {:induction false} UnitsConcat(s: string, t: string)
    ensures Units(s + t) == Units(s) + Units(t)
  {
    if t == "" {
      assert s + t == s;
    } else {
      assert (s + t)[..|s + t| - 1] == s + t[..|t| - 1];
      UnitsConcat(s, t[..|t| - 1]);
    }
  }

  // ---- The longest prefix that fits ----

  /** Scans from rune i on, with units already counted, for the first rune that does not fit. */
  function FitFrom(rs: string, max: int, i: nat, units: nat): (n: nat)
    requires i <= |rs|
    ensures i <= n <= |rs|
    decreases |rs| - i
  {
    if i == |rs| then i
    else if units + RuneUnits(rs[i]) > max && i > 0 then i
    else FitFrom(rs, max, i + 1, units + RuneUnits(rs[i]))
  }

  function Fit(rs: string, max: int): nat
  {
    FitFrom(rs, max, 0, 0)
  }

  lemma {:induction false} FitFromMeaning(rs: string, max: int, i: nat, units: nat)
    requires i <= |rs| && units == Units(rs[..i]) && (units <= max || i <= 1)
    ensures var n := FitFrom(rs, max, i, units);
      && (Units(rs[..n]) <= max || n <= 1)
      && (n < |rs| ==> n > 0 && Units(rs[..n + 1]) > max)
    decreases |rs| - i
  {
    if i < |rs| {
      assert rs[..i + 1][..i] == rs[..i];
      if !(units + RuneUnits(rs[i]) > max && i > 0) {
        FitFromMeaning(rs, max, i + 1, units + RuneUnits(rs[i]));
      }
    }
  }

  /**
   fitUTF16 answers the longest prefix of at most max units, but never an empty one: a single
   rune is kept even when it does not fit.
   */
  lemma FitMeaning(rs: string, max: int)
    ensures var n := Fit(rs, max);
      && n <= |rs|
      && (rs != "" ==> n > 0)
      && (Units(rs[..n]) <= max || n <= 1)
      && (n < |rs| ==> Units(rs[..n + 1]) > max)
  {
    assert rs[..0] == "";
    if max >= 0 {
      FitFromMeaning(rs, max, 0, 0);
    } else if rs != "" {
      assert rs[..1][..0] == "";
      FitFromMeaning(rs, max, 1, RuneUnits(rs[0]));
    }
  }

  /** The position of the last c, -1 without one. */
  function LastIndex(rs: string, c: char): (i: int)
    ensures -1 <= i < |rs|
  {
    if rs == "" then -1 else if rs[|rs| - 1] == c then |rs| - 1 else LastIndex(rs[..|rs| - 1], c)
  }

  // ---- Chunks ----

  /** Where the next piece of rest ends. */
  function CutPoint(rest: string, max: int): (cut: nat)
    requires rest != ""
    ensures cut <= |rest|
  {
    var n := Fit(rest, max);
    if n == |rest| then n
    else
      var nl := LastIndex(rest[..n], '\n');
      if nl > n / 2 then nl else n
  }

  /** What follows the piece, without the newline it was cut at. */
  function AfterCut(rest: string, cut: nat): string
    requires cut <= |rest|
  {
    if cut < |rest| && rest[cut] == '\n' then rest[cut + 1..] else rest[cut..]
  }

  lemma CutMeaning(rest: string, max: int)
    requires rest != ""
    ensures var cut := CutPoint(rest, max);
      && 0 < cut <= |rest|
      && (Units(rest[..cut]) <= max || cut == 1)
      && (cut == |rest| <==> Fit(rest, max) == |rest|)
      && |AfterCut(rest, cut)| < |rest|
  {
    FitMeaning(rest, max);
    var n, cut := Fit(rest, max), CutPoint(rest, max);
    if cut < n {
      assert rest[..n] == rest[..cut] + rest[cut..n];
      UnitsConcat(rest[..cut], rest[cut..n]);
      UnitsBounds(rest[cut..n]);
    }
  }

  function Pieces(rest: string, max: int): (out: seq<string>)
    requires rest != ""
    decreases |rest|
  {
    CutMeaning(rest, max);
    var cut := CutPoint(rest, max);
    var after := AfterCut(rest, cut);
    if cut == |rest| then [rest]
    else if after == "" then [rest[..cut]]
    else [rest[..cut]] + Pieces(after, max)
  }

  function Chunks(text: string, max: int): seq<string>
  {
    if text == "" then [] else if max <= 0 then [text] else Pieces(text, max)
  }

  /** The pieces put together again, with a newline after each piece that says so. */
  function Rejoin(pieces: seq<string>, newline: seq<bool>): string
    requires |pieces| == |newline|
  {
    if pieces == [] then ""
    else pieces[0] + (if newline[0] then "\n" else "") + Rejoin(pieces[1..], newline[1..])
  }

  ghost predicate PieceFits(p: string, max: int)
  {
    p != "" && (Units(p) <= max || |p| == 1)
  }

  lemma {:induction false} PiecesFitAndRejoin(rest: string, max: int) returns (newline: seq<bool>)
    requires rest != ""
    ensures forall i :: 0 <= i < |Pieces(rest, max)| ==> PieceFits(Pieces(rest, max)[i], max)
    ensures |newline| == |Pieces(rest, max)| && Rejoin(Pieces(rest, max), newline) == rest
    decreases |rest|
  {
    CutMeaning(rest, max);
    var cut := CutPoint(rest, max);
    var after := AfterCut(rest, cut);
    assert rest[..|rest|] == rest;
    if cut == |rest| {
      newline := [false];
      assert Rejoin([rest], newline) == rest + "" + "";
    } else {
      var dropped := rest[cut] == '\n';
      assert rest == rest[..cut] + (if dropped then "\n" else "") + after;
      if after == "" {
        newline := [dropped];
        assert Rejoin([rest[..cut]], newline) == rest[..cut] + "\n" + "";
      } else {
        var more := PiecesFitAndRejoin(after, max);
        newline := [dropped] + more;
        assert Pieces(rest, max)[1..] == Pieces(after, max) && newline[1..] == more;
      }
    }
  }

  /**
   No piece is empty, every piece fits unless it is one rune that alone exceeds max, and the
   pieces give back the text when at most one newline is put after each.
   */
  lemma ChunksFitAndRejoin(text: string, max: int) returns (newline: seq<bool>)
    ensures max > 0 ==> forall i :: 0 <= i < |Chunks(text, max)| ==> PieceFits(Chunks(text, max)[i], max)
    ensures |newline| == |Chunks(text, max)| && Rejoin(Chunks(text, max), newline) == text
  {
    if text == "" {
      newline := [];
    } else if max <= 0 {
      newline := [false];
      assert Rejoin([text], newline) == text + "" + "";
    } else {
      newline := PiecesFitAndRejoin(text, max);
    }
  }

  /** n is the length of the longest prefix that fits, one rune at least. */
  ghost predicate LongestFit(rs: string, max: int, n: int)
  {
    && 0 <= n <= |rs| && (rs != "" ==> n > 0)
    && (Units(rs[..n]) <= max || n <= 1)
    && (n < |rs| ==> Units(rs[..n + 1]) > max)
  }

  /** A newline in the second half of the first n runes. */
  predicate LateNewline(text: string, n: int, i: int)
  {
    0 <= n / 2 < i < n <= |text| && text[i] == '\n'
  }

  /** Everything that is left, or up to the last late newline of what fits, or all that fits. */
  ghost predicate GoodCut(text: string, n: int, cut: int)
  {
    && 0 <= cut <= |text|
    && if n < |text| && exists i :: LateNewline(text, n, i)
       then LateNewline(text, n, cut) && forall i :: cut < i < n ==> text[i] != '\n'
       else cut == n
  }

  lemma {:induction false} LastIndexMeans(rs: string, c: char)
    ensures LastIndex(rs, c) >= 0 ==> rs[LastIndex(rs, c)] == c
    ensures forall i :: LastIndex(rs, c) < i < |rs| ==> rs[i] != c
  {
    if rs != "" {
      LastIndexMeans(rs[..|rs| - 1], c);
    }
  }

  lemma CutIsGood(text: string, max: int)
    requires text != ""
    ensures LongestFit(text, max, Fit(text, max)) && GoodCut(text, Fit(text, max), CutPoint(text, max))
  {
    hide Units;
    FitMeaning(text, max);
    var n := Fit(text, max);
    LastIndexMeans(text[..n], '\n');
    var nl := LastIndex(text[..n], '\n');
    assert forall i :: 0 <= i < n ==> text[..n][i] == text[i];
    assert forall i :: nl < i < n ==> text[i] != '\n';
    if nl > n / 2 {
      assert LateNewline(text, n, nl);
    } else {
      assert forall i :: LateNewline(text, n, i) ==> i > nl;
    }
  }

  /**
   The first piece is the longest that fits, cut back to the last newline of its second half if there is
   one; the other pieces are those of the rest, without the newline at the cut.
   */
  lemma FirstPieceIsLongest(text: string, max: int)
    requires text != "" && max > 0
    ensures Chunks(text, max) != []
    ensures var piece := Chunks(text, max)[0];
      var rest := text[if |piece| < |text| && text[|piece|] == '\n' then |piece| + 1 else |piece|..];
      && |piece| <= |text| && piece == text[..|piece|]
      && (exists n :: LongestFit(text, max, n) && GoodCut(text, n, |piece|))
      && Chunks(text, max)[1..] == Chunks(rest, max)
  {
    hide Units, Fit, GoodCut, LongestFit, CutPoint;
    CutIsGood(text, max);
    CutMeaning(text, max);
    var cut := CutPoint(text, max);
    assert text[..|text|] == text && text[|text|..] == "";
    assert |text[..cut]| == cut && Chunks(text, max)[0] == text[..cut];
    if cut == |text| {
      assert Chunks(text, max) == [text];
    } else if AfterCut(text, cut) == "" {
      assert Chunks(text, max) == [text[..cut]];
    } else {
      assert Chunks(text, max) == [text[..cut]] + Chunks(AfterCut(text, cut), max);
    }
  }

  /** With room for two units no piece is ever too long. */
  lemma ChunksWithinLimit(text: string, max: int)
    requires max >= 2
    ensures forall i :: 0 <= i < |Chunks(text, max)| ==> 0 < Units(Chunks(text, max)[i]) <= max
  {
    var newline := ChunksFitAndRejoin(text, max);
    forall i | 0 <= i < |Chunks(text, max)|
      ensures 0 < Units(Chunks(text, max)[i]) <= max
    {
      UnitsBounds(Chunks(text, max)[i]);
      assert PieceFits(Chunks(text, max)[i], max);
    }
  }

  /** Room for one unit is not enough for a rune outside the basic plane. */
  lemma OneUnitIsNotEnough()
    ensures Chunks("\U{1F600}", 1) == ["\U{1F600}"] && Units("\U{1F600}") == 2
  {
    FitMeaning("\U{1F600}", 1);
    assert "\U{1F600}"[..0] == "";
  }

  method FitUTF16(rs: string, max: int) returns (n: nat)
    ensures n == Fit(rs, max)
  {
    var units: nat := 0;
    for i := 0 to |rs|
      invariant FitFrom(rs, max, i, units) == Fit(rs, max)
    {
      var u := RuneUnits(rs[i]);
      if units + u > max && i > 0 {
        return i;
      }
      units := units + u;
    }
    return |rs|;
  }

  method LastIndexRune(rs: string, c: char) returns (i: int)
    ensures i == LastIndex(rs, c)
    ensures i < 0 ==> c !in rs
    ensures i >= 0 ==> i < |rs| && rs[i] == c && c !in rs[i + 1..]
  {
    i := |rs| - 1;
    assert rs[..|rs|] == rs;
    while i >= 0
      invariant -1 <= i < |rs|
      invariant c !in rs[i + 1..]
      invariant LastIndex(rs, c) == LastIndex(rs[..i + 1], c)
    {
      if rs[i] == c {
        return;
      }
      assert rs[..i + 1][..i] == rs[..i];
      assert rs[i..] == [rs[i]] + rs[i + 1..];
      i := i - 1;
    }
  }

  /** One more piece moves from the rest to the output. */
  lemma NextPiece(out: seq<string>, rest: string, max: int, cut: nat)
    requires rest != "" && cut == CutPoint(rest, max) < |rest|
    ensures |AfterCut(rest, cut)| < |rest|
    ensures var after := AfterCut(rest, cut);
      out + Pieces(rest, max) == out + [rest[..cut]] + (if after == "" then [] else Pieces(after, max))
  {
    hide CutPoint, AfterCut;
    CutMeaning(rest, max);
    var after := AfterCut(rest, cut);
    if after != "" {
      assert out + ([rest[..cut]] + Pieces(after, max)) == out + [rest[..cut]] + Pieces(after, max);
    }
  }

  /** The loop that cuts off one piece after another, at a late newline when there is one. */
  method Chunk(text: string, max: int) returns (out: seq<string>)
    ensures out == Chunks(text, max)
  {
    hide Pieces, Fit, LastIndex;
    if text == "" {
      return [];
    }
    if max <= 0 {
      return [text];
    }
    out := [];
    var rest := text;
    while true
      invariant rest != "" && out + Pieces(rest, max) == Pieces(text, max)
      decreases |rest|
    {
      FitMeaning(rest, max);
      var n := FitUTF16(rest, max);
      if n == |rest| {
        LastPiece(rest, max);
        return out + [rest];
      }
      var cut := n;
      var nl := LastIndexRune(rest[..n], '\n');
      if nl > n / 2 {
        cut := nl;
      }
      NextPiece(out, rest, max, cut);
      out := out + [rest[..cut]];
      rest := rest[cut..];
      if |rest| > 0 && rest[0] == '\n' {
        rest := rest[1..];
      }
      if |rest| == 0 {
        return;
      }
    }
  }

  lemma LastPiece(rest: string, max: int)
    requires rest != "" && Fit(rest, max) == |rest|
    ensures Pieces(rest, max) == [rest]
  {
    hide Fit, AfterCut;
  }

  // ---- Topic names ----

  function TruncateName(s: string, max: int): string
  {
    var t := TrimSpace(s);
    var name := if t == "" then DEFAULT_TOPIC_NAME else t;
    FitMeaning(name, max);
    name[..Fit(name, max)]
  }

  /** The name Telegram keeps for a topic created or renamed with s. */
  function TopicName(s: string): string
  {
    TruncateName(s, TOPIC_NAME_MAX)
  }

  lemma FitAll(rs: string, max: int)
    ensures Units(rs) <= max ==> Fit(rs, max) == |rs|
    ensures |rs| > 1 && Fit(rs, max) == |rs| ==> Units(rs) <= max
  {
    FitMeaning(rs, max);
    var n := Fit(rs, max);
    assert rs[..|rs|] == rs;
    if n < |rs| {
      assert rs == rs[..n + 1] + rs[n + 1..];
      UnitsConcat(rs[..n + 1], rs[n + 1..]);
    }
  }

  lemma TrimSpaceFixed(s: string)
    ensures TrimSpace(s) == s <==> s == "" || (!IsSpace(s[0]) && !IsSpace(s[|s| - 1]))
  {
    hide IsSpace;
    TrimLeftShape(s);
    TrimRightShape(TrimLeft(s));
  }

  lemma TopicNameNotEmpty(s: string)
    ensures TopicName(s) != ""
  {
    hide TrimSpace, Fit;
    FitMeaning(if TrimSpace(s) == "" then DEFAULT_TOPIC_NAME else TrimSpace(s), TOPIC_NAME_MAX);
  }

  lemma GoodNameKept(s: string)
    requires s != "" && !IsSpace(s[0]) && !IsSpace(s[|s| - 1]) && Units(s) <= TOPIC_NAME_MAX
    ensures TopicName(s) == s
  {
    hide IsSpace, TrimSpace, Fit, Units;
    TrimSpaceFixed(s);
    FitAll(s, TOPIC_NAME_MAX);
  }

  lemma DefaultNameKept()
    ensures TopicName(DEFAULT_TOPIC_NAME) == DEFAULT_TOPIC_NAME
    ensures !Blank(DEFAULT_TOPIC_NAME)
  {
    UnitsBounds(DEFAULT_TOPIC_NAME);
    assert !IsSpace(DEFAULT_TOPIC_NAME[0]);
    GoodNameKept(DEFAULT_TOPIC_NAME);
  }

  lemma BlankNameReplaced(s: string)
    requires TrimSpace(s) == ""
    ensures TopicName(s) == DEFAULT_TOPIC_NAME && s != DEFAULT_TOPIC_NAME
  {
    hide IsSpace, Fit, Units, Blank, TrimSpace;
    UnitsBounds(DEFAULT_TOPIC_NAME);
    FitAll(DEFAULT_TOPIC_NAME, TOPIC_NAME_MAX);
    DefaultNameKept();
    BlankIsTrimmedAway(s);
    BlankIsTrimmedAway(DEFAULT_TOPIC_NAME);
  }

  lemma KeptTextGood(s: string, t: string)
    requires t == TrimSpace(s) && t != "" && Fit(t, TOPIC_NAME_MAX) <= |t| && t[..Fit(t, TOPIC_NAME_MAX)] == s
    ensures s != "" && !IsSpace(s[0]) && !IsSpace(s[|s| - 1]) && Units(s) <= TOPIC_NAME_MAX
  {
    hide IsSpace, TrimSpace, Fit, Units;
    TrimNeverLonger(s);
    FitAll(t, TOPIC_NAME_MAX);
    UnitsBounds(t);
    FitMeaning(t, TOPIC_NAME_MAX);
    TrimSpaceFixed(s);
  }

  lemma KeptNameGood(s: string)
    requires TopicName(s) == s
    ensures s != "" && !IsSpace(s[0]) && !IsSpace(s[|s| - 1]) && Units(s) <= TOPIC_NAME_MAX
  {
    hide IsSpace, TrimSpace, Fit, Units;
    if TrimSpace(s) == "" {
      BlankNameReplaced(s);
    } else {
      FitMeaning(TrimSpace(s), TOPIC_NAME_MAX);
      KeptTextGood(s, TrimSpace(s));
    }
  }

  /** Telegram keeps a name as it is exactly when it is trimmed, not empty and short enough. */
  lemma NameKeptIff(s: string)
    ensures TopicName(s) == s <==>
      s != "" && !IsSpace(s[0]) && !IsSpace(s[|s| - 1]) && Units(s) <= TOPIC_NAME_MAX
  {
    hide IsSpace, TopicName, Units;
    if TopicName(s) == s {
      KeptNameGood(s);
    } else if s != "" && !IsSpace(s[0]) && !IsSpace(s[|s| - 1]) && Units(s) <= TOPIC_NAME_MAX {
      GoodNameKept(s);
    }
  }

  /** A blank name becomes the default; any other is trimmed and cut to the longest prefix that fits. */
  lemma TopicNameIsLongest(s: string)
    ensures var t := if Blank(s) then DEFAULT_TOPIC_NAME else TrimSpace(s);
      exists n :: LongestFit(t, TOPIC_NAME_MAX, n) && TopicName(s) == t[..n]
  {
    hide TrimSpace, Fit, Units, Blank;
    BlankIsTrimmedAway(s);
    var t := if TrimSpace(s) == "" then DEFAULT_TOPIC_NAME else TrimSpace(s);
    FitMeaning(t, TOPIC_NAME_MAX);
    assert LongestFit(t, TOPIC_NAME_MAX, Fit(t, TOPIC_NAME_MAX));
  }

  lemma TrimNeverLonger(s: string)
    ensures |TrimSpace(s)| <= |s| && (|TrimSpace(s)| == |s| ==> TrimSpace(s) == s)
    ensures s == "" ==> TrimSpace(s) == ""
  {
    hide IsSpace;
    TrimLeftShape(s);
    TrimRightShape(TrimLeft(s));
  }
}
