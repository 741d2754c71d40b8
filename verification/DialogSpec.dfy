/**
 Numbered dialogs at the bottom of a screen: recognising one, submitting one, and the buttons drawn
 for it.
 */
module DialogSpec {
  import opened Text
  import opened Ordering

  datatype Choice = Choice(number: nat, caption: string)

  datatype Dialog = Dialog(
    choices: seq<Choice>,
    multi: bool,
    textEntry: nat,
    textLabel: string,
    cursor: nat,
    submitRow: nat)

  const NO_DIALOG: Dialog := Dialog([], false, 0, "", 0, 0)
  const MAX_BUTTONS: nat := 5
  const MIN_CHOICES: nat := 2
  const RULE_MIN_RUNES: nat := 8
  const CURSOR: char := '\U{276F}'
  const SUBMIT: string := "Submit"
  const TYPE_SOMETHING: string := "Type something"
  const CHAT_ABOUT_THIS: string := "Chat about this"

  // ---- Lines ----

  /** White space of the regular expressions, \s. */
  predicate IsBlankRune(c: char)
  {
    c == ' ' || 9 <= c as int <= 10 || 12 <= c as int <= 13
  }

  function SkipBlanks(s: string): (rest: string)
    ensures |rest| <= |s|
  {
    if s != "" && IsBlankRune(s[0]) then SkipBlanks(s[1..]) else s
  }

  predicate IsTrailing(c: char)
  {
    c == ' ' || c == '\t' || c == '\r'
  }

  function DropTrailing(s: string): string
  {
    if s != "" && IsTrailing(s[|s| - 1]) then DropTrailing(s[..|s| - 1]) else s
  }

  function DropLeading(s: string): string
  {
    if s != "" && s[0] in " \t" then DropLeading(s[1..]) else s
  }

  predicate Contains(s: string, part: string)
  {
    part <= s || (s != "" && Contains(s[1..], part))
  }

  function SkipCursor(s: string): string
  {
    if s != "" && s[0] == CURSOR then SkipBlanks(s[1..]) else s
  }

  /** A number from 1 to 9, a period, white space and a label. */
  function ParseItem(item: string): (c: Option<Choice>)
    ensures c.Some? ==> 1 <= c.value.number <= 9
  {
    if |item| < 2 || !('1' <= item[0] <= '9') || item[1] != '.' then None
    else
      var rest := SkipBlanks(item[2..]);
      if rest == "" || |rest| == |item| - 2 then None
      else Some(Choice(item[0] as int - '0' as int, TrimSpace(rest)))
  }

  /** One "N. Label" line, with the cursor in front of it or not. */
  function ParseChoiceLine(line: string): (c: Option<Choice>)
    ensures c.Some? ==> 1 <= c.value.number <= 9
  {
    ParseItem(SkipCursor(SkipBlanks(DropTrailing(line))))
  }

  predicate HasCursor(line: string)
  {
    [CURSOR] <= DropLeading(line)
  }

  predicate IsSubmitRow(line: string)
  {
    var trimmed := TrimSpace(line);
    trimmed == SUBMIT || ([CURSOR] <= trimmed && TrimSpace(trimmed[1..]) == SUBMIT)
  }

  predicate IsRule(trimmed: string)
  {
    |trimmed| >= RULE_MIN_RUNES
    && forall i :: 0 <= i < |trimmed| ==> trimmed[i] in "\U{2500}\U{2594}\U{2501}\U{2550}"
  }

  predicate IsFiller(line: string)
  {
    var trimmed := TrimSpace(line);
    trimmed == "" || IsRule(trimmed) || "  " <= line || Contains(trimmed, " · ")
    || "Enter " <= trimmed || "Esc " <= trimmed
  }

  // ---- Labels ----

  predicate IsMark(c: char)
  {
    c != '[' && c != ']' && !IsBlankRune(c)
  }

  /** The length of the checkbox glyph a label starts with, 0 without one. */
  function GlyphLen(s: string): (n: nat)
    ensures n <= |s|
  {
    if |s| >= 3 && s[0] == '[' && (IsMark(s[1]) || s[1] == ' ') && s[2] == ']' then 3
    else if |s| >= 4 && s[0] == '[' && IsMark(s[1]) && IsMark(s[2]) && s[3] == ']' then 4
    else if |s| >= 1 && s[0] in "\U{2610}\U{2611}\U{2612}" then 1
    else 0
  }

  function StripCheckbox(s: string): string
  {
    var n := GlyphLen(s);
    var rest := SkipBlanks(s[n..]);
    if n == 0 || |rest| == |s| - n then s else TrimSpace(rest)
  }

  predicate HasCheckbox(s: string)
  {
    StripCheckbox(s) != s
  }

  /** A label without checkbox and without its trailing period. */
  function Plain(s: string): string
  {
    var t := StripCheckbox(s);
    if t != "" && t[|t| - 1] == '.' then t[..|t| - 1] else t
  }

  /** The place of a service entry among the preferences, 2 for a real option. */
  function ServiceRank(plain: string): (rank: nat)
    ensures rank <= 2
  {
    if plain == TYPE_SOMETHING then 0 else if plain == CHAT_ABOUT_THIS then 1 else 2
  }

  predicate IsService(c: Choice)
  {
    ServiceRank(Plain(c.caption)) < 2
  }

  // ---- Recognising a dialog ----

  predicate StartsDialog(line: string)
  {
    ParseChoiceLine(line).Some? && ParseChoiceLine(line).value.number == 1
  }

  /** The last line that holds item 1, -1 without one. */
  function Start(lines: seq<string>): (i: int)
    ensures -1 <= i < |lines|
  {
    if lines == [] then -1
    else if StartsDialog(lines[|lines| - 1]) then |lines| - 1
    else Start(lines[..|lines| - 1])
  }

  lemma {:induction false} StartIsLast(lines: seq<string>)
    ensures Start(lines) >= 0 ==> StartsDialog(lines[Start(lines)])
    ensures forall i :: Start(lines) < i < |lines| ==> !StartsDialog(lines[i])
  {
    hide StartsDialog;
    if lines != [] {
      StartIsLast(lines[..|lines| - 1]);
    }
  }

  datatype Scanned = Scanned(items: seq<Choice>, rows: nat, cursor: nat, submitRow: nat)

  function ScanLine(s: Scanned, line: string): Option<Scanned>
  {
    var c := ParseChoiceLine(line);
    var row := s.rows + 1;
    var cursor := if HasCursor(line) then row else s.cursor;
    if c.Some? then
      if c.value.number != |s.items| + 1 then None else Some(Scanned(s.items + [c.value], row, cursor, s.submitRow))
    else if IsSubmitRow(line) then Some(Scanned(s.items, row, cursor, row))
    else if IsFiller(line) then Some(s)
    else None
  }

  /** The items and rows of a block, none when something else is in it. */
  function Scan(block: seq<string>): Option<Scanned>
  {
    if block == [] then Some(Scanned([], 0, 0, 0))
    else
      var s := Scan(block[..|block| - 1]);
      if s.None? then None else ScanLine(s.value, block[|block| - 1])
  }

  datatype Sifted = Sifted(choices: seq<Choice>, rank: nat, textEntry: nat, textLabel: string)

  /** The items without the service entries, and the preferred one of those. */
  function Sift(items: seq<Choice>): Sifted
  {
    if items == [] then Sifted([], 2, 0, "")
    else
      var s := Sift(items[..|items| - 1]);
      var c := items[|items| - 1];
      var plain := Plain(c.caption);
      if !IsService(c) then s.(choices := s.choices + [c])
      else if ServiceRank(plain) < s.rank then Sifted(s.choices, ServiceRank(plain), c.number, plain)
      else s
  }

  predicate AllCheckboxes(choices: seq<Choice>)
  {
    choices != [] && forall i :: 0 <= i < |choices| ==> HasCheckbox(choices[i].caption)
  }

  function Parse(lines: seq<string>): Dialog
  {
    var start := Start(lines);
    if start < 0 then NO_DIALOG
    else
      var s := Scan(lines[start..]);
      if s.None? then NO_DIALOG
      else
        var t := Sift(s.value.items);
        if |t.choices| < MIN_CHOICES || |t.choices| > MAX_BUTTONS then NO_DIALOG
        else Dialog(t.choices, AllCheckboxes(t.choices), t.textEntry, t.textLabel, s.value.cursor, s.value.submitRow)
  }

  // ---- Which lines are items ----

  ghost predicate AllBlank(s: string)
  {
    forall i :: 0 <= i < |s| ==> IsBlankRune(s[i])
  }

  ghost predicate AllTrailing(s: string)
  {
    forall i :: 0 <= i < |s| ==> IsTrailing(s[i])
  }

  ghost predicate StartsBlank(s: string)
  {
    s != "" && IsBlankRune(s[0])
  }

  ghost predicate EndsTrailing(s: string)
  {
    s != "" && IsTrailing(s[|s| - 1])
  }

  /** How an item is drawn: blanks, perhaps the cursor and more blanks, the number, blanks, the text. */
  datatype Layout = Layout(lead: string, marked: bool, mid: string, gap: string, caption: string, trail: string)

  ghost predicate WellLaid(l: Layout)
  {
    && AllBlank(l.lead) && AllBlank(l.mid) && AllBlank(l.gap) && AllTrailing(l.trail) && l.gap != ""
    && l.caption != "" && !StartsBlank(l.caption) && !EndsTrailing(l.caption)
  }

  function Item(n: nat, gap: string, caption: string): string
    requires n <= 9
  {
    ["0123456789"[n], '.'] + gap + caption
  }

  function Pointed(l: Layout, item: string): string
  {
    if l.marked then [CURSOR] + l.mid + item else item
  }

  function Line(n: nat, l: Layout): string
    requires n <= 9
  {
    l.lead + Pointed(l, Item(n, l.gap, l.caption)) + l.trail
  }

  lemma {:induction false} BlanksSkipped(b: string, s: string)
    requires AllBlank(b)
    ensures SkipBlanks(b + s) == SkipBlanks(s)
  {
    hide IsBlankRune;
    if b == "" {
      assert b + s == s;
    } else {
      BlanksSkipped(b[1..], s);
      assert (b + s)[1..] == b[1..] + s;
    }
  }

  lemma {:induction false} TrailingDropped(s: string, t: string)
    requires AllTrailing(t) && !EndsTrailing(s)
    ensures DropTrailing(s + t) == s
  {
    hide IsTrailing;
    if t == "" {
      assert s + t == s;
    } else {
      TrailingDropped(s, t[..|t| - 1]);
      assert (s + t)[..|s + t| - 1] == s + t[..|t| - 1];
    }
  }

  lemma ItemParses(n: nat, gap: string, caption: string)
    requires 1 <= n <= 9 && AllBlank(gap) && gap != "" && caption != "" && !StartsBlank(caption)
    ensures ParseItem(Item(n, gap, caption)) == Some(Choice(n, TrimSpace(caption)))
  {
    hide TrimSpace, IsBlankRune;
    BlanksSkipped(gap, caption);
    assert Item(n, gap, caption)[2..] == gap + caption;
    assert "0123456789"[n] as int == '0' as int + n;
  }

  lemma ItemStarts(n: nat, gap: string, caption: string)
    requires 1 <= n <= 9
    ensures Item(n, gap, caption) != "" && Item(n, gap, caption)[0] != CURSOR && !StartsBlank(Item(n, gap, caption))
  {
    assert "0123456789"[n] as int == '0' as int + n;
  }

  lemma CursorSkipped(l: Layout, item: string)
    requires AllBlank(l.mid) && item != "" && item[0] != CURSOR && !StartsBlank(item)
    ensures !StartsBlank(Pointed(l, item)) && SkipCursor(Pointed(l, item)) == item
  {
    if l.marked {
      BlanksSkipped(l.mid, item);
      assert Pointed(l, item)[1..] == l.mid + item;
    }
  }

  lemma ItemIsRead(n: nat, l: Layout)
    requires 1 <= n <= 9 && WellLaid(l)
    ensures ParseChoiceLine(Line(n, l)) == Some(Choice(n, TrimSpace(l.caption)))
  {
    hide TrimSpace, IsBlankRune, IsTrailing, Item, Pointed, ParseItem, SkipCursor;
    var item := Item(n, l.gap, l.caption);
    ItemParses(n, l.gap, l.caption);
    ItemStarts(n, l.gap, l.caption);
    CursorSkipped(l, item);
    LineEnds(n, l);
    TrailingDropped(l.lead + Pointed(l, item), l.trail);
    BlanksSkipped(l.lead, Pointed(l, item));
    assert SkipBlanks(Pointed(l, item)) == Pointed(l, item);
  }

  lemma LineEnds(n: nat, l: Layout)
    requires 1 <= n <= 9 && WellLaid(l)
    ensures !EndsTrailing(l.lead + Pointed(l, Item(n, l.gap, l.caption)))
  {
    hide IsTrailing;
    var shown := l.lead + Pointed(l, Item(n, l.gap, l.caption));
    assert shown[|shown| - 1] == l.caption[|l.caption| - 1];
  }

  lemma {:induction false} SkippedBlanks(s: string) returns (b: string)
    ensures AllBlank(b) && s == b + SkipBlanks(s) && !StartsBlank(SkipBlanks(s))
  {
    hide IsBlankRune;
    b := "";
    if s != "" && IsBlankRune(s[0]) {
      var rest := SkippedBlanks(s[1..]);
      b := [s[0]] + rest;
      assert s == [s[0]] + s[1..];
    }
  }

  lemma {:induction false} DroppedTrailing(s: string) returns (t: string)
    ensures AllTrailing(t) && s == DropTrailing(s) + t && !EndsTrailing(DropTrailing(s))
  {
    hide IsTrailing;
    t := "";
    if s != "" && IsTrailing(s[|s| - 1]) {
      var init := DroppedTrailing(s[..|s| - 1]);
      t := init + [s[|s| - 1]];
      assert s == s[..|s| - 1] + [s[|s| - 1]];
    }
  }

  lemma ParsedItem(item: string) returns (gap: string)
    requires ParseItem(item).Some?
    ensures var n, caption := ParseItem(item).value.number, SkipBlanks(item[2..]);
      && item == Item(n, gap, caption) && ParseItem(item).value.caption == TrimSpace(caption)
      && AllBlank(gap) && gap != "" && caption != "" && !StartsBlank(caption)
  {
    hide TrimSpace, IsBlankRune;
    gap := SkippedBlanks(item[2..]);
    var n := ParseItem(item).value.number;
    assert "0123456789"[n] as int == '0' as int + n;
    assert item == [item[0], item[1]] + item[2..];
  }

  lemma SkippedCursor(s: string) returns (marked: bool, mid: string)
    ensures AllBlank(mid) && forall l: Layout :: l.marked == marked && l.mid == mid ==> s == Pointed(l, SkipCursor(s))
  {
    marked, mid := s != "" && s[0] == CURSOR, "";
    if marked {
      mid := SkippedBlanks(s[1..]);
      assert s == [CURSOR] + mid + SkipCursor(s);
    }
  }

  lemma ReadIsItem(line: string) returns (l: Layout)
    requires ParseChoiceLine(line).Some?
    ensures var c := ParseChoiceLine(line).value;
      WellLaid(l) && line == Line(c.number, l) && c.caption == TrimSpace(l.caption)
  {
    hide TrimSpace, IsBlankRune, IsTrailing, ParseItem, SkipCursor, Pointed;
    var shown := DropTrailing(line);
    var trail := DroppedTrailing(line);
    var lead := SkippedBlanks(shown);
    var marked, mid := SkippedCursor(SkipBlanks(shown));
    var item := SkipCursor(SkipBlanks(shown));
    var gap := ParsedItem(item);
    l := Layout(lead, marked, mid, gap, SkipBlanks(item[2..]), trail);
    CaptionEnds(shown, lead, l, item);
  }

  lemma CaptionEnds(shown: string, lead: string, l: Layout, item: string)
    requires shown == lead + Pointed(l, item) && !EndsTrailing(shown) && l.caption != "" && |item| >= |l.caption|
    requires item[|item| - |l.caption|..] == l.caption
    ensures !EndsTrailing(l.caption)
  {
    hide IsTrailing;
    assert l.caption[|l.caption| - 1] == item[|item| - 1] == shown[|shown| - 1];
  }

  ghost predicate DrawnAs(line: string, c: Choice, l: Layout)
  {
    1 <= c.number <= 9 && WellLaid(l) && line == Line(c.number, l) && c.caption == TrimSpace(l.caption)
  }

  /** A line is an item exactly when it is drawn like one. */
  lemma ChoiceLineIff(line: string, c: Choice)
    ensures ParseChoiceLine(line) == Some(c) <==> exists l :: DrawnAs(line, c, l)
  {
    hide TrimSpace, WellLaid, Line, ParseChoiceLine;
    if ParseChoiceLine(line) == Some(c) {
      var l := ReadIsItem(line);
      assert DrawnAs(line, c, l);
    } else if l :| DrawnAs(line, c, l) {
      ItemIsRead(c.number, l);
    }
  }

  /** The items of a block, in order. */
  function ItemsOf(block: seq<string>): seq<Choice>
  {
    if block == [] then []
    else
      var c := ParseChoiceLine(block[|block| - 1]);
      ItemsOf(block[..|block| - 1]) + if c.Some? then [c.value] else []
  }

  /** Numbered without gaps, with nothing but Submit rows and filler between the items. */
  ghost predicate DialogBlock(block: seq<string>)
  {
    && Numbered(ItemsOf(block))
    && forall i :: 0 <= i < |block| ==>
         ParseChoiceLine(block[i]).Some? || IsSubmitRow(block[i]) || IsFiller(block[i])
  }

  lemma {:induction false} ScanIff(block: seq<string>)
    ensures Scan(block).Some? <==> DialogBlock(block)
    ensures Scan(block).Some? ==> Scan(block).value.items == ItemsOf(block)
  {
    hide ParseChoiceLine, HasCursor, IsSubmitRow, IsFiller;
    if block != [] {
      ScanIff(block[..|block| - 1]);
      DialogBlockGrows(block);
    }
  }

  /** The line may follow the block. */
  ghost predicate GoesOn(block: seq<string>, line: string)
  {
    var c := ParseChoiceLine(line);
    if c.Some? then c.value.number == |ItemsOf(block)| + 1 else IsSubmitRow(line) || IsFiller(line)
  }

  lemma DialogBlockGrows(block: seq<string>)
    requires block != []
    ensures var init, line := block[..|block| - 1], block[|block| - 1];
      DialogBlock(block) <==> (DialogBlock(init) && GoesOn(init, line))
  {
    hide ParseChoiceLine, HasCursor, IsSubmitRow, IsFiller;
    var init, line := block[..|block| - 1], block[|block| - 1];
    assert forall i :: 0 <= i < |init| ==> block[i] == init[i];
    assert forall i :: 0 <= i < |ItemsOf(init)| ==> ItemsOf(block)[i] == ItemsOf(init)[i];
    assert ParseChoiceLine(line).Some? ==> ItemsOf(block)[|ItemsOf(init)|] == ParseChoiceLine(line).value;
  }

  /** The items that are no service entries. */
  function OptionsOf(items: seq<Choice>): seq<Choice>
  {
    if items == [] then []
    else
      var c := items[|items| - 1];
      OptionsOf(items[..|items| - 1]) + if IsService(c) then [] else [c]
  }

  lemma {:induction false} SiftKeepsOptions(items: seq<Choice>)
    ensures Sift(items).choices == OptionsOf(items)
  {
    hide IsService, Sift;
    if items == [] {
      NothingSifted();
    } else {
      SiftGrows(items);
      SiftKeepsOptions(items[..|items| - 1]);
    }
  }

  /**
   A screen shows a dialog if and only if what follows its last item 1 is a block of items numbered
   without gaps, Submit rows and filler, with two to five options; these are its choices.
   */
  lemma RecognisedIff(lines: seq<string>)
    ensures var start := Start(lines);
      && (Parse(lines).choices != [] <==>
            start >= 0 && DialogBlock(lines[start..])
            && MIN_CHOICES <= |OptionsOf(ItemsOf(lines[start..]))| <= MAX_BUTTONS)
      && (Parse(lines).choices != [] ==> Parse(lines).choices == OptionsOf(ItemsOf(lines[start..])))
  {
    hide Scan, Sift, DialogBlock, ItemsOf, OptionsOf, AllCheckboxes;
    if Start(lines) >= 0 {
      ScanIff(lines[Start(lines)..]);
      SiftKeepsOptions(ItemsOf(lines[Start(lines)..]));
    }
  }

  // ---- What is recognised ----

  /** Some line of the block shows this number with this text. */
  ghost predicate Shown(c: Choice, block: seq<string>)
  {
    exists i :: 0 <= i < |block| && ParseChoiceLine(block[i]) == Some(c)
  }

  lemma ShownGrows(c: Choice, block: seq<string>)
    requires block != []
    requires Shown(c, block[..|block| - 1]) || ParseChoiceLine(block[|block| - 1]) == Some(c)
    ensures Shown(c, block)
  {
    hide ParseChoiceLine;
    var init := block[..|block| - 1];
    if Shown(c, init) {
      var i :| 0 <= i < |init| && ParseChoiceLine(init[i]) == Some(c);
      assert ParseChoiceLine(block[i]) == Some(c);
    }
  }

  lemma {:induction false} ScanItems(block: seq<string>, i: nat)
    requires Scan(block).Some? && i < |Scan(block).value.items|
    ensures Scan(block).value.items[i].number == i + 1 <= 9
    ensures Shown(Scan(block).value.items[i], block)
  {
    hide ParseChoiceLine, HasCursor, IsSubmitRow, IsFiller, Shown;
    var init, line := block[..|block| - 1], block[|block| - 1];
    var before := Scan(init).value;
    if i < |before.items| {
      ScanItems(init, i);
    }
    ShownGrows(Scan(block).value.items[i], block);
  }

  /** The lines the arrows stop at, in screen order. */
  function Rows(block: seq<string>): seq<string>
  {
    if block == [] then []
    else
      var line := block[|block| - 1];
      Rows(block[..|block| - 1]) + if ParseChoiceLine(line).Some? || IsSubmitRow(line) then [line] else []
  }

  /** A line that is a Submit row and no item. */
  predicate BareSubmit(line: string)
  {
    IsSubmitRow(line) && ParseChoiceLine(line).None?
  }

  /** The row is the last one of the kind, 0 without any. */
  ghost predicate LastRow(row: nat, rows: seq<string>, kind: string -> bool)
  {
    && row <= |rows|
    && (row > 0 ==> kind(rows[row - 1]))
    && forall i :: row <= i < |rows| ==> !kind(rows[i])
  }

  /** The scan knows the rows of the block, the last with the cursor and the last that submits. */
  lemma {:induction false} ScanRows(block: seq<string>)
    requires Scan(block).Some?
    ensures var s := Scan(block).value;
      && s.rows == |Rows(block)|
      && LastRow(s.cursor, Rows(block), HasCursor)
      && LastRow(s.submitRow, Rows(block), BareSubmit)
  {
    hide ParseChoiceLine, HasCursor, IsSubmitRow, IsFiller;
    if block != [] {
      ScanRows(block[..|block| - 1]);
    }
  }

  ghost predicate Numbered(items: seq<Choice>)
  {
    forall i :: 0 <= i < |items| ==> items[i].number == i + 1
  }

  ghost predicate Increasing(choices: seq<Choice>)
  {
    forall i, j :: 0 <= i < j < |choices| ==> choices[i].number < choices[j].number
  }

  ghost predicate Below(choices: seq<Choice>, top: nat)
  {
    forall i :: 0 <= i < |choices| ==> 1 <= choices[i].number <= top
  }

  lemma SiftGrows(items: seq<Choice>)
    requires items != []
    ensures var before, c := Sift(items[..|items| - 1]).choices, items[|items| - 1];
      Sift(items).choices == if IsService(c) then before else before + [c]
  {
  }

  /** The options are the items that are no service entries. */
  lemma {:induction false} SiftElements(items: seq<Choice>)
    ensures forall c :: c in Sift(items).choices <==> c in items && !IsService(c)
  {
    hide IsService, Sift;
    if items == [] {
      NothingSifted();
    } else {
      SiftGrows(items);
      SiftElements(items[..|items| - 1]);
      assert items == items[..|items| - 1] + [items[|items| - 1]];
    }
  }

  lemma NothingSifted()
    ensures Sift([]) == Sifted([], 2, 0, "")
  {
  }

  lemma {:induction false} SiftIncreases(items: seq<Choice>)
    requires Numbered(items)
    ensures Increasing(Sift(items).choices) && Below(Sift(items).choices, |items|)
  {
    hide IsService, Sift;
    if items == [] {
      NothingSifted();
    } else {
      SiftGrows(items);
      SiftIncreases(items[..|items| - 1]);
    }
  }

  /**
   The free-text entry is the first service entry of the best kind; without a service entry there is
   none.
   */
  ghost predicate Preferred(t: Sifted, items: seq<Choice>)
  {
    if t.textEntry == 0 then t.rank == 2 && forall i :: 0 <= i < |items| ==> !IsService(items[i])
    else
      && t.textEntry <= |items| && IsService(items[t.textEntry - 1])
      && t.textLabel == Plain(items[t.textEntry - 1].caption) && t.rank == ServiceRank(t.textLabel)
      && forall i :: 0 <= i < |items| ==> Precedes(t, i, items[i])
  }

  predicate Precedes(t: Sifted, i: nat, c: Choice)
  {
    t.rank < ServiceRank(Plain(c.caption)) || (t.rank == ServiceRank(Plain(c.caption)) && t.textEntry <= i + 1)
  }

  lemma {:induction false} SiftPrefers(items: seq<Choice>)
    requires Numbered(items)
    ensures Preferred(Sift(items), items)
  {
    hide Plain, ServiceRank;
    if items != [] {
      SiftPrefers(items[..|items| - 1]);
    }
  }

  /** A recognised dialog: what its buttons may rely on. */
  ghost predicate Sound(d: Dialog)
  {
    && MIN_CHOICES <= |d.choices| <= MAX_BUTTONS
    && Increasing(d.choices) && Below(d.choices, 9)
    && d.textEntry <= 9
    && (forall i :: 0 <= i < |d.choices| ==> !IsService(d.choices[i]) && d.choices[i].number != d.textEntry)
    && (d.multi <==> forall i :: 0 <= i < |d.choices| ==> HasCheckbox(d.choices[i].caption))
  }

  lemma ScanNumbers(block: seq<string>)
    requires Scan(block).Some?
    ensures Numbered(Scan(block).value.items) && |Scan(block).value.items| <= 9
    ensures forall c :: c in Scan(block).value.items ==> Shown(c, block)
  {
    hide Scan, Shown;
    var items := Scan(block).value.items;
    forall i | 0 <= i < |items|
      ensures items[i].number == i + 1 <= 9 && Shown(items[i], block)
    {
      ScanItems(block, i);
    }
    assert |items| > 0 ==> items[|items| - 1].number == |items|;
  }

  lemma OptionIsNotTextEntry(items: seq<Choice>, i: nat)
    requires Numbered(items) && i < |Sift(items).choices|
    ensures var c := Sift(items).choices[i];
      c in items && !IsService(c) && c.number != Sift(items).textEntry
  {
    hide Sift, IsService;
    var c := Sift(items).choices[i];
    SiftElements(items);
    SiftPrefers(items);
    assert c in Sift(items).choices;
    var k :| 0 <= k < |items| && items[k] == c;
  }

  lemma SiftIsSound(items: seq<Choice>, block: seq<string>)
    requires Numbered(items) && |items| <= 9 && forall c :: c in items ==> Shown(c, block)
    ensures var t := Sift(items);
      && Increasing(t.choices) && Below(t.choices, 9) && t.textEntry <= 9
      && forall i :: 0 <= i < |t.choices| ==>
                       !IsService(t.choices[i]) && t.choices[i].number != t.textEntry && Shown(t.choices[i], block)
  {
    hide Sift, IsService, Shown;
    var t := Sift(items);
    SiftIncreases(items);
    SiftPrefers(items);
    forall i | 0 <= i < |t.choices|
      ensures !IsService(t.choices[i]) && t.choices[i].number != t.textEntry && Shown(t.choices[i], block)
    {
      OptionIsNotTextEntry(items, i);
    }
  }

  /**
   What is recognised has 2 to 5 options with increasing digits 1 to 9, no service entry among them,
   each option and its digit shown together on one line of the block.
   */
  lemma RecognisedIsSound(lines: seq<string>)
    requires Parse(lines) != NO_DIALOG
    ensures Start(lines) >= 0 && Sound(Parse(lines))
    ensures forall i :: 0 <= i < |Parse(lines).choices| ==> Shown(Parse(lines).choices[i], lines[Start(lines)..])
  {
    hide Scan, Sift, IsService, HasCheckbox, Start, Shown, Numbered, Increasing, Below;
    var block := lines[Start(lines)..];
    ScanNumbers(block);
    SiftIsSound(Scan(block).value.items, block);
  }

  /** Without a service entry there is no free-text entry; with one it is the preferred one. */
  lemma TextEntryIsPreferred(lines: seq<string>)
    requires Parse(lines) != NO_DIALOG
    ensures Start(lines) >= 0 && Scan(lines[Start(lines)..]).Some?
    ensures var items := Scan(lines[Start(lines)..]).value.items;
      Preferred(Sift(items), items) && Parse(lines).textEntry == Sift(items).textEntry
  {
    hide Scan, Sift, Start, AllCheckboxes, Preferred;
    var block := lines[Start(lines)..];
    ScanNumbers(block);
    SiftPrefers(Scan(block).value.items);
  }

  // ---- Submitting ----

  const DOWN: string := "down"
  const UP: string := "up"
  const ENTER: string := "enter"

  function Repeat(key: string, n: nat): (keys: seq<string>)
    ensures |keys| == n && forall i :: 0 <= i < n ==> keys[i] == key
  {
    seq(n, i => key)
  }

  /** The row the arrows start from. */
  function From(d: Dialog): nat
  {
    if d.cursor == 0 then 1 else d.cursor
  }

  function SubmitKeys(d: Dialog): seq<string>
  {
    var from := From(d);
    if d.submitRow == 0 then [ENTER]
    else if from <= d.submitRow then Repeat(DOWN, d.submitRow - from) + [ENTER]
    else Repeat(UP, from - d.submitRow) + [ENTER]
  }

  /** The row after the keys: down moves on, up moves back, nothing else moves. */
  function Walk(keys: seq<string>, row: int): int
  {
    if keys == [] then row
    else
      var at := Walk(keys[..|keys| - 1], row);
      if keys[|keys| - 1] == DOWN then at + 1 else if keys[|keys| - 1] == UP then at - 1 else at
  }

  lemma {:induction false} WalkRepeats(key: string, n: nat, row: int)
    requires key in [DOWN, UP]
    ensures Walk(Repeat(key, n), row) == if key == DOWN then row + n else row - n
  {
    if n > 0 {
      assert Repeat(key, n)[..n - 1] == Repeat(key, n - 1);
      WalkRepeats(key, n - 1, row);
    }
  }

  lemma WalkPrefix(key: string, n: nat, k: nat, row: int)
    requires key in [DOWN, UP] && k <= n
    ensures Walk((Repeat(key, n) + [ENTER])[..k], row) == if key == DOWN then row + k else row - k
  {
    assert (Repeat(key, n) + [ENTER])[..k] == Repeat(key, k);
    WalkRepeats(key, k, row);
  }

  /**
   The keys end with the one enter, pressed on the Submit row, and the arrows before it never leave
   the rows between the cursor and the Submit row.
   */
  lemma SubmitLands(d: Dialog)
    requires d.submitRow > 0
    ensures var keys := SubmitKeys(d);
      && keys != [] && keys[|keys| - 1] == ENTER
      && ENTER !in keys[..|keys| - 1]
      && Walk(keys[..|keys| - 1], From(d)) == d.submitRow
      && forall k :: 0 <= k < |keys| ==> Between(From(d), d.submitRow, Walk(keys[..k], From(d)))
  {
    var keys, from := SubmitKeys(d), From(d);
    var key := if from <= d.submitRow then DOWN else UP;
    var n := if from <= d.submitRow then d.submitRow - from else from - d.submitRow;
    assert keys == Repeat(key, n) + [ENTER];
    assert keys[..n] == Repeat(key, n);
    forall k | 0 <= k <= n
      ensures Walk(keys[..k], from) == if key == DOWN then from + k else from - k
    {
      WalkPrefix(key, n, k, from);
    }
  }

  predicate Between(a: int, b: int, x: int)
  {
    a <= x <= b || b <= x <= a
  }

  /** On a screen: the Submit row is there and so is every row the arrows pass. */
  lemma SubmitStaysOnScreen(lines: seq<string>)
    requires Parse(lines).submitRow > 0
    ensures Start(lines) >= 0
    ensures var d, rows := Parse(lines), Rows(lines[Start(lines)..]);
      && d.submitRow <= |rows| && BareSubmit(rows[d.submitRow - 1])
      && (forall i :: d.submitRow <= i < |rows| ==> !BareSubmit(rows[i]))
      && From(d) <= |rows|
      && (d.cursor > 0 ==> HasCursor(rows[d.cursor - 1]))
      && (d.cursor == 0 ==> forall i :: 0 <= i < |rows| ==> !HasCursor(rows[i]))
  {
    hide Scan, Sift, Start, Rows, BareSubmit, HasCursor, AllCheckboxes;
    ScanRows(lines[Start(lines)..]);
  }

  // ---- Buttons ----

  const SUBMIT_DATA: string := "enter"
  const TEXT_PREFIX: string := "t:"
  const DONE_DATA: string := "done"

  datatype PressKind = Unknown | Digit | Submit | Text

  function Itoa(n: nat): string
    requires n <= 9
  {
    ["0123456789"[n]]
  }

  /** The callback data of the buttons: the options, Submit for several answers, the free text. */
  function Buttons(d: Dialog): seq<string>
    requires Below(d.choices, 9) && d.textEntry <= 9
  {
    if d.choices == [] then []
    else
      OptionButtons(d.choices)
      + (if d.multi then [SUBMIT_DATA] else [])
      + if d.textEntry > 0 then [TEXT_PREFIX + Itoa(d.textEntry)] else []
  }

  function OptionButtons(choices: seq<Choice>): (data: seq<string>)
    requires Below(choices, 9)
    ensures |data| == |choices|
  {
    if choices == [] then []
    else OptionButtons(choices[..|choices| - 1]) + [Itoa(choices[|choices| - 1].number)]
  }

  function Digits(s: string, value: nat): Option<nat>
    decreases s
  {
    if s == "" then Some(value)
    else if '0' <= s[0] <= '9' then Digits(s[1..], 10 * value + (s[0] as int - '0' as int))
    else None
  }

  /** strconv.Atoi: an optional sign, then digits. */
  function Atoi(s: string): Option<int>
  {
    var signed := s != "" && s[0] in "+-";
    var digits := if signed then s[1..] else s;
    if digits == "" || Digits(digits, 0).None? then None
    else
      var v: int := Digits(digits, 0).value;
      Some(if signed && s[0] == '-' then -v else v)
  }

  function PressKindOf(data: string): (r: (PressKind, nat))
    ensures r.0.Digit? || r.0.Text? ==> 1 <= r.1 <= 9
  {
    if data == SUBMIT_DATA then (Submit, 0)
    else
      var text := TEXT_PREFIX <= data;
      var n := Atoi(if text then data[|TEXT_PREFIX|..] else data);
      if n.None? || n.value < 1 || n.value > 9 then (Unknown, 0)
      else (if text then Text else Digit, n.value)
  }

  lemma AtoiOfItoa(n: nat)
    requires n <= 9
    ensures Atoi(Itoa(n)) == Some(n)
  {
    var s := Itoa(n);
    assert s[1..] == "";
    assert Digits(s, 0) == Digits("", n);
  }

  lemma {:induction false} OptionButtonAt(choices: seq<Choice>, i: nat)
    requires Below(choices, 9) && i < |choices|
    ensures OptionButtons(choices)[i] == Itoa(choices[i].number)
  {
    if i < |choices| - 1 {
      OptionButtonAt(choices[..|choices| - 1], i);
    }
  }

  /** What the button at a position stands for. */
  function Meaning(d: Dialog, i: nat): (PressKind, nat)
  {
    if i < |d.choices| then (Digit, d.choices[i].number)
    else if d.multi && i == |d.choices| then (Submit, 0)
    else (Text, d.textEntry)
  }

  /** Every button of a recognised dialog decodes to its own kind and number, and no two are alike. */
  lemma ButtonsDecode(d: Dialog)
    requires Sound(d)
    ensures |Buttons(d)| == |d.choices| + (if d.multi then 1 else 0) + if d.textEntry > 0 then 1 else 0
    ensures forall i :: 0 <= i < |Buttons(d)| ==> PressKindOf(Buttons(d)[i]) == Meaning(d, i)
    ensures forall i, j :: 0 <= i < j < |Buttons(d)| ==> Buttons(d)[i] != Buttons(d)[j]
  {
    hide IsService, HasCheckbox, OptionButtons, PressKindOf;
    var data := Buttons(d);
    forall i | 0 <= i < |data|
      ensures PressKindOf(data[i]) == Meaning(d, i)
    {
      if i < |d.choices| {
        OptionButtonAt(d.choices, i);
        DigitDecodes(d.choices[i].number);
      } else if d.multi && i == |d.choices| {
        SubmitDecodes();
      } else {
        TextDecodes(d.textEntry);
      }
    }
    forall i, j | 0 <= i < j < |data|
      ensures data[i] != data[j]
    {
      assert Meaning(d, i) != Meaning(d, j);
    }
  }

  lemma DigitDecodes(n: nat)
    requires 1 <= n <= 9
    ensures PressKindOf(Itoa(n)) == (Digit, n)
  {
    AtoiOfItoa(n);
  }

  lemma SubmitDecodes()
    ensures PressKindOf(SUBMIT_DATA) == (Submit, 0)
  {
  }

  lemma TextDecodes(n: nat)
    requires 1 <= n <= 9
    ensures PressKindOf(TEXT_PREFIX + Itoa(n)) == (Text, n)
  {
    AtoiOfItoa(n);
    var data := TEXT_PREFIX + Itoa(n);
    assert data[0] == 't' && data[2..] == Itoa(n);
  }
}
