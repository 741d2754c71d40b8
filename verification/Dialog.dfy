/** Recognising, submitting and drawing dialogs, loop by loop. */
module Dialog {
  import opened Text
  import S = DialogSpec

  method FindStart(lines: seq<string>) returns (start: int)
    ensures start == S.Start(lines)
  {
    hide S.StartsDialog;
    var i := |lines| - 1;
    assert lines[..i + 1] == lines;
    while i >= 0
      invariant -1 <= i < |lines|
      invariant S.Start(lines) == S.Start(lines[..i + 1])
    {
      assert lines[..i + 1][..i] == lines[..i];
      if S.StartsDialog(lines[i]) {
        return i;
      }
      i := i - 1;
    }
    return -1;
  }

  /** The items and rows from the first item on; none when something else stands among them. */
  method ScanBlock(block: seq<string>) returns (s: Option<S.Scanned>)
    ensures s == S.Scan(block)
  {
    hide S.HasCursor, S.IsSubmitRow, S.IsFiller, S.ParseChoiceLine;
    var items: seq<S.Choice> := [];
    var rows, cursor, submitRow := 0, 0, 0;
    var i := 0;
    while i < |block|
      invariant 0 <= i <= |block|
      invariant S.Scan(block[..i]) == Some(S.Scanned(items, rows, cursor, submitRow))
    {
      var line := block[i];
      assert block[..i + 1][..i] == block[..i];
      ScanFails(block, i + 1);
      var c := S.ParseChoiceLine(line);
      if c.Some? {
        if c.value.number != |items| + 1 {
          return None;
        }
        items := items + [c.value];
        rows := rows + 1;
        if S.HasCursor(line) {
          cursor := rows;
        }
      } else if S.IsSubmitRow(line) {
        rows := rows + 1;
        submitRow := rows;
        if S.HasCursor(line) {
          cursor := rows;
        }
      } else if !S.IsFiller(line) {
        return None;
      }
      i := i + 1;
    }
    assert block[..i] == block;
    return Some(S.Scanned(items, rows, cursor, submitRow));
  }

  lemma {:induction false} ScanFails(block: seq<string>, i: nat)
    requires i <= |block|
    ensures S.Scan(block[..i]).None? ==> S.Scan(block).None?
    decreases |block| - i
  {
    hide S.ScanLine;
    if i < |block| {
      assert block[..i + 1][..i] == block[..i];
      ScanFails(block, i + 1);
    } else {
      assert block[..i] == block;
    }
  }

  method ParseDialog(lines: seq<string>) returns (d: S.Dialog)
    ensures d == S.Parse(lines)
  {
    hide S.Start, S.Scan, S.IsService, S.AllCheckboxes, S.Plain, S.ServiceRank;
    var start := FindStart(lines);
    if start < 0 {
      return S.NO_DIALOG;
    }
    var s := ScanBlock(lines[start..]);
    if s.None? {
      return S.NO_DIALOG;
    }
    var items := s.value.items;
    d := S.Dialog([], false, 0, "", s.value.cursor, s.value.submitRow);
    var bestRank: nat := 2;
    var i := 0;
    while i < |items|
      invariant 0 <= i <= |items|
      invariant S.Sift(items[..i]) == S.Sifted(d.choices, bestRank, d.textEntry, d.textLabel)
      invariant d.cursor == s.value.cursor && d.submitRow == s.value.submitRow
    {
      var c := items[i];
      assert items[..i + 1][..i] == items[..i];
      var plain := S.Plain(c.caption);
      var rank := S.ServiceRank(plain);
      ServiceByRank(c);
      if rank < 2 {
        if rank < bestRank {
          bestRank := rank;
          d := d.(textEntry := c.number, textLabel := plain);
        }
      } else {
        d := d.(choices := d.choices + [c]);
      }
      i := i + 1;
    }
    assert items[..i] == items;
    if |d.choices| < S.MIN_CHOICES || |d.choices| > S.MAX_BUTTONS {
      return S.NO_DIALOG;
    }
    d := d.(multi := S.AllCheckboxes(d.choices));
  }

  lemma ServiceByRank(c: S.Choice)
    ensures S.IsService(c) <==> S.ServiceRank(S.Plain(c.caption)) < 2
  {
  }

  method SubmitKeys(d: S.Dialog) returns (keys: seq<string>)
    ensures keys == S.SubmitKeys(d)
  {
    if d.submitRow == 0 {
      return [S.ENTER];
    }
    var cursor := d.cursor;
    if cursor == 0 {
      cursor := 1;
    }
    keys := [];
    while cursor < d.submitRow
      invariant S.From(d) <= cursor <= d.submitRow || cursor == S.From(d) > d.submitRow
      invariant keys == S.Repeat(S.DOWN, cursor - S.From(d))
    {
      keys := keys + [S.DOWN];
      cursor := cursor + 1;
    }
    while cursor > d.submitRow
      invariant d.submitRow <= cursor <= S.From(d) || cursor == d.submitRow >= S.From(d)
      invariant keys == if S.From(d) <= d.submitRow then S.Repeat(S.DOWN, d.submitRow - S.From(d))
                        else S.Repeat(S.UP, S.From(d) - cursor)
    {
      keys := keys + [S.UP];
      cursor := cursor - 1;
    }
    keys := keys + [S.ENTER];
  }

  method ChoiceButtons(d: S.Dialog) returns (buttons: seq<string>)
    requires S.Below(d.choices, 9) && d.textEntry <= 9
    ensures buttons == S.Buttons(d)
  {
    buttons := [];
    if |d.choices| == 0 {
      return;
    }
    var i := 0;
    while i < |d.choices|
      invariant 0 <= i <= |d.choices|
      invariant buttons == S.OptionButtons(d.choices[..i])
    {
      assert d.choices[..i + 1][..i] == d.choices[..i];
      buttons := buttons + [S.Itoa(d.choices[i].number)];
      i := i + 1;
    }
    assert d.choices[..i] == d.choices;
    if d.multi {
      buttons := buttons + [S.SUBMIT_DATA];
    }
    if d.textEntry > 0 {
      buttons := buttons + [S.TEXT_PREFIX + S.Itoa(d.textEntry)];
    }
  }
}
