/**
 Agents as Herdr reports them, their keys, and the topic name and status they should have.
 */
module Agents {
  import opened Text

  datatype Status = Working | Idle | Blocked | Done | Unknown | Exited
  {
    predicate Live() {
      !Exited?
    }
  }

  /** Only the five values of the socket API are trusted; "exited" is not one of them. */
  function ParseStatus(wire: string): (s: Status)
    ensures s.Live()
    ensures wire == "exited" ==> s == Unknown
  {
    match wire
    case "working" => Working
    case "idle" => Idle
    case "blocked" => Blocked
    case "done" => Done
    case _ => Unknown
  }

  datatype Key = Key(pane: string, terminal: string)
  {
    function Id(): string {
      pane + "/" + terminal
    }

    /** The identifiers Herdr produces: neither is empty, no pane id has a slash. */
    predicate WellFormed() {
      pane != "" && '/' !in pane && terminal != ""
    }
  }

  /** The position of the first slash, |s| without one. */
  function FirstSlash(s: string): (i: nat)
    ensures i <= |s|
    ensures i < |s| ==> s[i] == '/'
    ensures '/' !in s[..i]
  {
    if s == "" || s[0] == '/' then 0
    else
      var i := FirstSlash(s[1..]) + 1;
      assert s[..i] == [s[0]] + s[1..][..i - 1];
      i
  }

  function ParseKey(s: string): Option<Key>
  {
    var i := FirstSlash(s);
    if i == |s| || i == 0 || i + 1 == |s| then None else Some(Key(s[..i], s[i + 1..]))
  }

  predicate Parses(s: string)
  {
    ParseKey(s).Some?
  }

  lemma {:induction false} FirstSlashUnique(s: string, i: nat)
    requires i < |s| && s[i] == '/' && '/' !in s[..i]
    ensures FirstSlash(s) == i
  {
    if i > 0 {
      assert s[0] in s[..i];
      assert s[1..][..i - 1] <= s[..i][1..];
      FirstSlashUnique(s[1..], i - 1);
    }
  }

  /** Storing a key and reading it back gives the key, exactly for the keys Herdr can produce. */
  lemma KeyRoundTrip(k: Key)
    ensures ParseKey(k.Id()) == Some(k) <==> k.WellFormed()
  {
    var s := k.Id();
    if k.WellFormed() {
      assert s[..|k.pane|] == k.pane;
      FirstSlashUnique(s, |k.pane|);
      assert s[|k.pane| + 1..] == k.terminal;
    }
  }

  /** Every stored key that parses is the text of the key it parses to, a well-formed one. */
  lemma ParsedKeyPrintsBack(s: string)
    requires Parses(s)
    ensures ParseKey(s).value.Id() == s && ParseKey(s).value.WellFormed()
  {
    var i := FirstSlash(s);
    assert s == s[..i] + "/" + s[i + 1..];
  }

  datatype Agent = Agent(
    key: Key,
    workspaceId: string,
    workspaceLabel: string,
    tabId: string,
    tabLabel: string,
    kind: string,
    name: string,
    title: string,
    status: Status,
    cwd: string)
  {
    function Id(): string {
      key.Id()
    }

    function Label(): string {
      var ws := if workspaceLabel == "" then workspaceId else workspaceLabel;
      var who := if name != "" then name else if tabLabel != "" then tabLabel else kind;
      if ws == "" then who else if who == "" then ws else ws + " · " + who
    }
  }

  const DISPLAY_NAME_MAX: nat := 128

  function DisplayName(text: string): (name: string)
    ensures |name| <= DISPLAY_NAME_MAX && name <= text
    ensures |text| <= DISPLAY_NAME_MAX ==> name == text
  {
    if |text| <= DISPLAY_NAME_MAX then text else text[..DISPLAY_NAME_MAX]
  }

  function DesiredName(a: Agent): string
  {
    DisplayName(a.Label())
  }
}
