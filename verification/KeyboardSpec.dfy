/**
 The keyboards under posted questions: presses, posts, redraws and waits for typed text, and what is
 sent to the agents because of them. A question is its message id.
 */
module KeyboardSpec {
  import opened Text
  import opened Agents
  import D = DialogSpec

  type Id = nat

  datatype Keyboard = Keyboard(
    messageId: Id,
    choices: seq<D.Choice>,
    multi: bool,
    textEntry: nat,
    textLabel: string,
    cursor: nat,
    submitRow: nat,
    waiting: bool)

  datatype TypingWait = TypingWait(threadId: int, messageId: Id, until: int)

  /** Keys sent to an agent for a question, whether or not they arrived. */
  datatype Sent = Sent(messageId: Id, kind: D.PressKind, ending: bool, keys: seq<string>)

  /**
   The outbound maps per agent; the first message id the chat has not used; and the record of what
   was sent and of the questions a typed text was taken for. A screen is its lines.
   */
  datatype State = State(
    keyboards: map<string, Keyboard>,
    refresh: map<string, Id>,
    typing: map<string, TypingWait>,
    lastPosted: map<string, seq<string>>,
    next: Id,
    sent: seq<Sent>,
    taken: seq<Id>)

  const START: State := State(map[], map[], map[], map[], 0, [], [])
  const TYPING_TIMEOUT: int := 600

  datatype Toast =
    | TopicNotMapped | AlreadyAnswered | UnknownButton | NotLatest | AgentExited | NotWaiting
    | SendFailed | SendTheText | Submitted | Toggled | AnswerSent

  // ---- Retiring ----

  function EndTyping(s: State, key: string): State
  {
    s.(typing := s.typing - {key})
  }

  function Retire(s: State, key: string): State
  {
    if key !in s.keyboards then s
    else
      var r := s.(keyboards := s.keyboards - {key}, refresh := s.refresh - {key});
      if s.keyboards[key].waiting then EndTyping(r, key) else r
  }

  function Forget(s: State, key: string): State
  {
    Retire(EndTyping(s.(lastPosted := s.lastPosted - {key}, refresh := s.refresh - {key}), key), key)
  }

  // ---- Presses ----

  /** A press: the agent its thread is mapped to, if any, and the message the button is under. */
  datatype Press = Press(key: Option<string>, threadId: int, messageId: Id, data: string)

  /** What the press meets: the agent's status, the screens read, and whether the keys arrive. */
  datatype PressWorld = PressWorld(
    agent: Option<Status>,
    whileWorking: Option<seq<string>>,
    atSubmit: Option<seq<string>>,
    delivered: bool,
    now: int)

  predicate Offered(kb: Keyboard, kind: D.PressKind, n: nat)
  {
    && !(kind.Submit? && !kb.multi)
    && !(kind.Text? && (kb.textEntry == 0 || n != kb.textEntry))
    && !kb.waiting
  }

  /** Herdr calls the pane working, but its screen still shows the keyboard's dialog. */
  predicate DialogStillOpen(kb: Keyboard, status: Status, screen: Option<seq<string>>)
  {
    status.Working? && screen.Some? &&
    var d := D.Parse(screen.value);
    |d.choices| > 0 && |d.choices| == |kb.choices| && d.multi == kb.multi && d.textEntry == kb.textEntry
  }

  /** The dialog whose rows the Submit press walks: the one on the screen, else the one posted. */
  function SubmitDialog(kb: Keyboard, screen: Option<seq<string>>): D.Dialog
  {
    var posted := D.NO_DIALOG.(cursor := kb.cursor, submitRow := kb.submitRow);
    if screen.Some? && D.Parse(screen.value).multi then D.Parse(screen.value) else posted
  }

  function KeysFor(kb: Keyboard, kind: D.PressKind, n: nat, data: string, screen: Option<seq<string>>): seq<string>
    requires kind.Text? ==> n <= 9
  {
    match kind
    case Text => [D.Itoa(n)]
    case Submit => D.SubmitKeys(SubmitDialog(kb, screen))
    case _ => [data]
  }

  /** An answer that ends the question: a digit of a single choice, Submit, or the free-text entry. */
  predicate Ends(kb: Keyboard, kind: D.PressKind)
  {
    !kind.Digit? || !kb.multi
  }

  function Delivered(s: State, key: string, p: Press, kind: D.PressKind, now: int): (State, Toast)
    requires key in s.keyboards
  {
    var kb := s.keyboards[key];
    if kind.Text? then
      (s.(keyboards := s.keyboards[key := kb.(waiting := true)],
          typing := s.typing[key := TypingWait(p.threadId, p.messageId, now + TYPING_TIMEOUT)]), SendTheText)
    else if kind.Submit? then (s.(keyboards := s.keyboards - {key}, refresh := s.refresh - {key}), Submitted)
    else if kb.multi then (s.(refresh := s.refresh[key := p.messageId]), Toggled)
    else (s.(keyboards := s.keyboards - {key}), AnswerSent)
  }

  /** The press of a button the latest keyboard offers. */
  function Act(s: State, key: string, p: Press, kind: D.PressKind, n: nat, w: PressWorld): (State, Toast)
    requires key in s.keyboards && (kind.Text? ==> n <= 9)
  {
    var kb := s.keyboards[key];
    if w.agent.None? then (Retire(s, key), AgentExited)
    else if !w.agent.value.Blocked? && !DialogStillOpen(kb, w.agent.value, w.whileWorking) then
      (Retire(s, key), NotWaiting)
    else
      var keys := KeysFor(kb, kind, n, p.data, w.atSubmit);
      var logged := s.(sent := s.sent + [Sent(p.messageId, kind, Ends(kb, kind), keys)]);
      if !w.delivered then (Retire(logged, key), SendFailed) else Delivered(logged, key, p, kind, w.now)
  }

  function Pressed(s: State, p: Press, w: PressWorld): (State, Toast)
  {
    if p.key.None? then (s, TopicNotMapped)
    else if p.data == D.DONE_DATA then (s, AlreadyAnswered)
    else
      var (kind, n) := D.PressKindOf(p.data);
      var key := p.key.value;
      if kind.Unknown? then (s, UnknownButton)
      else if key !in s.keyboards || s.keyboards[key].messageId != p.messageId then (s, NotLatest)
      else if !Offered(s.keyboards[key], kind, n) then (s, UnknownButton)
      else Act(s, key, p, kind, n, w)
  }

  // ---- Posts ----

  /**
   What a fire meets: the agent's status; whether syncing is off; the screen read for a redraw; the
   text to post, none when a mute, a short turn, quiet mode, a delay or a failed read stops it;
   whether a Telegram error is fatal while the old keyboard is taken off; and the ids the chat
   skips before the new post, none when the post fails.
   */
  datatype FireWorld = FireWorld(
    agent: Option<Status>,
    paused: bool,
    force: bool,
    redraw: Option<seq<string>>,
    text: Option<seq<string>>,
    fatal: bool,
    gap: Option<nat>)

  /** The redraw, and whether nothing else should happen. */
  function RefreshKeyboard(s: State, key: string, messageId: Id, screen: Option<seq<string>>): (State, bool)
  {
    if key !in s.keyboards || s.keyboards[key].messageId != messageId then (s, false)
    else if screen.None? then (s, true)
    else
      var d := D.Parse(screen.value);
      if !d.multi then (s, false)
      else
        var kb := s.keyboards[key].(choices := d.choices, textEntry := d.textEntry, textLabel := d.textLabel,
                                    cursor := d.cursor, submitRow := d.submitRow);
        (s.(keyboards := s.keyboards[key := kb], lastPosted := s.lastPosted[key := screen.value]), true)
  }

  function KeyboardFor(id: Id, d: D.Dialog): Keyboard
  {
    Keyboard(id, d.choices, d.multi, d.textEntry, d.textLabel, d.cursor, d.submitRow, false)
  }

  function Post(s: State, key: string, text: seq<string>, status: Status, w: FireWorld): State
  {
    var retired := Retire(s, key);
    if (key in s.keyboards && w.fatal) || w.gap.None? then retired
    else
      var id := retired.next + w.gap.value;
      var d := if status.Blocked? then D.Parse(text) else D.NO_DIALOG;
      var posted := retired.(lastPosted := retired.lastPosted[key := text], next := id + 1);
      if d.choices == [] then posted else posted.(keyboards := posted.keyboards[key := KeyboardFor(id, d)])
  }

  function PostUnlessSame(s: State, key: string, w: FireWorld): State
    requires w.agent.Some?
  {
    if !w.agent.value.Blocked? && !w.agent.value.Done? then s
    else if w.text.None? || w.text.value == [] then s
    else if key in s.lastPosted && s.lastPosted[key] == w.text.value && !w.force then s
    else Post(s, key, w.text.value, w.agent.value, w)
  }

  function Fire(s: State, key: string, w: FireWorld): State
  {
    if w.agent.None? || w.paused then s
    else if key in s.refresh && !w.force then
      var (r, finished) := RefreshKeyboard(s.(refresh := s.refresh - {key}), key, s.refresh[key], w.redraw);
      if finished then r else PostUnlessSame(r, key, w)
    else PostUnlessSame(s, key, w)
  }

  // ---- Typed text ----

  function MarkTyping(s: State, key: string, messageId: Id): State
  {
    if key in s.keyboards && s.keyboards[key].messageId == messageId then s.(keyboards := s.keyboards - {key}) else s
  }

  function TakeTyping(s: State, key: string, now: int): (State, Option<TypingWait>)
  {
    if key !in s.typing then (s, None)
    else
      var w := s.typing[key];
      if now > w.until then (MarkTyping(EndTyping(s, key), key, w.messageId), None)
      else (EndTyping(s, key).(taken := s.taken + [w.messageId]), Some(w))
  }

  /** A plain message in the topic: the text of an open wait, typed into the agent if that works. */
  function TopicMessage(s: State, key: string, now: int, prompted: bool): State
  {
    var (r, w) := TakeTyping(s, key, now);
    if w.Some? && prompted then MarkTyping(r, key, w.value.messageId) else r
  }

  function CancelTyping(s: State, key: string): State
  {
    if key !in s.typing then s else MarkTyping(EndTyping(s, key), key, s.typing[key].messageId)
  }

  // ---- Runs ----

  datatype Event =
    | OnPress(press: Press, pressWorld: PressWorld)
    | OnFire(key: string, fireWorld: FireWorld)
    | OnMessage(key: string, now: int, prompted: bool)
    | OnCancel(key: string)
    | OnForget(key: string)

  function Do(s: State, e: Event): State
  {
    match e
    case OnPress(p, w) => Pressed(s, p, w).0
    case OnFire(key, w) => Fire(s, key, w)
    case OnMessage(key, now, prompted) => TopicMessage(s, key, now, prompted)
    case OnCancel(key) => CancelTyping(s, key)
    case OnForget(key) => Forget(s, key)
  }

  function DoAll(s: State, events: seq<Event>): State
    decreases events
  {
    if events == [] then s else DoAll(Do(s, events[0]), events[1..])
  }

  // ---- The invariant ----

  /** How many answers that end the question were sent for it, arrived or not. */
  function Endings(sent: seq<Sent>, m: Id): nat
  {
    if sent == [] then 0
    else
      var last := sent[|sent| - 1];
      Endings(sent[..|sent| - 1], m) + if last.messageId == m && last.ending then 1 else 0
  }

  /** How often keys were sent for the question at all. */
  function Attempts(sent: seq<Sent>, m: Id): nat
  {
    if sent == [] then 0
    else Attempts(sent[..|sent| - 1], m) + if sent[|sent| - 1].messageId == m then 1 else 0
  }

  function Takes(taken: seq<Id>, m: Id): nat
  {
    if taken == [] then 0
    else Takes(taken[..|taken| - 1], m) + if taken[|taken| - 1] == m then 1 else 0
  }

  /** Some agent's latest keyboard is under message m. */
  ghost predicate Open(s: State, m: Id)
  {
    exists k :: k in s.keyboards && s.keyboards[k].messageId == m
  }

  ghost predicate QuestionInv(s: State, m: Id)
  {
    && Takes(s.taken, m) <= Endings(s.sent, m) <= 1
    && (m >= s.next ==> Attempts(s.sent, m) == 0 && Endings(s.sent, m) == 0)
  }

  /** A keyboard that does not wait for text has not been answered; an open wait is for a keyboard that does. */
  ghost predicate KeyInv(s: State, k: string)
  {
    && (k in s.keyboards ==>
          && s.keyboards[k].messageId < s.next
          && (!s.keyboards[k].waiting ==> Endings(s.sent, s.keyboards[k].messageId) == 0))
    && (k in s.typing ==>
          && k in s.keyboards && s.keyboards[k].waiting && s.typing[k].messageId == s.keyboards[k].messageId
          && Endings(s.sent, s.typing[k].messageId) == 1
          && Takes(s.taken, s.typing[k].messageId) == 0)
  }

  /** No two agents' keyboards are under one message. */
  ghost predicate Apart(s: State)
  {
    forall k, l :: k in s.keyboards && l in s.keyboards && k != l ==>
                     s.keyboards[k].messageId != s.keyboards[l].messageId
  }

  ghost predicate Inv(s: State)
  {
    && (forall m :: QuestionInv(s, m))
    && (forall k :: KeyInv(s, k))
    && Apart(s)
  }
}
