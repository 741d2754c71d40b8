/**
 One final answer per question: the invariant is kept by every event, and a closed question stays
 closed.
 */
module KeyboardSafety {
  import opened Text
  import opened Agents
  import D = DialogSpec
  import opened KeyboardSpec

  // ---- Counting ----

  lemma Counted(sent: seq<Sent>, r: Sent, m: Id)
    ensures Endings(sent + [r], m) == Endings(sent, m) + if r.messageId == m && r.ending then 1 else 0
    ensures Attempts(sent + [r], m) == Attempts(sent, m) + if r.messageId == m then 1 else 0
  {
    assert (sent + [r])[..|sent|] == sent;
  }

  lemma CountedTake(taken: seq<Id>, x: Id, m: Id)
    ensures Takes(taken + [x], m) == Takes(taken, m) + if x == m then 1 else 0
  {
    assert (taken + [x])[..|taken|] == taken;
  }

  // ---- Changes that only take away ----

  /** Keyboards under the same messages, waiting as before, and waits as before, some of them gone. */
  ghost predicate Fewer(t: State, s: State)
  {
    && t.sent == s.sent && t.taken == s.taken && t.next == s.next
    && (forall k :: k in t.keyboards ==>
                      k in s.keyboards && t.keyboards[k].messageId == s.keyboards[k].messageId
                      && t.keyboards[k].waiting == s.keyboards[k].waiting)
    && (forall k :: k in t.typing ==> k in t.keyboards && k in s.typing && t.typing[k] == s.typing[k])
  }

  lemma FewerKeeps(t: State, s: State)
    requires Fewer(t, s) && Inv(s)
    ensures Inv(t)
  {
    forall m
      ensures QuestionInv(t, m)
    {
      assert QuestionInv(s, m);
    }
    forall k
      ensures KeyInv(t, k)
    {
      assert KeyInv(s, k);
    }
  }

  lemma WaitsHeld(s: State)
    requires forall k :: KeyInv(s, k)
    ensures forall k :: k in s.typing ==> k in s.keyboards && s.keyboards[k].waiting
  {
    forall k | k in s.typing
      ensures k in s.keyboards && s.keyboards[k].waiting
    {
      assert KeyInv(s, k);
    }
  }

  lemma RetireFewer(s: State, key: string)
    requires forall k :: KeyInv(s, k)
    ensures Fewer(Retire(s, key), s) && key !in Retire(s, key).keyboards && key !in Retire(s, key).typing
  {
    assert KeyInv(s, key);
    WaitsHeld(s);
  }

  lemma ForgetFewer(s: State, key: string)
    requires forall k :: KeyInv(s, k)
    ensures Fewer(Forget(s, key), s)
  {
    assert KeyInv(s, key);
    WaitsHeld(s);
  }

  lemma CancelFewer(s: State, key: string)
    requires forall k :: KeyInv(s, k)
    ensures Fewer(CancelTyping(s, key), s)
  {
    WaitsHeld(s);
  }

  lemma RefreshFewer(s: State, key: string, messageId: Id, screen: Option<seq<string>>)
    requires forall k :: KeyInv(s, k)
    ensures Fewer(RefreshKeyboard(s, key, messageId, screen).0, s)
  {
    hide D.Parse;
    WaitsHeld(s);
  }

  // ---- Presses ----

  /** Keys were sent for the question under key's keyboard, not as its final answer. */
  lemma ToggleKeeps(s: State, key: string, r: Sent)
    requires Inv(s) && key in s.keyboards && r.messageId == s.keyboards[key].messageId && !r.ending
    ensures Inv(s.(sent := s.sent + [r]))
  {
    hide Endings, Attempts, Takes;
    var t := s.(sent := s.sent + [r]);
    assert KeyInv(s, key);
    forall m
      ensures QuestionInv(t, m)
    {
      assert QuestionInv(s, m);
      Counted(s.sent, r, m);
    }
    forall k
      ensures KeyInv(t, k)
    {
      assert KeyInv(s, k);
      if k in s.keyboards {
        Counted(s.sent, r, s.keyboards[k].messageId);
      }
    }
  }

  /** The final answer to the question was sent and its keyboard is gone. */
  lemma AnswerKeeps(s: State, key: string, r: Sent, t: State)
    requires Inv(s) && key in s.keyboards && !s.keyboards[key].waiting
    requires r.messageId == s.keyboards[key].messageId && r.ending
    requires t.sent == s.sent + [r] && Fewer(t.(sent := s.sent), s) && key !in t.keyboards
    ensures Inv(t)
  {
    hide Endings, Attempts, Takes;
    assert KeyInv(s, key);
    forall m
      ensures QuestionInv(t, m)
    {
      assert QuestionInv(s, m);
      Counted(s.sent, r, m);
    }
    forall k
      ensures KeyInv(t, k)
    {
      assert KeyInv(s, k);
      if k in t.keyboards {
        assert s.keyboards[k].messageId != r.messageId;
        Counted(s.sent, r, s.keyboards[k].messageId);
      }
    }
  }

  /** The free-text entry was chosen and the keyboard waits for the text. */
  lemma TextKeeps(s: State, key: string, r: Sent, w: TypingWait)
    requires Inv(s) && key in s.keyboards && !s.keyboards[key].waiting
    requires r.messageId == s.keyboards[key].messageId == w.messageId && r.ending
    ensures Inv(s.(sent := s.sent + [r], keyboards := s.keyboards[key := s.keyboards[key].(waiting := true)],
                   typing := s.typing[key := w]))
  {
    hide Endings, Attempts, Takes;
    var t := s.(sent := s.sent + [r], keyboards := s.keyboards[key := s.keyboards[key].(waiting := true)],
      typing := s.typing[key := w]);
    assert KeyInv(s, key);
    assert QuestionInv(s, r.messageId);
    Counted(s.sent, r, r.messageId);
    forall m
      ensures QuestionInv(t, m)
    {
      assert QuestionInv(s, m);
      Counted(s.sent, r, m);
    }
    forall k
      ensures KeyInv(t, k)
    {
      assert KeyInv(s, k);
      if k in s.keyboards && k != key {
        assert s.keyboards[k].messageId != r.messageId;
        Counted(s.sent, r, s.keyboards[k].messageId);
      }
    }
  }

  lemma ActKeeps(s: State, key: string, p: Press, kind: D.PressKind, n: nat, w: PressWorld)
    requires Inv(s) && key in s.keyboards && p.messageId == s.keyboards[key].messageId && !s.keyboards[key].waiting
    requires !kind.Unknown? && (kind.Text? ==> n <= 9)
    ensures Inv(Act(s, key, p, kind, n, w).0)
  {
    hide Inv, KeyInv, QuestionInv, Apart, Endings, Attempts, Takes, DialogStillOpen, KeysFor;
    InvKeys(s);
    var kb := s.keyboards[key];
    var r := Sent(p.messageId, kind, Ends(kb, kind), KeysFor(kb, kind, n, p.data, w.atSubmit));
    var logged := s.(sent := s.sent + [r]);
    RetireFewer(s, key);
    FewerKeeps(Retire(s, key), s);
    if w.agent.None? || (!w.agent.value.Blocked? && !DialogStillOpen(kb, w.agent.value, w.whileWorking)) {
    } else if Ends(kb, kind) {
      if w.delivered && kind.Text? {
        TextKeeps(s, key, r, TypingWait(p.threadId, p.messageId, w.now + TYPING_TIMEOUT));
      } else {
        AnsweredFewer(s, key, p, kind, n, w);
        AnswerKeeps(s, key, r, Act(s, key, p, kind, n, w).0);
      }
    } else {
      ToggleKeeps(s, key, r);
      InvKeys(logged);
      RetireFewer(logged, key);
      FewerKeeps(Retire(logged, key), logged);
      RefreshMapFewer(logged, logged.refresh[key := p.messageId]);
      FewerKeeps(logged.(refresh := logged.refresh[key := p.messageId]), logged);
    }
  }

  lemma InvKeys(s: State)
    requires Inv(s)
    ensures forall k :: KeyInv(s, k)
  {
  }

  /** After a final answer other than the free text the keyboard is gone and nothing else is new. */
  lemma AnsweredFewer(s: State, key: string, p: Press, kind: D.PressKind, n: nat, w: PressWorld)
    requires (forall k :: KeyInv(s, k)) && key in s.keyboards && !s.keyboards[key].waiting && (kind.Text? ==> n <= 9)
    requires Ends(s.keyboards[key], kind) && !(w.delivered && kind.Text?)
    requires w.agent.Some? && !kind.Unknown?
    requires w.agent.value.Blocked? || DialogStillOpen(s.keyboards[key], w.agent.value, w.whileWorking)
    ensures var t, kb := Act(s, key, p, kind, n, w).0, s.keyboards[key];
      && t.sent == s.sent + [Sent(p.messageId, kind, Ends(kb, kind), KeysFor(kb, kind, n, p.data, w.atSubmit))]
      && Fewer(t.(sent := s.sent), s) && key !in t.keyboards
  {
    hide KeyInv, DialogStillOpen, KeysFor, Fewer;
    GoneFewer(s, key);
    RetireFewer(s, key);
    var t := Act(s, key, p, kind, n, w).0;
    if !w.delivered {
      assert t.(sent := s.sent) == Retire(s, key);
    } else if kind.Submit? {
      assert t.(sent := s.sent) == s.(keyboards := s.keyboards - {key}, refresh := s.refresh - {key});
    } else {
      assert t.(sent := s.sent) == s.(keyboards := s.keyboards - {key});
    }
  }

  /** Without its keyboard an agent that waits for no text has lost only that. */
  lemma GoneFewer(s: State, key: string)
    requires (forall k :: KeyInv(s, k)) && key in s.keyboards && !s.keyboards[key].waiting
    ensures Fewer(s.(keyboards := s.keyboards - {key}), s)
    ensures Fewer(s.(keyboards := s.keyboards - {key}, refresh := s.refresh - {key}), s)
  {
    assert KeyInv(s, key);
    WaitsHeld(s);
  }

  lemma RefreshMapFewer(s: State, refresh: map<string, Id>)
    requires forall k :: KeyInv(s, k)
    ensures Fewer(s.(refresh := refresh), s)
  {
    WaitsHeld(s);
  }

  lemma PressKeeps(s: State, p: Press, w: PressWorld)
    requires Inv(s)
    ensures Inv(Pressed(s, p, w).0)
  {
    hide Inv, Act, D.PressKindOf;
    var (kind, n) := D.PressKindOf(p.data);
    if p.key.Some? && p.data != D.DONE_DATA && !kind.Unknown? && p.key.value in s.keyboards
      && s.keyboards[p.key.value].messageId == p.messageId && Offered(s.keyboards[p.key.value], kind, n) {
      ActKeeps(s, p.key.value, p, kind, n, w);
    }
  }

  // ---- Posts ----

  /** A new question, under a message id no question had. */
  lemma NewKeyboardKeeps(s: State, key: string, text: seq<string>, id: Id, d: D.Dialog)
    requires Inv(s) && key !in s.typing && id >= s.next
    ensures Inv(s.(lastPosted := s.lastPosted[key := text], next := id + 1))
    ensures Inv(s.(lastPosted := s.lastPosted[key := text], next := id + 1,
                   keyboards := s.keyboards[key := KeyboardFor(id, d)]))
  {
    hide Endings, Attempts, Takes;
    var t := s.(lastPosted := s.lastPosted[key := text], next := id + 1);
    var u := t.(keyboards := s.keyboards[key := KeyboardFor(id, d)]);
    forall m
      ensures QuestionInv(t, m) && QuestionInv(u, m)
    {
      assert QuestionInv(s, m);
    }
    assert QuestionInv(s, id);
    forall k | k in s.keyboards
      ensures s.keyboards[k].messageId < id
    {
      assert KeyInv(s, k);
    }
    forall k
      ensures KeyInv(t, k) && KeyInv(u, k)
    {
      assert KeyInv(s, k);
    }
  }

  lemma PostKeeps(s: State, key: string, text: seq<string>, status: Status, w: FireWorld)
    requires Inv(s)
    ensures Inv(Post(s, key, text, status, w))
  {
    hide Inv, D.Parse, KeyInv;
    InvKeys(s);
    RetireFewer(s, key);
    FewerKeeps(Retire(s, key), s);
    hide Retire, Fewer;
    var retired := Retire(s, key);
    if w.gap.Some? {
      var d := if status.Blocked? then D.Parse(text) else D.NO_DIALOG;
      NewKeyboardKeeps(retired, key, text, retired.next + w.gap.value, d);
    }
  }

  lemma PostUnlessSameKeeps(s: State, key: string, w: FireWorld)
    requires Inv(s) && w.agent.Some?
    ensures Inv(PostUnlessSame(s, key, w))
  {
    hide Inv, Post;
    if w.text.Some? {
      PostKeeps(s, key, w.text.value, w.agent.value, w);
    }
  }

  lemma FireKeeps(s: State, key: string, w: FireWorld)
    requires Inv(s)
    ensures Inv(Fire(s, key, w))
  {
    hide Inv, PostUnlessSame, RefreshKeyboard, KeyInv, Fewer;
    if w.agent.Some? {
      PostUnlessSameKeeps(s, key, w);
      if key in s.refresh {
        var t := s.(refresh := s.refresh - {key});
        InvKeys(s);
        RefreshMapFewer(s, s.refresh - {key});
        FewerKeeps(t, s);
        InvKeys(t);
        RefreshFewer(t, key, s.refresh[key], w.redraw);
        FewerKeeps(RefreshKeyboard(t, key, s.refresh[key], w.redraw).0, t);
        PostUnlessSameKeeps(RefreshKeyboard(t, key, s.refresh[key], w.redraw).0, key, w);
      }
    }
  }

  // ---- Typed text ----

  lemma TakeKeeps(s: State, key: string)
    requires Inv(s) && key in s.typing
    ensures Inv(EndTyping(s, key).(taken := s.taken + [s.typing[key].messageId]))
  {
    hide Endings, Attempts, Takes;
    var x := s.typing[key].messageId;
    var t := EndTyping(s, key).(taken := s.taken + [x]);
    assert KeyInv(s, key);
    forall m
      ensures QuestionInv(t, m)
    {
      assert QuestionInv(s, m);
      CountedTake(s.taken, x, m);
    }
    forall k
      ensures KeyInv(t, k)
    {
      assert KeyInv(s, k);
      if k in t.typing {
        assert s.keyboards[k].messageId != x;
        CountedTake(s.taken, x, s.typing[k].messageId);
      }
    }
  }

  lemma MarkFewer(s: State, key: string, messageId: Id)
    requires (forall k :: KeyInv(s, k)) && key !in s.typing
    ensures Fewer(MarkTyping(s, key, messageId), s)
  {
    WaitsHeld(s);
  }

  lemma MessageKeeps(s: State, key: string, now: int, prompted: bool)
    requires Inv(s)
    ensures Inv(TopicMessage(s, key, now, prompted))
  {
    hide Inv, KeyInv, MarkTyping, Fewer;
    if key in s.typing {
      var m := s.typing[key].messageId;
      TakeKeeps(s, key);
      var t := EndTyping(s, key).(taken := s.taken + [m]);
      InvKeys(t);
      MarkFewer(t, key, m);
      FewerKeeps(MarkTyping(t, key, m), t);
      InvKeys(s);
      EndFewer(s, key);
      FewerKeeps(EndTyping(s, key), s);
      InvKeys(EndTyping(s, key));
      MarkFewer(EndTyping(s, key), key, m);
      FewerKeeps(MarkTyping(EndTyping(s, key), key, m), EndTyping(s, key));
    }
  }

  lemma EndFewer(s: State, key: string)
    requires forall k :: KeyInv(s, k)
    ensures Fewer(EndTyping(s, key), s)
  {
    WaitsHeld(s);
  }

  // ---- Runs ----

  lemma EventKeeps(s: State, e: Event)
    requires Inv(s)
    ensures Inv(Do(s, e))
  {
    hide Inv, KeyInv, Pressed, Fire, TopicMessage, CancelTyping, Forget, Fewer;
    InvKeys(s);
    match e {
      case OnPress(p, w) => PressKeeps(s, p, w);
      case OnFire(key, w) => FireKeeps(s, key, w);
      case OnMessage(key, now, prompted) => MessageKeeps(s, key, now, prompted);
      case OnCancel(key) =>
        CancelFewer(s, key);
        FewerKeeps(CancelTyping(s, key), s);
      case OnForget(key) =>
        ForgetFewer(s, key);
        FewerKeeps(Forget(s, key), s);
    }
  }

  lemma {:induction false} RunKeeps(s: State, events: seq<Event>)
    requires Inv(s)
    ensures Inv(DoAll(s, events))
    decreases events
  {
    hide Inv, Do;
    if events != [] {
      EventKeeps(s, events[0]);
      RunKeeps(Do(s, events[0]), events[1..]);
    }
  }

  /**
   Over any run each question gets at most one final answer, and a typed text only after its
   free-text entry was chosen, at most one.
   */
  lemma OneFinalAnswer(events: seq<Event>, m: Id)
    ensures var s := DoAll(START, events);
      Takes(s.taken, m) <= Endings(s.sent, m) <= 1
  {
    assert Inv(START);
    RunKeeps(START, events);
    assert QuestionInv(DoAll(START, events), m);
  }

  // ---- Closed questions ----

  /** The question was posted and its keyboard retired, superseded or answered. */
  ghost predicate Closed(s: State, m: Id)
  {
    m < s.next && !Open(s, m)
  }

  /** Nothing more happened for the closed question m. */
  ghost predicate StaysClosed(s: State, t: State, m: Id)
  {
    && Closed(t, m)
    && Attempts(t.sent, m) == Attempts(s.sent, m)
    && Takes(t.taken, m) == Takes(s.taken, m)
  }

  lemma FewerCloses(t: State, s: State, m: Id)
    requires Fewer(t, s) && Closed(s, m)
    ensures StaysClosed(s, t, m)
  {
    forall k | k in t.keyboards
      ensures t.keyboards[k].messageId != m
    {
      assert s.keyboards[k].messageId != m;
    }
  }

  lemma ActCloses(s: State, key: string, p: Press, kind: D.PressKind, n: nat, w: PressWorld, m: Id)
    requires Inv(s) && Closed(s, m) && key in s.keyboards && p.messageId == s.keyboards[key].messageId
    requires kind.Text? ==> n <= 9
    ensures StaysClosed(s, Act(s, key, p, kind, n, w).0, m)
  {
    hide Attempts, Takes, Inv, Endings, DialogStillOpen, KeysFor, KeyInv, Ends;
    var kb, t := s.keyboards[key], Act(s, key, p, kind, n, w).0;
    assert kb.messageId != m;
    Counted(s.sent, Sent(p.messageId, kind, Ends(kb, kind), KeysFor(kb, kind, n, p.data, w.atSubmit)), m);
    assert forall k :: k in t.keyboards ==> k in s.keyboards && t.keyboards[k].messageId == s.keyboards[k].messageId;
  }

  lemma PressCloses(s: State, p: Press, w: PressWorld, m: Id)
    requires Inv(s) && Closed(s, m)
    ensures StaysClosed(s, Pressed(s, p, w).0, m)
  {
    hide Inv, Act, Closed, D.PressKindOf;
    var (kind, n) := D.PressKindOf(p.data);
    if p.key.Some? && p.data != D.DONE_DATA && !kind.Unknown? && p.key.value in s.keyboards
      && s.keyboards[p.key.value].messageId == p.messageId && Offered(s.keyboards[p.key.value], kind, n) {
      ActCloses(s, p.key.value, p, kind, n, w, m);
    }
  }

  lemma PostCloses(s: State, key: string, text: seq<string>, status: Status, w: FireWorld, m: Id)
    requires Inv(s) && Closed(s, m)
    ensures StaysClosed(s, Post(s, key, text, status, w), m)
  {
    hide Attempts, Takes, Inv, D.Parse, KeyInv, Fewer;
    InvKeys(s);
    RetireFewer(s, key);
    FewerCloses(Retire(s, key), s, m);
    hide Retire;
    var retired, t := Retire(s, key), Post(s, key, text, status, w);
    forall k | k in t.keyboards
      ensures t.keyboards[k].messageId != m
    {
      assert k != key ==> k in retired.keyboards;
    }
  }

  lemma PostUnlessSameCloses(s: State, key: string, w: FireWorld, m: Id)
    requires Inv(s) && w.agent.Some? && Closed(s, m)
    ensures StaysClosed(s, PostUnlessSame(s, key, w), m)
  {
    hide Inv, Post, Closed;
    if w.text.Some? {
      PostCloses(s, key, w.text.value, w.agent.value, w, m);
    }
  }

  lemma FireCloses(s: State, key: string, w: FireWorld, m: Id)
    requires Inv(s) && Closed(s, m)
    ensures StaysClosed(s, Fire(s, key, w), m)
  {
    hide Inv, PostUnlessSame, RefreshKeyboard, KeyInv, Fewer, Closed;
    if w.agent.Some? {
      PostUnlessSameCloses(s, key, w, m);
      if key in s.refresh {
        var t := s.(refresh := s.refresh - {key});
        var r := RefreshKeyboard(t, key, s.refresh[key], w.redraw).0;
        InvKeys(s);
        RefreshMapFewer(s, s.refresh - {key});
        FewerKeeps(t, s);
        FewerCloses(t, s, m);
        InvKeys(t);
        RefreshFewer(t, key, s.refresh[key], w.redraw);
        FewerKeeps(r, t);
        FewerCloses(r, t, m);
        PostUnlessSameCloses(r, key, w, m);
      }
    }
  }

  lemma MessageCloses(s: State, key: string, now: int, prompted: bool, m: Id)
    requires Inv(s) && Closed(s, m)
    ensures StaysClosed(s, TopicMessage(s, key, now, prompted), m)
  {
    hide Attempts, Takes, Endings;
    if key in s.typing {
      assert KeyInv(s, key);
      var x, t := s.typing[key].messageId, TopicMessage(s, key, now, prompted);
      assert x != m;
      CountedTake(s.taken, x, m);
      assert forall k :: k in t.keyboards ==> k in s.keyboards && t.keyboards[k] == s.keyboards[k];
    }
  }

  lemma EventCloses(s: State, e: Event, m: Id)
    requires Inv(s) && Closed(s, m)
    ensures StaysClosed(s, Do(s, e), m)
  {
    hide Inv, KeyInv, Pressed, Fire, TopicMessage, CancelTyping, Forget, Fewer, Closed;
    InvKeys(s);
    match e {
      case OnPress(p, w) => PressCloses(s, p, w, m);
      case OnFire(key, w) => FireCloses(s, key, w, m);
      case OnMessage(key, now, prompted) => MessageCloses(s, key, now, prompted, m);
      case OnCancel(key) =>
        CancelFewer(s, key);
        FewerCloses(CancelTyping(s, key), s, m);
      case OnForget(key) =>
        ForgetFewer(s, key);
        FewerCloses(Forget(s, key), s, m);
    }
  }

  /** Once closed a question stays closed: no key is sent and no typed text taken for it again. */
  lemma {:induction false} ClosedForGood(s: State, events: seq<Event>, m: Id)
    requires Inv(s) && Closed(s, m)
    ensures StaysClosed(s, DoAll(s, events), m)
    decreases events
  {
    hide Inv, Do, Closed;
    if events != [] {
      EventKeeps(s, events[0]);
      EventCloses(s, events[0], m);
      ClosedForGood(Do(s, events[0]), events[1..], m);
    }
  }

  /** Retiring closes the question, and so does forgetting its agent. */
  lemma RetiredIsClosed(s: State, key: string)
    requires Inv(s) && key in s.keyboards
    ensures Closed(Retire(s, key), s.keyboards[key].messageId)
    ensures Closed(Forget(s, key), s.keyboards[key].messageId)
  {
    hide Endings, Attempts, Takes;
    assert KeyInv(s, key);
  }

  /** So does the post that supersedes it, even when that post fails. */
  lemma SupersededIsClosed(s: State, key: string, text: seq<string>, status: Status, w: FireWorld)
    requires Inv(s) && key in s.keyboards
    ensures Closed(Post(s, key, text, status, w), s.keyboards[key].messageId)
  {
    hide D.Parse, Inv, KeyInv;
    var m, retired, t := s.keyboards[key].messageId, Retire(s, key), Post(s, key, text, status, w);
    RetiredIsClosed(s, key);
    hide Retire;
    forall k | k in t.keyboards
      ensures t.keyboards[k].messageId != m
    {
      assert k != key ==> k in retired.keyboards;
    }
  }

  // ---- What the buttons do ----

  /** The answer a button leads to when the agent is blocked and its keys arrive. */
  function Effect(d: D.Dialog, i: nat): Toast
  {
    match D.Meaning(d, i).0
    case Submit => Submitted
    case Text => SendTheText
    case _ => if d.multi then Toggled else AnswerSent
  }

  lemma SubmitDialogIs(d: D.Dialog, id: Id, screen: Option<seq<string>>)
    ensures D.SubmitKeys(SubmitDialog(KeyboardFor(id, d), screen)) ==
      if screen.Some? && D.Parse(screen.value).multi then D.SubmitKeys(D.Parse(screen.value)) else D.SubmitKeys(d)
  {
    hide D.Parse;
  }

  /** The keyboard is under the message and stands for the dialog. */
  ghost predicate ShowsDialog(kb: Keyboard, id: Id, d: D.Dialog)
  {
    && kb.messageId == id && kb.choices == d.choices && kb.multi == d.multi && kb.textEntry == d.textEntry
    && kb.textLabel == d.textLabel && kb.cursor == d.cursor && kb.submitRow == d.submitRow
  }

  /** A press that toggled an option is followed by a redraw: the same question with what the screen shows. */
  lemma ToggledIsRedrawn(s: State, key: string, w: FireWorld)
    requires w.agent.Some? && !w.paused && Redraws(s, key, w) && w.redraw.Some?
    ensures var t, d, was := Fire(s, key, w), D.Parse(w.redraw.value), s.keyboards[key];
      && key in t.keyboards && t.keyboards[key].messageId == was.messageId && t.keyboards[key].waiting == was.waiting
      && (was.multi ==> ShowsDialog(t.keyboards[key], was.messageId, d))
      && key !in t.refresh && t.sent == s.sent && t.next == s.next
  {
    hide D.Parse;
  }

  /** What a fire has to redraw, when it is not forced. */
  ghost predicate Redraws(s: State, key: string, w: FireWorld)
  {
    && key in s.refresh && !w.force && key in s.keyboards && s.keyboards[key].messageId == s.refresh[key]
    && (w.redraw.None? || D.Parse(w.redraw.value).multi)
  }

  /** The text is posted under a new message, with a keyboard exactly when a dialog is at its end. */
  ghost predicate Posted(t: State, key: string, text: seq<string>, id: Id)
  {
    var d := D.Parse(text);
    && key in t.lastPosted && t.lastPosted[key] == text && t.next == id + 1
    && (key in t.keyboards <==> d.choices != [])
    && (d.choices != [] ==> ShowsDialog(t.keyboards[key], id, d) && !t.keyboards[key].waiting)
  }

  lemma PostIsPosted(s: State, key: string, text: seq<string>, w: FireWorld)
    requires !w.fatal && w.gap.Some?
    ensures Posted(Post(s, key, text, Blocked, w), key, text, s.next + w.gap.value)
  {
    hide D.Parse, Retire;
    RetireKeepsRest(s, key);
  }

  /**
   A blocked agent with something new to say, and no redraw in between, gets its text posted under a new
   message; a dialog at its end gets a keyboard that shows it and is not waiting.
   */
  lemma NewDialogIsPosted(s: State, key: string, w: FireWorld)
    requires w.agent == Some(Blocked) && !w.paused && !Redraws(s, key, w)
    requires w.text.Some? && w.text.value != []
    requires key in s.lastPosted ==> s.lastPosted[key] != w.text.value || w.force
    requires !w.fatal && w.gap.Some?
    ensures Posted(Fire(s, key, w), key, w.text.value, s.next + w.gap.value)
  {
    hide D.Parse, Post, Posted;
    PostIsPosted(s, key, w.text.value, w);
    PostIsPosted(s.(refresh := s.refresh - {key}), key, w.text.value, w);
  }

  lemma RetireKeepsRest(s: State, key: string)
    ensures var r := Retire(s, key);
      r.next == s.next && r.lastPosted == s.lastPosted && r.keyboards == s.keyboards - {key}
  {
  }

  /** The free-text button opens a wait of ten minutes: a message is taken for it exactly in that time. */
  lemma TextIsTakenInTime(s: State, key: string, p: Press, kind: D.PressKind, since: int, now: int, prompted: bool)
    requires key in s.keyboards && kind.Text? && s.keyboards[key].messageId == p.messageId
    ensures var t := TopicMessage(Delivered(s, key, p, kind, since).0, key, now, prompted);
      && t.taken == (if now <= since + 600 then s.taken + [p.messageId] else s.taken)
      && key !in t.typing
      && (key in t.keyboards <==> now <= since + 600 && !prompted)
  {
  }

  /** The screen shows a dialog with as many options and the same entries. */
  ghost predicate StillShown(d: D.Dialog, screen: Option<seq<string>>)
  {
    screen.Some? &&
    var shown := D.Parse(screen.value);
    |shown.choices| == |d.choices| && shown.multi == d.multi && shown.textEntry == d.textEntry
  }

  /** Once the agent waits for nothing, a press sends nothing and takes the keyboard off. */
  lemma LatePressSendsNothing(s: State, key: string, d: D.Dialog, id: Id, i: nat, w: PressWorld, threadId: int)
    requires D.Sound(d) && i < |D.Buttons(d)|
    requires key in s.keyboards && s.keyboards[key] == KeyboardFor(id, d)
    requires w.agent != Some(Blocked) && !(w.agent == Some(Working) && StillShown(d, w.whileWorking))
    ensures var (t, toast) := Pressed(s, Press(Some(key), threadId, id, D.Buttons(d)[i]), w);
      && toast == (if w.agent.None? then AgentExited else NotWaiting)
      && t.sent == s.sent && t.keyboards == s.keyboards - {key}
  {
    hide D.IsService, D.HasCheckbox, D.PressKindOf, D.Parse;
    D.ButtonsDecode(d);
    if i < |d.choices| {
      D.OptionButtonAt(d.choices, i);
    }
  }

  /**
   Under a freshly posted dialog every button does what it stands for: the agent gets the digit shown,
   or the keys that submit, and the operator the matching answer.
   */
  lemma PostedButtonsWork(s: State, key: string, d: D.Dialog, id: Id, i: nat, w: PressWorld, threadId: int)
    requires D.Sound(d) && i < |D.Buttons(d)|
    requires key in s.keyboards && s.keyboards[key] == KeyboardFor(id, d)
    requires w.agent == Some(Blocked) || (w.agent == Some(Working) && StillShown(d, w.whileWorking))
    requires w.delivered
    ensures var (t, toast) := Pressed(s, Press(Some(key), threadId, id, D.Buttons(d)[i]), w);
      && toast == Effect(d, i)
      && |t.sent| == |s.sent| + 1 && t.sent[..|s.sent|] == s.sent
      && t.sent[|s.sent|].messageId == id
      && t.sent[|s.sent|].keys ==
           if !D.Meaning(d, i).0.Submit? then [D.Itoa(D.Meaning(d, i).1)]
           else if w.atSubmit.Some? && D.Parse(w.atSubmit.value).multi then D.SubmitKeys(D.Parse(w.atSubmit.value))
           else D.SubmitKeys(d)
  {
    hide D.IsService, D.HasCheckbox, D.PressKindOf, SubmitDialog, D.SubmitKeys, D.Parse;
    SubmitDialogIs(d, id, w.atSubmit);
    D.ButtonsDecode(d);
    if i < |d.choices| {
      D.OptionButtonAt(d.choices, i);
    }
  }
}
