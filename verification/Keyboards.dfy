/** The outbound poster's maps of keyboards, redraws and typing waits, changed in place. */
module Keyboards {
  import opened Text
  import opened Agents
  import D = DialogSpec
  import Dialog
  import S = KeyboardSpec

  class Outbound {
    var keyboards: map<string, S.Keyboard>
    var refresh: map<string, S.Id>
    var typing: map<string, S.TypingWait>
    var lastPosted: map<string, seq<string>>
    /** The first message id the chat has not used. */
    var next: S.Id
    ghost var sent: seq<S.Sent>
    ghost var taken: seq<S.Id>

    ghost function Value(): S.State
      reads this
    {
      S.State(keyboards, refresh, typing, lastPosted, next, sent, taken)
    }

    constructor ()
      ensures Value() == S.START
    {
      keyboards, refresh, typing, lastPosted, next, sent, taken := map[], map[], map[], map[], 0, [], [];
    }

    method Retire(key: string)
      modifies this
      ensures Value() == S.Retire(old(Value()), key)
    {
      if key !in keyboards {
        return;
      }
      var kb := keyboards[key];
      keyboards := keyboards - {key};
      refresh := refresh - {key};
      if kb.waiting {
        EndTyping(key);
      }
    }

    method EndTyping(key: string)
      modifies this`typing
      ensures typing == old(typing) - {key}
    {
      if key in typing {
        typing := typing - {key};
      }
    }

    /** Everything kept for an agent that exited is dropped. */
    method Forget(key: string)
      modifies this
      ensures Value() == S.Forget(old(Value()), key)
    {
      lastPosted := lastPosted - {key};
      refresh := refresh - {key};
      EndTyping(key);
      Retire(key);
    }

    /** The keys for a press; the Submit press reads the screen for the rows once more. */
    static method KeysFor(kb: S.Keyboard, kind: D.PressKind, n: nat, data: string, screen: Option<seq<string>>)
      returns (keys: seq<string>)
      requires kind.Text? ==> n <= 9
      ensures keys == S.KeysFor(kb, kind, n, data, screen)
    {
      hide D.Parse, D.SubmitKeys;
      if kind.Text? {
        return [D.Itoa(n)];
      }
      if !kind.Submit? {
        return [data];
      }
      var d := D.NO_DIALOG.(cursor := kb.cursor, submitRow := kb.submitRow);
      if screen.Some? {
        var live := Dialog.ParseDialog(screen.value);
        if live.multi {
          d := live;
        }
      }
      keys := Dialog.SubmitKeys(d);
    }

    static method DialogStillOpen(kb: S.Keyboard, status: Status, screen: Option<seq<string>>) returns (open: bool)
      ensures open == S.DialogStillOpen(kb, status, screen)
    {
      hide D.Parse;
      if !status.Working? || screen.None? {
        return false;
      }
      var d := Dialog.ParseDialog(screen.value);
      return |d.choices| > 0 && |d.choices| == |kb.choices| && d.multi == kb.multi && d.textEntry == kb.textEntry;
    }

    method Press(p: S.Press, w: S.PressWorld) returns (toast: S.Toast)
      modifies this
      ensures (Value(), toast) == S.Pressed(old(Value()), p, w)
    {
      hide D.PressKindOf, D.Parse, S.KeysFor, S.DialogStillOpen;
      if p.key.None? {
        return S.TopicNotMapped;
      }
      if p.data == D.DONE_DATA {
        return S.AlreadyAnswered;
      }
      var (kind, n) := D.PressKindOf(p.data);
      if kind.Unknown? {
        return S.UnknownButton;
      }
      var key := p.key.value;
      if key !in keyboards || keyboards[key].messageId != p.messageId {
        return S.NotLatest;
      }
      var kb := keyboards[key];
      if (kind.Submit? && !kb.multi) || (kind.Text? && (kb.textEntry == 0 || n != kb.textEntry)) || kb.waiting {
        return S.UnknownButton;
      }
      if w.agent.None? {
        Retire(key);
        return S.AgentExited;
      }
      if !w.agent.value.Blocked? {
        var open := DialogStillOpen(kb, w.agent.value, w.whileWorking);
        if !open {
          Retire(key);
          return S.NotWaiting;
        }
      }
      var keys := KeysFor(kb, kind, n, p.data, w.atSubmit);
      sent := sent + [S.Sent(p.messageId, kind, S.Ends(kb, kind), keys)];
      if !w.delivered {
        Retire(key);
        return S.SendFailed;
      }
      if kind.Text? {
        PressedText(key, kb, p, w.now);
        return S.SendTheText;
      }
      if kind.Submit? {
        keyboards := keyboards - {key};
        refresh := refresh - {key};
        return S.Submitted;
      }
      if kb.multi {
        refresh := refresh[key := p.messageId];
        return S.Toggled;
      }
      keyboards := keyboards - {key};
      return S.AnswerSent;
    }

    method PressedText(key: string, kb: S.Keyboard, p: S.Press, now: int)
      modifies this`keyboards, this`typing
      ensures keyboards == old(keyboards)[key := kb.(waiting := true)]
      ensures typing == old(typing)[key := S.TypingWait(p.threadId, p.messageId, now + S.TYPING_TIMEOUT)]
    {
      keyboards := keyboards[key := kb.(waiting := true)];
      typing := typing[key := S.TypingWait(p.threadId, p.messageId, now + S.TYPING_TIMEOUT)];
    }

    /** Redraws the keyboard from the screen; true when nothing else should happen. */
    method RefreshKeyboard(key: string, messageId: S.Id, screen: Option<seq<string>>) returns (finished: bool)
      modifies this`keyboards, this`lastPosted
      ensures (Value(), finished) == S.RefreshKeyboard(old(Value()), key, messageId, screen)
    {
      hide D.Parse;
      if key !in keyboards || keyboards[key].messageId != messageId {
        return false;
      }
      if screen.None? {
        return true;
      }
      var kb := keyboards[key];
      var d := Dialog.ParseDialog(screen.value);
      if !d.multi {
        return false;
      }
      kb := kb.(choices := d.choices, textEntry := d.textEntry, textLabel := d.textLabel);
      kb := kb.(cursor := d.cursor, submitRow := d.submitRow);
      keyboards := keyboards[key := kb];
      lastPosted := lastPosted[key := screen.value];
      return true;
    }

    /** Posts the screen of a blocked or done agent, unless something stops it. */
    method Fire(key: string, w: S.FireWorld)
      modifies this
      ensures Value() == S.Fire(old(Value()), key, w)
    {
      hide S.Post, S.RefreshKeyboard;
      if w.agent.None? || w.paused {
        return;
      }
      if key in refresh && !w.force {
        var messageId := refresh[key];
        refresh := refresh - {key};
        var finished := RefreshKeyboard(key, messageId, w.redraw);
        if finished {
          return;
        }
      }
      if !w.agent.value.Blocked? && !w.agent.value.Done? {
        return;
      }
      if w.text.None? || w.text.value == [] {
        return;
      }
      var text := w.text.value;
      if key in lastPosted && lastPosted[key] == text && !w.force {
        return;
      }
      Post(key, text, w.agent.value, w);
    }

    /** Takes the old question's keyboard off and posts the new one. */
    method Post(key: string, text: seq<string>, status: Status, w: S.FireWorld)
      modifies this
      ensures Value() == S.Post(old(Value()), key, text, status, w)
    {
      hide D.Parse, S.Retire;
      var had := key in keyboards;
      Retire(key);
      if had && w.fatal {
        return;
      }
      var d := D.NO_DIALOG;
      if status.Blocked? {
        d := Dialog.ParseDialog(text);
      }
      if w.gap.None? {
        return;
      }
      var id := next + w.gap.value;
      next := id + 1;
      lastPosted := lastPosted[key := text];
      if |d.choices| > 0 {
        keyboards := keyboards[key :=
          S.Keyboard(id, d.choices, d.multi, d.textEntry, d.textLabel, d.cursor, d.submitRow, false)];
      }
    }

    method MarkTyping(key: string, messageId: S.Id)
      modifies this`keyboards
      ensures Value() == S.MarkTyping(old(Value()), key, messageId)
    {
      if key in keyboards && keyboards[key].messageId == messageId {
        keyboards := keyboards - {key};
      }
    }

    /** Hands out a wait that has not expired, and forgets it either way. */
    method TakeTyping(key: string, now: int) returns (w: Option<S.TypingWait>)
      modifies this
      ensures (Value(), w) == S.TakeTyping(old(Value()), key, now)
    {
      if key !in typing {
        return None;
      }
      var wait := typing[key];
      if now > wait.until {
        EndTyping(key);
        MarkTyping(key, wait.messageId);
        return None;
      }
      typing := typing - {key};
      taken := taken + [wait.messageId];
      return Some(wait);
    }

    method TopicMessage(key: string, now: int, prompted: bool)
      modifies this
      ensures Value() == S.TopicMessage(old(Value()), key, now, prompted)
    {
      hide S.MarkTyping;
      var w := TakeTyping(key, now);
      if w.Some? && prompted {
        MarkTyping(key, w.value.messageId);
      }
    }

    method CancelTyping(key: string)
      modifies this
      ensures Value() == S.CancelTyping(old(Value()), key)
    {
      if key !in typing {
        return;
      }
      var messageId := typing[key].messageId;
      EndTyping(key);
      MarkTyping(key, messageId);
    }
  }
}
