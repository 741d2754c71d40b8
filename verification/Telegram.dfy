/**
 Telegram's side of the forum topics. Every call may be answered at will; a failed call has no
 effect, a call on a topic that does not exist fails, and a new topic gets a thread id never used
 before.
 */
module Telegram {
  import opened Text
  import opened Agents
  import opened MappingSpec
  import Format

  /** What a topic shows: its name, its status icon and whether it is closed. */
  datatype Thread = Thread(name: string, status: Status, closed: bool)

  /**
   The answers the error policy tells apart. Refused is a closed topic, Unauthorized a bad token,
   another poller or a migrated chat, Cancelled an ended context, Transient anything else.
   */
  datatype Reply = Accepted | Gone | Refused | Forbidden | Unauthorized | Cancelled | Transient

  /** How one call is answered; gap and echo matter to an accepted creation only. */
  datatype Choice = Choice(reply: Reply, gap: nat, echo: bool)

  type Oracle = nat -> Choice

  datatype World = World(
    threads: map<int, Thread>,
    nextId: int,
    created: set<int>,
    calls: nat,
    failures: nat)

  datatype Called = Called(world: World, reply: Reply)

  datatype Creation = Creation(world: World, reply: Reply, thread: int, echoed: string)

  /** The answer to the next call, for a topic that exists or not. */
  function Answer(w: World, o: Oracle, exists_: bool): Reply
  {
    var r := o(w.calls).reply;
    if r.Accepted? && !exists_ then Gone else r
  }

  function Count(w: World, r: Reply): World
  {
    w.(calls := w.calls + 1, failures := if r.Accepted? then w.failures else w.failures + 1)
  }

  function EditTopic(w: World, o: Oracle, thread: int, p: Patch): Called
  {
    var r := Answer(w, o, thread in w.threads);
    var w' := Count(w, r);
    if !r.Accepted? then Called(w', r)
    else
      var t := w.threads[thread];
      var edited := t.(name := if p.name.Some? then Format.TopicName(p.name.value) else t.name,
                       status := if p.status.Some? then p.status.value else t.status);
      Called(w'.(threads := w.threads[thread := edited]), r)
  }

  /** closeForumTopic and reopenForumTopic. */
  function SetClosed(w: World, o: Oracle, thread: int, closed: bool): Called
  {
    var r := Answer(w, o, thread in w.threads);
    var w' := Count(w, r);
    if !r.Accepted? then Called(w', r)
    else Called(w'.(threads := w.threads[thread := w.threads[thread].(closed := closed)]), r)
  }

  function DeleteTopic(w: World, o: Oracle, thread: int): Called
  {
    var r := Answer(w, o, thread in w.threads);
    var w' := Count(w, r);
    if !r.Accepted? then Called(w', r) else Called(w'.(threads := w.threads - {thread}), r)
  }

  function CreateTopic(w: World, o: Oracle, name: string, status: Status): Creation
  {
    var choice := o(w.calls);
    var w' := Count(w, choice.reply);
    if !choice.reply.Accepted? then Creation(w', choice.reply, 0, "")
    else
      var id := w.nextId + choice.gap;
      var kept := Format.TopicName(name);
      Creation(w'.(threads := w.threads[id := Thread(kept, status, false)],
                   nextId := id + 1,
                   created := w.created + {id}),
               Accepted, id, if choice.echo then kept else "")
  }

  /** Thread ids are issued in ascending order. */
  ghost predicate Ids(w: World)
  {
    && (forall id :: id in w.threads ==> id < w.nextId)
    && (forall id :: id in w.created ==> id < w.nextId)
  }
}
