/** One conversation when Redis gives no protection: only the stored history stands between triggers. */
module Threads {
  import opened Decisions

  /** Who put a message into the thread. */
  datatype Entry = Entry(message: Message, automatic: bool)

  /**
   * `Arrive` records any message that automation did not write. `Trigger` is one complete pass of
   * the reply pipeline; `answers` says that every other guard and the model let a reply through. The
   * reply is on record before the next event.
   */
  datatype Event = Arrive(message: Message) | Trigger(replyId: nat, answers: bool)

  function Messages(thread: seq<Entry>): (ms: seq<Message>)
    ensures |ms| == |thread| && forall i :: 0 <= i < |ms| ==> ms[i] == thread[i].message
  {
    seq(|thread|, i requires 0 <= i < |thread| => thread[i].message)
  }

  function Apply(thread: seq<Entry>, e: Event): seq<Entry> {
    match e
    case Arrive(m) => thread + [Entry(m, false)]
    case Trigger(id, answers) =>
      if answers && MayAnswer(Messages(thread)) then thread + [Entry(Message(id, Outgoing, true), true)]
      else thread
  }

  function Play(thread: seq<Entry>, es: seq<Event>): seq<Entry>
    decreases |es|
  {
    if es == [] then thread else Play(Apply(thread, es[0]), es[1..])
  }

  /** Every automatic message answers a person who wrote after our previous message, and one exists. */
  ghost predicate Polite(thread: seq<Entry>) {
    forall i :: 0 <= i < |thread| && thread[i].automatic ==> Earned(thread, i)
  }

  ghost predicate Earned(thread: seq<Entry>, i: nat)
    requires i < |thread|
  {
    exists p, q :: 0 <= p < q < i && thread[p].message.direction == Outgoing
                   && IsHumanInbound(thread[q].message)
                   && forall k :: p < k < i ==> thread[k].message.direction != Outgoing
  }

  lemma ApplyKeepsPolite(thread: seq<Entry>, e: Event)
    requires Polite(thread)
    ensures Polite(Apply(thread, e))
  {
    var next := Apply(thread, e);
    forall i | 0 <= i < |next| && next[i].automatic ensures Earned(next, i) {
      if i < |thread| {
        assert thread[i].automatic;
        var p, q :| 0 <= p < q < i && thread[p].message.direction == Outgoing
          && IsHumanInbound(thread[q].message)
          && forall k :: p < k < i ==> thread[k].message.direction != Outgoing;
        assert next[p].message.direction == Outgoing && IsHumanInbound(next[q].message);
      } else {
        var ms := Messages(thread);
        GuardsMean(ms);
        var p, q :| 0 <= p < q < |ms| && ms[p].direction == Outgoing && IsHumanInbound(ms[q])
          && forall k :: p < k < |ms| ==> ms[k].direction != Outgoing;
        assert next[p].message.direction == Outgoing && IsHumanInbound(next[q].message);
        forall k | p < k < i ensures next[k].message.direction != Outgoing {
          assert next[k].message == ms[k];
        }
      }
    }
  }

  /** Over any run, from any polite thread, automation only ever answers. */
  lemma {:induction false} AlwaysPolite(thread: seq<Entry>, es: seq<Event>)
    requires Polite(thread)
    ensures Polite(Play(thread, es))
    decreases |es|
  {
    if es != [] {
      ApplyKeepsPolite(thread, es[0]);
      AlwaysPolite(Apply(thread, es[0]), es[1..]);
    }
  }

  /**
   * So in a thread that began empty automation never speaks first, and never speaks directly after
   * another message of ours.
   */
  lemma NeverFirstNeverTwice(es: seq<Event>, i: nat)
    requires i < |Play([], es)| && Play([], es)[i].automatic
    ensures i > 0 && Play([], es)[i - 1].message.direction != Outgoing
    ensures exists p :: 0 <= p < i && Play([], es)[p].message.direction == Outgoing
  {
    AlwaysPolite([], es);
    assert Earned(Play([], es), i);
  }

  /** A trigger appends one message, ours and automatic, exactly when a person wrote after our latest of ten. */
  lemma TriggerExactly(thread: seq<Entry>, id: nat, answers: bool)
    ensures Apply(thread, Trigger(id, answers)) ==
            if answers && Spoken(Messages(thread), 10) then thread + [Entry(Message(id, Outgoing, true), true)]
            else thread
  {
    GuardsMean(Messages(thread));
  }

  /** A second trigger for the same inbound message finds the reply on record and stays silent. */
  lemma RepeatedTriggerSilent(thread: seq<Entry>, id: nat, answers: bool, id': nat, answers': bool)
    requires Apply(thread, Trigger(id, answers)) != thread
    ensures var once := Apply(thread, Trigger(id, answers)); Apply(once, Trigger(id', answers')) == once
  {
    var once := Apply(thread, Trigger(id, answers));
    GuardsMean(Messages(once));
    assert Messages(once)[|once| - 1].direction == Outgoing;
  }
}
