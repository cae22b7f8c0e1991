/** The pure rules of the inbound pipeline: who spoke, who may be answered, what is a deal. */
module Decisions {

  datatype Direction = Incoming | Outgoing
  datatype Message = Message(id: nat, direction: Direction, aiGenerated: bool)

  const HISTORY_WINDOW := 10
  const MAX_CONSECUTIVE_AI_REPLIES := 1

  predicate IsHumanInbound(m: Message) {
    m.direction == Incoming && !m.aiGenerated
  }

  /** Outgoing messages since a person last wrote. */
  function Trailing(history: seq<Message>): nat {
    if history == [] || IsHumanInbound(history[|history| - 1]) then 0
    else
      Trailing(history[..|history| - 1]) + (if history[|history| - 1].direction == Outgoing then 1 else 0)
  }

  method CountTrailingAiReplies(history: seq<Message>) returns (count: nat)
    ensures count == Trailing(history)
    ensures count == 0 <==>
            forall i :: 0 <= i < |history| && history[i].direction == Outgoing ==>
                          exists j :: i < j < |history| && IsHumanInbound(history[j])
  {
    count := 0;
    var i := |history| - 1;
    assert history[..i + 1] == history;
    while i >= 0
      invariant -1 <= i < |history|
      invariant count + Trailing(history[..i + 1]) == Trailing(history)
    {
      assert history[..i + 1][..i] == history[..i];
      var m := history[i];
      if IsHumanInbound(m) {
        break;
      }
      if m.direction == Outgoing {
        count := count + 1;
      }
      i := i - 1;
    }
    TrailingZero(history);
  }

  /** Our messages from position `k` on. */
  function OursFrom(history: seq<Message>, k: nat): set<nat> {
    set i: nat | k <= i < |history| && history[i].direction == Outgoing
  }

  lemma OursSnoc(history: seq<Message>, k: nat)
    requires k < |history|
    ensures var n := |history| - 1;
            |OursFrom(history, k)| == |OursFrom(history[..n], k)| + if history[n].direction == Outgoing then 1 else 0
  {
    var n := |history| - 1;
    var before := OursFrom(history[..n], k);
    if history[n].direction == Outgoing {
      assert OursFrom(history, k) == before + {n};
      assert n !in before;
    } else {
      assert OursFrom(history, k) == before;
    }
  }

  /** The count is that of our messages behind the last one from a person, or of all where none is from a person. */
  lemma {:induction false} TrailingCounts(history: seq<Message>) returns (k: nat)
    ensures k <= |history| && (k > 0 ==> IsHumanInbound(history[k - 1]))
    ensures forall i :: k <= i < |history| ==> !IsHumanInbound(history[i])
    ensures Trailing(history) == |OursFrom(history, k)|
  {
    hide OursFrom, IsHumanInbound;
    k := |history|;
    if history != [] && !IsHumanInbound(history[|history| - 1]) {
      k := TrailingCounts(history[..|history| - 1]);
      OursSnoc(history, k);
    } else {
      NoneBehind(history);
    }
  }

  lemma NoneBehind(history: seq<Message>)
    ensures OursFrom(history, |history|) == {}
  {
  }

  /** No reply of ours is left unanswered: a person wrote after every outgoing message. */
  ghost predicate AllAnswered(history: seq<Message>) {
    forall i :: 0 <= i < |history| && history[i].direction == Outgoing ==>
                  exists j :: i < j < |history| && IsHumanInbound(history[j])
  }

  lemma {:induction false} TrailingZero(history: seq<Message>)
    ensures Trailing(history) == 0 <==> AllAnswered(history)
  {
    if history != [] {
      var n := |history| - 1;
      var last, rest := history[n], history[..n];
      if !IsHumanInbound(last) {
        TrailingZero(rest);
        if last.direction == Incoming {
          if AllAnswered(rest) {
            forall i | 0 <= i < |history| && history[i].direction == Outgoing
              ensures exists j :: i < j < |history| && IsHumanInbound(history[j])
            {
              assert rest[i].direction == Outgoing;
              var j :| i < j < |rest| && IsHumanInbound(rest[j]);
              assert IsHumanInbound(history[j]);
            }
          }
          if AllAnswered(history) {
            forall i | 0 <= i < |rest| && rest[i].direction == Outgoing
              ensures exists j :: i < j < |rest| && IsHumanInbound(rest[j])
            {
              assert history[i].direction == Outgoing;
              var j :| i < j < |history| && IsHumanInbound(history[j]);
              assert IsHumanInbound(rest[j]);
            }
          }
        } else {
          assert history[n].direction == Outgoing;
        }
      }
    }
  }

  /** The ten latest messages, oldest first. */
  function Window(thread: seq<Message>): (w: seq<Message>)
    ensures |w| <= HISTORY_WINDOW
  {
    if |thread| <= HISTORY_WINDOW then thread else thread[|thread| - HISTORY_WINDOW..]
  }

  predicate HasOutbound(history: seq<Message>) {
    exists i :: 0 <= i < |history| && history[i].direction == Outgoing
  }

  /** Both history guards let a reply through. */
  predicate MayAnswer(thread: seq<Message>) {
    HasOutbound(Window(thread)) && Trailing(Window(thread)) < MAX_CONSECUTIVE_AI_REPLIES
  }

  /** `p` is our latest message, and a person wrote at `q` after it. */
  ghost predicate AnsweredAt(thread: seq<Message>, p: int, q: int) {
    && 0 <= p < q < |thread| && thread[p].direction == Outgoing && IsHumanInbound(thread[q])
    && forall k :: p < k < |thread| ==> thread[k].direction != Outgoing
  }

  /** A person wrote after our latest message, and both are among the last `n`. */
  ghost predicate Spoken(thread: seq<Message>, n: nat) {
    exists p, q :: |thread| - n <= p && AnsweredAt(thread, p, q)
  }

  /** What the guards mean on the whole thread, whatever lies outside the window. */
  lemma GuardsMean(thread: seq<Message>)
    ensures MayAnswer(thread) <==> Spoken(thread, HISTORY_WINDOW)
  {
    if MayAnswer(thread) {
      GuardsAreSpoken(thread);
    }
    if Spoken(thread, HISTORY_WINDOW) {
      SpokenIsGuarded(thread);
    }
  }

  /** What was said before the window does not matter. */
  lemma AnsweredLater(earlier: seq<Message>, w: seq<Message>, p: int, q: int)
    requires 0 <= p
    ensures AnsweredAt(earlier + w, |earlier| + p, |earlier| + q) <==> AnsweredAt(w, p, q)
  {
    var h := earlier + w;
    assert forall k :: 0 <= k < |w| ==> h[|earlier| + k] == w[k];
    if AnsweredAt(h, |earlier| + p, |earlier| + q) {
      forall k | p < k < |w| ensures w[k].direction != Outgoing {
        assert h[|earlier| + k] == w[k];
      }
    }
  }

  lemma WindowSplits(thread: seq<Message>) returns (earlier: seq<Message>)
    ensures thread == earlier + Window(thread) && |earlier| == |thread| - |Window(thread)|
  {
    earlier := thread[..|thread| - |Window(thread)|];
  }

  lemma GuardsAreSpoken(thread: seq<Message>)
    requires MayAnswer(thread)
    ensures Spoken(thread, HISTORY_WINDOW)
  {
    hide Trailing, Window;
    var w := Window(thread);
    var earlier := WindowSplits(thread);
    TrailingZero(w);
    var p := LastOutgoing(w);
    var q :| p < q < |w| && IsHumanInbound(w[q]);
    assert AnsweredAt(w, p, q);
    hide AnsweredAt;
    AnsweredLater(earlier, w, p, q);
  }

  lemma SpokenIsGuarded(thread: seq<Message>)
    requires Spoken(thread, HISTORY_WINDOW)
    ensures MayAnswer(thread)
  {
    hide Trailing, AnsweredAt;
    var w := Window(thread);
    var earlier := WindowSplits(thread);
    var p, q :| |thread| - HISTORY_WINDOW <= p && AnsweredAt(thread, p, q);
    AnsweredInRange(thread, p, q);
    AnsweredLater(earlier, w, p - |earlier|, q - |earlier|);
    AnsweredMeans(w, p - |earlier|, q - |earlier|);
  }

  lemma AnsweredInRange(thread: seq<Message>, p: int, q: int)
    requires AnsweredAt(thread, p, q)
    ensures 0 <= p < q < |thread|
  {
  }

  lemma AnsweredMeans(w: seq<Message>, p: int, q: int)
    requires AnsweredAt(w, p, q)
    ensures HasOutbound(w) && Trailing(w) == 0
  {
    hide Trailing;
    TrailingZero(w);
    forall i | 0 <= i < |w| && w[i].direction == Outgoing
      ensures exists j :: i < j < |w| && IsHumanInbound(w[j])
    {
      assert i <= p && IsHumanInbound(w[q]);
    }
  }

  lemma {:induction false} LastOutgoing(h: seq<Message>) returns (p: nat)
    requires HasOutbound(h)
    ensures p < |h| && h[p].direction == Outgoing
    ensures forall k :: p < k < |h| ==> h[k].direction != Outgoing
  {
    var n := |h| - 1;
    if h[n].direction == Outgoing {
      p := n;
    } else {
      var i :| 0 <= i < |h| && h[i].direction == Outgoing;
      assert h[..n][i].direction == Outgoing;
      p := LastOutgoing(h[..n]);
      assert forall k :: 0 <= k < n ==> h[..n][k] == h[k];
    }
  }

  // ---------------------------------------------------------------- leads and deals

  datatype LeadStatus =
    | New | Contacted | Engaged | Interested | Qualified | HumanHandover | ProposalSent | Negotiation
    | Won | Lost | NotInterested | OptedOut

  /** Position along the funnel; statuses that end it, or belong to people, are at the top. */
  function Rank(s: LeadStatus): nat {
    match s
    case New => 0
    case Contacted => 1
    case Engaged => 2
    case Interested => 3
    case Qualified => 4
    case HumanHandover => 5
    case ProposalSent => 6
    case Negotiation => 7
    case _ => 100
  }

  /** `advanceLeadStatus`, with "leave the lead alone" spelled as keeping the status. */
  function Advance(current: LeadStatus, next: LeadStatus): (s: LeadStatus)
    ensures s == current || (s == next && Rank(s) > Rank(current))
    ensures Rank(s) >= Rank(next)
    ensures Rank(current) == 100 ==> s == current
  {
    if Rank(next) > Rank(current) then next else current
  }

  datatype Interest = High | Medium | Low | NoInterest
  datatype Intent = OptOutIntent | NotInterestedIntent | OutOfOffice | Unclear | Greeting | OtherIntent

  /** What the model reports about a message. The `has…` fields say whether a detail is non-empty. */
  datatype Analysis = Analysis(
    intent: Intent, interest: Interest, confidence: real, leadScore: int, optOut: bool, needsHuman: bool,
    hasTravelPeriod: bool, hasTravellers: bool, hasProduct: bool, hasRequirements: bool, hasDestinations: bool)

  const DEAL_MIN_CONFIDENCE := 0.75
  const DEAL_MIN_LEAD_SCORE := 70

  /** `assessConversionIntent`. */
  predicate Converting(a: Analysis) {
    if a.optOut then false
    else if a.intent != OtherIntent then false
    else if a.interest != High then false
    else if a.confidence < DEAL_MIN_CONFIDENCE then false
    else if a.leadScore < DEAL_MIN_LEAD_SCORE then false
    else a.hasTravelPeriod || a.hasTravellers || a.hasProduct || a.hasRequirements || a.hasDestinations
  }
}
