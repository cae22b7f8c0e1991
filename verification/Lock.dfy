/** `acquireLock`: SET NX with an expiry, and a release that compares and deletes in two steps. */
module Lock {

  datatype Slot = Free | Taken(token: nat, expiry: nat)

  /** How far a holder is with its release; `Compared` remembers whether the token matched. */
  datatype Phase = Holding | Compared(mine: bool) | Released

  datatype Holder = Holder(expiry: nat, phase: Phase)

  /** `holders` are the callers whose acquire succeeded, by token; tokens never repeat. */
  datatype State = State(now: nat, slot: Slot, holders: map<nat, Holder>)

  datatype Event =
    | Tick(ms: nat)
    | Acquire(token: nat, ttl: nat)
    | Get(token: nat)
    | Del(token: nat)

  /** What Redis sees: an expired key is gone. */
  function Live(s: State): Slot {
    if s.slot.Taken? && s.slot.expiry <= s.now then Free else s.slot
  }

  function Apply(s: State, e: Event): State {
    match e
    case Tick(ms) => s.(now := s.now + ms)
    case Acquire(token, ttl) =>
      if token in s.holders || Live(s).Taken? then s
      else s.(slot := Taken(token, s.now + ttl), holders := s.holders[token := Holder(s.now + ttl, Holding)])
    case Get(token) =>
      if token in s.holders && s.holders[token].phase.Holding? then
        var mine := Live(s).Taken? && Live(s).token == token;
        s.(holders := s.holders[token := s.holders[token].(phase := Compared(mine))])
      else s
    case Del(token) =>
      if token in s.holders && s.holders[token].phase.Compared? then
        s.(slot := if s.holders[token].phase.mine then Free else s.slot,
           holders := s.holders[token := s.holders[token].(phase := Released)])
      else s
  }

  function Play(s: State, es: seq<Event>): State
    decreases |es|
  {
    if es == [] then s else Play(Apply(s, es[0]), es[1..])
  }

  /** The holder believes it has the lock: not yet released, not yet expired. */
  predicate Active(s: State, token: nat) {
    token in s.holders && !s.holders[token].phase.Released? && s.now < s.holders[token].expiry
  }

  ghost predicate Exclusive(s: State) {
    forall a, b :: Active(s, a) && Active(s, b) ==> a == b
  }

  /** Every active holder is the one Redis knows. */
  ghost predicate Owned(s: State) {
    forall t :: Active(s, t) ==> s.slot == Taken(t, s.holders[t].expiry)
  }

  /** A release acts in time when both its steps come before its own expiry. */
  predicate InTime(s: State, e: Event) {
    (e.Get? || e.Del?) && e.token in s.holders ==> s.now < s.holders[e.token].expiry
  }

  predicate AllInTime(s: State, es: seq<Event>)
    decreases |es|
  {
    es == [] || (InTime(s, es[0]) && AllInTime(Apply(s, es[0]), es[1..]))
  }

  lemma ApplyKeepsOwned(s: State, e: Event)
    requires Owned(s) && InTime(s, e)
    ensures Owned(Apply(s, e))
  {
    var next := Apply(s, e);
    if e.Del? && e.token in s.holders && s.holders[e.token].phase.Compared? {
      assert Active(s, e.token);
    }
    forall t | Active(next, t) ensures next.slot == Taken(t, next.holders[t].expiry) {
      assert t in s.holders ==> Active(s, t);
    }
  }

  /** However acquires and releases interleave, at most one caller holds an unexpired lock. */
  lemma {:induction false} MutualExclusion(s: State, es: seq<Event>)
    requires Owned(s) && AllInTime(s, es)
    ensures Owned(Play(s, es)) && Exclusive(Play(s, es))
    decreases |es|
  {
    if es != [] {
      ApplyKeepsOwned(s, es[0]);
      MutualExclusion(Apply(s, es[0]), es[1..]);
    }
  }

  /** A caller gets the lock for its time exactly when no unexpired key stands in its way, */
  lemma AcquireExactly(s: State, token: nat, ttl: nat)
    requires token !in s.holders
    ensures var next := Apply(s, Acquire(token, ttl)); var free := s.slot.Free? || s.slot.expiry <= s.now;
            && (free ==> next.slot == Taken(token, s.now + ttl)
                         && next.holders == s.holders[token := Holder(s.now + ttl, Holding)])
            && (!free ==> next == s)
  {
  }

  /** a release takes the key for its own exactly when it holds its token and has not expired, */
  lemma CompareExactly(s: State, token: nat)
    requires token in s.holders && s.holders[token].phase.Holding?
    ensures var next := Apply(s, Get(token));
            && next.slot == s.slot && token in next.holders && next.holders[token].phase.Compared?
            && (next.holders[token].phase.mine <==> s.slot.Taken? && s.slot.token == token && s.now < s.slot.expiry)
  {
  }

  /** and a release in time, both its steps together, gives it back to the next one. */
  lemma ReleaseFrees(s: State, token: nat, other: nat, ttl: nat)
    requires Owned(s) && Active(s, token) && s.holders[token].phase.Holding? && other !in s.holders && ttl > 0
    ensures var freed := Apply(Apply(s, Get(token)), Del(token));
            freed.slot == Free && !Active(freed, token) && Active(Apply(freed, Acquire(other, ttl)), other)
  {
    var compared := Apply(s, Get(token));
    assert compared.holders[token].phase == Compared(true);
    AcquireExactly(Apply(compared, Del(token)), other, ttl);
  }

  /** A delete takes the lock from a working holder exactly when it comes after a takeover. */
  lemma DelBreaksExactly(s: State, token: nat)
    requires Owned(s) && token in s.holders && s.holders[token].phase.Compared?
    ensures !Owned(Apply(s, Del(token))) <==>
            s.holders[token].phase.mine && exists other :: other != token && Active(s, other)
  {
    var next := Apply(s, Del(token));
    forall other | other != token ensures Active(s, other) <==> Active(next, other) {
    }
    if s.holders[token].phase.mine && exists other :: other != token && Active(s, other) {
      var other :| other != token && Active(s, other);
      assert Active(next, other) && next.slot.Free?;
    }
  }

  /** Without that restriction exclusion fails: a late delete frees the lock of the next holder. */
  lemma LateReleaseBreaks()
    ensures var s := Play(State(0, Free, map[]),
                          [Acquire(1, 10), Get(1), Tick(10), Acquire(2, 10), Del(1), Acquire(3, 10)]);
            Active(s, 2) && Active(s, 3) && !Exclusive(s)
  {
    hide Apply, Active;
    var s0 := State(0, Free, map[]);
    var s1 := Apply(s0, Acquire(1, 10));
    var s2 := Apply(s1, Get(1));
    var s3 := Apply(s2, Tick(10));
    var s4 := Apply(s3, Acquire(2, 10));
    var s5 := Apply(s4, Del(1));
    var s6 := Apply(s5, Acquire(3, 10));
    LateRelease(s0);
    PlayCons(s5, Acquire(3, 10), []);
    PlayCons(s4, Del(1), [Acquire(3, 10)]);
    PlayCons(s3, Acquire(2, 10), [Del(1), Acquire(3, 10)]);
    PlayCons(s2, Tick(10), [Acquire(2, 10), Del(1), Acquire(3, 10)]);
    PlayCons(s1, Get(1), [Tick(10), Acquire(2, 10), Del(1), Acquire(3, 10)]);
    PlayCons(s0, Acquire(1, 10), [Get(1), Tick(10), Acquire(2, 10), Del(1), Acquire(3, 10)]);
    PlayNone(s6);
  }

  lemma PlayNone(s: State)
    ensures Play(s, []) == s
  {
  }

  lemma LateRelease(s0: State)
    requires s0 == State(0, Free, map[])
    ensures var s1 := Apply(s0, Acquire(1, 10)); var s2 := Apply(s1, Get(1)); var s3 := Apply(s2, Tick(10));
            var s4 := Apply(s3, Acquire(2, 10)); var s5 := Apply(s4, Del(1)); var s6 := Apply(s5, Acquire(3, 10));
            Active(s6, 2) && Active(s6, 3)
  {
    var s1 := Apply(s0, Acquire(1, 10));
    assert s1 == State(0, Taken(1, 10), map[1 := Holder(10, Holding)]);
    var s2 := Apply(s1, Get(1));
    assert s2 == State(0, Taken(1, 10), map[1 := Holder(10, Compared(true))]);
    var s4 := Apply(Apply(s2, Tick(10)), Acquire(2, 10));
    assert s4.slot == Taken(2, 20) && Active(s4, 2) && s4.holders[1].phase == Compared(true);
  }

  lemma PlayCons(s: State, e: Event, es: seq<Event>)
    ensures Play(s, [e] + es) == Play(Apply(s, e), es)
  {
    assert ([e] + es)[1..] == es;
  }
}
