/** What a card can count on: it is asked when the phone can be reached, and the phone's reply reaches the source. */
module CardLaws {
  import opened Options
  import opened Cards
  import opened CardRuns

  /** Of the cards and loops only those two may differ; the table is the same. */
  ghost predicate OnlyHere(s: Desk, t: Desk, h: nat, i: nat) {
    && |t.cards| == |s.cards| && |t.loops| == |s.loops| && t.table == s.table
    && (forall g :: 0 <= g < |s.cards| && g != h ==> t.cards[g] == s.cards[g])
    && (forall j :: 0 <= j < |s.loops| && j != i ==> t.loops[j] == s.loops[j])
  }

  lemma OpenIsCurrent(s: Desk, i: nat)
    requires Reachable(s) && i < |s.loops| && s.loops[i].Live()
    ensures At(s, i) && (s.Current(i) <==> s.Open(s.loops[i].card))
  {
    ReachableOk(s);
    assert LoopOk(s, i);
  }

  /** What the peer settles a call with is what the loop goes on with. */
  lemma ResponseIsHeard(s: Desk, i: nat, outcome: Outcome)
    requires Reachable(s) && i < |s.loops| && s.loops[i].stage.Calling?
    ensures At(s, i)
    ensures var t := Respond(s, i, outcome);
      && OnlyHere(s, t, s.loops[i].card, i) && t.cards == s.cards && t.log == s.log
      && t.loops[i] == s.loops[i].(stage := Settled(outcome))
  {
    ReachableOk(s);
    assert LoopOk(s, i);
  }

  // ---- The phone answers -----------------------------------------------------------------------------------

  /**
   * The phone's reply to a card still open: what it says is given to the source, once, and the loop waits for
   * the source; a dismissal leaves the card for the other channels, a malformed reply leaves it to be asked again.
   */
  lemma ReplyReachesTheSource(s: Desk, i: nat, r: Resolution, now: int)
    requires Reachable(s) && i < |s.loops| && s.loops[i].stage == Settled(Resolved(r)) && s.Open(s.loops[i].card)
    ensures At(s, i)
    ensures var (t, h) := (Continue(s, i, now), s.loops[i].card);
      && OnlyHere(s, t, h, i) && t.Open(h) && t.cards[h].key == s.cards[h].key
      && match r
         case Reply(Some(said)) =>
           t.log == s.log + [Answer(h, said)] && t.cards[h].state == Answering && t.loops[i].stage.Replying?
         case Reply(None) => t.log == s.log && t.cards[h].state == Failed && t.loops[i].stage.Ended?
         case Dismiss => t.log == s.log && t.cards[h].state == Dismissed && t.loops[i].stage.Ended?
  {
    OpenIsCurrent(s, i);
  }

  /** A reply that comes too late for a card that has left the table is dropped. */
  lemma LateReplyIsDropped(s: Desk, i: nat, outcome: Outcome, now: int)
    requires Reachable(s) && i < |s.loops| && s.loops[i].stage == Settled(outcome) && !s.Open(s.loops[i].card)
    ensures At(s, i)
    ensures var t := Continue(s, i, now); t.log == s.log && t.table == s.table && t.loops[i].stage.Ended?
  {
    OpenIsCurrent(s, i);
  }

  /** The source took the answer: the card is done. It refused: the card can be asked again. */
  lemma SourceDecides(s: Desk, i: nat, taken: bool)
    requires Reachable(s) && i < |s.loops| && s.loops[i].stage.Replying?
    ensures At(s, i)
    ensures var (t, h) := (Replied(s, i, taken), s.loops[i].card);
      && t.loops[i].stage.Ended?
      && (taken ==> !t.Open(h) && t.log == s.log + [Taken(h)])
      && (!taken ==> t.log == s.log && t.table == s.table && t.cards[h].state == Failed)
      && (forall g :: 0 <= g < |s.cards| && g != h ==> (t.Open(g) <==> s.Open(g)) && t.cards[g] == s.cards[g])
  {
    ReachableOk(s);
    assert LoopOk(s, i);
  }

  // ---- Asking again ----------------------------------------------------------------------------------------

  /**
   * A node that is gone is asked again, from the first time it was found gone for two minutes and no longer;
   * any other refusal fails the card. The time it was first found gone is remembered.
   */
  lemma RetriesForTwoMinutes(s: Desk, i: nat, gone: bool, now: int)
    requires Reachable(s) && i < |s.loops| && s.loops[i].stage == Settled(Rejected(gone)) && s.Open(s.loops[i].card)
    ensures At(s, i)
    ensures var (t, h, l) := (Continue(s, i, now), s.loops[i].card, s.loops[i]);
      && OnlyHere(s, t, h, i) && t.log == s.log && t.Open(h)
      && (t.loops[i].stage.Sleeping? <==> gone && (l.goneSince.None? || now < l.goneSince.value + 120000))
      && (t.loops[i].stage.Sleeping? ==>
            t.cards[h] == s.cards[h] && t.loops[i].goneSince == Some(l.goneSince.GetOr(now)))
      && (!t.loops[i].stage.Sleeping? ==> t.loops[i].stage.Ended? && t.cards[h].state == Failed)
  {
    OpenIsCurrent(s, i);
  }

  /** A loop whose pause is over asks again, unless its card has left the table or its time is up. */
  lemma WakesToAsk(s: Desk, i: nat, env: Env)
    requires Reachable(s) && i < |s.loops| && s.loops[i].stage.Sleeping?
    ensures At(s, i)
    ensures var (t, h) := (Head(s, i, env), s.loops[i].card);
      && OnlyHere(s, t, h, i)
      && (!s.Open(h) ==> t.log == s.log && t.loops[i].stage.Ended?)
      && (s.Open(h) && env.expired ==> t.log == s.log && t.loops[i].stage.Ended? && t.cards[h].state == Failed)
      && (s.Open(h) && !env.expired ==>
            if env.written then t.log == s.log + [Create(h)] && t.loops[i].stage.Calling? && t.cards[h] == s.cards[h]
            else t.log == s.log && t.loops[i].stage == Settled(Rejected(false)))
  {
    OpenIsCurrent(s, i);
  }

  // ---- Who is asked ----------------------------------------------------------------------------------------

  /** The card waits to be asked, for the first time or again. */
  predicate Asks(s: Desk, h: nat) { s.Open(h) && (s.cards[h].state == Waiting || s.cards[h].state == Failed) }

  /** Between these positions of the log stand creates, of cards in the order they were added, each at most once. */
  ghost predicate CreatesInOrder(log: seq<Out>, a: nat, n: nat) {
    && (forall p :: a <= p < |log| ==> log[p].Create? && log[p].card < n)
    && (forall p, q :: a <= p < q < |log| ==> log[p].card < log[q].card)
  }

  predicate Reached(env: Env) { !env.expired && env.written }

  /**
   * Of the first `n` cards, every one that waited or failed has been asked once, in the order they were added
   * (those out of time or unwritable aside), and nobody else.
   */
  ghost predicate AskedTo(s: Desk, t: Desk, n: nat, envs: nat -> Env) {
    && t.table == s.table && t.stopped == s.stopped && s.log <= t.log && n <= |t.cards| == |s.cards|
    && (forall g :: 0 <= g < |s.cards| ==> t.cards[g].key == s.cards[g].key)
    && (forall g :: n <= g < |s.cards| ==> t.cards[g] == s.cards[g])
    && CreatesInOrder(t.log, |s.log|, n)
    && (forall p :: |s.log| <= p < |t.log| ==> Asks(s, t.log[p].card))
    && (forall h :: 0 <= h < n && Asks(s, h) && Reached(envs(h)) && !s.stopped ==>
          Create(h) in t.log[|s.log|..] && t.cards[h].state == Asking)
  }

  /** One card asked, or left alone. */
  ghost predicate AskedOne(s: Desk, t: Desk, h: nat, env: Env)
    requires h < |s.cards|
  {
    && t.table == s.table && t.stopped == s.stopped && |t.cards| == |s.cards| && t.cards[h].key == s.cards[h].key
    && (forall g :: 0 <= g < |s.cards| && g != h ==> t.cards[g] == s.cards[g])
    && (t.log == s.log || (Asks(s, h) && t.log == s.log + [Create(h)]))
    && (Asks(s, h) && Reached(env) && !s.stopped ==> t.log == s.log + [Create(h)] && t.cards[h].state == Asking)
  }

  lemma AskOneAsks(s: Desk, h: nat, env: Env)
    requires h < |s.cards|
    ensures AskedOne(s, AskOne(s, h, env), h, env)
  {
  }

  lemma OneMoreAsked(s: Desk, u: Desk, t: Desk, n: nat, envs: nat -> Env)
    requires n < |s.cards| && AskedTo(s, u, n, envs) && AskedOne(u, t, n, envs(n))
    ensures AskedTo(s, t, n + 1, envs)
  {
    assert Asks(u, n) == Asks(s, n);
    if t.log != u.log {
      assert t.log[|s.log|..] == u.log[|s.log|..] + [Create(n)];
    }
  }

  lemma {:induction false} AskFirstAsks(s: Desk, n: nat, envs: nat -> Env)
    requires n <= |s.cards|
    ensures AskedTo(s, AskFirst(s, n, envs), n, envs)
  {
    if n > 0 {
      hide AskedTo, AskedOne, AskOne;
      AskFirstAsks(s, n - 1, envs);
      AskOneAsks(AskFirst(s, n - 1, envs), n - 1, envs(n - 1));
      OneMoreAsked(s, AskFirst(s, n - 1, envs), AskFirst(s, n, envs), n - 1, envs);
    }
  }

  lemma FlagsAside(s: Desk, u: Desk, t: Desk, envs: nat -> Env)
    requires AskedTo(u, t, |u.cards|, envs) && u == s.(ready := u.ready, hub := u.hub)
    ensures AskedTo(s, t, |s.cards|, envs)
  {
    assert forall h :: Asks(u, h) == Asks(s, h);
  }

  /** When the hello comes with a hub connected, every card that waits or failed is asked. */
  lemma HelloAsksAll(s: Desk, hub: bool, envs: nat -> Env)
    requires !s.stopped
    ensures var t := OnHello(s, hub, envs);
      && t.ready && t.hub == hub
      && if hub then AskedTo(s, t, |s.cards|, envs) else t == s.(ready := true, hub := false)
  {
    var u := s.(ready := true, hub := hub);
    AskFirstAsks(u, |u.cards|, envs);
    FlagsAside(s, u, AskFirst(u, |u.cards|, envs), envs);
    hide AskFirst, AskedTo;
  }

  /** So it is when the hub comes back, and only then. */
  lemma HubAsksAll(s: Desk, connected: bool, envs: nat -> Env)
    requires !s.stopped
    ensures var t := OnHub(s, connected, envs);
      && t.hub == connected
      && if connected && !s.hub && s.ready then AskedTo(s, t, |s.cards|, envs) else t == s.(hub := connected)
  {
    var u := s.(hub := connected);
    AskFirstAsks(u, |u.cards|, envs);
    FlagsAside(s, u, AskFirst(u, |u.cards|, envs), envs);
    hide AskFirst, AskedTo;
  }

  /** A new card is put into the table, and asked at once when the phone can be reached. */
  lemma NewCardIsAsked(s: Desk, key: Key, env: Env)
    requires Reachable(s) && !s.stopped && key !in s.table
    ensures var (t, h) := (AddCard(s, key, env), |s.cards|);
      && t.Open(h) && t.cards[h].key == key && |t.cards| == |s.cards| + 1
      && (forall g :: 0 <= g < |s.cards| ==> t.cards[g] == s.cards[g] && (t.Open(g) <==> s.Open(g)))
      && (if s.ready && s.hub && Reached(env) then t.log == s.log + [Create(h)] && t.cards[h].state == Asking
          else t.log == s.log)
      && (!(s.ready && s.hub) ==> t.cards[h].state == Waiting && t.loops == s.loops)
  {
    ReachableOk(s);
  }

  /** A card that is there already is left as it is, and so is a key that is not there when it is settled. */
  lemma KnownCardIsLeft(s: Desk, key: Key, env: Env)
    ensures key in s.table || s.stopped ==> AddCard(s, key, env) == s
    ensures key !in s.table ==> SettleCard(s, key) == s
  {
    hide Ask;
  }

  // ---- Settled elsewhere, and the end -------------------------------------------------------------------------

  /**
   * A card settled elsewhere leaves the table. If it was being asked its call is given up and the phone is told;
   * if not, the phone is told nothing.
   */
  lemma SettledElsewhere(s: Desk, key: Key)
    requires Reachable(s) && key in s.table
    ensures var h := s.table[key];
      && s.Open(h)
      && var t := SettleCard(s, key);
         && t.table == s.table - {key} && t.cards == s.cards && !t.Open(h)
         && t.log == s.log + (if s.cards[h].state == Asking then [Cancel(h)] else [])
         && (forall i :: 0 <= i < |t.loops| && t.loops[i].card == h ==> !t.loops[i].stage.Calling?)
         && (forall i :: 0 <= i < |t.loops| && t.loops[i].card != h ==> t.loops[i] == s.loops[i])
  {
    ReachableOk(s);
    var h := s.table[key];
    assert CardOk(s, h);
    forall i | 0 <= i < |s.loops|
      ensures s.loops[i].card == h && s.loops[i].Live() ==> s.cards[h].state == Asking && s.cards[h].abort == Some(i)
    {
      assert LoopOk(s, i);
    }
  }

  /** When the runtime stops, every card is gone and every call is given up. */
  lemma StopEndsAll(s: Desk)
    requires Reachable(s)
    ensures var t := OnStop(s);
      && t.stopped && t.table == map[] && t.log == s.log && |t.loops| == |s.loops|
      && forall i :: 0 <= i < |t.loops| ==> !t.loops[i].stage.Calling?
  {
    ReachableOk(s);
    StopKeeps(s);
    forall i | 0 <= i < |OnStop(s).loops| ensures !OnStop(s).loops[i].stage.Calling? {
      assert LoopOk(OnStop(s), i);
    }
  }

  /** After that nothing is sent any more; at most the source's word on an answer given before comes in. */
  lemma StoppedSaysNothing(s: Desk, step: Step)
    requires Reachable(s) && s.stopped && Enabled(s, step)
    ensures var t := Apply(s, step);
      t.stopped && t.table == map[] && (t.log == s.log || (step.StepReplied? && step.taken))
  {
    ReachableOk(s);
    hide AskFirst, AbortFirst;
  }
}
