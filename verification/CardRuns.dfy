/** Every run of the cards: who asks, what is cancelled, and when an answer may still be given. */
module CardRuns {
  import opened Options
  import opened Cards

  datatype Step =
    | StepAdd(key: Key, env: Env)
    | StepSettle(key: Key)
    | StepHello(hub: bool, envs: nat -> Env)
    | StepHub(connected: bool, envs: nat -> Env)
    | StepRespond(i: nat, outcome: Outcome)
    | StepContinue(i: nat, now: int)
    | StepWake(i: nat, env: Env)
    | StepReplied(i: nat, taken: bool)
    | StepStop

  ghost predicate Enabled(s: Desk, step: Step) {
    match step
    case StepRespond(i, _) => At(s, i) && s.loops[i].stage.Calling?
    case StepContinue(i, _) => At(s, i) && s.loops[i].stage.Settled?
    case StepWake(i, _) => At(s, i) && s.loops[i].stage.Sleeping?
    case StepReplied(i, _) => At(s, i) && s.loops[i].stage.Replying?
    case StepSettle(key) => key in s.table ==> s.table[key] < |s.cards|
    case _ => true
  }

  ghost function Apply(s: Desk, step: Step): Desk
    requires Enabled(s, step)
  {
    match step
    case StepAdd(key, env) => AddCard(s, key, env)
    case StepSettle(key) => SettleCard(s, key)
    case StepHello(hub, envs) => OnHello(s, hub, envs)
    case StepHub(connected, envs) => OnHub(s, connected, envs)
    case StepRespond(i, outcome) => Respond(s, i, outcome)
    case StepContinue(i, now) => Continue(s, i, now)
    case StepWake(i, env) => Head(s, i, env)
    case StepReplied(i, taken) => Replied(s, i, taken)
    case StepStop => OnStop(s)
  }

  // ---- What every step keeps ---------------------------------------------------------------------------

  ghost predicate TableOk(s: Desk) { forall k <- s.table :: s.Open(s.table[k]) && s.cards[s.table[k]].key == k }

  /** A waiting loop is of an open card unless it was aborted; the open card is then asking and holds its controller. */
  ghost predicate LoopOk(s: Desk, i: nat)
    requires i < |s.loops|
  {
    var l := s.loops[i];
    && l.card < |s.cards|
    && (l.Live() ==> (l.aborted <==> !s.Open(l.card)))
    && (l.Live() && s.Open(l.card) ==> s.cards[l.card].state == Asking && s.cards[l.card].abort == Some(i))
    && (l.stage.Calling? ==> s.Open(l.card))
    && (l.stage.Replying? && s.Open(l.card) ==> s.cards[l.card].state == Answering)
  }

  /** An open asking card holds the controller of its loop; any other open card holds none. */
  ghost predicate CardOk(s: Desk, h: nat)
    requires h < |s.cards|
  {
    s.Open(h) ==>
      var abort := s.cards[h].abort;
      if s.cards[h].state == Asking then
        abort.Some? && abort.value < |s.loops| && s.loops[abort.value].card == h && s.loops[abort.value].Live()
      else abort.None?
  }

  /** A card's earlier loops have ended. */
  ghost predicate OneLoop(loops: seq<Loop>) {
    forall i, j :: 0 <= i < j < |loops| && loops[i].card == loops[j].card ==> loops[i].stage.Ended?
  }

  predicate Final(o: Out) { o.Cancel? || o.Taken? }

  /** A cancelled or answered card is closed for good, and no answer to it is under way. */
  ghost predicate OutOk(s: Desk, o: Out) {
    && o.card < |s.cards|
    && (Final(o) ==>
          && !s.Open(o.card)
          && forall i :: 0 <= i < |s.loops| && s.loops[i].card == o.card ==> !s.loops[i].stage.Replying?)
  }

  /** A cancellation or a taken answer is the last thing that leaves about a card. */
  ghost predicate LastWord(log: seq<Out>) {
    forall p, q :: 0 <= p < q < |log| && Final(log[p]) ==> log[q].card != log[p].card
  }

  ghost predicate LoopsOk(s: Desk) { forall i :: 0 <= i < |s.loops| ==> LoopOk(s, i) }

  ghost predicate CardsOk(s: Desk) { forall h :: 0 <= h < |s.cards| ==> CardOk(s, h) }

  ghost predicate OutsOk(s: Desk) { forall p :: 0 <= p < |s.log| ==> OutOk(s, s.log[p]) }

  ghost predicate Inv(s: Desk) {
    && TableOk(s) && (s.stopped ==> s.table == map[])
    && LoopsOk(s) && CardsOk(s) && OneLoop(s.loops) && OutsOk(s) && LastWord(s.log)
  }

  // ---- One loop goes on --------------------------------------------------------------------------------

  /** Loop `i` goes on to `stage` and leaves its card in `state`; `out` is what it sends. */
  function Turn(s: Desk, i: nat, stage: Stage, since: Option<int>, state: CardState, abort: Option<nat>,
        out: seq<Out>): Desk
    requires At(s, i)
  {
    var l := s.loops[i];
    s.(cards := s.cards[l.card := Card(s.cards[l.card].key, state, abort)],
       loops := s.loops[i := Loop(l.card, l.aborted, since, stage)], log := s.log + out)
  }

  /**
   * A running loop of an open card leaves the card asking exactly when it still waits; it sends only for an
   * open card.
   */
  predicate TurnOk(s: Desk, i: nat, stage: Stage, state: CardState, abort: Option<nat>, out: seq<Out>)
    requires At(s, i)
  {
    var (l, h) := (s.loops[i], s.loops[i].card);
    var live := stage.Calling? || stage.Settled? || stage.Sleeping?;
    && !l.stage.Ended?
    && (live ==> l.Live())
    && (s.Open(h) ==>
          && (live <==> state == Asking) && (abort == if live then Some(i) else None)
          && (stage.Replying? ==> state == Answering))
    && (!s.Open(h) ==> !stage.Calling? && !stage.Replying? && out == [])
    && (out == [] || (|out| == 1 && out[0].card == h && !Final(out[0])))
  }

  lemma TurnOpen(s: Desk, i: nat, stage: Stage, since: Option<int>, state: CardState, abort: Option<nat>, out: seq<Out>)
    requires At(s, i)
    ensures forall h :: Turn(s, i, stage, since, state, abort, out).Open(h) <==> s.Open(h)
  {
  }

  lemma TurnLoops(s: Desk, i: nat, stage: Stage, since: Option<int>, state: CardState, abort: Option<nat>,
        out: seq<Out>)
    requires At(s, i) && TurnOk(s, i, stage, state, abort, out) && LoopsOk(s) && OneLoop(s.loops)
    ensures LoopsOk(Turn(s, i, stage, since, state, abort, out)) &&
      OneLoop(Turn(s, i, stage, since, state, abort, out).loops)
  {
    TurnOpen(s, i, stage, since, state, abort, out);
    var t := Turn(s, i, stage, since, state, abort, out);
    forall j | 0 <= j < |t.loops| ensures LoopOk(t, j) {
      assert LoopOk(s, j) && LoopOk(s, i);
    }
  }

  lemma TurnCards(s: Desk, i: nat, stage: Stage, since: Option<int>, state: CardState, abort: Option<nat>,
        out: seq<Out>)
    requires At(s, i) && TurnOk(s, i, stage, state, abort, out) && CardsOk(s) && TableOk(s)
    ensures CardsOk(Turn(s, i, stage, since, state, abort, out)) && TableOk(Turn(s, i, stage, since, state, abort, out))
  {
    TurnOpen(s, i, stage, since, state, abort, out);
    var t := Turn(s, i, stage, since, state, abort, out);
    forall h | 0 <= h < |t.cards| ensures CardOk(t, h) {
      assert CardOk(s, h);
    }
  }

  lemma TurnLog(s: Desk, i: nat, stage: Stage, since: Option<int>, state: CardState, abort: Option<nat>, out: seq<Out>)
    requires At(s, i) && TurnOk(s, i, stage, state, abort, out) && OutsOk(s) && LastWord(s.log)
    ensures OutsOk(Turn(s, i, stage, since, state, abort, out)) &&
      LastWord(Turn(s, i, stage, since, state, abort, out).log)
  {
    TurnOpen(s, i, stage, since, state, abort, out);
    var t := Turn(s, i, stage, since, state, abort, out);
    forall p | 0 <= p < |t.log| ensures OutOk(t, t.log[p]) {
      assert p < |s.log| ==> OutOk(s, s.log[p]);
    }
  }

  lemma TurnKeeps(s: Desk, i: nat, stage: Stage, since: Option<int>, state: CardState, abort: Option<nat>,
        out: seq<Out>)
    requires Inv(s) && At(s, i) && TurnOk(s, i, stage, state, abort, out)
    ensures Inv(Turn(s, i, stage, since, state, abort, out))
  {
    hide LoopsOk, CardsOk, OneLoop, OutsOk, LastWord, TableOk, TurnOk;
    TurnLoops(s, i, stage, since, state, abort, out);
    TurnCards(s, i, stage, since, state, abort, out);
    TurnLog(s, i, stage, since, state, abort, out);
  }

  lemma Unchanged(s: Desk, h: nat)
    requires h < |s.cards|
    ensures s.cards[h := Card(s.cards[h].key, s.cards[h].state, s.cards[h].abort)] == s.cards && s.log + [] == s.log
  {
  }

  lemma HeadKeeps(s: Desk, i: nat, env: Env)
    requires Inv(s) && At(s, i) && s.loops[i].stage.Sleeping?
    ensures Inv(Head(s, i, env)) && |Head(s, i, env).cards| == |s.cards|
    ensures var (t, h) := (Head(s, i, env), s.loops[i].card);
      t.log == s.log || (s.Open(h) && t.log == s.log + [Create(h)])
  {
    var l := s.loops[i];
    var c := s.cards[l.card];
    assert LoopOk(s, i);
    Unchanged(s, l.card);
    hide LoopsOk, CardsOk, OneLoop, OutsOk, LastWord, TableOk, LoopOk;
    assert s.stopped ==> !s.Open(l.card);
    if !s.Current(i) {
      TurnKeeps(s, i, Ended, l.goneSince, c.state, c.abort, []);
    } else if env.expired {
      TurnKeeps(s, i, Ended, l.goneSince, Failed, None, []);
    } else if env.written {
      TurnKeeps(s, i, Calling, l.goneSince, c.state, c.abort, [Create(l.card)]);
    } else {
      TurnKeeps(s, i, Settled(Rejected(false)), l.goneSince, c.state, c.abort, []);
    }
  }

  lemma RespondKeeps(s: Desk, i: nat, outcome: Outcome)
    requires Inv(s) && At(s, i) && s.loops[i].stage.Calling?
    ensures Inv(Respond(s, i, outcome))
  {
    var l := s.loops[i];
    var c := s.cards[l.card];
    assert LoopOk(s, i);
    Unchanged(s, l.card);
    hide LoopsOk, CardsOk, OneLoop, OutsOk, LastWord, TableOk, LoopOk;
    TurnKeeps(s, i, Settled(outcome), l.goneSince, c.state, c.abort, []);
  }

  /** An answer is given to the source only for a card still open, right when its call resolved. */
  lemma ContinueKeeps(s: Desk, i: nat, now: int)
    requires Inv(s) && At(s, i) && s.loops[i].stage.Settled?
    ensures Inv(Continue(s, i, now))
    ensures var (t, h) := (Continue(s, i, now), s.loops[i].card);
      t.log == s.log || (s.Open(h) && exists said :: t.log == s.log + [Answer(h, said)])
  {
    var l := s.loops[i];
    var c := s.cards[l.card];
    var since := l.goneSince.GetOr(now);
    assert LoopOk(s, i);
    Unchanged(s, l.card);
    hide LoopsOk, CardsOk, OneLoop, OutsOk, LastWord, TableOk, LoopOk;
    assert s.stopped ==> !s.Open(l.card);
    match l.stage.outcome
    case Rejected(gone) =>
      if !s.Current(i) {
        TurnKeeps(s, i, Ended, l.goneSince, c.state, c.abort, []);
      } else if gone && now - since < NODE_GONE_WINDOW_MS {
        TurnKeeps(s, i, Sleeping, Some(since), c.state, c.abort, []);
      } else {
        TurnKeeps(s, i, Ended, l.goneSince, Failed, None, []);
      }
    case Resolved(r) =>
      if !s.Current(i) {
        TurnKeeps(s, i, Ended, l.goneSince, c.state, None, []);
      } else if r == Dismiss {
        TurnKeeps(s, i, Ended, l.goneSince, Dismissed, None, []);
      } else if r.said.Some? {
        TurnKeeps(s, i, Replying, l.goneSince, Answering, None, [Answer(l.card, r.said.value)]);
      } else {
        TurnKeeps(s, i, Ended, l.goneSince, Failed, None, []);
      }
  }

  // ---- Cards come and go -------------------------------------------------------------------------------

  /** A loop starts for an open card that was not asking. */
  lemma BeginKeeps(s: Desk, h: nat)
    requires Inv(s) && s.Open(h) && (s.cards[h].state == Waiting || s.cards[h].state == Failed)
    ensures Inv(WithCard(s, h, Asking, Some(|s.loops|)).(loops := s.loops + [Loop(h, false, None, Sleeping)]))
  {
    var t := WithCard(s, h, Asking, Some(|s.loops|)).(loops := s.loops + [Loop(h, false, None, Sleeping)]);
    assert forall g :: t.Open(g) <==> s.Open(g);
    forall i | 0 <= i < |t.loops|
      ensures LoopOk(t, i) && (i < |s.loops| && t.loops[i].card == h ==> t.loops[i].stage.Ended?)
    {
      assert i < |s.loops| ==> LoopOk(s, i) && t.loops[i] == s.loops[i];
    }
    forall g | 0 <= g < |t.cards| ensures CardOk(t, g) {
      assert CardOk(s, g);
    }
    forall p | 0 <= p < |t.log| ensures OutOk(t, t.log[p]) {
      assert OutOk(s, s.log[p]);
    }
  }

  lemma AskKeeps(s: Desk, h: nat, env: Env)
    requires Inv(s) && s.Open(h) && (s.cards[h].state == Waiting || s.cards[h].state == Failed)
    ensures Inv(Ask(s, h, env)) && |Ask(s, h, env).cards| == |s.cards|
    ensures Ask(s, h, env).log == s.log || Ask(s, h, env).log == s.log + [Create(h)]
  {
    hide Inv, Head;
    BeginKeeps(s, h);
    var t := WithCard(s, h, Asking, Some(|s.loops|)).(loops := s.loops + [Loop(h, false, None, Sleeping)]);
    HeadKeeps(t, |s.loops|, env);
  }

  lemma AskOneKeeps(s: Desk, h: nat, env: Env)
    requires Inv(s) && h < |s.cards|
    ensures Inv(AskOne(s, h, env))
  {
    hide Inv, Ask;
    if s.Open(h) && (s.cards[h].state == Waiting || s.cards[h].state == Failed) {
      AskKeeps(s, h, env);
    }
  }

  lemma {:induction false} AskFirstKeeps(s: Desk, n: nat, envs: nat -> Env)
    requires Inv(s) && n <= |s.cards|
    ensures Inv(AskFirst(s, n, envs))
  {
    hide Inv, Ask;
    if n > 0 {
      AskFirstKeeps(s, n - 1, envs);
      AskOneKeeps(AskFirst(s, n - 1, envs), n - 1, envs(n - 1));
    }
  }

  lemma NewCardKeeps(s: Desk, key: Key)
    requires Inv(s) && !s.stopped && key !in s.table
    ensures Inv(s.(cards := s.cards + [Card(key, Waiting, None)], table := s.table[key := |s.cards|]))
  {
    var t := s.(cards := s.cards + [Card(key, Waiting, None)], table := s.table[key := |s.cards|]);
    assert forall g :: 0 <= g < |s.cards| ==> t.cards[g] == s.cards[g];
    assert forall g :: 0 <= g < |s.cards| ==> (t.Open(g) <==> s.Open(g));
    forall i | 0 <= i < |t.loops| ensures LoopOk(t, i) {
      assert LoopOk(s, i);
    }
    forall g | 0 <= g < |t.cards| ensures CardOk(t, g) {
      assert g < |s.cards| ==> CardOk(s, g);
    }
    forall p | 0 <= p < |t.log| ensures OutOk(t, t.log[p]) {
      assert OutOk(s, s.log[p]);
    }
  }

  /** Closing a card: its loops are `loops`, and `out` is said about it. */
  function Closed(s: Desk, h: nat, loops: seq<Loop>, out: seq<Out>): Desk
    requires h < |s.cards|
  {
    s.(table := if s.Open(h) then s.table - {s.cards[h].key} else s.table, loops := loops, log := s.log + out)
  }

  /** The closed card's loops no longer wait for the phone; the others are as they were. */
  ghost predicate ClosedLoops(s: Desk, h: nat, loops: seq<Loop>, out: seq<Out>) {
    && |loops| == |s.loops|
    && (forall j :: 0 <= j < |loops| ==>
          && loops[j].card == s.loops[j].card && (s.loops[j].card != h ==> loops[j] == s.loops[j])
          && (s.loops[j].card == h ==>
                && !loops[j].stage.Calling? && (loops[j].Live() ==> loops[j].aborted)
                && (s.loops[j].stage.Ended? ==> loops[j].stage.Ended?)
                && (loops[j].stage.Replying? ==> out == [] && s.loops[j].stage.Replying?)))
    && (out == [] || (|out| == 1 && out[0].card == h && Final(out[0])))
    && (out != [] ==> s.Open(h) || exists i :: 0 <= i < |s.loops| && s.loops[i].card == h && s.loops[i].stage.Replying?)
  }

  lemma ClosedOpen(s: Desk, h: nat, loops: seq<Loop>, out: seq<Out>)
    requires TableOk(s) && h < |s.cards|
    ensures forall g :: Closed(s, h, loops, out).Open(g) <==> s.Open(g) && g != h
    ensures TableOk(Closed(s, h, loops, out))
  {
  }

  lemma CloseLastWord(s: Desk, h: nat, loops: seq<Loop>, out: seq<Out>)
    requires OutsOk(s) && LastWord(s.log) && h < |s.cards| && ClosedLoops(s, h, loops, out)
    ensures LastWord(s.log + out)
  {
    forall p | 0 <= p < |s.log| && Final(s.log[p]) && out != [] ensures s.log[p].card != h {
      assert OutOk(s, s.log[p]);
    }
  }

  lemma CloseKeeps(s: Desk, h: nat, loops: seq<Loop>, out: seq<Out>)
    requires Inv(s) && h < |s.cards| && ClosedLoops(s, h, loops, out)
    ensures Inv(Closed(s, h, loops, out))
  {
    ClosedOpen(s, h, loops, out);
    var t := Closed(s, h, loops, out);
    forall i | 0 <= i < |t.loops| ensures LoopOk(t, i) {
      assert LoopOk(s, i);
    }
    forall g | 0 <= g < |t.cards| ensures CardOk(t, g) {
      assert CardOk(s, g);
      var abort := s.cards[g].abort;
      assert abort.Some? && abort.value < |loops| && s.loops[abort.value].card == g && g != h ==>
        loops[abort.value] == s.loops[abort.value];
    }
    forall p | 0 <= p < |t.log| ensures OutOk(t, t.log[p]) {
      assert p < |s.log| ==> OutOk(s, s.log[p]);
    }
    CloseLastWord(s, h, loops, out);
  }

  /** A card whose loop is not over has no other. */
  lemma OnlyLoop(loops: seq<Loop>, i: nat)
    requires OneLoop(loops) && i < |loops| && !loops[i].stage.Ended?
    ensures forall j :: 0 <= j < |loops| && j != i && loops[j].card == loops[i].card ==> loops[j].stage.Ended?
  {
  }

  lemma RepliedKeeps(s: Desk, i: nat, taken: bool)
    requires Inv(s) && At(s, i) && s.loops[i].stage.Replying?
    ensures Inv(Replied(s, i, taken))
  {
    var l := s.loops[i];
    var c := s.cards[l.card];
    assert LoopOk(s, i) && CardOk(s, l.card);
    if taken {
      var loops := s.loops[i := l.(stage := Ended)];
      OnlyLoop(s.loops, i);
      CloseKeeps(s, l.card, loops, [Taken(l.card)]);
    } else {
      Unchanged(s, l.card);
      hide LoopsOk, CardsOk, OneLoop, OutsOk, LastWord, TableOk, LoopOk;
      TurnKeeps(s, i, Ended, l.goneSince, Failed, c.abort, []);
    }
  }

  lemma SettleKeeps(s: Desk, key: Key)
    requires Inv(s) && (key in s.table ==> s.table[key] < |s.cards|)
    ensures Inv(SettleCard(s, key))
  {
    if key in s.table {
      var h := s.table[key];
      assert s.Open(h) && s.cards[h].key == key;
      assert CardOk(s, h);
      forall j | 0 <= j < |s.loops| && s.loops[j].card == h
        ensures s.loops[j].Live() ==> s.cards[h].state == Asking && s.cards[h].abort == Some(j)
        ensures s.loops[j].stage.Replying? ==> s.cards[h].state == Answering
      {
        assert LoopOk(s, j);
      }
      Unchanged(s, h);
      if s.cards[h].state != Asking {
        CloseKeeps(s, h, s.loops, []);
      } else {
        CloseKeeps(s, h, AbortLoop(s.loops, s.cards[h].abort), [Cancel(h)]);
      }
    }
  }

  // ---- The runtime stops -------------------------------------------------------------------------------

  function Aborted(l: Loop): Loop {
    l.(aborted := true, stage := if l.stage.Calling? then Settled(Rejected(false)) else l.stage)
  }

  /** Stopping aborts exactly the loops of open cards that still wait. */
  lemma {:induction false} AbortFirstIs(s: Desk, n: nat, i: nat)
    requires LoopsOk(s) && CardsOk(s) && n <= |s.cards| && i < |s.loops|
    ensures var l := s.loops[i];
      AbortFirst(s, n)[i] == if l.Live() && s.Open(l.card) && l.card < n then Aborted(l) else l
  {
    if n > 0 {
      AbortFirstIs(s, n - 1, i);
      assert LoopOk(s, i) && CardOk(s, n - 1);
    }
  }

  lemma StopKeeps(s: Desk)
    requires Inv(s)
    ensures Inv(OnStop(s))
  {
    if !s.stopped {
      var t := OnStop(s);
      forall i | 0 <= i < |t.loops|
        ensures LoopOk(t, i)
        ensures t.loops[i].card == s.loops[i].card && (t.loops[i].stage == s.loops[i].stage || s.loops[i].Live())
        ensures t.loops[i].stage.Replying? ==> s.loops[i].stage.Replying?
      {
        AbortFirstIs(s, |s.cards|, i);
        assert LoopOk(s, i);
      }
      forall p | 0 <= p < |t.log| ensures OutOk(t, t.log[p]) {
        assert OutOk(s, s.log[p]);
      }
    }
  }

  // ---- All runs ----------------------------------------------------------------------------------------

  lemma AddKeeps(s: Desk, key: Key, env: Env)
    requires Inv(s)
    ensures Inv(AddCard(s, key, env))
  {
    if !s.stopped && key !in s.table {
      NewCardKeeps(s, key);
      hide Inv, Ask;
      var t := s.(cards := s.cards + [Card(key, Waiting, None)], table := s.table[key := |s.cards|]);
      if s.ready && s.hub {
        AskKeeps(t, |s.cards|, env);
      }
    }
  }

  /** The hub and hello flags do not matter to what is kept. */
  lemma FlagsKeep(s: Desk, t: Desk)
    requires Inv(s) && t == s.(ready := t.ready, hub := t.hub)
    ensures Inv(t)
  {
    forall i | 0 <= i < |t.loops| ensures LoopOk(t, i) {
      assert LoopOk(s, i);
    }
    forall g | 0 <= g < |t.cards| ensures CardOk(t, g) {
      assert CardOk(s, g);
    }
    forall p | 0 <= p < |t.log| ensures OutOk(t, t.log[p]) {
      assert OutOk(s, s.log[p]);
    }
  }

  lemma AskWaitingKeeps(t: Desk, s: Desk, envs: nat -> Env)
    requires Inv(s) && t == s.(ready := t.ready, hub := t.hub)
    ensures Inv(AskWaitingCards(t, envs)) && Inv(t)
  {
    FlagsKeep(s, t);
    hide Inv, AskFirst;
    AskFirstKeeps(t, |t.cards|, envs);
  }

  lemma StepKeeps(s: Desk, step: Step)
    requires Inv(s) && Enabled(s, step)
    ensures Inv(Apply(s, step))
  {
    hide Inv, Continue, Head, Respond, Replied, SettleCard, OnStop, AskFirst, Ask;
    match step
    case StepAdd(key, env) => AddKeeps(s, key, env);
    case StepSettle(key) => SettleKeeps(s, key);
    case StepHello(hub, envs) => AskWaitingKeeps(s.(ready := true, hub := hub), s, envs);
    case StepHub(connected, envs) => AskWaitingKeeps(s.(hub := connected), s, envs);
    case StepRespond(i, outcome) => RespondKeeps(s, i, outcome);
    case StepContinue(i, now) => ContinueKeeps(s, i, now);
    case StepWake(i, env) => HeadKeeps(s, i, env);
    case StepReplied(i, taken) => RepliedKeeps(s, i, taken);
    case StepStop => StopKeeps(s);
  }

  ghost predicate RunsTo(s: Desk, steps: seq<Step>, t: Desk)
    decreases steps
  {
    if steps == [] then s == t else Enabled(s, steps[0]) && RunsTo(Apply(s, steps[0]), steps[1..], t)
  }

  ghost predicate Reachable(s: Desk) { exists steps :: RunsTo(FRESH, steps, s) }

  lemma {:induction false} RunKeeps(s: Desk, steps: seq<Step>, t: Desk)
    requires Inv(s) && RunsTo(s, steps, t)
    ensures Inv(t)
    decreases steps
  {
    if steps != [] {
      hide Inv, Enabled, Apply;
      StepKeeps(s, steps[0]);
      RunKeeps(Apply(s, steps[0]), steps[1..], t);
    }
  }

  lemma ReachableOk(s: Desk)
    requires Reachable(s)
    ensures Inv(s)
  {
    var steps :| RunsTo(FRESH, steps, s);
    RunKeeps(FRESH, steps, s);
  }

  /** A card in the table is asking exactly when one ask loop waits for it, whose controller it holds. */
  lemma AskingHasOneLoop(s: Desk, h: nat)
    requires Reachable(s) && s.Open(h)
    ensures s.cards[h].state == Asking <==> exists i :: 0 <= i < |s.loops| && s.loops[i].card == h && s.loops[i].Live()
    ensures forall i, j :: 0 <= i < j < |s.loops| && s.loops[i].card == h == s.loops[j].card ==>
      !(s.loops[i].Live() && s.loops[j].Live())
  {
    ReachableOk(s);
    assert CardOk(s, h);
    forall i | 0 <= i < |s.loops| && s.loops[i].card == h && s.loops[i].Live()
      ensures s.cards[h].state == Asking && s.cards[h].abort == Some(i)
    {
      assert LoopOk(s, i);
    }
  }

  /** At most one `interaction.create` is outstanding for a card, and even for a card's key; it is of an open card. */
  lemma OneOutstandingCall(s: Desk, i: nat, j: nat)
    requires Reachable(s) && i < |s.loops| && j < |s.loops| && s.loops[i].stage.Calling? && s.loops[j].stage.Calling?
    ensures s.Open(s.loops[i].card) && s.Open(s.loops[j].card)
    ensures s.cards[s.loops[i].card].key == s.cards[s.loops[j].card].key ==> i == j
  {
    ReachableOk(s);
    assert LoopOk(s, i) && LoopOk(s, j);
  }

  /**
   * After `interaction.cancel`, or once an answer was taken, nothing more is sent about that card: no create,
   * no second answer.
   */
  lemma NothingAfterTheLastWord(s: Desk, p: nat, q: nat)
    requires Reachable(s) && p < q < |s.log| && (s.log[p].Cancel? || s.log[p].Taken?)
    ensures s.log[q].card != s.log[p].card
  {
    ReachableOk(s);
  }

  /** The table and the keys of the cards are as they were, and only creates of open cards were added. */
  ghost predicate AsksOnly(s: Desk, t: Desk) {
    && t.table == s.table && |t.cards| == |s.cards| && s.log <= t.log
    && (forall h :: 0 <= h < |s.cards| ==> t.cards[h].key == s.cards[h].key)
    && (forall p :: |s.log| <= p < |t.log| ==> t.log[p].Create? && s.Open(t.log[p].card))
  }

  lemma AskAsks(s: Desk, h: nat, env: Env)
    requires h < |s.cards|
    ensures AsksOnly(s, AskOne(s, h, env))
  {
  }

  lemma AsksOn(s: Desk, u: Desk, t: Desk)
    requires AsksOnly(s, u) && AsksOnly(u, t)
    ensures AsksOnly(s, t)
  {
    forall p | |s.log| <= p < |t.log| ensures t.log[p].Create? && s.Open(t.log[p].card) {
      assert p < |u.log| ==> t.log[p] == u.log[p];
    }
  }

  lemma AsksNothing(s: Desk)
    ensures AsksOnly(s, s)
  {
  }

  lemma {:induction false} AskFirstAsks(s: Desk, n: nat, envs: nat -> Env)
    requires n <= |s.cards|
    ensures AsksOnly(s, AskFirst(s, n, envs))
  {
    hide AskOne, AsksOnly;
    if n > 0 {
      AskFirstAsks(s, n - 1, envs);
      var u := AskFirst(s, n - 1, envs);
      AskAsks(u, n - 1, envs(n - 1));
      AsksOn(s, u, AskOne(u, n - 1, envs(n - 1)));
    } else {
      AsksNothing(s);
    }
  }

  /** What a step adds to the log: creates and answers are of cards then open, last words of cards then closed. */
  ghost predicate Speaks(s: Desk, t: Desk) {
    s.log <= t.log && forall p :: |s.log| <= p < |t.log| ==> (t.Open(t.log[p].card) <==> !Final(t.log[p]))
  }

  lemma AsksSpeaks(s: Desk, u: Desk, t: Desk)
    requires AsksOnly(u, t) && u.log == s.log
    ensures Speaks(s, t)
  {
    forall p | |s.log| <= p < |t.log| ensures t.Open(t.log[p].card) && !Final(t.log[p]) {
      assert u.Open(t.log[p].card);
    }
  }

  lemma AddSpeaks(s: Desk, key: Key, env: Env)
    ensures Speaks(s, AddCard(s, key, env))
  {
    if !s.stopped && key !in s.table {
      var u := s.(cards := s.cards + [Card(key, Waiting, None)], table := s.table[key := |s.cards|]);
      assert u.Open(|s.cards|) && u.cards[|s.cards|].state == Waiting;
      hide Ask, AsksOnly;
      AskAsks(u, |s.cards|, env);
      AsksSpeaks(s, u, AskOne(u, |s.cards|, env));
    }
  }

  lemma AskWaitingSpeaks(s: Desk, u: Desk, envs: nat -> Env)
    requires u.log == s.log
    ensures Speaks(s, AskWaitingCards(u, envs))
  {
    hide AskFirst, AsksOnly;
    AskFirstAsks(u, |u.cards|, envs);
    AsksSpeaks(s, u, AskFirst(u, |u.cards|, envs));
  }

  lemma HeadSpeaks(s: Desk, i: nat, env: Env)
    requires At(s, i)
    ensures Speaks(s, Head(s, i, env))
  {
  }

  lemma ContinueSpeaks(s: Desk, i: nat, now: int)
    requires At(s, i) && s.loops[i].stage.Settled?
    ensures Speaks(s, Continue(s, i, now))
  {
  }

  lemma RepliedSpeaks(s: Desk, i: nat, taken: bool)
    requires At(s, i) && s.loops[i].stage.Replying?
    ensures Speaks(s, Replied(s, i, taken))
  {
  }

  lemma SettleSpeaks(s: Desk, key: Key)
    requires TableOk(s) && (key in s.table ==> s.table[key] < |s.cards|)
    ensures Speaks(s, SettleCard(s, key))
  {
  }

  lemma StepSpeaks(s: Desk, step: Step)
    requires Inv(s) && Enabled(s, step)
    ensures Speaks(s, Apply(s, step))
  {
    hide Head, Continue, Replied, SettleCard, AddCard, AskWaitingCards;
    match step
    case StepAdd(key, env) => AddSpeaks(s, key, env);
    case StepSettle(key) => SettleSpeaks(s, key);
    case StepHello(hub, envs) => AskWaitingSpeaks(s, s.(ready := true, hub := hub), envs);
    case StepHub(connected, envs) => AskWaitingSpeaks(s, s.(hub := connected), envs);
    case StepRespond(_, _) =>
    case StepContinue(i, now) => ContinueSpeaks(s, i, now);
    case StepWake(i, env) => HeadSpeaks(s, i, env);
    case StepReplied(i, taken) => RepliedSpeaks(s, i, taken);
    case StepStop =>
  }

  /**
   * Whatever happens, a create or an answer goes out only for a card that is in the table at that moment,
   * and a cancel or a taken answer only for one that is not, or no longer.
   */
  lemma OnlyOpenCardsSpeak(s: Desk, step: Step)
    requires Reachable(s) && Enabled(s, step)
    ensures var t := Apply(s, step);
      s.log <= t.log && forall p :: |s.log| <= p < |t.log| ==>
        if t.log[p].Create? || t.log[p].Answer? then t.Open(t.log[p].card) else !t.Open(t.log[p].card)
  {
    ReachableOk(s);
    StepKeeps(s, step);
    var t := Apply(s, step);
    StepSpeaks(s, step);
    forall p | |s.log| <= p < |t.log| && Final(t.log[p]) ensures !t.Open(t.log[p].card) {
      assert OutOk(t, t.log[p]);
    }
  }
}
