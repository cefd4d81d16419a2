/**
 * Interaction cards: approvals and questions put to the phone through `interaction.create`. Every
 * call, sleep and answer is a suspension point at which anything else may happen.
 */
module Cards {
  import opened Options

  type Key = string

  datatype CardState = Waiting | Asking | Answering | Dismissed | Failed

  /** A card object; `abort` is the ask loop whose controller it holds. */
  datatype Card = Card(key: Key, state: CardState, abort: Option<nat>)

  /** What the phone sent: a dismissal, or a reply; what the reply says when it has the card's shape, else None. */
  datatype Resolution = Dismiss | Reply(said: Option<string>)

  /** How an `interaction.create` call settled. */
  datatype Outcome = Resolved(resolution: Resolution) | Rejected(nodeGone: bool)

  /** Where one run of the ask loop stands; the first three wait for its call, its continuation, its timer. */
  datatype Stage = Calling | Settled(outcome: Outcome) | Sleeping | Replying | Ended

  datatype Loop = Loop(card: nat, aborted: bool, goneSince: Option<int>, stage: Stage) {
    predicate Live() { stage.Calling? || stage.Settled? || stage.Sleeping? }
  }

  /** What leaves the runtime about a card: requests and cancellations to the phone, answers to the source. */
  datatype Out = Create(card: nat) | Cancel(card: nat) | Answer(card: nat, said: string) | Taken(card: nat)

  /** The card's remaining time when a loop starts a call, and whether the request could be written. */
  datatype Env = Env(expired: bool, written: bool)

  datatype Desk = Desk(cards: seq<Card>, table: map<Key, nat>, loops: seq<Loop>, log: seq<Out>,
                       ready: bool, hub: bool, stopped: bool) {
    /** The card object is the one in the table under its key. */
    predicate Open(h: nat) { h < |cards| && cards[h].key in table && table[cards[h].key] == h }

    predicate Current(i: nat)
      requires i < |loops|
    {
      Open(loops[i].card) && !loops[i].aborted && !stopped
    }
  }

  const NODE_GONE_WINDOW_MS := 120000

  const FRESH: Desk := Desk([], map[], [], [], false, false, false)

  // ---- The ask loop ----------------------------------------------------------------------------------

  /** A step of loop `i` of a desk names an existing card. */
  predicate At(s: Desk, i: nat) { i < |s.loops| && s.loops[i].card < |s.cards| }

  function WithLoop(s: Desk, i: nat, stage: Stage): Desk
    requires At(s, i)
  {
    s.(loops := s.loops[i := s.loops[i].(stage := stage)])
  }

  function WithCard(s: Desk, h: nat, state: CardState, abort: Option<nat>): Desk
    requires h < |s.cards|
  {
    s.(cards := s.cards[h := Card(s.cards[h].key, state, abort)])
  }

  function GiveUp(s: Desk, i: nat): Desk
    requires At(s, i)
  {
    WithLoop(WithCard(s, s.loops[i].card, Failed, None), i, Ended)
  }

  /** The head of the loop: stop, give up, or ask the phone. */
  function Head(s: Desk, i: nat, env: Env): Desk
    requires At(s, i)
  {
    if !s.Current(i) then WithLoop(s, i, Ended)
    else if env.expired then GiveUp(s, i)
    else if env.written then WithLoop(s.(log := s.log + [Create(s.loops[i].card)]), i, Calling)
    else WithLoop(s, i, Settled(Rejected(false)))
  }

  function Ask(s: Desk, h: nat, env: Env): Desk
    requires h < |s.cards|
  {
    if s.cards[h].state == Asking then s
    else
      var s' := WithCard(s, h, Asking, Some(|s.loops|));
      Head(s'.(loops := s.loops + [Loop(h, false, None, Sleeping)]), |s.loops|, env)
  }

  /** The peer settles a call: a response, an error, a timeout or a closed connection. */
  function Respond(s: Desk, i: nat, outcome: Outcome): Desk
    requires At(s, i) && s.loops[i].stage.Calling?
  {
    WithLoop(s, i, Settled(outcome))
  }

  function Resolve(s: Desk, i: nat, r: Resolution): Desk
    requires At(s, i)
  {
    var h := s.loops[i].card;
    match r
    case Dismiss => WithLoop(WithCard(s, h, Dismissed, None), i, Ended)
    case Reply(None) => GiveUp(s, i)
    case Reply(Some(said)) =>
      WithLoop(WithCard(s, h, Answering, None).(log := s.log + [Answer(h, said)]), i, Replying)
  }

  /** The loop goes on after its call. */
  function Continue(s: Desk, i: nat, now: int): Desk
    requires At(s, i) && s.loops[i].stage.Settled?
  {
    match s.loops[i].stage.outcome
    case Rejected(gone) =>
      var since := s.loops[i].goneSince.GetOr(now);
      if !s.Current(i) then WithLoop(s, i, Ended)
      else if gone && now - since < NODE_GONE_WINDOW_MS then
        s.(loops := s.loops[i := s.loops[i].(goneSince := Some(since), stage := Sleeping)])
      else GiveUp(s, i)
    case Resolved(r) =>
      var h := s.loops[i].card;
      if !s.Current(i) then WithLoop(WithCard(s, h, s.cards[h].state, None), i, Ended)
      else Resolve(s, i, r)
  }

  /** The source took the answer, or refused it. */
  function Replied(s: Desk, i: nat, taken: bool): Desk
    requires At(s, i) && s.loops[i].stage.Replying?
  {
    var h := s.loops[i].card;
    if taken then
      var table := if s.Open(h) then s.table - {s.cards[h].key} else s.table;
      WithLoop(s.(log := s.log + [Taken(h)], table := table), i, Ended)
    else WithLoop(WithCard(s, h, Failed, s.cards[h].abort), i, Ended)
  }

  // ---- The table -------------------------------------------------------------------------------------

  function AddCard(s: Desk, key: Key, env: Env): Desk {
    if s.stopped || key in s.table then s
    else
      var h := |s.cards|;
      var s' := s.(cards := s.cards + [Card(key, Waiting, None)], table := s.table[key := h]);
      if s.ready && s.hub then Ask(s', h, env) else s'
  }

  /** Aborting a loop's controller rejects its call, if one is out. */
  function AbortLoop(loops: seq<Loop>, abort: Option<nat>): (r: seq<Loop>)
    ensures |r| == |loops|
  {
    if abort.None? || abort.value >= |loops| then loops
    else
      var l := loops[abort.value];
      loops[abort.value := l.(aborted := true, stage := if l.stage.Calling? then Settled(Rejected(false)) else l.stage)]
  }

  function SettleCard(s: Desk, key: Key): Desk
    requires key in s.table ==> s.table[key] < |s.cards|
  {
    if key !in s.table then s
    else
      var h := s.table[key];
      var s' := s.(table := s.table - {key});
      if s.cards[h].state != Asking then s'
      else s'.(loops := AbortLoop(s.loops, s.cards[h].abort), log := s.log + [Cancel(h)])
  }

  /** Ask a card of the table, if it waits or failed. */
  function AskOne(s: Desk, h: nat, env: Env): (r: Desk)
    requires h < |s.cards|
    ensures |r.cards| == |s.cards| && r.ready == s.ready && r.hub == s.hub
  {
    if s.Open(h) && (s.cards[h].state == Waiting || s.cards[h].state == Failed) then Ask(s, h, env) else s
  }

  /** Ask the first `n` cards that wait or failed, in the order they were added. */
  function AskFirst(s: Desk, n: nat, env: nat -> Env): (r: Desk)
    requires n <= |s.cards|
    ensures |r.cards| == |s.cards| && r.ready == s.ready && r.hub == s.hub
  {
    if n == 0 then s else AskOne(AskFirst(s, n - 1, env), n - 1, env(n - 1))
  }

  function AskWaitingCards(s: Desk, env: nat -> Env): Desk {
    if !s.ready || !s.hub || s.stopped then s else AskFirst(s, |s.cards|, env)
  }

  function OnHello(s: Desk, hub: bool, env: nat -> Env): Desk {
    if s.stopped then s else AskWaitingCards(s.(ready := true, hub := hub), env)
  }

  function OnHub(s: Desk, connected: bool, env: nat -> Env): Desk {
    var s' := s.(hub := connected);
    if connected && !s.hub then AskWaitingCards(s', env) else s'
  }

  /** Abort the loops whose controllers the first `n` cards hold, when those cards are open. */
  function AbortFirst(s: Desk, n: nat): (loops: seq<Loop>)
    requires n <= |s.cards|
    ensures |loops| == |s.loops|
  {
    if n == 0 then s.loops
    else if s.Open(n - 1) then AbortLoop(AbortFirst(s, n - 1), s.cards[n - 1].abort)
    else AbortFirst(s, n - 1)
  }

  function OnStop(s: Desk): Desk {
    if s.stopped then s else s.(stopped := true, loops := AbortFirst(s, |s.cards|), table := map[])
  }
}

/** The runtime's own form of the cards: fields updated in place, one method for each function above. */
module CardDesk {
  import opened Options
  import opened Cards

  class CardDesk {
    var cards: seq<Card>
    var table: map<Key, nat>
    var loops: seq<Loop>
    var log: seq<Out>
    var ready: bool
    var hub: bool
    var stopped: bool

    function View(): Desk
      reads this
    {
      Desk(cards, table, loops, log, ready, hub, stopped)
    }

    predicate Valid()
      reads this
    {
      && (forall k <- table :: table[k] < |cards| && cards[table[k]].key == k)
      && (forall i :: 0 <= i < |loops| ==> loops[i].card < |cards|)
    }

    constructor ()
      ensures Valid() && View() == FRESH
    {
      cards, table, loops, log := [], map[], [], [];
      ready, hub, stopped := false, false, false;
    }

    method GiveUp(i: nat)
      requires Valid() && i < |loops|
      modifies this`cards, this`loops
      ensures Valid() && View() == Cards.GiveUp(old(View()), i)
    {
      var h := loops[i].card;
      cards := cards[h := cards[h].(state := Failed, abort := None)];
      loops := loops[i := loops[i].(stage := Ended)];
    }

    method Head(i: nat, env: Env)
      requires Valid() && i < |loops|
      modifies this`cards, this`loops, this`log
      ensures Valid() && View() == Cards.Head(old(View()), i, env)
    {
      if !View().Current(i) {
        loops := loops[i := loops[i].(stage := Ended)];
      } else if env.expired {
        GiveUp(i);
      } else if env.written {
        log := log + [Create(loops[i].card)];
        loops := loops[i := loops[i].(stage := Calling)];
      } else {
        loops := loops[i := loops[i].(stage := Settled(Rejected(false)))];
      }
    }

    method Ask(h: nat, env: Env)
      requires Valid() && h < |cards|
      modifies this`cards, this`loops, this`log
      ensures Valid() && View() == Cards.Ask(old(View()), h, env)
    {
      hide Cards.Head;
      if cards[h].state == Asking {
        return;
      }
      cards := cards[h := cards[h].(state := Asking, abort := Some(|loops|))];
      loops := loops + [Loop(h, false, None, Sleeping)];
      Head(|loops| - 1, env);
    }

    method Continue(i: nat, now: int)
      requires Valid() && i < |loops| && loops[i].stage.Settled?
      modifies this`cards, this`loops, this`log
      ensures Valid() && View() == Cards.Continue(old(View()), i, now)
    {
      var h := loops[i].card;
      match loops[i].stage.outcome
      case Rejected(gone) =>
        if !View().Current(i) {
          loops := loops[i := loops[i].(stage := Ended)];
          return;
        }
        if gone {
          var since := loops[i].goneSince.GetOr(now);
          if now - since < NODE_GONE_WINDOW_MS {
            loops := loops[i := loops[i].(goneSince := Some(since), stage := Sleeping)];
            return;
          }
        }
        GiveUp(i);
      case Resolved(r) =>
        hide Cards.Resolve;
        var current := View().Current(i);
        if !current {
          cards := cards[h := cards[h].(abort := None)];
          loops := loops[i := loops[i].(stage := Ended)];
          return;
        }
        Resolve(i, r);
    }

    method Resolve(i: nat, r: Resolution)
      requires Valid() && i < |loops|
      modifies this`cards, this`loops, this`log
      ensures Valid() && View() == Cards.Resolve(old(View()), i, r)
    {
      var h := loops[i].card;
      if r.Dismiss? {
        cards := cards[h := Card(cards[h].key, Dismissed, None)];
        loops := loops[i := loops[i].(stage := Ended)];
        return;
      }
      cards := cards[h := Card(cards[h].key, Answering, None)];
      if r.said.Some? {
        log := log + [Answer(h, r.said.value)];
        loops := loops[i := loops[i].(stage := Replying)];
      } else {
        GiveUp(i);
      }
    }

    method Replied(i: nat, taken: bool)
      requires Valid() && i < |loops| && loops[i].stage.Replying?
      modifies this`cards, this`table, this`loops, this`log
      ensures Valid() && View() == Cards.Replied(old(View()), i, taken)
    {
      var h := loops[i].card;
      if taken {
        log := log + [Taken(h)];
        if View().Open(h) {
          table := table - {cards[h].key};
        }
      } else {
        cards := cards[h := cards[h].(state := Failed)];
      }
      loops := loops[i := loops[i].(stage := Ended)];
    }

    method AddCard(key: Key, env: Env)
      requires Valid()
      modifies this`cards, this`table, this`loops, this`log
      ensures Valid() && View() == Cards.AddCard(old(View()), key, env)
    {
      hide Cards.Ask;
      if stopped || key in table {
        return;
      }
      var h := |cards|;
      cards := cards + [Card(key, Waiting, None)];
      table := table[key := h];
      if ready && hub {
        Ask(h, env);
      }
    }

    method Abort(abort: Option<nat>)
      requires Valid()
      modifies this`loops
      ensures Valid() && loops == AbortLoop(old(loops), abort)
    {
      if abort.Some? && abort.value < |loops| {
        var l := loops[abort.value];
        var stage := if l.stage.Calling? then Settled(Rejected(false)) else l.stage;
        loops := loops[abort.value := l.(aborted := true, stage := stage)];
      }
    }

    method SettleCard(key: Key)
      requires Valid()
      modifies this`table, this`loops, this`log
      ensures Valid() && View() == Cards.SettleCard(old(View()), key)
    {
      if key !in table {
        return;
      }
      var h := table[key];
      table := table - {key};
      if cards[h].state == Asking {
        Abort(cards[h].abort);
        log := log + [Cancel(h)];
      }
    }

    method AskWaitingCards(env: nat -> Env)
      requires Valid()
      modifies this`cards, this`loops, this`log
      ensures Valid() && View() == Cards.AskWaitingCards(old(View()), env)
    {
      hide Cards.Ask, Cards.Head;
      if !ready || !hub || stopped {
        return;
      }
      ghost var start := View();
      for h := 0 to |cards|
        invariant Valid() && |cards| == |start.cards| && View() == AskFirst(start, h, env)
      {
        ghost var before := View();
        assert AskFirst(start, h + 1, env) == AskOne(before, h, env(h));
        hide AskFirst;
        if View().Open(h) && (cards[h].state == Waiting || cards[h].state == Failed) {
          Ask(h, env(h));
        }
      }
    }

    /** The node answered hello. */
    method OnHello(connected: bool, env: nat -> Env)
      requires Valid()
      modifies this`cards, this`loops, this`log, this`ready, this`hub
      ensures Valid() && View() == Cards.OnHello(old(View()), connected, env)
    {
      hide Cards.AskWaitingCards;
      if stopped {
        return;
      }
      hub := connected;
      ready := true;
      AskWaitingCards(env);
    }

    /** The hub came or went; when it comes back, waiting cards are asked. */
    method OnHub(connected: bool, env: nat -> Env)
      requires Valid()
      modifies this`cards, this`loops, this`log, this`hub
      ensures Valid() && View() == Cards.OnHub(old(View()), connected, env)
    {
      hide Cards.AskWaitingCards;
      var was := hub;
      hub := connected;
      if connected && !was {
        AskWaitingCards(env);
      }
    }

    method Stop()
      requires Valid()
      modifies this`stopped, this`loops, this`table
      ensures Valid() && View() == OnStop(old(View()))
    {
      hide AbortLoop;
      if stopped {
        return;
      }
      stopped := true;
      for h := 0 to |cards|
        invariant Valid() && stopped && table == old(table) && loops == AbortFirst(old(View()), h)
      {
        if View().Open(h) {
          Abort(cards[h].abort);
        }
      }
      table := map[];
    }
  }
}
