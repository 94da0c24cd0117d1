/**
  The game state a card effect works on: the supply table, each player's
  deck and decision interface, and the game with its event queue. Only the
  behaviour the Bandit relies on is modelled (the classes behind these
  objects are not part of this model).
 */
module Engine {
  import opened Cards

  function Min(a: nat, b: nat): nat {
    if a <= b then a else b
  }

  /** The first `n` cards of a pile, or the whole pile when it holds fewer. */
  function TopCards(pile: seq<Card>, n: nat): (r: seq<Card>)
    ensures |r| <= n && r <= pile
    ensures |r| < n ==> r == pile
  {
    pile[..Min(n, |pile|)]
  }

  /** A player's piles. The draw pile's top card is its first element. */
  class Deck {
    var draw: seq<Card>
    var discard: seq<Card>

    constructor (draw: seq<Card>, discard: seq<Card>)
      ensures this.draw == draw && this.discard == discard
    {
      this.draw := draw;
      this.discard := discard;
    }

    /**
      `draw_cards(n, to_caller)`: takes up to `n` cards off the top of the
      draw pile. `toCaller` only says who may look at them.
     */
    method DrawCards(n: nat, toCaller: bool) returns (cards: seq<Card>)
      modifies this
      ensures cards == TopCards(old(draw), n)
      ensures cards + draw == old(draw)
      ensures discard == old(discard)
    {
      cards := TopCards(draw, n);
      draw := draw[|cards|..];
    }

    /** `add(cards, to_pile=DISCARD)`: the cards go onto the discard pile in the order given. */
    method Add(cards: seq<Card>)
      modifies this
      ensures discard == old(discard) + cards
      ensures draw == old(draw)
    {
      discard := discard + cards;
    }
  }

  /** A notification shown to a player. */
  datatype Notice = NoGoldLeft | TrashOptions(options: map<nat, string>)

  /** The answer to a decision: an offered index, or the "skipped" outcome. */
  datatype Choice = Chosen(index: nat) | Skipped

  /** One call of `get_input` and the answer it returned. */
  datatype Decision = Decision(prompt: string, options: map<nat, string>, allowSkip: bool, answer: Choice)

  class Player {
    const name: string
    const deck: Deck
    /** Everything `show` has displayed to this player, oldest first. */
    var notices: seq<Notice>
    /** Every decision this player was asked for, oldest first. */
    var decisions: seq<Decision>

    constructor (name: string, deck: Deck)
      ensures this.name == name && this.deck == deck
      ensures notices == [] && decisions == []
    {
      this.name := name;
      this.deck := deck;
      notices := [];
      decisions := [];
    }

    /** `show(message)`: a notification, with no effect on the game. */
    method Show(n: Notice)
      modifies this
      ensures notices == old(notices) + [n]
      ensures decisions == old(decisions)
    {
      notices := notices + [n];
    }

    /**
      `get_input(prompt, options, allow_skip)`: the player's choice among the
      offered indices. Any offered index may come back; when skipping is not
      allowed the call only returns with an offered index, so some index must
      be offered.
     */
    method GetInput(prompt: string, options: map<nat, string>, allowSkip: bool) returns (choice: Choice)
      requires allowSkip || options != map[]
      modifies this
      ensures choice.Chosen? ==> choice.index in options
      ensures !allowSkip ==> choice.Chosen?
      ensures decisions == old(decisions) + [Decision(prompt, options, allowSkip, choice)]
      ensures notices == old(notices)
    {
      var skip: bool :| true;
      if allowSkip && (skip || options == map[]) {
        choice := Skipped;
      } else {
        assert options.Keys != {};
        var k :| k in options.Keys;
        choice := Chosen(k);
      }
      decisions := decisions + [Decision(prompt, options, allowSkip, choice)];
    }
  }

  /** The supply: how many of each card remain. */
  class Table {
    var supply: map<Card, nat>

    constructor (supply: map<Card, nat>)
      ensures this.supply == supply
    {
      this.supply := supply;
    }

    /** `table[card]`; a card the supply does not list has none left. */
    function Count(card: Card): (n: nat)
      reads this
      ensures card in supply ==> n == supply[card]
      ensures card !in supply ==> n == 0
    {
      if card in supply then supply[card] else 0
    }

    /**
      `buy(card, player, free, to_pile=DISCARD)`: one copy leaves the supply
      for the player's discard pile, unless none is left. No payment is made
      here, whether or not the purchase is free.
     */
    method Buy(card: Card, player: Player, free: bool) returns (bought: bool)
      modifies this, player.deck
      ensures bought <==> old(Count(card)) > 0
      ensures bought ==> supply == old(supply)[card := old(Count(card)) - 1]
      ensures bought ==> player.deck.discard == old(player.deck.discard) + [card]
      ensures !bought ==> supply == old(supply) && player.deck.discard == old(player.deck.discard)
      ensures player.deck.draw == old(player.deck.draw)
      ensures Count(card) + multiset(player.deck.discard)[card] ==
              old(Count(card)) + old(multiset(player.deck.discard)[card])
    {
      bought := Count(card) > 0;
      if bought {
        supply := supply[card := supply[card] - 1];
        player.deck.Add([card]);
      }
    }
  }

  /**
    The events the core defines; each names the player it targets. The
    engine hands an event its target player when it runs it.
   */
  datatype Event = BanditEventSelf(target: string) | BanditEventOther(target: string)

  /** dominion.common.QueuePosition */
  datatype QueuePosition = Front | Back

  /**
    `add_events(events, where)` on queue values: at the front the new
    events run before everything already queued, at the back after it; in
    both cases in the order they were given.
   */
  function AddedEvents(queue: seq<Event>, events: seq<Event>, where: QueuePosition): (r: seq<Event>)
    ensures |r| == |queue| + |events|
    ensures where == Front ==>
      (forall i :: 0 <= i < |events| ==> r[i] == events[i]) &&
      (forall j :: 0 <= j < |queue| ==> r[|events| + j] == queue[j])
    ensures where == Back ==>
      (forall j :: 0 <= j < |queue| ==> r[j] == queue[j]) &&
      (forall i :: 0 <= i < |events| ==> r[|queue| + i] == events[i])
  {
    match where
    case Front => events + queue
    case Back => queue + events
  }

  function IndexOf(names: seq<string>, name: string): (i: nat)
    requires name in names
    ensures i < |names| && names[i] == name
    ensures forall j :: 0 <= j < i ==> names[j] != name
  {
    if names[0] == name then 0 else 1 + IndexOf(names[1..], name)
  }

  predicate Distinct(names: seq<string>) {
    forall i, j :: 0 <= i < j < |names| ==> names[i] != names[j]
  }

  /**
    `get_other_players(name)`: everyone but `name`, in seating order from the
    seat after `name`, wrapping round.
   */
  function OtherPlayers(names: seq<string>, name: string): (r: seq<string>)
    ensures name !in names ==> r == names
    ensures name in names ==>
      |r| == |names| - 1 &&
      forall k :: 0 <= k < |r| ==> r[k] == names[(IndexOf(names, name) + 1 + k) % |names|]
  {
    if name in names then
      var i := IndexOf(names, name);
      var r := names[i + 1..] + names[..i];
      assert forall k :: 0 <= k < |r| ==> r[k] == names[(i + 1 + k) % |names|] by {
        forall k | 0 <= k < |r| ensures r[k] == names[(i + 1 + k) % |names|] {
          RotatedAt(names, i, k);
        }
      }
      r
    else names
  }

  lemma RotatedAt(names: seq<string>, i: nat, k: nat)
    requires i < |names| && k < |names| - 1
    ensures (names[i + 1..] + names[..i])[k] == names[(i + 1 + k) % |names|]
  {
    var n := |names|;
    var tail := names[i + 1..];
    if k < |tail| {
      SmallMod(i + 1 + k, n);
      assert (tail + names[..i])[k] == tail[k];
    } else {
      WrappedMod(i + 1 + k, n);
      assert (tail + names[..i])[k] == names[..i][k - |tail|];
    }
  }

  lemma SmallMod(x: nat, n: nat)
    requires x < n
    ensures x % n == x
  {
  }

  lemma WrappedMod(x: nat, n: nat)
    requires n <= x < 2 * n
    ensures x % n == x - n
  {
    assert x == 1 * n + (x - n);
  }

  /** With distinct seat names, the others are exactly the roster without `name`. */
  lemma {:induction false} OtherPlayersAreTheRest(names: seq<string>, name: string)
    requires Distinct(names) && name in names
    ensures name !in OtherPlayers(names, name)
    ensures multiset(OtherPlayers(names, name)) + multiset{name} == multiset(names)
  {
    var i := IndexOf(names, name);
    assert names == names[..i] + [name] + names[i + 1..];
    assert name !in names[i + 1..] by {
      forall k | i + 1 <= k < |names| ensures names[k] != name {
        assert names[i] == name;
      }
    }
  }

  class Game {
    const table: Table
    const players: seq<Player>
    /** The pending events; the first one runs next. */
    var queue: seq<Event>

    constructor (table: Table, players: seq<Player>)
      ensures this.table == table && this.players == players && queue == []
    {
      this.table := table;
      this.players := players;
      queue := [];
    }

    /** The players' names in seating order. */
    function Names(): (names: seq<string>)
      ensures |names| == |players|
      ensures forall i :: 0 <= i < |players| ==> names[i] == players[i].name
    {
      seq(|players|, i requires 0 <= i < |players| => players[i].name)
    }

    /** `add_events(events, where)` */
    method AddEvents(events: seq<Event>, where: QueuePosition)
      modifies this
      ensures queue == AddedEvents(old(queue), events, where)
    {
      if where == Front {
        queue := events + queue;
      } else {
        queue := queue + events;
      }
    }
  }
}
