/**
  The Bandit (dominion/cards/base_game/bandit.py): "Gain a Gold. Each other
  player reveals the top 2 cards of their deck, trashes a revealed treasure
  other than Copper, and discards the rest." Playing it queues one event for
  the player and one per opponent; each event's `forward` is a method here.
 */
module Bandit {
  import opened Cards
  import opened Engine

  // The treasures the Bandit refers to. Their own modules are not part of
  // this model; the costs and values are those of the base game and nothing
  // below depends on them beyond the three cards being different.
  const GOLD := TreasureCard("Gold", 6, "", 3)
  const SILVER := TreasureCard("Silver", 3, "", 2)
  const COPPER := TreasureCard("Copper", 0, "", 1)

  const BANDIT_TEXT :=
    "Gain a Gold. Each other player reveals the top 2 cards of their"
    + " deck, trashes a revealed treasure other than Copper, and"
    + " discards the rest."

  /** The card itself, `BANDIT = Bandit()`. */
  const BANDIT := ActionCard("Bandit", 5, BANDIT_TEXT)

  const TRASH_PROMPT := "You must trash a treasure other than Copper"

  lemma BanditCard()
    ensures BANDIT.kind == Action && BANDIT.name == "Bandit" && BANDIT.cost == 5
    ensures Desc(BANDIT) == Text(BANDIT_TEXT)
  {
  }

  /** The treasures an opponent may be made to trash: Gold and Silver, never Copper. */
  predicate Trashable(c: Card): (r: bool)
    ensures r ==> c.kind == Treasure && c != COPPER
  {
    c == GOLD || c == SILVER
  }

  /** The options offered for a list of revealed cards: the index of each Gold or Silver, with its name. */
  function TreasureOptions(cards: seq<Card>): (options: map<nat, string>)
    ensures forall i: nat :: i in options <==> i < |cards| && Trashable(cards[i])
    ensures forall i: nat :: i in options ==> options[i] == cards[i].name
  {
    map i: nat | i < |cards| && Trashable(cards[i]) :: cards[i].name
  }

  /** Some option is offered exactly when a Gold or a Silver was revealed. */
  lemma OptionsOfferedIffSilverOrGold(cards: seq<Card>)
    ensures TreasureOptions(cards) != map[] <==> GOLD in cards || SILVER in cards
  {
  }

  /** `get_treasures_as_options(cards)` */
  method GetTreasuresAsOptions(cards: seq<Card>) returns (options: map<nat, string>)
    ensures options == TreasureOptions(cards)
  {
    options := map[];
    for idx := 0 to |cards|
      invariant forall i: nat :: i in options <==> i < idx && Trashable(cards[i])
      invariant forall i: nat :: i in options ==> options[i] == cards[i].name
    {
      if cards[idx] == GOLD || cards[idx] == SILVER {
        options := options[idx := cards[idx].name];
      }
    }
  }

  /** `del cards[k]`: the rest keep their order. */
  function RemoveAt(cards: seq<Card>, k: nat): (r: seq<Card>)
    requires k < |cards|
    ensures |r| == |cards| - 1
    ensures forall i :: 0 <= i < k ==> r[i] == cards[i]
    ensures forall i :: k <= i < |r| ==> r[i] == cards[i + 1]
  {
    cards[..k] + cards[k + 1..]
  }

  /** Removing one card loses exactly that card. */
  lemma {:induction false} RemoveAtLosesOne(cards: seq<Card>, k: nat)
    requires k < |cards|
    ensures multiset(cards) == multiset(RemoveAt(cards, k)) + multiset{cards[k]}
  {
    assert cards == cards[..k] + [cards[k]] + cards[k + 1..];
  }

  /**
    Trash by omission: when the opponent picks offered option `k`, the
    cards the opponent holds afterwards are those held before less exactly
    one card, a Gold or a Silver; every other revealed card is discarded.
   */
  lemma {:induction false} TrashByOmission(draw: seq<Card>, discard: seq<Card>, k: nat)
    requires k in TreasureOptions(TopCards(draw, 2))
    ensures var top := TopCards(draw, 2);
      k < |top| && Trashable(top[k]) &&
      multiset(draw + discard) ==
        multiset(draw[|top|..] + (discard + RemoveAt(top, k))) + multiset{top[k]}
  {
    var top := TopCards(draw, 2);
    RemoveAtLosesOne(top, k);
    assert draw == top + draw[|top|..];
  }

  /** When nothing is offered, the opponent's cards only move from draw to discard. */
  lemma {:induction false} RevealedAllDiscarded(draw: seq<Card>, discard: seq<Card>)
    ensures var top := TopCards(draw, 2);
      multiset(draw + discard) == multiset(draw[|top|..] + (discard + top))
  {
    var top := TopCards(draw, 2);
    assert draw == top + draw[|top|..];
  }

  /** `BanditEventSelf.forward`: the player gains a Gold, or is told that none is left. */
  method ForwardSelf(game: Game, player: Player)
    modifies game.table, player.deck, player
    ensures old(game.table.Count(GOLD)) > 0 ==>
      game.table.supply == old(game.table.supply)[GOLD := old(game.table.Count(GOLD)) - 1] &&
      player.deck.discard == old(player.deck.discard) + [GOLD] &&
      player.notices == old(player.notices)
    ensures old(game.table.Count(GOLD)) == 0 ==>
      game.table.supply == old(game.table.supply) &&
      player.deck.discard == old(player.deck.discard) &&
      player.notices == old(player.notices) + [NoGoldLeft]
    ensures player.deck.draw == old(player.deck.draw)
    ensures player.decisions == old(player.decisions)
  {
    if game.table.Count(GOLD) > 0 {
      var _ := game.table.Buy(GOLD, player, true);
    } else {
      player.Show(NoGoldLeft);
    }
  }

  /**
    `BanditEventOther.forward`: the opponent reveals up to two cards. If a
    Gold or Silver is among them, the opponent is shown the options and must
    pick one (skipping is not allowed); that card is trashed, by leaving it
    out of what is discarded. The other revealed cards are discarded in the
    order revealed.
   */
  method ForwardOther(game: Game, player: Player)
    modifies player.deck, player
    ensures var top := TopCards(old(player.deck.draw), 2);
      player.deck.draw == old(player.deck.draw)[|top|..]
    ensures var top := TopCards(old(player.deck.draw), 2);
      !(GOLD in top || SILVER in top) ==>
        player.deck.discard == old(player.deck.discard) + top &&
        player.decisions == old(player.decisions) &&
        player.notices == old(player.notices) &&
        multiset(player.deck.draw + player.deck.discard) ==
          multiset(old(player.deck.draw) + old(player.deck.discard))
    ensures var top := TopCards(old(player.deck.draw), 2);
      (GOLD in top || SILVER in top) ==>
        |player.decisions| == |old(player.decisions)| + 1 &&
        player.decisions[..|old(player.decisions)|] == old(player.decisions) &&
        var d := player.decisions[|old(player.decisions)|];
        d.prompt == TRASH_PROMPT && d.options == TreasureOptions(top) && !d.allowSkip &&
        d.answer.Chosen? && d.answer.index in d.options &&
        Trashable(top[d.answer.index]) &&
        player.notices == old(player.notices) + [TrashOptions(d.options)] &&
        player.deck.discard == old(player.deck.discard) + RemoveAt(top, d.answer.index) &&
        multiset(player.deck.draw + player.deck.discard) + multiset{top[d.answer.index]} ==
          multiset(old(player.deck.draw) + old(player.deck.discard))
  {
    ghost var draw0, discard0 := player.deck.draw, player.deck.discard;
    var topCards := player.deck.DrawCards(2, true);
    if GOLD in topCards || SILVER in topCards {
      var options := GetTreasuresAsOptions(topCards);
      OptionsOfferedIffSilverOrGold(topCards);
      player.Show(TrashOptions(options));
      var c := player.GetInput(TRASH_PROMPT, options, false);
      topCards := RemoveAt(topCards, c.index);
      TrashByOmission(draw0, discard0, c.index);
    } else {
      RevealedAllDiscarded(draw0, discard0);
    }
    player.deck.Add(topCards);
  }

  /**
    The events playing the Bandit creates: first the player's own, then one
    per opponent in the order given.
   */
  function PlayEvents(name: string, others: seq<string>): (events: seq<Event>)
    ensures |events| == |others| + 1
    ensures events[0] == BanditEventSelf(name)
    ensures forall k :: 0 <= k < |others| ==> events[k + 1] == BanditEventOther(others[k])
  {
    [BanditEventSelf(name)] + seq(|others|, k requires 0 <= k < |others| => BanditEventOther(others[k]))
  }

  /** `Bandit.play(game_ctx, player)` */
  method Play(game: Game, player: Player)
    modifies game
    ensures game.queue ==
      AddedEvents(old(game.queue), PlayEvents(player.name, OtherPlayers(game.Names(), player.name)), Front)
  {
    var events := [BanditEventSelf(player.name)];
    var others := OtherPlayers(game.Names(), player.name);
    for i := 0 to |others|
      invariant events == PlayEvents(player.name, others[..i])
    {
      events := events + [BanditEventOther(others[i])];
    }
    assert others[..|others|] == others;
    game.AddEvents(events, Front);
  }

  /**
    After the Bandit is played, the queue runs the player's own event, then
    one event per opponent in seating order, then whatever was queued
    before, and no opponent event targets the player who played it.
   */
  lemma {:induction false} PlayedEventsRunFirst(queue: seq<Event>, names: seq<string>, name: string)
    requires Distinct(names) && name in names
    ensures var others := OtherPlayers(names, name);
      var q := AddedEvents(queue, PlayEvents(name, others), Front);
      |q| == |queue| + |names| &&
      q[0] == BanditEventSelf(name) &&
      (forall k :: 0 <= k < |others| ==> q[k + 1] == BanditEventOther(others[k]) && others[k] != name) &&
      (forall j :: 0 <= j < |queue| ==> q[|names| + j] == queue[j])
  {
    OtherPlayersAreTheRest(names, name);
  }
}
