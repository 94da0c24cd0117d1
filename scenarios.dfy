/**
  Client methods for four sample situations of the Bandit's events; each
  outcome is derived from the contracts alone.
 */
module Scenarios {
  import opened Cards
  import opened Engine
  import opened Bandit

  /** The supply has no Gold: the player is told so and gains nothing. */
  method NoGoldInSupply() {
    var deckA := new Deck([COPPER], []);
    var a := new Player("A", deckA);
    var table := new Table(map[GOLD := 0, SILVER := 40]);
    var game := new Game(table, [a]);
    ForwardSelf(game, a);
    assert a.notices == [NoGoldLeft];
    assert a.deck.discard == [] && a.deck.draw == [COPPER];
    assert table.supply == map[GOLD := 0, SILVER := 40];
  }

  /**
    A plays the Bandit with B and C seated after it: A's own event, then
    B's, then C's, all ahead of what was already queued.
   */
  method ThreePlayersPlayOrder(pending: Event) {
    var deckA := new Deck([], []);
    var deckB := new Deck([], []);
    var deckC := new Deck([], []);
    var a := new Player("A", deckA);
    var b := new Player("B", deckB);
    var c := new Player("C", deckC);
    var table := new Table(map[GOLD := 30]);
    var game := new Game(table, [a, b, c]);
    game.AddEvents([pending], Back);
    assert game.Names() == ["A", "B", "C"];
    assert OtherPlayers(game.Names(), "A") == ["B", "C"];
    Play(game, a);
    assert game.queue == [BanditEventSelf("A"), BanditEventOther("B"), BanditEventOther("C"), pending];
  }

  /** B reveals Silver and Copper: B must trash the Silver, and discards the Copper. */
  method SilverRevealed() {
    var deck := new Deck([SILVER, COPPER, GOLD], []);
    var b := new Player("B", deck);
    var table := new Table(map[]);
    var game := new Game(table, [b]);
    assert TopCards([SILVER, COPPER, GOLD], 2) == [SILVER, COPPER];
    assert TreasureOptions([SILVER, COPPER]) == map[0 := "Silver"];
    ForwardOther(game, b);
    assert |b.decisions| == 1 && !b.decisions[0].allowSkip;
    assert b.decisions[0].options == map[0 := "Silver"];
    assert b.decisions[0].answer == Chosen(0);
    assert b.deck.discard == [COPPER] && b.deck.draw == [GOLD];
  }

  /** C reveals two Coppers: no decision is asked for and both are discarded. */
  method TwoCoppersRevealed() {
    var deck := new Deck([COPPER, COPPER], [GOLD]);
    var c := new Player("C", deck);
    var table := new Table(map[]);
    var game := new Game(table, [c]);
    ForwardOther(game, c);
    assert c.decisions == [] && c.notices == [];
    assert c.deck.discard == [GOLD, COPPER, COPPER] && c.deck.draw == [];
  }
}
