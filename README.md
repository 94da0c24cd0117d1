# Bandit and the card taxonomy, in Dafny

This project models two core pieces of a deck-building card game engine
(Dominion):

- the card taxonomy of `dominion/cards/card.py`: a card's name, kind
  (Action, Treasure, Victory, Curse), cost and optional description; the
  treasure and victory subclasses with their `value` and `vp`; the derived
  `desc` text and the `[name]` string form;
- the Bandit attack card of `dominion/cards/base_game/bandit.py`: playing it
  puts one event for the player (gain a Gold from the supply) and one event
  per opponent (reveal two cards, trash a revealed Gold or Silver, discard
  the rest) at the front of the game's event queue.

Files and modules:

- `format.dfy` (`Format`): the decimal text of an integer, as Python's `%s`
  writes it, with a parser that reads it back.
- `card.dfy` (`Cards`): the `Card` datatype, the subclass constructors as
  functions, `Desc` and `Str`.
- `engine.dfy` (`Engine`): the state the Bandit works on, whose own source
  is not part of this model. `Table` is the supply (`map<Card, nat>`).
  `Deck` holds a player's draw and discard piles as sequences, top card
  first. `Player` has the decision interface. `Game` holds the table, the
  players in seating order and the event queue (`seq<Event>`; inserting at
  the front is `events + queue`). `get_other_players` is the pure function
  `OtherPlayers`.
- `bandit.dfy` (`Bandit`): the Bandit card, `get_treasures_as_options`, the
  two events' `forward` methods and `play`.
- `scenarios.dfy` (`Scenarios`): client methods for four sample situations
  (no Gold left; three players' event order; Silver and Copper revealed;
  two Coppers revealed), whose outcomes follow from the contracts alone.

Modelling choices:

- Cards are values, so card equality is value equality. In the source each
  card is a singleton object and `==` is identity, so the two agree.
- The `desc` property has three outcomes. It gives a text. It gives nothing
  (an Action card with no description matches no branch and yields
  `None`). Or it raises `AttributeError`: a base `Card` built directly with
  kind Victory, Treasure or Curse has no `vp`/`value` attribute. The model
  has `Text`, `NoText` and `MissingAttribute` for these.
- Nothing forces an `ActionCard` to carry a description: `desc` defaults
  to `""`, and the `desc` property then yields `None` (`NoText`).
- `player.show` appends a `Notice` to the player's `notices`. The message
  text is not modelled; the options shown are.
- `player.get_input` appends a `Decision` to the player's `decisions`: the
  prompt, the options, `allow_skip` and the answer. The answer is any
  offered index, chosen nondeterministically. When skipping is not allowed
  the call needs a non-empty option map, since it cannot return otherwise.
- `table[card]` for a card the supply does not list is read as 0.
- `free=True` and `to_pile=DISCARD` are the only arguments the core passes
  to `buy` and `add`, so those are the only forms modelled.
- `ActionCard.play(self, by, game_ctx)` in card.py takes its arguments in a
  different order from `Bandit.play(self, game_ctx, player)`. The model
  follows the Bandit's form.
- Of the treasures, bandit.py imports only `GOLD` and `SILVER`, from modules that are not
  part of this model; the base game's costs and values are used for them.
  `COPPER` is defined beside them only for the client methods in
  scenarios.dfy. Nothing proved depends on those numbers, only on the
  cards being different.

## Model

| member | source | states |
|---|---|---|
| `Format.NatToString` | dominion/cards/card.py:32 | the text of a vp/value number is non-empty digits with no leading zero, and zero is written exactly "0" |
| `Format.IntToString` | dominion/cards/card.py:32-36 | `'%s' % n` of an int: integer text (digits, optionally after one '-'), starting with '-' exactly when n is negative, with no leading zero, zero written exactly "0" and never "-0" |
| `Format.IntToStringRoundTrip` | dominion/cards/card.py:31-36 | the number formatted into a derived description reads back as the same integer |
| `Format.IntToStringInjective` | dominion/cards/card.py:31-36 | different numbers give different texts |
| `Format.NatToStringUnique` | dominion/cards/card.py:32 | digits without a leading zero are exactly the text written for the number they denote |
| `Format.IntToStringUnique` | dominion/cards/card.py:32-36 | every canonical integer text is the text written for its integer, so the written form is the only canonical one |
| `Cards.BaseCard` | dominion/cards/card.py:9-20 | the constructor stores name, kind, cost and description unchanged and adds no value or vp |
| `Cards.Str` | dominion/cards/card.py:22-25 | the string form is `[`, then the name, then `]` |
| `Cards.StrSameExactlyForSameName` | dominion/cards/card.py:22-25 | two cards have the same string form if and only if they have the same name |
| `Cards.Desc` | dominion/cards/card.py:27-36 | a text is never empty; nothing is returned exactly for an Action card with no description; the attribute is missing exactly for an undescribed Treasure without value or Victory/Curse without vp |
| `Cards.ExplicitDescriptionReturned` | dominion/cards/card.py:29-30 | a non-empty written description is returned unchanged whatever the kind |
| `Cards.VictoryDescNamesVp` | dominion/cards/card.py:31-32 | an undescribed Victory card reads "Victory card worth N VP.", where N is exactly the canonical text of its vp and reads back as it |
| `Cards.TreasureDescNamesValue` | dominion/cards/card.py:33-34 | an undescribed Treasure card reads "Treasure card worth N.", where N is exactly the canonical text of its value and reads back as it |
| `Cards.CurseDescNamesVp` | dominion/cards/card.py:35-36 | an undescribed Curse reads "N VP for each held.", where N is exactly the canonical text of its vp and reads back as it |
| `Cards.TreasureCard` | dominion/cards/card.py:39-45 | kind is Treasure, name/cost/description pass through, value is stored |
| `Cards.VictoryCard` | dominion/cards/card.py:48-54 | kind is Victory, name/cost/description pass through, vp is stored |
| `Cards.ActionCard` | dominion/cards/card.py:57-59 | kind is Action, name/cost/description pass through |
| `Cards.SubclassDescriptions` | dominion/cards/card.py:28-59 | undescribed treasure and victory cards get their derived text; an undescribed action card gets none |
| `Engine.TopCards` | dominion/cards/base_game/bandit.py:35 | at most n cards, a prefix of the pile, and fewer than n only when the pile is exhausted |
| `Engine.Deck.DrawCards` | dominion/cards/base_game/bandit.py:35 | returns the top up-to-n cards; the draw pile loses exactly those; discard unchanged |
| `Engine.Deck.Add` | dominion/cards/base_game/bandit.py:49 | the cards are appended to discard in the order given; draw unchanged |
| `Engine.Player.Show` | dominion/cards/base_game/bandit.py:30-40 | one notice is recorded; no decision and no pile changes |
| `Engine.Player.GetInput` | dominion/cards/base_game/bandit.py:42 | a chosen index is a key of the options; with skipping not allowed the answer is always a choice; the call is recorded |
| `Engine.Table.Buy` | dominion/cards/base_game/bandit.py:27 | one copy moves from supply to discard exactly when the count is positive, otherwise nothing changes; count plus copies in discard is constant |
| `Engine.Table.Count` | dominion/cards/base_game/bandit.py:26 | `table[card]`: the listed count, and 0 for a card the supply does not list |
| `Engine.AddedEvents` | dominion/cards/base_game/bandit.py:72 | at the front the new events come first in their given order and the old queue follows unchanged (at the back, the reverse) |
| `Engine.Game.AddEvents` | dominion/cards/base_game/bandit.py:72 | the queue becomes the old queue with the events inserted at the requested position |
| `Engine.OtherPlayers` | dominion/cards/base_game/bandit.py:69 | everyone but the player, in seating order from the seat after the player, wrapping round |
| `Engine.OtherPlayersAreTheRest` | dominion/cards/base_game/bandit.py:69 | with distinct names the result omits the player and is the rest of the roster exactly |
| `Bandit.BanditCard` | dominion/cards/base_game/bandit.py:53-63 | the Bandit is an Action card named "Bandit", cost 5, described by its written text |
| `Bandit.Trashable` | dominion/cards/base_game/bandit.py:19 | `card in [GOLD, SILVER]`; every such card is a treasure other than Copper |
| `Bandit.TreasureOptions` | dominion/cards/base_game/bandit.py:15-21 | keys are exactly the positions holding Gold or Silver, each mapped to that card's name |
| `Bandit.GetTreasuresAsOptions` | dominion/cards/base_game/bandit.py:15-21 | the loop builds exactly those options |
| `Bandit.OptionsOfferedIffSilverOrGold` | dominion/cards/base_game/bandit.py:38-39 | some option is offered if and only if a Gold or Silver was revealed |
| `Bandit.RemoveAt` | dominion/cards/base_game/bandit.py:46 | one element fewer; the cards before and after keep their order |
| `Bandit.RemoveAtLosesOne` | dominion/cards/base_game/bandit.py:44-46 | deleting position k loses exactly the card at k |
| `Bandit.TrashByOmission` | dominion/cards/base_game/bandit.py:35-49 | after a chosen option the trashed card is a Gold or Silver and the opponent's piles hold exactly their old cards minus that one |
| `Bandit.RevealedAllDiscarded` | dominion/cards/base_game/bandit.py:35-49 | with nothing offered the revealed cards only move from draw to discard |
| `Bandit.ForwardSelf` | dominion/cards/base_game/bandit.py:24-30 | with Gold left, one Gold moves from the supply to the player's discard; with none, the player is notified and supply and piles are unchanged |
| `Bandit.ForwardOther` | dominion/cards/base_game/bandit.py:33-49 | up to two cards leave the draw pile; without Gold/Silver all go to discard in order with no prompt; otherwise exactly one decision with skipping not allowed, the chosen Gold/Silver is in no pile and the rest are discarded in order |
| `Bandit.PlayEvents` | dominion/cards/base_game/bandit.py:66-70 | the player's own event first, then one event per opponent in the order given |
| `Bandit.Play` | dominion/cards/base_game/bandit.py:65-72 | the queue becomes the Bandit's events, built by the loop, inserted at the front |
| `Bandit.PlayedEventsRunFirst` | dominion/cards/base_game/bandit.py:65-72 | after play the queue runs the player's event, then each opponent's in seating order (none targets the player), then the old queue |

## Left out

- `dominion/prettyprint.py` is not part of this model: it only formats card, pile and option text for the terminal.
- The `print` tracing calls in bandit.py and the wording of the `show` messages are not modelled. The options shown are.
- The transport behind `get_input` and its re-prompting on invalid input are not modelled. The answer is an arbitrary offered index.
- Reshuffling discard into draw when fewer than two cards remain is done by code that is not shown. A short draw pile just yields fewer cards.
- The abstract-method enforcement of `ActionCard.play` and the construction of singleton card objects are left out, because cards are values here.
- The draining loop that runs queued events lives outside bandit.py and card.py, so only the queue's contents after `play` are modelled.
- `Engine.Deck.Add` covers only the discard pile, and `Engine.Table.Buy` only delivers to discard. Those are the only destinations the core uses.
