/**
  The card taxonomy of dominion/cards/card.py. A card is an immutable value:
  its name, its kind, its cost and the description written on it (empty when
  none was given). The attributes the subclasses add, a treasure's `value` and
  a victory card's `vp`, are optional fields: a card built by the base
  constructor has neither, just as a base `Card` object has neither attribute.
 */
module Cards {
  import Format

  datatype Option<+T> = None | Some(value: T)

  /** dominion.common.CardType */
  datatype Kind = Action | Treasure | Victory | Curse

  /** The attributes a subclass adds to a card. */
  datatype Attribute = ValueAttr | VpAttr

  datatype Card = Card(
    name: string,
    kind: Kind,
    cost: int,
    description: string,
    value: Option<int>,
    vp: Option<int>)

  /**
    What the `desc` property yields: a text; nothing (Python's `None`, when no
    branch of the property applies); or the `AttributeError` raised when the
    derived text needs an attribute the card does not have.
   */
  datatype Description = Text(text: string) | NoText | MissingAttribute(attr: Attribute)

  /** `Card(name=..., kind=..., cost=..., desc=...)` */
  function BaseCard(name: string, kind: Kind, cost: int, desc: string): (c: Card)
    ensures c.name == name && c.kind == kind && c.cost == cost && c.description == desc
    ensures c.value.None? && c.vp.None?
  {
    Card(name, kind, cost, desc, None, None)
  }

  /** `TreasureCard(name=..., cost=..., desc=..., value=...)` */
  function TreasureCard(name: string, cost: int, desc: string, value: int): (c: Card)
    ensures c.name == name && c.kind == Treasure && c.cost == cost && c.description == desc
    ensures c.value == Some(value) && c.vp.None?
  {
    BaseCard(name, Treasure, cost, desc).(value := Some(value))
  }

  /** `VictoryCard(name=..., cost=..., desc=..., vp=...)` */
  function VictoryCard(name: string, cost: int, desc: string, vp: int): (c: Card)
    ensures c.name == name && c.kind == Victory && c.cost == cost && c.description == desc
    ensures c.vp == Some(vp) && c.value.None?
  {
    BaseCard(name, Victory, cost, desc).(vp := Some(vp))
  }

  /** `ActionCard(name=..., cost=..., desc=...)`; only action cards can be played. */
  function ActionCard(name: string, cost: int, desc: string): (c: Card)
    ensures c.name == name && c.kind == Action && c.cost == cost && c.description == desc
    ensures c.value.None? && c.vp.None?
  {
    BaseCard(name, Action, cost, desc)
  }

  /** `str(card)` */
  function Str(c: Card): (s: string)
    ensures |s| == |c.name| + 2 && s[0] == '[' && s[|s| - 1] == ']'
    ensures s[1..|s| - 1] == c.name
  {
    "[" + c.name + "]"
  }

  /** Two cards print alike exactly when their names are alike. */
  lemma StrSameExactlyForSameName(a: Card, b: Card)
    ensures Str(a) == Str(b) <==> a.name == b.name
  {
  }

  function VictoryText(vp: int): string {
    "Victory card worth " + Format.IntToString(vp) + " VP."
  }

  function TreasureText(value: int): string {
    "Treasure card worth " + Format.IntToString(value) + "."
  }

  function CurseText(vp: int): string {
    Format.IntToString(vp) + " VP for each held."
  }

  /** The `desc` property. */
  function Desc(c: Card): (r: Description)
    ensures r.Text? ==> r.text != []
    ensures r.NoText? <==> c.description == [] && c.kind == Action
    ensures r.MissingAttribute? <==>
      c.description == [] &&
      ((c.kind == Treasure && c.value.None?) || (c.kind in {Victory, Curse} && c.vp.None?))
  {
    if c.description != [] then Text(c.description)
    else
      match c.kind
      case Victory => if c.vp.Some? then Text(VictoryText(c.vp.value)) else MissingAttribute(VpAttr)
      case Treasure => if c.value.Some? then Text(TreasureText(c.value.value)) else MissingAttribute(ValueAttr)
      case Curse => if c.vp.Some? then Text(CurseText(c.vp.value)) else MissingAttribute(VpAttr)
      case Action => NoText
  }

  /** A written description wins over everything else, whatever the kind. */
  lemma ExplicitDescriptionReturned(c: Card)
    requires c.description != []
    ensures Desc(c) == Text(c.description)
  {
  }

  /**
    An undescribed victory card reads "Victory card worth N VP.", where N is
    the card's victory points written as `str` writes them.
   */
  lemma {:induction false} VictoryDescNamesVp(c: Card)
    requires c.description == [] && c.kind == Victory && c.vp.Some?
    ensures Desc(c).Text?
    ensures var t := Desc(c).text;
      |t| > 23 && t[..19] == "Victory card worth " && t[|t| - 4..] == " VP." &&
      Format.IsIntText(t[19..|t| - 4]) && Format.IntValue(t[19..|t| - 4]) == c.vp.value
    ensures var t := Desc(c).text;
      |t| > 23 && t[19..|t| - 4] == Format.IntToString(c.vp.value) && Format.Canonical(t[19..|t| - 4])
  {
    var n := Format.IntToString(c.vp.value);
    var t := Desc(c).text;
    assert t == "Victory card worth " + n + " VP.";
    assert t[19..|t| - 4] == n;
    Format.IntToStringRoundTrip(c.vp.value);
  }

  /**
    An undescribed treasure card reads "Treasure card worth N.", where N is
    the card's value written as `str` writes it.
   */
  lemma {:induction false} TreasureDescNamesValue(c: Card)
    requires c.description == [] && c.kind == Treasure && c.value.Some?
    ensures Desc(c).Text?
    ensures var t := Desc(c).text;
      |t| > 21 && t[..20] == "Treasure card worth " && t[|t| - 1..] == "." &&
      Format.IsIntText(t[20..|t| - 1]) && Format.IntValue(t[20..|t| - 1]) == c.value.value
    ensures var t := Desc(c).text;
      |t| > 21 && t[20..|t| - 1] == Format.IntToString(c.value.value) && Format.Canonical(t[20..|t| - 1])
  {
    var n := Format.IntToString(c.value.value);
    var t := Desc(c).text;
    assert t == "Treasure card worth " + n + ".";
    assert t[20..|t| - 1] == n;
    Format.IntToStringRoundTrip(c.value.value);
  }

  /** An undescribed curse reads "N VP for each held.", where N is its victory points written as `str` writes them. */
  lemma {:induction false} CurseDescNamesVp(c: Card)
    requires c.description == [] && c.kind == Curse && c.vp.Some?
    ensures Desc(c).Text?
    ensures var t := Desc(c).text;
      |t| > 18 && t[|t| - 18..] == " VP for each held." &&
      Format.IsIntText(t[..|t| - 18]) && Format.IntValue(t[..|t| - 18]) == c.vp.value
    ensures var t := Desc(c).text;
      |t| > 18 && t[..|t| - 18] == Format.IntToString(c.vp.value) && Format.Canonical(t[..|t| - 18])
  {
    var n := Format.IntToString(c.vp.value);
    var t := Desc(c).text;
    assert t == n + " VP for each held.";
    assert t[..|t| - 18] == n;
    Format.IntToStringRoundTrip(c.vp.value);
  }

  /**
    Cards built by the treasure and victory constructors always have a
    description; an action card built without one has none.
   */
  lemma SubclassDescriptions(name: string, cost: int, n: int)
    ensures Desc(TreasureCard(name, cost, "", n)) == Text(TreasureText(n))
    ensures Desc(VictoryCard(name, cost, "", n)) == Text(VictoryText(n))
    ensures Desc(ActionCard(name, cost, "")) == NoText
  {
  }
}
