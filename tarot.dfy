/** The tarot part: cards built from a catalog of (name, id) entries, a deck
    from which cards are pulled at random without replacement, and the
    three-card draw that starts a reading. */
module Tarot {
  import opened Common

  /** Deck.BASEPATH: the folder holding the card images. */
  const BasePath: string := "images/tarot/png/"

  /** The file extension appended to a card name to form its image path. */
  const ImageExtension: string := ".png"

  /** One entry of the parsed card catalog: a card name and its numeric id. */
  datatype CatalogEntry = CatalogEntry(name: string, id: int)

  /** TarotCard: a name, the value sent to the prediction service, and the
      image path. Cards are objects compared by identity, as in the source,
      where TarotCard defines no equality of its own. */
  class TarotCard {
    const name: string
    const value: int
    const imagePath: string

    constructor(name: string, value: int, imagePath: string)
      ensures this.name == name && this.value == value && this.imagePath == imagePath
    {
      this.name := name;
      this.value := value;
      this.imagePath := imagePath;
    }
  }

  /** `BASEPATH + name + '.png'`. */
  function CardImagePath(name: string): string
  {
    BasePath + name + ImageExtension
  }

  /** The card name an image path was made from, if it has the shape
      BasePath + name + ImageExtension. */
  function NameOfImagePath(path: string): (r: Option<string>)
    ensures r.Some? ==> CardImagePath(r.value) == path
  {
    var n, b, e := |path|, |BasePath|, |ImageExtension|;
    if n >= b + e && path[..b] == BasePath && path[n - e..] == ImageExtension then
      var name := path[b..n - e];
      assert path == path[..b] + name + path[n - e..];
      Some(name)
    else None
  }

  /** The image path determines the card name it was made from. */
  lemma ImagePathRoundTrip(name: string)
    ensures NameOfImagePath(CardImagePath(name)) == Some(name)
  {
    var path := CardImagePath(name);
    var b := |BasePath|;
    assert path[..b] == BasePath;
    assert path[b..|path| - |ImageExtension|] == name;
    assert path[|path| - |ImageExtension|..] == ImageExtension;
  }

  /** Two cards with different names never share an image path. */
  lemma ImagePathInjective(a: string, b: string)
    requires a != b
    ensures CardImagePath(a) != CardImagePath(b)
  {
    ImagePathRoundTrip(a);
    ImagePathRoundTrip(b);
  }

  /** Deck: the cards not yet pulled, in catalog order. */
  class Deck {
    var cards: seq<TarotCard>

    /** No card object appears twice. */
    ghost predicate Valid()
      reads this
    {
      Distinct(cards)
    }

    /** Deck.__init__, given the parsed catalog: one fresh card per entry,
        in catalog order. */
    constructor(catalog: seq<CatalogEntry>)
      ensures Valid()
      ensures |cards| == |catalog|
      ensures forall k :: 0 <= k < |catalog| ==>
                && cards[k].name == catalog[k].name
                && cards[k].value == catalog[k].id
                && cards[k].imagePath == CardImagePath(catalog[k].name)
      ensures forall k :: 0 <= k < |cards| ==> fresh(cards[k])
    {
      var built: seq<TarotCard> := [];
      var i := 0;
      while i < |catalog|
        invariant 0 <= i <= |catalog| && |built| == i
        invariant Distinct(built)
        invariant forall k :: 0 <= k < i ==>
                    && built[k].name == catalog[k].name
                    && built[k].value == catalog[k].id
                    && built[k].imagePath == CardImagePath(catalog[k].name)
        invariant forall k :: 0 <= k < i ==> fresh(built[k])
      {
        var card := new TarotCard(catalog[i].name, catalog[i].id, CardImagePath(catalog[i].name));
        built := built + [card];
        i := i + 1;
      }
      cards := built;
    }

    /** pull_card: pick a card at random, remove it from the deck and return
        it. The random pick is any position of the deck; an empty deck gives
        None (random.choice raises IndexError) and stays as it is. */
    method PullCard() returns (card: Option<TarotCard>)
      requires Valid()
      modifies this
      ensures Valid()
      ensures card.None? <==> old(cards) == []
      ensures card.None? ==> cards == old(cards)
      ensures card.Some? ==> exists i :: 0 <= i < |old(cards)| && old(cards)[i] == card.value && cards == old(cards)[..i] + old(cards)[i + 1..]
      ensures card.Some? ==> card.value in old(cards) && card.value !in cards && |cards| == |old(cards)| - 1
      ensures card.Some? ==> multiset(cards) + multiset{card.value} == multiset(old(cards))
    {
      if cards == [] {
        card := None;
        return;
      }
      var i :| 0 <= i < |cards|;
      var picked := cards[i];
      RemoveFirstAt(cards, i);
      DistinctRemoveAt(cards, i);
      cards := RemoveFirst(cards, picked).value;
      card := Some(picked);
    }
  }

  /** The state of TarotApp that the reading uses: its deck and the cards
      drawn for the prediction. */
  class TarotApp {
    const deck: Deck
    var cardsForPrediction: seq<TarotCard>

    ghost predicate Valid()
      reads this, deck
    {
      deck.Valid()
    }

    /** TarotApp.__init__: build the deck from the catalog. */
    constructor(catalog: seq<CatalogEntry>)
      ensures Valid() && fresh(deck)
      ensures |deck.cards| == |catalog|
      ensures forall k :: 0 <= k < |catalog| ==>
                && deck.cards[k].name == catalog[k].name
                && deck.cards[k].value == catalog[k].id
                && deck.cards[k].imagePath == CardImagePath(catalog[k].name)
      ensures cardsForPrediction == []
    {
      deck := new Deck(catalog);
      cardsForPrediction := [];
    }

    /** The draw in start_test: pull three cards in a row, appending each to
        cardsForPrediction. `ok` is false when the deck ran out, where the
        source's pull_card raises and the draw stops with the cards pulled so
        far. */
    method StartTest() returns (ok: bool)
      requires Valid()
      modifies this, deck
      ensures Valid()
      ensures ok <==> |old(deck.cards)| >= 3
      ensures ok ==> |cardsForPrediction| == 3 && |deck.cards| == |old(deck.cards)| - 3
      ensures !ok ==> deck.cards == [] && |cardsForPrediction| == |old(deck.cards)|
      ensures multiset(cardsForPrediction) + multiset(deck.cards) == multiset(old(deck.cards))
      ensures Distinct(cardsForPrediction)
      ensures forall c :: c in cardsForPrediction ==> c in old(deck.cards) && c !in deck.cards
    {
      cardsForPrediction := [];
      ok := true;
      for i := 1 to 4
        invariant deck.Valid()
        invariant |cardsForPrediction| == i - 1
        invariant |deck.cards| == |old(deck.cards)| - (i - 1)
        invariant multiset(cardsForPrediction) + multiset(deck.cards) == multiset(old(deck.cards))
        invariant Distinct(cardsForPrediction)
        invariant forall c :: c in cardsForPrediction ==> c in old(deck.cards) && c !in deck.cards
      {
        ghost var before := deck.cards;
        var drawn := deck.PullCard();
        if drawn.None? {
          ok := false;
          break;
        }
        assert drawn.value in multiset(old(deck.cards)) by {
          assert drawn.value in multiset(before);
        }
        forall c | c in deck.cards ensures c in before {
          assert c in multiset(before);
        }
        cardsForPrediction := cardsForPrediction + [drawn.value];
      }
    }
  }
}
