// The card-game store (stores/cardGame.ts): a fixed catalog, the ordered list of played
// ids, the per-card animation records and a reset counter, with the derived views.
module CardGame {
  import opened Types

  /** The catalog the store starts with. */
  const Catalog: seq<Card> := [
    Card(1, "Red Card", "#e74c3c"),
    Card(2, "Green Card", "#2ecc71"),
    Card(3, "Blue Card", "#3498db"),
    Card(4, "Purple Card", "#9b59b6"),
    Card(5, "Yellow Card", "#f1c40f"),
    Card(6, "Orange Card", "#e67e22"),
    Card(7, "Teal Card", "#1abc9c"),
    Card(8, "Pink Card", "#e84393"),
    Card(9, "Cyan Card", "#00cec9"),
    Card(10, "Lime Card", "#badc58")
  ]

  /** Duration the store records when the caller gives none, in milliseconds. */
  const DefaultAnimationDuration := 1500

  function Ids(cards: seq<Card>): set<int> {
    set c | c in cards :: c.id
  }

  predicate DistinctIds(cards: seq<Card>) {
    forall i, j :: 0 <= i < j < |cards| ==> cards[i].id != cards[j].id
  }

  predicate NoDuplicates(ids: seq<int>) {
    forall i, j :: 0 <= i < j < |ids| ==> ids[i] != ids[j]
  }

  /** No card after position i has the id of cards[i]. */
  predicate LastWithId(cards: seq<Card>, i: int)
    requires 0 <= i < |cards|
  {
    forall j :: i < j < |cards| ==> cards[j].id != cards[i].id
  }

  /**
   * The lookup table `cardMap`: every card is inserted in catalog order, so for a
   * repeated id the last card with that id is the one kept.
   */
  function CardMap(cards: seq<Card>): (m: map<int, Card>)
    ensures m.Keys == Ids(cards)
    ensures forall id :: id in m ==> m[id] in cards && m[id].id == id
    ensures forall i :: 0 <= i < |cards| && LastWithId(cards, i) ==> m[cards[i].id] == cards[i]
  {
    if cards == [] then map[]
    else
      var init, last := cards[..|cards| - 1], cards[|cards| - 1];
      assert cards == init + [last];
      CardMapStep(init, last, CardMap(init));
      CardMap(init)[last.id := last]
  }

  /** The lookup table of `cards` as an abstract map: its keys, its values and the last card per id. */
  predicate IsCardMap(cards: seq<Card>, m: map<int, Card>) {
    && m.Keys == Ids(cards)
    && (forall id :: id in m ==> m[id] in cards && m[id].id == id)
    && (forall i :: 0 <= i < |cards| && LastWithId(cards, i) ==> m[cards[i].id] == cards[i])
  }

  /** Inserting one more card into a lookup table gives the table of the longer list. */
  lemma CardMapStep(init: seq<Card>, last: Card, m: map<int, Card>)
    ensures IsCardMap(init, m) ==> IsCardMap(init + [last], m[last.id := last])
  {
    if IsCardMap(init, m) {
      var cards, m' := init + [last], m[last.id := last];
      assert m'.Keys == Ids(cards) by {
        assert forall c :: c in cards <==> c in init || c == last;
        assert m'.Keys == m.Keys + {last.id};
      }
      forall id | id in m'
        ensures m'[id] in cards && m'[id].id == id
      {
        if id != last.id {
          assert m'[id] == m[id] && m[id] in init;
        }
      }
      forall i | 0 <= i < |cards| && LastWithId(cards, i)
        ensures m'[cards[i].id] == cards[i]
      {
        if i < |init| {
          assert cards[i] == init[i] && cards[|init|] == last;
          assert forall j :: i < j < |init| ==> init[j] == cards[j];
        }
      }
    }
  }

  /** `getCardById`: the card the lookup table holds for `id`, if any. */
  function GetCardById(cards: seq<Card>, id: int): (r: Option<Card>)
    ensures r.Some? <==> id in Ids(cards)
    ensures r.Some? ==> r.value in cards && r.value.id == id
  {
    var m := CardMap(cards);
    if id in m then Some(m[id]) else None
  }

  /** With distinct catalog ids, looking up a card's id finds that very card. */
  lemma GetCardByIdFinds(cards: seq<Card>, c: Card)
    requires DistinctIds(cards)
    requires c in cards
    ensures GetCardById(cards, c.id) == Some(c)
  {
    var i :| 0 <= i < |cards| && cards[i] == c;
    assert LastWithId(cards, i);
  }

  /** `availableCards`: the catalog, in catalog order, without the played ids. */
  function Available(cards: seq<Card>, played: seq<int>): (r: seq<Card>)
    ensures forall c :: c in r <==> c in cards && c.id !in played
    ensures |r| <= |cards|
  {
    if cards == [] then []
    else (if cards[0].id in played then [] else [cards[0]]) + Available(cards[1..], played)
  }

  /** Filtering keeps catalog order: it distributes over concatenation. */
  lemma {:induction false} AvailableAppend(a: seq<Card>, b: seq<Card>, played: seq<int>)
    ensures Available(a + b, played) == Available(a, played) + Available(b, played)
  {
    if a == [] {
      assert a + b == b;
    } else {
      assert (a + b)[1..] == a[1..] + b;
      AvailableAppend(a[1..], b, played);
    }
  }

  /** With no catalog id played, every card is available, in catalog order. */
  lemma {:induction false} AvailableNothingPlayed(cards: seq<Card>, played: seq<int>)
    requires forall c :: c in cards ==> c.id !in played
    ensures Available(cards, played) == cards
  {
    if cards != [] {
      AvailableNothingPlayed(cards[1..], played);
    }
  }

  /** `playedCards`: the played ids, in play order, resolved to cards; unknown ids are dropped. */
  function Played(cards: seq<Card>, played: seq<int>): (r: seq<Card>)
    ensures |r| <= |played|
    ensures forall c :: c in r ==> c in cards && c.id in played
  {
    if played == [] then []
    else
      (match GetCardById(cards, played[0]) case Some(c) => [c] case None => [])
      + Played(cards, played[1..])
  }

  /** Every played id that the catalog knows is resolved to the card the lookup table holds for it. */
  lemma {:induction false} PlayedResolvesKnownIds(cards: seq<Card>, played: seq<int>, id: int)
    requires id in played && id in Ids(cards)
    ensures CardMap(cards)[id] in Played(cards, played)
  {
    if played[0] != id {
      PlayedResolvesKnownIds(cards, played[1..], id);
    }
  }

  /** Resolving keeps play order: it distributes over concatenation. */
  lemma {:induction false} PlayedAppend(cards: seq<Card>, a: seq<int>, b: seq<int>)
    ensures Played(cards, a + b) == Played(cards, a) + Played(cards, b)
  {
    if a == [] {
      assert a + b == b;
    } else {
      assert (a + b)[1..] == a[1..] + b;
      PlayedAppend(cards, a[1..], b);
    }
  }

  /**
   * With distinct catalog ids, the two views partition the catalog: every catalog card is
   * in exactly one of them, and neither holds anything outside the catalog.
   */
  lemma ViewsPartitionCatalog(cards: seq<Card>, played: seq<int>)
    requires DistinctIds(cards)
    ensures forall c :: c in cards ==> (c in Available(cards, played) <==> c !in Played(cards, played))
    ensures forall c :: c in Available(cards, played) || c in Played(cards, played) ==> c in cards
  {
    forall c | c in cards && c.id in played
      ensures c in Played(cards, played)
    {
      GetCardByIdFinds(cards, c);
      PlayedResolvesKnownIds(cards, played, c.id);
    }
  }

  /**
   * Playing a catalog card that was not played moves exactly that card from the available
   * view to the end of the played view.
   */
  lemma PlayMovesCard(cards: seq<Card>, played: seq<int>, c: Card)
    requires DistinctIds(cards)
    requires c in cards && c.id !in played
    ensures Played(cards, played + [c.id]) == Played(cards, played) + [c]
    ensures forall d :: d in Available(cards, played + [c.id]) <==> d in Available(cards, played) && d != c
  {
    PlayedAppend(cards, played, [c.id]);
    GetCardByIdFinds(cards, c);
    assert Played(cards, [c.id]) == [c];
    forall d | d in cards && d.id == c.id
      ensures d == c
    {
      GetCardByIdFinds(cards, d);
    }
  }

  predicate DistinctCards(cards: seq<Card>) {
    forall i, j :: 0 <= i < j < |cards| ==> cards[i] != cards[j]
  }

  /**
   * With distinct catalog ids and no repeated played id, the played view lists no card twice.
   */
  lemma {:induction false} PlayedDistinct(cards: seq<Card>, played: seq<int>)
    requires DistinctIds(cards) && NoDuplicates(played)
    ensures DistinctCards(Played(cards, played))
  {
    if played != [] {
      var rest := Played(cards, played[1..]);
      assert NoDuplicates(played[1..]) by {
        forall i, j | 0 <= i < j < |played[1..]|
          ensures played[1..][i] != played[1..][j]
        {
          assert played[1..][i] == played[i + 1] && played[1..][j] == played[j + 1];
        }
      }
      PlayedDistinct(cards, played[1..]);
      match GetCardById(cards, played[0])
      case None =>
      case Some(c) =>
        assert played[0] !in played[1..] by {
          forall k | 0 <= k < |played[1..]|
            ensures played[1..][k] != played[0]
          {
            assert played[1..][k] == played[k + 1];
          }
        }
        assert c.id == played[0] && c !in rest;
        assert Played(cards, played) == [c] + rest;
    }
  }

  /** The catalog's ids are distinct, so the partition lemma applies to the store's own cards. */
  lemma CatalogDistinctIds()
    ensures DistinctIds(Catalog)
    ensures forall i :: 0 <= i < |Catalog| ==> Catalog[i].id == i + 1
  {
    assert forall i :: 0 <= i < |Catalog| ==> Catalog[i].id == i + 1 by {
      assert Catalog[0].id == 1 && Catalog[1].id == 2 && Catalog[2].id == 3 && Catalog[3].id == 4;
      assert Catalog[4].id == 5 && Catalog[5].id == 6 && Catalog[6].id == 7 && Catalog[7].id == 8;
      assert Catalog[8].id == 9 && Catalog[9].id == 10;
    }
  }

  /** The store: catalog, played ids, animation records and reset counter. */
  class Store {
    var cards: seq<Card>
    var playedCardIds: seq<int>
    var cardAnimations: map<int, CardAnimationState>
    var resetCounter: nat

    /** The catalog ids are distinct, and every operation keeps the played ids free of duplicates. */
    ghost predicate Valid()
      reads this
    {
      DistinctIds(cards) && NoDuplicates(playedCardIds)
    }

    /** In a valid store the two views partition the catalog and the played view has no repeats. */
    lemma ValidViews()
      requires Valid()
      ensures forall c :: c in cards ==> (c in Available(cards, playedCardIds) <==> c !in Played(cards, playedCardIds))
      ensures DistinctCards(Played(cards, playedCardIds))
    {
      ViewsPartitionCatalog(cards, playedCardIds);
      PlayedDistinct(cards, playedCardIds);
    }

    constructor ()
      ensures Valid()
      ensures cards == Catalog && playedCardIds == [] && cardAnimations == map[] && resetCounter == 0
    {
      cards := Catalog;
      playedCardIds := [];
      cardAnimations := map[];
      resetCounter := 0;
      CatalogDistinctIds();
    }

    /** `playCard`: appends an id that is not yet played; an already played id changes nothing. */
    method PlayCard(cardId: int)
      modifies this
      ensures old(Valid()) ==> Valid()
      ensures cardId in old(playedCardIds) ==> playedCardIds == old(playedCardIds)
      ensures cardId !in old(playedCardIds) ==> playedCardIds == old(playedCardIds) + [cardId]
      ensures cards == old(cards) && cardAnimations == old(cardAnimations) && resetCounter == old(resetCounter)
    {
      if cardId in playedCardIds {
        return;
      }
      playedCardIds := playedCardIds + [cardId];
    }

    /** `startCardAnimation`: inserts or overwrites only the record of `cardId`, as playing since `now`. */
    method StartCardAnimation(now: int, cardId: int, startPosition: Vec3, targetPosition: Vec3,
                              animationDuration: int := DefaultAnimationDuration)
      modifies this
      ensures cardAnimations == old(cardAnimations)[cardId :=
        CardAnimationState(cardId, startPosition, targetPosition, now, animationDuration, Playing)]
      ensures cards == old(cards) && playedCardIds == old(playedCardIds) && resetCounter == old(resetCounter)
    {
      cardAnimations := cardAnimations[cardId :=
        CardAnimationState(cardId, startPosition, targetPosition, now, animationDuration, Playing)];
    }

    /** `completeCardAnimation`: marks an existing record completed; no record, no change. */
    method CompleteCardAnimation(cardId: int)
      modifies this
      ensures cardId !in old(cardAnimations) ==> cardAnimations == old(cardAnimations)
      ensures cardId in old(cardAnimations) ==>
        cardAnimations == old(cardAnimations)[cardId := old(cardAnimations)[cardId].(animationState := Completed)]
      ensures cards == old(cards) && playedCardIds == old(playedCardIds) && resetCounter == old(resetCounter)
    {
      if cardId in cardAnimations {
        cardAnimations := cardAnimations[cardId := cardAnimations[cardId].(animationState := Completed)];
      }
    }

    /** `getCardAnimationState`: the record of `cardId`, or None for null. */
    function GetCardAnimationState(cardId: int): (r: Option<CardAnimationState>)
      reads this
      ensures r.Some? <==> cardId in cardAnimations
      ensures r.Some? ==> r.value == cardAnimations[cardId]
    {
      if cardId in cardAnimations then Some(cardAnimations[cardId]) else None
    }

    /**
     * `resetGame`: forgets every play and every record and bumps the reset counter by one;
     * afterwards the whole catalog is available again.
     */
    method ResetGame()
      modifies this
      ensures old(Valid()) ==> Valid()
      ensures NoDuplicates(playedCardIds)
      ensures playedCardIds == [] && cardAnimations == map[]
      ensures resetCounter == old(resetCounter) + 1 && cards == old(cards)
      ensures forall id :: GetCardAnimationState(id) == None
      ensures Available(cards, playedCardIds) == cards && Played(cards, playedCardIds) == []
    {
      playedCardIds := [];
      cardAnimations := map[];
      resetCounter := resetCounter + 1;
      AvailableNothingPlayed(cards, playedCardIds);
    }
  }

  /** A round on the catalog: play card 3, play it again (no change), reset. */
  method PlayTwiceThenReset(s: Store)
    requires s.cards == Catalog && s.playedCardIds == []
    modifies s
    ensures s.playedCardIds == [] && Available(s.cards, s.playedCardIds) == Catalog
  {
    s.PlayCard(3);
    assert s.playedCardIds == [3];
    s.PlayCard(3);
    assert s.playedCardIds == [3];
    s.ResetGame();
  }
}
