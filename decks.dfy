/**
 * The deck: a list of cards built by two nested loops over the suit and value
 * tokens, permuted in place by a shuffle and popped from the end by a deal.
 *
 * The element is the five-field record the builder passes along (value token,
 * suit token, full value, int value, full suit), not `Cards.Card`: the source
 * hands those five values to a card constructor that takes only two, suit first.
 */
module Decks {
  import opened Wrappers
  import opened Cards

  /** One built card, with the fields in the order the builder passes them. */
  datatype DeckCard = DeckCard(value: string, suit: string, fullValue: string, intValue: int, fullSuit: string)

  /**
   * The 52 cards one build appends, by position: suit block `k / 13`,
   * value `k % 13` within it.
   */
  function StandardDeck(): seq<DeckCard>
  {
    seq(52, k requires 0 <= k < 52 =>
      DeckCard(ValueTokens[k % 13], SuitTokens[k / 13], RankNames[k % 13], k % 13 + 2, SuitNames[k / 13]))
  }

  /** One build is 52 cards. */
  lemma StandardDeckSize()
    ensures |StandardDeck()| == 52
  {
  }

  /**
   * Every (suit token, value token) pair of the 4 x 13 vocabulary is in the
   * built deck, and every built card's tokens come from that vocabulary.
   */
  lemma EveryPairPresent()
    ensures forall s, v :: s in SuitTokens && v in ValueTokens ==>
              exists k :: 0 <= k < |StandardDeck()| && StandardDeck()[k].suit == s && StandardDeck()[k].value == v
    ensures forall k :: 0 <= k < |StandardDeck()| ==>
              StandardDeck()[k].suit in SuitTokens && StandardDeck()[k].value in ValueTokens
  {
    forall s, v | s in SuitTokens && v in ValueTokens
      ensures exists k :: 0 <= k < |StandardDeck()| && StandardDeck()[k].suit == s && StandardDeck()[k].value == v
    {
      var si :| 0 <= si < 4 && SuitTokens[si] == s;
      var vi :| 0 <= vi < 13 && ValueTokens[vi] == v;
      BuiltCardIsStandard(si, vi);
      assert StandardDeck()[13 * si + vi].suit == s && StandardDeck()[13 * si + vi].value == v;
    }
  }

  /** No (suit token, value token) pair is built twice. */
  lemma NoPairTwice()
    ensures forall k1, k2 :: 0 <= k1 < k2 < |StandardDeck()| ==>
              (StandardDeck()[k1].suit, StandardDeck()[k1].value) != (StandardDeck()[k2].suit, StandardDeck()[k2].value)
  {
    forall k1, k2 | 0 <= k1 < k2 < 52
      ensures (StandardDeck()[k1].suit, StandardDeck()[k1].value) != (StandardDeck()[k2].suit, StandardDeck()[k2].value)
    {
      PositionsDiffer(k1, k2);
    }
  }

  /** Two positions of one build differ in suit token or in value token. */
  lemma PositionsDiffer(k1: int, k2: int)
    requires 0 <= k1 < k2 < 52
    ensures StandardDeck()[k1].suit != StandardDeck()[k2].suit || StandardDeck()[k1].value != StandardDeck()[k2].value
  {
    var d := StandardDeck();
    TokensDistinct();
    var s1, v1, s2, v2 := k1 / 13, k1 % 13, k2 / 13, k2 % 13;
    assert k1 == 13 * s1 + v1 && k2 == 13 * s2 + v2;
    assert d[k1].suit == SuitTokens[s1] && d[k1].value == ValueTokens[v1];
    assert d[k2].suit == SuitTokens[s2] && d[k2].value == ValueTokens[v2];
    if s1 == s2 {
      assert v1 != v2;
    }
  }

  /** Position `13 * si + vi` lies in suit block `si` at value `vi`. */
  lemma DivModBlock(si: int, vi: int)
    requires 0 <= si < 4 && 0 <= vi < 13
    ensures (13 * si + vi) / 13 == si && (13 * si + vi) % 13 == vi
  {
  }

  /**
   * Every built card carries the fields the card table derives from its tokens:
   * the int value and full value of its value token and the full suit of its suit token.
   */
  lemma StandardDeckDecodes()
    ensures forall k :: 0 <= k < |StandardDeck()| ==>
              DecodeValue(StandardDeck()[k].value) == Some(Rank(StandardDeck()[k].fullValue, StandardDeck()[k].intValue)) &&
              DecodeSuit(StandardDeck()[k].suit).Some? &&
              DecodeSuit(StandardDeck()[k].suit).value.fullSuit == StandardDeck()[k].fullSuit
  {
    var d := StandardDeck();
    forall k | 0 <= k < 52
      ensures DecodeValue(d[k].value) == Some(Rank(d[k].fullValue, d[k].intValue))
      ensures DecodeSuit(d[k].suit).Some? && DecodeSuit(d[k].suit).value.fullSuit == d[k].fullSuit
    {
      ValueTable(k % 13);
      SuitTable(k / 13);
    }
  }

  /** The card the inner loop body builds from a suit index and a value index. */
  lemma BuiltCardIsStandard(si: int, vi: int)
    requires 0 <= si < 4 && 0 <= vi < 13
    ensures DecodeValue(ValueTokens[vi]).Some? && DecodeSuit(SuitTokens[si]).Some?
    ensures StandardDeck()[13 * si + vi] ==
              DeckCard(ValueTokens[vi], SuitTokens[si],
                       DecodeValue(ValueTokens[vi]).value.fullValue,
                       DecodeValue(ValueTokens[vi]).value.intValue,
                       DecodeSuit(SuitTokens[si]).value.fullSuit)
  {
    ValueTable(vi);
    SuitTable(si);
    DivModBlock(si, vi);
  }

  /** A prefix one longer is the prefix with the next element appended. */
  lemma PrefixGrows<T>(s: seq<T>, n: int)
    requires 0 <= n < |s|
    ensures s[..n + 1] == s[..n] + [s[n]]
  {
  }

  class Deck {
    var cards: seq<DeckCard>

    /** A fresh deck: one build, then a shuffle. */
    constructor ()
      ensures |cards| == 52
      ensures multiset(cards) == multiset(StandardDeck())
    {
      cards := [];
      new;
      StandardDeckSize();
      New();
      Shuffle();
      assert |multiset(cards)| == |multiset(StandardDeck())|;
    }

    /** Appends one build of 52 cards after whatever the deck already holds. */
    method New()
      modifies this
      ensures cards == old(cards) + StandardDeck()
    {
      for si := 0 to 4
        invariant cards == old(cards) + StandardDeck()[..13 * si]
      {
        var s := SuitTokens[si];
        for vi := 0 to 13
          invariant cards == old(cards) + StandardDeck()[..13 * si + vi]
        {
          var v := ValueTokens[vi];
          BuiltCardIsStandard(si, vi);
          var rank := DecodeValue(v).value;
          var fullSuit := DecodeSuit(s).value.fullSuit;
          var newCard := DeckCard(v, s, rank.fullValue, rank.intValue, fullSuit);
          PrefixGrows(StandardDeck(), 13 * si + vi);
          cards := cards + [newCard];
        }
      }
    }

    /** Rearranges the cards into some order; which one is left to chance. */
    method Shuffle()
      modifies this
      ensures multiset(cards) == old(multiset(cards))
    {
      var shuffled :| multiset(shuffled) == multiset(cards);
      cards := shuffled;
    }

    /** Removes and returns the last card. */
    method DealOne() returns (c: DeckCard)
      requires |cards| > 0
      modifies this
      ensures c == old(cards)[|old(cards)| - 1]
      ensures cards == old(cards)[..|old(cards)| - 1]
      ensures multiset(old(cards)) == multiset(cards) + multiset{c}
    {
      c := cards[|cards| - 1];
      assert cards == cards[..|cards| - 1] + [c];
      cards := cards[..|cards| - 1];
    }
  }

  /** Building a second time after construction does not clear the first build. */
  method BuildTwice() returns (n: nat)
    ensures n == 104
  {
    var deck := new Deck();
    deck.New();
    n := |deck.cards|;
  }
}
