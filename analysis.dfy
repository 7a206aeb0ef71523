/**
 * The hand analyzer: a five-card hand, its copy sorted by int value, three
 * checks over them (flush, straight, straight flush) and `Analyze`, which
 * labels the hand through a chain of early returns. Only four categories are
 * recognised; for every other hand the label fields keep their `None`.
 */
module Analysis {
  import opened Wrappers
  import opened Cards
  import opened Decks
  import opened HandRanks

  /** Every card has a decoded int value, so the hand can be sorted and compared. */
  predicate Ranked(hand: seq<Card>)
  {
    forall i :: 0 <= i < |hand| ==> hand[i].intValue.Some?
  }

  /** The int values of the cards, in the order the cards are given. */
  function Values(hand: seq<Card>): (vs: seq<int>)
    requires Ranked(hand)
    ensures |vs| == |hand|
    ensures forall i :: 0 <= i < |hand| ==> vs[i] == hand[i].GetIntValue().value
  {
    seq(|hand|, i requires 0 <= i < |hand| => hand[i].GetIntValue().value)
  }

  predicate Sorted(vs: seq<int>)
  {
    forall i, j :: 0 <= i < j < |vs| ==> vs[i] <= vs[j]
  }

  /** The cards are in non-decreasing order of int value. */
  predicate SortedByValue(hand: seq<Card>)
    requires Ranked(hand)
  {
    forall i, j :: 0 <= i < j < |hand| ==> hand[i].GetIntValue().value <= hand[j].GetIntValue().value
  }

  /** No card of the hand has an int value below `v`. */
  predicate NoneBelow(v: int, hand: seq<Card>)
    requires Ranked(hand)
  {
    forall c :: c in hand ==> v <= c.GetIntValue().value
  }

  /** Inserts a card before the first card whose value is not smaller, keeping the order sorted. */
  function Insert(c: Card, sorted: seq<Card>): (r: seq<Card>)
    requires c.intValue.Some? && Ranked(sorted) && SortedByValue(sorted)
    ensures Ranked(r) && SortedByValue(r)
    ensures multiset(r) == multiset(sorted) + multiset{c}
  {
    if sorted == [] then [c]
    else if c.GetIntValue().value <= sorted[0].GetIntValue().value then
      HeadBound(c.GetIntValue().value, sorted);
      PrependSorted(c, sorted);
      [c] + sorted
    else
      var head, tail := sorted[0], sorted[1..];
      assert sorted == [head] + tail;
      var rest := Insert(c, tail);
      HeadBound(head.GetIntValue().value, sorted);
      HeadBoundsInsert(head, c, tail, rest);
      PrependSorted(head, rest);
      [head] + rest
  }

  /** A bound on the first card of a sorted hand bounds every card. */
  lemma HeadBound(v: int, sorted: seq<Card>)
    requires Ranked(sorted) && SortedByValue(sorted) && |sorted| > 0
    requires v <= sorted[0].GetIntValue().value
    ensures NoneBelow(v, sorted)
  {
    forall x | x in sorted ensures v <= x.GetIntValue().value {
      var k :| 0 <= k < |sorted| && sorted[k] == x;
      assert k == 0 || sorted[0].GetIntValue().value <= sorted[k].GetIntValue().value;
    }
  }

  /** A bound on the tail and on the inserted card bounds the result of inserting it. */
  lemma HeadBoundsInsert(head: Card, c: Card, tail: seq<Card>, rest: seq<Card>)
    requires head.intValue.Some? && c.intValue.Some? && Ranked(tail) && Ranked(rest)
    requires NoneBelow(head.GetIntValue().value, [head] + tail)
    requires head.GetIntValue().value < c.GetIntValue().value
    requires multiset(rest) == multiset(tail) + multiset{c}
    ensures NoneBelow(head.GetIntValue().value, rest)
  {
    forall x | x in rest ensures head.GetIntValue().value <= x.GetIntValue().value {
      assert x in multiset(rest);
      if x != c {
        assert x in multiset(tail);
        assert x in [head] + tail;
      }
    }
  }

  /** A card no larger than any card of a sorted sequence can be put in front of it. */
  lemma PrependSorted(c: Card, s: seq<Card>)
    requires c.intValue.Some? && Ranked(s) && SortedByValue(s)
    requires NoneBelow(c.GetIntValue().value, s)
    ensures Ranked([c] + s) && SortedByValue([c] + s)
  {
    var r := [c] + s;
    forall i, j | 0 <= i < j < |r|
      ensures r[i].GetIntValue().value <= r[j].GetIntValue().value
    {
      assert r[j] == s[j - 1];
      if i > 0 {
        assert r[i] == s[i - 1];
      } else {
        assert s[j - 1] in s;
      }
    }
  }

  /** The `sorted(cards, key=get_int_value)` of the constructor. */
  function SortByValue(hand: seq<Card>): (r: seq<Card>)
    requires Ranked(hand)
    ensures Ranked(r) && SortedByValue(r)
    ensures multiset(r) == multiset(hand) && |r| == |hand|
  {
    if hand == [] then [] else
      assert hand == [hand[0]] + hand[1..];
      Insert(hand[0], SortByValue(hand[1..]))
  }

  /** `check_straight`: the sorted values span exactly four, or are exactly the wheel A-2-3-4-5. */
  predicate CheckStraight(sortedHand: seq<Card>)
    requires |sortedHand| == 5 && Ranked(sortedHand)
  {
    var cardValues := Values(sortedHand);
    cardValues[4] - cardValues[0] == 4 || cardValues == [2, 3, 4, 5, 14]
  }

  /** `check_flush`: the set of the cards' suit codes has exactly one element. */
  predicate CheckFlush(playerCards: seq<Card>)
  {
    |SuitSet(playerCards)| == 1
  }

  /** `check_straight_flush`. */
  predicate CheckStraightFlush(playerCards: seq<Card>, sortedHand: seq<Card>)
    requires |sortedHand| == 5 && Ranked(sortedHand)
  {
    CheckFlush(playerCards) && CheckStraight(sortedHand)
  }

  // Order-independent statements of the checks, over the bag of values and the suits.

  const Wheel: multiset<int> := multiset{2, 3, 4, 5, 14}

  /** `lo` is the smallest value and `lo + 4` the largest. */
  ghost predicate SpanOfFour(lo: int, m: multiset<int>)
  {
    lo in m && lo + 4 in m && forall v :: v in m ==> lo <= v <= lo + 4
  }

  /** The largest value is the smallest plus four, or the values are A, 2, 3, 4, 5. Repeated values are allowed. */
  ghost predicate StraightValues(m: multiset<int>)
  {
    (exists lo :: SpanOfFour(lo, m)) || m == Wheel
  }

  /** All cards carry the same suit code. */
  ghost predicate SameSuit(hand: seq<Card>)
  {
    forall i, j :: 0 <= i < |hand| && 0 <= j < |hand| ==> hand[i].intSuit == hand[j].intSuit
  }

  lemma SortedByValueSortsValues(hand: seq<Card>)
    requires Ranked(hand) && SortedByValue(hand)
    ensures Sorted(Values(hand))
  {
  }

  /** Removing position `k` removes one occurrence of the element there. */
  lemma RemoveAt<T>(s: seq<T>, k: int)
    requires 0 <= k < |s|
    ensures multiset(s[..k] + s[k + 1..]) == multiset(s) - multiset{s[k]}
  {
    assert s == s[..k] + [s[k]] + s[k + 1..];
  }

  /** The values of a hand with position `k` removed are its values with position `k` removed. */
  lemma ValuesRemoveAt(b: seq<Card>, k: int)
    requires Ranked(b) && 0 <= k < |b|
    ensures Ranked(b[..k] + b[k + 1..])
    ensures Values(b[..k] + b[k + 1..]) == Values(b)[..k] + Values(b)[k + 1..]
  {
    var rest := b[..k] + b[k + 1..];
    assert forall i :: 0 <= i < |rest| ==> rest[i] == if i < k then b[i] else b[i + 1];
  }

  /** Taking the card at position `k` out of a hand takes one occurrence of its value out of the values. */
  lemma TakeOut(b: seq<Card>, k: int)
    requires Ranked(b) && 0 <= k < |b|
    ensures Ranked(b[..k] + b[k + 1..])
    ensures multiset(b[..k] + b[k + 1..]) == multiset(b) - multiset{b[k]}
    ensures multiset(Values(b[..k] + b[k + 1..])) == multiset(Values(b)) - multiset{b[k].GetIntValue().value}
  {
    RemoveAt(b, k);
    ValuesRemoveAt(b, k);
    RemoveAt(Values(b), k);
  }

  lemma RankedPermutation(a: seq<Card>, b: seq<Card>)
    requires Ranked(a) && multiset(a) == multiset(b)
    ensures Ranked(b)
  {
    forall i | 0 <= i < |b| ensures b[i].intValue.Some? {
      assert b[i] in multiset(a);
    }
  }

  /** Dropping the head of `a` and a matching occurrence from a permutation `b` leaves permutations. */
  lemma PermutationTails<T>(a: seq<T>, b: seq<T>, k: int)
    requires multiset(a) == multiset(b) && a != [] && 0 <= k < |b| && b[k] == a[0]
    ensures multiset(a[1..]) == multiset(b[..k] + b[k + 1..])
  {
    DropHead(a);
    RemoveAt(b, k);
  }

  /** Cards that are a permutation of each other have values that are a permutation of each other. */
  lemma {:induction false} ValuesPermutation(a: seq<Card>, b: seq<Card>)
    requires Ranked(a) && multiset(a) == multiset(b)
    ensures Ranked(b) && multiset(Values(a)) == multiset(Values(b))
  {
    RankedPermutation(a, b);
    if a == [] {
      assert |b| == |multiset(b)| == 0;
    } else {
      assert a[0] in multiset(b) by { assert a[0] in a; }
      var k :| 0 <= k < |b| && b[k] == a[0];
      PermutationTails(a, b, k);
      TakeOut(a, 0);
      assert a[..0] + a[1..] == a[1..];
      ValuesPermutation(a[1..], b[..k] + b[k + 1..]);
      RestoreHead(a, b, k);
    }
  }

  /** Values agree as bags once the head of `a` and a matching card of `b` are put back, if they agreed without them. */
  lemma RestoreHead(a: seq<Card>, b: seq<Card>, k: int)
    requires Ranked(a) && Ranked(b) && a != [] && 0 <= k < |b| && b[k] == a[0]
    requires Ranked(a[1..]) && Ranked(b[..k] + b[k + 1..])
    requires multiset(Values(a[1..])) == multiset(Values(b[..k] + b[k + 1..]))
    ensures multiset(Values(a)) == multiset(Values(b))
  {
    var v := a[0].GetIntValue().value;
    var x, y := multiset(Values(a)), multiset(Values(b));
    assert v in x && multiset(Values(a[1..])) == x - multiset{v} by {
      ValueTakenOut(a, 0);
      assert a[..0] + a[1..] == a[1..];
    }
    assert v in y && multiset(Values(b[..k] + b[k + 1..])) == y - multiset{v} by {
      ValueTakenOut(b, k);
    }
    RestoreOne(x, y, v);
  }

  /** Taking out the card at position `k` takes one occurrence of its value out of the values, which held it. */
  lemma ValueTakenOut(b: seq<Card>, k: int)
    requires Ranked(b) && 0 <= k < |b|
    ensures Ranked(b[..k] + b[k + 1..])
    ensures b[k].GetIntValue().value in multiset(Values(b))
    ensures multiset(Values(b[..k] + b[k + 1..])) == multiset(Values(b)) - multiset{b[k].GetIntValue().value}
  {
    TakeOut(b, k);
    assert Values(b)[k] == b[k].GetIntValue().value;
  }

  /** Two bags that each hold `v` and agree once one `v` is removed from each are equal. */
  lemma RestoreOne<T>(x: multiset<T>, y: multiset<T>, v: T)
    requires v in x && v in y && x - multiset{v} == y - multiset{v}
    ensures x == y
  {
    assert x == (x - multiset{v}) + multiset{v};
    assert y == (y - multiset{v}) + multiset{v};
  }

  /** The first element of a sorted sequence is its least. */
  lemma SortedHeadLeast(a: seq<int>, v: int)
    requires Sorted(a) && v in multiset(a)
    ensures a[0] <= v
  {
    var i :| 0 <= i < |a| && a[i] == v;
  }

  lemma SortedTail(a: seq<int>)
    requires Sorted(a) && a != []
    ensures Sorted(a[1..])
  {
  }

  lemma DropHead<T>(a: seq<T>)
    requires a != []
    ensures multiset(a[1..]) == multiset(a) - multiset{a[0]}
  {
    assert a == [a[0]] + a[1..];
  }

  /** Two non-empty sorted sequences holding the same values agree on their first element and on the values of their tails. */
  lemma SortedHeads(a: seq<int>, b: seq<int>)
    requires Sorted(a) && Sorted(b) && multiset(a) == multiset(b) && a != []
    ensures b != [] && a[0] == b[0]
    ensures Sorted(a[1..]) && Sorted(b[1..]) && multiset(a[1..]) == multiset(b[1..])
  {
    assert |b| == |multiset(b)| == |multiset(a)| == |a|;
    assert b[0] in multiset(a) by { assert b[0] in b; }
    assert a[0] in multiset(b) by { assert a[0] in a; }
    SortedHeadLeast(a, b[0]);
    SortedHeadLeast(b, a[0]);
    DropHead(a);
    DropHead(b);
    SortedTail(a);
    SortedTail(b);
  }

  /** Two sorted sequences holding the same values are equal. */
  lemma {:induction false} SortedUnique(a: seq<int>, b: seq<int>)
    requires Sorted(a) && Sorted(b) && multiset(a) == multiset(b)
    ensures a == b
  {
    if a == [] {
      assert |b| == |multiset(b)| == 0;
    } else {
      SortedHeads(a, b);
      SortedUnique(a[1..], b[1..]);
      assert a == [a[0]] + a[1..] && b == [b[0]] + b[1..];
    }
  }

  /** On sorted values, the straight test is exactly the order-independent statement. */
  lemma SortedStraight(vs: seq<int>)
    requires |vs| == 5 && Sorted(vs)
    ensures (vs[4] - vs[0] == 4 || vs == [2, 3, 4, 5, 14]) <==> StraightValues(multiset(vs))
  {
    var m := multiset(vs);
    if vs[4] - vs[0] == 4 {
      SortedSpan(vs);
    } else if vs == [2, 3, 4, 5, 14] {
      assert m == Wheel;
    } else {
      if m == Wheel {
        SortedWheel(vs);
      }
      if exists lo :: SpanOfFour(lo, m) {
        var lo :| SpanOfFour(lo, m);
        SpanIsSortedEnds(vs, lo);
      }
    }
  }

  /** Sorted values whose ends differ by four span four from their first value. */
  lemma SortedSpan(vs: seq<int>)
    requires |vs| == 5 && Sorted(vs) && vs[4] - vs[0] == 4
    ensures SpanOfFour(vs[0], multiset(vs))
  {
    var m := multiset(vs);
    assert vs[0] in m && vs[4] in m;
    forall v | v in m ensures vs[0] <= v <= vs[0] + 4 {
      var k :| 0 <= k < 5 && vs[k] == v;
    }
  }

  /** The only sorted arrangement of the wheel's values is 2, 3, 4, 5, 14. */
  lemma SortedWheel(vs: seq<int>)
    requires Sorted(vs) && multiset(vs) == Wheel
    ensures vs == [2, 3, 4, 5, 14]
  {
    assert Sorted([2, 3, 4, 5, 14]);
    SortedUnique(vs, [2, 3, 4, 5, 14]);
  }

  /** If the values span four from `lo`, the sorted sequence starts at `lo` and ends at `lo + 4`. */
  lemma SpanIsSortedEnds(vs: seq<int>, lo: int)
    requires |vs| == 5 && Sorted(vs) && SpanOfFour(lo, multiset(vs))
    ensures vs[0] == lo && vs[4] == lo + 4
  {
    var m := multiset(vs);
    assert lo in m && lo + 4 in m;
    var i :| 0 <= i < 5 && vs[i] == lo;
    var j :| 0 <= j < 5 && vs[j] == lo + 4;
    assert vs[0] in m && vs[4] in m;
  }

  /** `check_straight` on the sorted hand holds iff the hand's values make a straight. */
  lemma StraightIff(hand: seq<Card>)
    requires |hand| == 5 && Ranked(hand)
    ensures CheckStraight(SortByValue(hand)) <==> StraightValues(multiset(Values(hand)))
  {
    var sorted := SortByValue(hand);
    SortedByValueSortsValues(sorted);
    SortedStraight(Values(sorted));
    ValuesPermutation(sorted, hand);
  }

  /** The set `check_flush` measures. */
  function SuitSet(hand: seq<Card>): set<Option<int>>
  {
    set c | c in hand :: c.GetIntSuit()
  }

  /** `check_flush` holds iff all suit codes of a non-empty hand are equal. */
  lemma FlushIff(hand: seq<Card>)
    requires |hand| > 0
    ensures CheckFlush(hand) <==> SameSuit(hand)
  {
    var suits := SuitSet(hand);
    assert CheckFlush(hand) <==> |suits| == 1;
    forall i | 0 <= i < |hand| ensures hand[i].intSuit in suits {
      assert hand[i] in hand;
    }
    if SameSuit(hand) {
      forall x | x in suits ensures x == hand[0].intSuit {
        var c :| c in hand && c.GetIntSuit() == x;
        var k :| 0 <= k < |hand| && hand[k] == c;
      }
      assert suits == {hand[0].intSuit};
    }
    if |suits| == 1 {
      var x :| x in suits;
      assert |suits - {x}| == 0;
      assert suits - {x} == {};
    }
  }

  /** `check_straight_flush` holds iff the hand is both a flush and a straight in the order-independent sense. */
  lemma StraightFlushIff(hand: seq<Card>)
    requires |hand| == 5 && Ranked(hand)
    ensures CheckStraightFlush(hand, SortByValue(hand)) <==> SameSuit(hand) && StraightValues(multiset(Values(hand)))
  {
    StraightIff(hand);
    FlushIff(hand);
  }

  /** Every suit code of `a` is a suit code of any permutation of `a`. */
  lemma SuitSetPermutation(a: seq<Card>, b: seq<Card>)
    requires multiset(a) == multiset(b)
    ensures SuitSet(a) <= SuitSet(b)
  {
    forall x | x in SuitSet(a) ensures x in SuitSet(b) {
      var c :| c in a && c.GetIntSuit() == x;
      assert c in multiset(b);
    }
  }

  /** The straight test does not depend on the order the cards are given in. */
  lemma StraightOrderIndependent(a: seq<Card>, b: seq<Card>)
    requires |a| == 5 && Ranked(a) && multiset(a) == multiset(b)
    ensures |b| == 5 && Ranked(b)
    ensures CheckStraight(SortByValue(a)) == CheckStraight(SortByValue(b))
  {
    assert |b| == |multiset(b)| == |multiset(a)| == 5;
    ValuesPermutation(a, b);
    StraightIff(a);
    StraightIff(b);
  }

  /** The flush test does not depend on the order the cards are given in. */
  lemma FlushOrderIndependent(a: seq<Card>, b: seq<Card>)
    requires multiset(a) == multiset(b)
    ensures CheckFlush(a) == CheckFlush(b)
  {
    SuitSetPermutation(a, b);
    SuitSetPermutation(b, a);
    assert SuitSet(a) == SuitSet(b);
  }

  /** The label `analyze` gives the hand: one of four categories, or none. */
  function Classify(hand: seq<Card>): Option<HandRank>
    requires |hand| == 5 && Ranked(hand)
  {
    var sortedHand := SortByValue(hand);
    if CheckStraightFlush(hand, sortedHand) && hand[0].GetIntValue() == Some(10) then Some(RoyalFlush)
    else if CheckStraightFlush(hand, sortedHand) then Some(StraightFlush)
    else if CheckFlush(hand) then Some(Flush)
    else if CheckStraight(sortedHand) then Some(Straight)
    else None
  }

  /**
   * The precedence of `analyze`, stated over the order-independent tests:
   * Royal Flush needs a straight flush whose first dealt card is a ten.
   */
  lemma ClassifyPrecedence(hand: seq<Card>)
    requires |hand| == 5 && Ranked(hand)
    ensures Classify(hand) == Some(RoyalFlush) <==>
              SameSuit(hand) && StraightValues(multiset(Values(hand))) && hand[0].intValue == Some(10)
    ensures Classify(hand) == Some(StraightFlush) <==>
              SameSuit(hand) && StraightValues(multiset(Values(hand))) && hand[0].intValue != Some(10)
    ensures Classify(hand) == Some(Flush) <==> SameSuit(hand) && !StraightValues(multiset(Values(hand)))
    ensures Classify(hand) == Some(Straight) <==> !SameSuit(hand) && StraightValues(multiset(Values(hand)))
    ensures Classify(hand) == None <==> !SameSuit(hand) && !StraightValues(multiset(Values(hand)))
  {
    StraightIff(hand);
    FlushIff(hand);
  }

  /** A suited hand whose values span four is labelled by its first dealt card alone: Royal Flush when that card is a ten. */
  lemma SuitedSpanLabel(hand: seq<Card>, lo: int)
    requires |hand| == 5 && Ranked(hand) && SameSuit(hand) && SpanOfFour(lo, multiset(Values(hand)))
    ensures Classify(hand) == if hand[0].intValue == Some(10) then Some(RoyalFlush) else Some(StraightFlush)
  {
    ClassifyPrecedence(hand);
  }

  /** A suited A-2-3-4-5 is a Straight Flush, never a Royal Flush, whatever card is dealt first. */
  lemma SuitedWheelIsStraightFlush(hand: seq<Card>)
    requires |hand| == 5 && Ranked(hand) && SameSuit(hand) && multiset(Values(hand)) == Wheel
    ensures Classify(hand) == Some(StraightFlush)
  {
    ClassifyPrecedence(hand);
    assert Values(hand)[0] in multiset(Values(hand));
  }

  // Five named cards. Each lemma below takes the cards one by one and states what it needs
  // of their decoded fields, so that a concrete hand only has to decode its cards.

  /** Five cards with decoded values form a ranked hand with those values in dealt order. */
  lemma FiveValues(c0: Card, c1: Card, c2: Card, c3: Card, c4: Card, v0: int, v1: int, v2: int, v3: int, v4: int)
    requires c0.intValue == Some(v0) && c1.intValue == Some(v1) && c2.intValue == Some(v2)
    requires c3.intValue == Some(v3) && c4.intValue == Some(v4)
    ensures Ranked([c0, c1, c2, c3, c4]) && Values([c0, c1, c2, c3, c4]) == [v0, v1, v2, v3, v4]
  {
  }

  /** Five values between `lo` and `lo + 4` that include both ends span four. */
  lemma SpanOfFive(vs: seq<int>, lo: int)
    requires |vs| == 5 && lo in vs && lo + 4 in vs
    requires forall k :: 0 <= k < 5 ==> lo <= vs[k] <= lo + 4
    ensures SpanOfFour(lo, multiset(vs))
  {
    forall v | v in multiset(vs) ensures lo <= v <= lo + 4 {
      var k :| 0 <= k < 5 && vs[k] == v;
    }
  }

  /** Five values in `[lo, lo + 4]` that include both ends, on cards whose first two suits differ, make a Straight. */
  lemma UnsuitedSpanIsStraight(c0: Card, c1: Card, c2: Card, c3: Card, c4: Card,
                               v0: int, v1: int, v2: int, v3: int, v4: int, lo: int)
    requires c0.intValue == Some(v0) && c1.intValue == Some(v1) && c2.intValue == Some(v2)
    requires c3.intValue == Some(v3) && c4.intValue == Some(v4)
    requires lo in [v0, v1, v2, v3, v4] && lo + 4 in [v0, v1, v2, v3, v4]
    requires lo <= v0 <= lo + 4 && lo <= v1 <= lo + 4 && lo <= v2 <= lo + 4 && lo <= v3 <= lo + 4 && lo <= v4 <= lo + 4
    requires c0.intSuit != c1.intSuit
    ensures Ranked([c0, c1, c2, c3, c4]) && Classify([c0, c1, c2, c3, c4]) == Some(Straight)
  {
    var hand := [c0, c1, c2, c3, c4];
    FiveValues(c0, c1, c2, c3, c4, v0, v1, v2, v3, v4);
    SpanOfFive([v0, v1, v2, v3, v4], lo);
    assert hand[0].intSuit != hand[1].intSuit;
    ClassifyPrecedence(hand);
  }

  /** The same values on five cards of one suit: Royal Flush exactly when the first dealt card is a ten. */
  lemma SuitedSpanByFirstCard(c0: Card, c1: Card, c2: Card, c3: Card, c4: Card,
                              v0: int, v1: int, v2: int, v3: int, v4: int, lo: int)
    requires c0.intValue == Some(v0) && c1.intValue == Some(v1) && c2.intValue == Some(v2)
    requires c3.intValue == Some(v3) && c4.intValue == Some(v4)
    requires lo in [v0, v1, v2, v3, v4] && lo + 4 in [v0, v1, v2, v3, v4]
    requires lo <= v0 <= lo + 4 && lo <= v1 <= lo + 4 && lo <= v2 <= lo + 4 && lo <= v3 <= lo + 4 && lo <= v4 <= lo + 4
    requires c1.intSuit == c0.intSuit && c2.intSuit == c0.intSuit && c3.intSuit == c0.intSuit && c4.intSuit == c0.intSuit
    ensures Ranked([c0, c1, c2, c3, c4])
    ensures Classify([c0, c1, c2, c3, c4]) == if v0 == 10 then Some(RoyalFlush) else Some(StraightFlush)
  {
    FiveValues(c0, c1, c2, c3, c4, v0, v1, v2, v3, v4);
    SpanOfFive([v0, v1, v2, v3, v4], lo);
    FiveSameSuit(c0, c1, c2, c3, c4);
    SuitedSpanLabel([c0, c1, c2, c3, c4], lo);
  }

  /** Five cards whose suit codes equal the first card's are suited. */
  lemma FiveSameSuit(c0: Card, c1: Card, c2: Card, c3: Card, c4: Card)
    requires c1.intSuit == c0.intSuit && c2.intSuit == c0.intSuit && c3.intSuit == c0.intSuit && c4.intSuit == c0.intSuit
    ensures SameSuit([c0, c1, c2, c3, c4])
  {
    var hand := [c0, c1, c2, c3, c4];
    forall i, j | 0 <= i < 5 && 0 <= j < 5 ensures hand[i].intSuit == hand[j].intSuit {
      assert hand[i].intSuit == c0.intSuit;
    }
  }

  /** Five values that make no straight, on cards whose first two suits differ, get no label. */
  lemma UnsuitedNoStraightUnlabelled(c0: Card, c1: Card, c2: Card, c3: Card, c4: Card,
                                     v0: int, v1: int, v2: int, v3: int, v4: int)
    requires c0.intValue == Some(v0) && c1.intValue == Some(v1) && c2.intValue == Some(v2)
    requires c3.intValue == Some(v3) && c4.intValue == Some(v4)
    requires !StraightValues(multiset([v0, v1, v2, v3, v4]))
    requires c0.intSuit != c1.intSuit
    ensures Ranked([c0, c1, c2, c3, c4]) && Classify([c0, c1, c2, c3, c4]) == None
  {
    var hand := [c0, c1, c2, c3, c4];
    FiveValues(c0, c1, c2, c3, c4, v0, v1, v2, v3, v4);
    assert hand[0].intSuit != hand[1].intSuit;
    ClassifyPrecedence(hand);
  }

  /** Four eights and a two make no straight: the values run from 2 to 8. */
  lemma EightsAndTwoNoStraight()
    ensures !StraightValues(multiset([8, 8, 8, 8, 2]))
  {
    var m := multiset([8, 8, 8, 8, 2]);
    assert m == multiset{8, 8, 8, 8, 2};
    forall lo | SpanOfFour(lo, m) ensures false {
    }
    assert m != Wheel by { assert m[8] == 4; }
  }

  // The decoded cards the example hands below are dealt.

  lemma FourOfSpades() ensures NewCard("s", "4") == Card("4", "s", Some("Four"), Some(4), Some(4), Some("Spades")) {}
  lemma FiveOfClubs() ensures NewCard("c", "5") == Card("5", "c", Some("Five"), Some(5), Some(1), Some("Clubs")) {}
  lemma SixOfSpades() ensures NewCard("s", "6") == Card("6", "s", Some("Six"), Some(6), Some(4), Some("Spades")) {}
  lemma SevenOfSpades() ensures NewCard("s", "7") == Card("7", "s", Some("Seven"), Some(7), Some(4), Some("Spades")) {}
  lemma EightOfSpades() ensures NewCard("s", "8") == Card("8", "s", Some("Eight"), Some(8), Some(4), Some("Spades")) {}
  lemma NineOfSpades() ensures NewCard("s", "9") == Card("9", "s", Some("Nine"), Some(9), Some(4), Some("Spades")) {}
  lemma TenOfSpades() ensures NewCard("s", "t") == Card("t", "s", Some("Ten"), Some(10), Some(4), Some("Spades")) {}
  lemma JackOfSpades() ensures NewCard("s", "j") == Card("j", "s", Some("Jack"), Some(11), Some(4), Some("Spades")) {}
  lemma QueenOfSpades() ensures NewCard("s", "q") == Card("q", "s", Some("Queen"), Some(12), Some(4), Some("Spades")) {}
  lemma KingOfSpades() ensures NewCard("s", "k") == Card("k", "s", Some("King"), Some(13), Some(4), Some("Spades")) {}
  lemma AceOfSpades() ensures NewCard("s", "a") == Card("a", "s", Some("Ace"), Some(14), Some(4), Some("Spades")) {}
  lemma EightOfClubs() ensures NewCard("c", "8") == Card("8", "c", Some("Eight"), Some(8), Some(1), Some("Clubs")) {}
  lemma EightOfDiamonds() ensures NewCard("d", "8") == Card("8", "d", Some("Eight"), Some(8), Some(2), Some("Diamonds")) {}
  lemma EightOfHearts() ensures NewCard("h", "8") == Card("8", "h", Some("Eight"), Some(8), Some(3), Some("Hearts")) {}
  lemma FiveOfDiamonds() ensures NewCard("d", "5") == Card("5", "d", Some("Five"), Some(5), Some(2), Some("Diamonds")) {}
  lemma SixOfHearts() ensures NewCard("h", "6") == Card("6", "h", Some("Six"), Some(6), Some(3), Some("Hearts")) {}
  lemma NineOfClubs() ensures NewCard("c", "9") == Card("9", "c", Some("Nine"), Some(9), Some(1), Some("Clubs")) {}
  lemma TwoOfClubs() ensures NewCard("c", "2") == Card("2", "c", Some("Two"), Some(2), Some(1), Some("Clubs")) {}

  /** The driver script's hand 4s 5c 6s 7s 8s is a Straight: not suited, values 4 to 8. */
  lemma DriverHandIsStraight()
    ensures Ranked([NewCard("s", "4"), NewCard("c", "5"), NewCard("s", "6"), NewCard("s", "7"), NewCard("s", "8")])
    ensures Classify([NewCard("s", "4"), NewCard("c", "5"), NewCard("s", "6"), NewCard("s", "7"), NewCard("s", "8")])
            == Some(Straight)
  {
    FourOfSpades(); FiveOfClubs(); SixOfSpades(); SevenOfSpades(); EightOfSpades();
    UnsuitedSpanIsStraight(NewCard("s", "4"), NewCard("c", "5"), NewCard("s", "6"), NewCard("s", "7"), NewCard("s", "8"),
                           4, 5, 6, 7, 8, 4);
  }

  /**
   * The Royal Flush test reads the first dealt card, not the lowest: six to ten of spades
   * dealt ten first is labelled Royal Flush, the same cards dealt six first Straight Flush.
   */
  lemma RoyalFollowsFirstDealtCard()
    ensures Ranked([NewCard("s", "t"), NewCard("s", "6"), NewCard("s", "7"), NewCard("s", "8"), NewCard("s", "9")])
    ensures Classify([NewCard("s", "t"), NewCard("s", "6"), NewCard("s", "7"), NewCard("s", "8"), NewCard("s", "9")])
            == Some(RoyalFlush)
    ensures Ranked([NewCard("s", "6"), NewCard("s", "7"), NewCard("s", "8"), NewCard("s", "9"), NewCard("s", "t")])
    ensures Classify([NewCard("s", "6"), NewCard("s", "7"), NewCard("s", "8"), NewCard("s", "9"), NewCard("s", "t")])
            == Some(StraightFlush)
  {
    SixOfSpades(); SevenOfSpades(); EightOfSpades(); NineOfSpades(); TenOfSpades();
    SuitedSpanByFirstCard(NewCard("s", "t"), NewCard("s", "6"), NewCard("s", "7"), NewCard("s", "8"), NewCard("s", "9"),
                          10, 6, 7, 8, 9, 6);
    SuitedSpanByFirstCard(NewCard("s", "6"), NewCard("s", "7"), NewCard("s", "8"), NewCard("s", "9"), NewCard("s", "t"),
                          6, 7, 8, 9, 10, 6);
  }

  /** Ten to ace of spades dealt ace first is labelled Straight Flush, not Royal Flush. */
  lemma AceFirstBroadwayIsStraightFlush()
    ensures Ranked([NewCard("s", "a"), NewCard("s", "k"), NewCard("s", "q"), NewCard("s", "j"), NewCard("s", "t")])
    ensures Classify([NewCard("s", "a"), NewCard("s", "k"), NewCard("s", "q"), NewCard("s", "j"), NewCard("s", "t")])
            == Some(StraightFlush)
  {
    AceOfSpades(); KingOfSpades(); QueenOfSpades(); JackOfSpades(); TenOfSpades();
    SuitedSpanByFirstCard(NewCard("s", "a"), NewCard("s", "k"), NewCard("s", "q"), NewCard("s", "j"), NewCard("s", "t"),
                          14, 13, 12, 11, 10, 10);
  }

  /** The straight test does not ask for distinct values: 5c 5d 6h 7s 9c is labelled Straight. */
  lemma RepeatedValueStraight()
    ensures Ranked([NewCard("c", "5"), NewCard("d", "5"), NewCard("h", "6"), NewCard("s", "7"), NewCard("c", "9")])
    ensures Classify([NewCard("c", "5"), NewCard("d", "5"), NewCard("h", "6"), NewCard("s", "7"), NewCard("c", "9")])
            == Some(Straight)
  {
    FiveOfClubs(); FiveOfDiamonds(); SixOfHearts(); SevenOfSpades(); NineOfClubs();
    UnsuitedSpanIsStraight(NewCard("c", "5"), NewCard("d", "5"), NewCard("h", "6"), NewCard("s", "7"), NewCard("c", "9"),
                           5, 5, 6, 7, 9, 5);
  }

  /** For the same reason four eights and a four are labelled Straight. */
  lemma FourOfAKindCanBeStraight()
    ensures Ranked([NewCard("c", "8"), NewCard("d", "8"), NewCard("h", "8"), NewCard("s", "8"), NewCard("s", "4")])
    ensures Classify([NewCard("c", "8"), NewCard("d", "8"), NewCard("h", "8"), NewCard("s", "8"), NewCard("s", "4")])
            == Some(Straight)
  {
    EightOfClubs(); EightOfDiamonds(); EightOfHearts(); EightOfSpades(); FourOfSpades();
    UnsuitedSpanIsStraight(NewCard("c", "8"), NewCard("d", "8"), NewCard("h", "8"), NewCard("s", "8"), NewCard("s", "4"),
                           8, 8, 8, 8, 4, 4);
  }

  /** Categories whose checks are disabled get no label: four eights and a two are unlabelled. */
  lemma FourOfAKindUnlabelled()
    ensures Ranked([NewCard("c", "8"), NewCard("d", "8"), NewCard("h", "8"), NewCard("s", "8"), NewCard("c", "2")])
    ensures Classify([NewCard("c", "8"), NewCard("d", "8"), NewCard("h", "8"), NewCard("s", "8"), NewCard("c", "2")])
            == None
  {
    EightOfClubs(); EightOfDiamonds(); EightOfHearts(); EightOfSpades(); TwoOfClubs();
    EightsAndTwoNoStraight();
    UnsuitedNoStraightUnlabelled(NewCard("c", "8"), NewCard("d", "8"), NewCard("h", "8"), NewCard("s", "8"), NewCard("c", "2"),
                                 8, 8, 8, 8, 2);
  }

  /** `rank_name` for a label, `None` for no label. */
  function LabelName(outcome: Option<HandRank>): Option<string>
  {
    match outcome
    case None => None
    case Some(r) => Some(Name(r))
  }

  /** `rank_value` for a label, `None` for no label. */
  function LabelCode(outcome: Option<HandRank>): Option<int>
  {
    match outcome
    case None => None
    case Some(r) => Some(Code(r))
  }

  /** The label fields `analyze` writes for each of the four recognised categories. */
  lemma LabelFields()
    ensures LabelName(Some(RoyalFlush)) == Some("Royal Flush") && LabelCode(Some(RoyalFlush)) == Some(10)
    ensures LabelName(Some(StraightFlush)) == Some("Straight Flush") && LabelCode(Some(StraightFlush)) == Some(9)
    ensures LabelName(Some(Flush)) == Some("Flush") && LabelCode(Some(Flush)) == Some(6)
    ensures LabelName(Some(Straight)) == Some("Straight") && LabelCode(Some(Straight)) == Some(5)
  {
  }

  /**
   * A five-card hand with decoded values, its sorted copy, and label fields
   * that are either still unset or the hand's label.
   */
  ghost predicate Consistent(hand: seq<Card>, sorted: seq<Card>, name: Option<string>, code: Option<int>)
  {
    && |hand| == 5
    && Ranked(hand)
    && sorted == SortByValue(hand)
    && ((name == None && code == None) ||
        (name == LabelName(Classify(hand)) && code == LabelCode(Classify(hand))))
  }

  class HandAnalyzer {
    var playerCards: seq<Card>
    var remainingDeck: seq<DeckCard>
    var rankName: Option<string>
    var rankValue: Option<int>
    var sortedHand: seq<Card>

    ghost predicate Valid()
      reads this
    {
      Consistent(playerCards, sortedHand, rankName, rankValue)
    }

    constructor (cards: seq<Card>, deck: seq<DeckCard>)
      requires |cards| == 5 && Ranked(cards)
      ensures Valid()
      ensures playerCards == cards && remainingDeck == deck
      ensures rankName == None && rankValue == None
      ensures sortedHand == SortByValue(cards)
    {
      playerCards := cards;
      remainingDeck := deck;
      rankName := None;
      rankValue := None;
      sortedHand := SortByValue(cards);
    }

    /** Sets the label fields from the first check that passes; leaves them alone when none does. */
    method Analyze()
      requires Valid()
      modifies this`rankName, this`rankValue
      ensures Valid()
      ensures rankName == LabelName(Classify(playerCards))
      ensures rankValue == LabelCode(Classify(playerCards))
      ensures playerCards == old(playerCards) && remainingDeck == old(remainingDeck) && sortedHand == old(sortedHand)
    {
      ghost var outcome := Classify(playerCards);
      LabelFields();
      if CheckStraightFlush(playerCards, sortedHand) && playerCards[0].GetIntValue() == Some(10) {
        assert outcome == Some(RoyalFlush);
        rankName := Some("Royal Flush");
        rankValue := Some(10);
        return;
      }
      if CheckStraightFlush(playerCards, sortedHand) {
        assert outcome == Some(StraightFlush);
        rankName := Some("Straight Flush");
        rankValue := Some(9);
        return;
      }
      if CheckFlush(playerCards) {
        assert outcome == Some(Flush);
        rankName := Some("Flush");
        rankValue := Some(6);
        return;
      }
      if CheckStraight(sortedHand) {
        assert outcome == Some(Straight);
        rankName := Some("Straight");
        rankValue := Some(5);
        return;
      }
      assert outcome == None;
    }
  }

  /** Builds an analyzer for a hand and the rest of the deck and analyses it, returning its two label fields. */
  method AnalyzeHand(hand: seq<Card>, remaining: seq<DeckCard>) returns (name: Option<string>, code: Option<int>)
    requires |hand| == 5 && Ranked(hand)
    ensures name == LabelName(Classify(hand)) && code == LabelCode(Classify(hand))
  {
    var analyzer := new HandAnalyzer(hand, remaining);
    analyzer.Analyze();
    name, code := analyzer.rankName, analyzer.rankValue;
  }

  /** The driver script's run: its hand is labelled Straight, code 5, whatever remains of the deck. */
  method AnalyzeDriverHand(remaining: seq<DeckCard>) returns (name: Option<string>, code: Option<int>)
    ensures name == Some("Straight") && code == Some(5)
  {
    DriverHandIsStraight();
    name, code := AnalyzeHand([NewCard("s", "4"), NewCard("c", "5"), NewCard("s", "6"), NewCard("s", "7"), NewCard("s", "8")],
                              remaining);
    LabelFields();
  }
}
