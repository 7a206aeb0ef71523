/**
 * The pay table: a constant map from every hand category to its multiplier,
 * plus the "Jacks or better" rule that a pair pays only when its rank is at
 * least a Jack (11).
 */
module Payouts {
  import opened HandRanks

  const PayoutTable: map<HandRank, nat> := map[
    RoyalFlush := 800,
    StraightFlush := 50,
    FourOfAKind := 25,
    FullHouse := 9,
    Flush := 6,
    Straight := 4,
    ThreeOfAKind := 3,
    TwoPair := 2,
    Pair := 1,
    HighCard := 0
  ]

  /** The categories in the order the table lists them, strongest first. */
  const Listed: seq<HandRank> :=
    [RoyalFlush, StraightFlush, FourOfAKind, FullHouse, Flush, Straight, ThreeOfAKind, TwoPair, Pair, HighCard]

  /** The lowest pair rank that pays: a Jack. */
  const JacksOrBetter: int := 11

  /** The table's multipliers, category by category. */
  lemma TableValues()
    ensures PayoutTable[RoyalFlush] == 800 && PayoutTable[StraightFlush] == 50
    ensures PayoutTable[FourOfAKind] == 25 && PayoutTable[FullHouse] == 9
    ensures PayoutTable[Flush] == 6 && PayoutTable[Straight] == 4
    ensures PayoutTable[ThreeOfAKind] == 3 && PayoutTable[TwoPair] == 2
    ensures PayoutTable[Pair] == 1 && PayoutTable[HighCard] == 0
  {
  }

  /** The table has exactly ten entries, one per category. */
  lemma TableCoversEveryCategory()
    ensures forall r :: r in PayoutTable
    ensures |PayoutTable| == 10
  {
    forall r: HandRank ensures r in PayoutTable {
      match r
      case HighCard =>
      case Pair =>
      case TwoPair =>
      case ThreeOfAKind =>
      case Straight =>
      case Flush =>
      case FullHouse =>
      case FourOfAKind =>
      case StraightFlush =>
      case RoyalFlush =>
    }
    TableKeys();
    CategoryCount();
  }

  lemma TableKeys()
    ensures PayoutTable.Keys ==
            {HighCard, Pair, TwoPair, ThreeOfAKind, Straight, Flush, FullHouse, FourOfAKind, StraightFlush, RoyalFlush}
  {
  }

  lemma CategoryCount()
    ensures |{HighCard, Pair, TwoPair, ThreeOfAKind, Straight, Flush, FullHouse, FourOfAKind, StraightFlush, RoyalFlush}| == 10
  {
  }

  /** Down the listed order, every multiplier is strictly smaller than the one above it. */
  lemma TableStrictlyDecreasing()
    ensures |Listed| == 10
    ensures forall i, j :: 0 <= i < j < |Listed| ==> PayoutTable[Listed[i]] > PayoutTable[Listed[j]]
  {
  }

  /** A stronger category (a higher analyzer code) always has a larger multiplier. */
  lemma PayoutIncreasesWithCode(a: HandRank, b: HandRank)
    requires Code(a) < Code(b)
    ensures PayoutTable[a] < PayoutTable[b]
  {
  }

  /** The multiplier a hand of category `rank` earns; `primary` is the rank that defines a pair. */
  function Payout(rank: HandRank, primary: int): (m: nat)
    ensures rank != Pair ==> rank in PayoutTable && m == PayoutTable[rank]
    ensures rank == Pair ==> (m == 1 <==> primary >= JacksOrBetter)
    ensures rank == Pair ==> (m == 0 <==> primary < JacksOrBetter)
    ensures m <= 800
  {
    TableCoversEveryCategory();
    if rank == Pair then
      (if primary >= JacksOrBetter then PayoutTable[Pair] else 0)
    else
      PayoutTable[rank]
  }

  /** A pair of tens pays nothing, a pair of Jacks pays one; both stay pairs. */
  lemma JacksOrBetterGate()
    ensures Payout(Pair, 10) == 0 && Payout(Pair, 11) == 1
    ensures forall p :: Payout(HighCard, p) == 0
  {
  }
}
