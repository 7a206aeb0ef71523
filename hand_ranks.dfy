/**
 * The ten hand categories, lowest first. The enumeration itself is imported
 * by the pay table from a module that is not part of this model; the numeric
 * codes are the ones the analyzer assigns (10, 9, 6, 5) and the ones its
 * disabled checks would return (8, 7, 4, 3, 2, 1).
 */
module HandRanks {
  datatype HandRank =
    | HighCard
    | Pair
    | TwoPair
    | ThreeOfAKind
    | Straight
    | Flush
    | FullHouse
    | FourOfAKind
    | StraightFlush
    | RoyalFlush

  /** The categories from lowest to highest. */
  const Ascending: seq<HandRank> :=
    [HighCard, Pair, TwoPair, ThreeOfAKind, Straight, Flush, FullHouse, FourOfAKind, StraightFlush, RoyalFlush]

  /** The analyzer's `rank_value` code of a category. */
  function Code(r: HandRank): (c: int)
    ensures 1 <= c <= 10
    ensures Ascending[c - 1] == r
  {
    match r
    case HighCard => 1
    case Pair => 2
    case TwoPair => 3
    case ThreeOfAKind => 4
    case Straight => 5
    case Flush => 6
    case FullHouse => 7
    case FourOfAKind => 8
    case StraightFlush => 9
    case RoyalFlush => 10
  }

  /** The analyzer's `rank_name` of a category. */
  function Name(r: HandRank): string
  {
    match r
    case HighCard => "High Card"
    case Pair => "Pair"
    case TwoPair => "Two Pair"
    case ThreeOfAKind => "Three of a Kind"
    case Straight => "Straight"
    case Flush => "Flush"
    case FullHouse => "Full House"
    case FourOfAKind => "Four of a Kind"
    case StraightFlush => "Straight Flush"
    case RoyalFlush => "Royal Flush"
  }

  /** Every category occurs once in the ascending list, at the position its code names. */
  lemma AscendingListsEachOnce()
    ensures |Ascending| == 10
    ensures forall r :: r in Ascending
    ensures forall i, j :: 0 <= i < j < |Ascending| ==> Ascending[i] != Ascending[j]
    ensures forall i :: 0 <= i < |Ascending| ==> Code(Ascending[i]) == i + 1
  {
    forall r: HandRank ensures r in Ascending {
      assert Ascending[Code(r) - 1] == r;
    }
  }

  /** Distinct categories have distinct codes and distinct names. */
  lemma CodesAndNamesDistinct(a: HandRank, b: HandRank)
    requires a != b
    ensures Code(a) != Code(b)
    ensures Name(a) != Name(b)
  {
  }
}
