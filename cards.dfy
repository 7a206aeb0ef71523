/**
 * A playing card as `Card.Card` builds it: the two tokens it was given and the
 * four fields a fixed case table derives from them. A token outside the table
 * leaves the derived fields at `None`; nothing is raised.
 */
module Cards {
  import opened Wrappers

  /** The value tokens in the order the deck enumerates them; a token's int value is its index plus 2. */
  const ValueTokens: seq<string> := ["2", "3", "4", "5", "6", "7", "8", "9", "t", "j", "q", "k", "a"]
  const RankNames: seq<string> :=
    ["Two", "Three", "Four", "Five", "Six", "Seven", "Eight", "Nine", "Ten", "Jack", "Queen", "King", "Ace"]

  /** The suit tokens in the order the deck enumerates them; a token's int suit is its index plus 1. */
  const SuitTokens: seq<string> := ["c", "d", "h", "s"]
  const SuitNames: seq<string> := ["Clubs", "Diamonds", "Hearts", "Spades"]

  /** What a value token decodes to: the `full_value` and `int_value` fields. */
  datatype Rank = Rank(fullValue: string, intValue: int)

  /** What a suit token decodes to: the `full_suit` and `int_suit` fields. */
  datatype Suit = Suit(fullSuit: string, intSuit: int)

  /** The value case table. */
  function DecodeValue(token: string): (r: Option<Rank>)
    ensures r.Some? <==> token in ValueTokens
    ensures r.Some? ==> 2 <= r.value.intValue <= 14
    ensures r.Some? ==> (ValueTokens[r.value.intValue - 2] == token &&
                         RankNames[r.value.intValue - 2] == r.value.fullValue)
  {
    match token
    case "2" => Some(Rank("Two", 2))
    case "3" => Some(Rank("Three", 3))
    case "4" => Some(Rank("Four", 4))
    case "5" => Some(Rank("Five", 5))
    case "6" => Some(Rank("Six", 6))
    case "7" => Some(Rank("Seven", 7))
    case "8" => Some(Rank("Eight", 8))
    case "9" => Some(Rank("Nine", 9))
    case "t" => Some(Rank("Ten", 10))
    case "j" => Some(Rank("Jack", 11))
    case "q" => Some(Rank("Queen", 12))
    case "k" => Some(Rank("King", 13))
    case "a" => Some(Rank("Ace", 14))
    case _ => None
  }

  /** The suit case table. */
  function DecodeSuit(token: string): (r: Option<Suit>)
    ensures r.Some? <==> token in SuitTokens
    ensures r.Some? ==> 1 <= r.value.intSuit <= 4
    ensures r.Some? ==> (SuitTokens[r.value.intSuit - 1] == token &&
                         SuitNames[r.value.intSuit - 1] == r.value.fullSuit)
  {
    match token
    case "c" => Some(Suit("Clubs", 1))
    case "d" => Some(Suit("Diamonds", 2))
    case "h" => Some(Suit("Hearts", 3))
    case "s" => Some(Suit("Spades", 4))
    case _ => None
  }

  /** The `i`-th value token decodes to the `i`-th rank name and to `i + 2`. */
  lemma ValueTable(i: int)
    requires 0 <= i < |ValueTokens|
    ensures DecodeValue(ValueTokens[i]) == Some(Rank(RankNames[i], i + 2))
  {
    TokensDistinct();
  }

  /** The `i`-th suit token decodes to the `i`-th suit name and to `i + 1`. */
  lemma SuitTable(i: int)
    requires 0 <= i < |SuitTokens|
    ensures DecodeSuit(SuitTokens[i]) == Some(Suit(SuitNames[i], i + 1))
  {
    TokensDistinct();
  }

  /** No token is listed twice, and no value token is also a suit token. */
  lemma TokensDistinct()
    ensures forall i, j :: 0 <= i < j < |ValueTokens| ==> ValueTokens[i] != ValueTokens[j]
    ensures forall i, j :: 0 <= i < j < |SuitTokens| ==> SuitTokens[i] != SuitTokens[j]
    ensures forall i, j :: 0 <= i < |ValueTokens| && 0 <= j < |SuitTokens| ==> ValueTokens[i] != SuitTokens[j]
  {
  }

  /** Distinct recognised value tokens decode to distinct int values. */
  lemma ValueDecodingInjective(t1: string, t2: string)
    requires DecodeValue(t1).Some? && DecodeValue(t2).Some?
    requires DecodeValue(t1).value.intValue == DecodeValue(t2).value.intValue
    ensures t1 == t2
  {
  }

  /** Distinct recognised suit tokens decode to distinct int suits. */
  lemma SuitDecodingInjective(t1: string, t2: string)
    requires DecodeSuit(t1).Some? && DecodeSuit(t2).Some?
    requires DecodeSuit(t1).value.intSuit == DecodeSuit(t2).value.intSuit
    ensures t1 == t2
  {
  }

  /** A card: its tokens as given and the fields decoded from them (`None` when the token is unknown). */
  datatype Card = Card(
    value: string,
    suit: string,
    fullValue: Option<string>,
    intValue: Option<int>,
    intSuit: Option<int>,
    fullSuit: Option<string>)
  {
    /** The `get_int_value` property. */
    function GetIntValue(): Option<int> { intValue }

    /** The `get_int_suit` property. */
    function GetIntSuit(): Option<int> { intSuit }
  }

  /** The constructor, taking the suit token first as the source does. */
  function NewCard(suit: string, value: string): (c: Card)
    ensures c.value == value && c.suit == suit
    ensures c.intValue.None? <==> value !in ValueTokens
    ensures c.fullValue.None? <==> value !in ValueTokens
    ensures c.intSuit.None? <==> suit !in SuitTokens
    ensures c.fullSuit.None? <==> suit !in SuitTokens
    ensures forall i :: 0 <= i < |ValueTokens| && ValueTokens[i] == value ==>
              c.intValue == Some(i + 2) && c.fullValue == Some(RankNames[i])
    ensures forall i :: 0 <= i < |SuitTokens| && SuitTokens[i] == suit ==>
              c.intSuit == Some(i + 1) && c.fullSuit == Some(SuitNames[i])
  {
    TokensDistinct();
    var rank := DecodeValue(value);
    var st := DecodeSuit(suit);
    Card(value, suit,
         if rank.Some? then Some(rank.value.fullValue) else None,
         if rank.Some? then Some(rank.value.intValue) else None,
         if st.Some? then Some(st.value.intSuit) else None,
         if st.Some? then Some(st.value.fullSuit) else None)
  }

  /** The two properties expose exactly the decoded numbers: a recognised token's number, or `None`. */
  lemma AccessorsExposeDecoding(suit: string, value: string)
    ensures NewCard(suit, value).GetIntValue() ==
              (if value in ValueTokens then Some(DecodeValue(value).value.intValue) else None)
    ensures NewCard(suit, value).GetIntSuit() ==
              (if suit in SuitTokens then Some(DecodeSuit(suit).value.intSuit) else None)
  {
  }
}
