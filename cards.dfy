/**
 * Cards of the Bondtolva deck: five ranks in four suits, the rank order used
 * for trick taking, the matador and card-point tables, and deck construction.
 * The engine writes a card as the string "R-S"; here a card is a pair of
 * enumerations, and the one-letter names are kept where the engine looks
 * them up in its constant tables.
 */
module Cards {

  datatype Suit = Hearts | Spades | Diamonds | Clubs
  datatype Rank = King | Ten | Queen | Jack | Nine
  datatype Card = Card(rank: Rank, suit: Suit)

  /** SUITS: the order in which the deck is built and marriages are listed. */
  const Suits: seq<Suit> := [Hearts, Spades, Diamonds, Clubs]

  /** RANKS, strongest first. */
  const Ranks: seq<Rank> := [King, Ten, Queen, Jack, Nine]

  /** The letters of RANKS as the engine spells them. */
  const RankLetters: seq<char> := ['K', 'T', 'Q', 'J', '9']

  /** MATADORS as written: an Ace letter and a Ten letter. */
  const MatadorLetters: seq<char> := ['A', 'T']

  /** GAME_TARGET: the score that ends the game. */
  const GameTarget: int := 12

  function RankLetter(r: Rank): char {
    match r
    case King => 'K'
    case Ten => 'T'
    case Queen => 'Q'
    case Jack => 'J'
    case Nine => '9'
  }

  function SuitLetter(s: Suit): char {
    match s
    case Hearts => 'H'
    case Spades => 'S'
    case Diamonds => 'D'
    case Clubs => 'C'
  }

  /** The card's string form `${rank}-${suit}`. */
  function CardText(c: Card): string {
    [RankLetter(c.rank), '-', SuitLetter(c.suit)]
  }

  /** Array.indexOf on a list of letters: the first position of `x`, or -1. */
  function IndexOf(xs: seq<char>, x: char): (i: int)
    ensures -1 <= i && (i == -1 <==> x !in xs)
    ensures 0 <= i ==> i < |xs| && xs[i] == x && x !in xs[..i]
  {
    if xs == [] then -1
    else if xs[0] == x then 0
    else
      var j := IndexOf(xs[1..], x);
      assert xs == [xs[0]] + xs[1..];
      if j == -1 then -1
      else
        assert xs[..j + 1] == [xs[0]] + xs[1..][..j];
        j + 1
  }

  /** RANKS.indexOf(rank): the rank's height, 0 for the strongest. */
  function RankHeight(r: Rank): int {
    IndexOf(RankLetters, RankLetter(r))
  }

  /** MATADORS.includes(rank letter). */
  predicate IsMatador(c: Card) {
    RankLetter(c.rank) in MatadorLetters
  }

  /** The card-point table as written: A=4, K=3, Q=2, J=1; a missing letter counts 0. */
  const PointTable: map<char, int> := map['A' := 4, 'K' := 3, 'Q' := 2, 'J' := 1]

  function CardPoint(c: Card): int {
    var letter := RankLetter(c.rank);
    if letter in PointTable then PointTable[letter] else 0
  }

  /** The height of a rank is its position in RANKS. */
  lemma RankHeightIsPosition(r: Rank)
    ensures 0 <= RankHeight(r) < |Ranks| && Ranks[RankHeight(r)] == r
  {
    var i := RankHeight(r);
    assert RankLetter(r) in RankLetters by {
      match r
      case King => assert RankLetters[0] == 'K';
      case Ten => assert RankLetters[1] == 'T';
      case Queen => assert RankLetters[2] == 'Q';
      case Jack => assert RankLetters[3] == 'J';
      case Nine => assert RankLetters[4] == '9';
    }
    assert RankLetters[i] == RankLetter(r);
    assert RankLetter(Ranks[i]) == RankLetters[i];
  }

  /** K > T > Q > J > 9: the heights are 0 to 4 in that order. */
  lemma RankHeights()
    ensures RankHeight(King) == 0 && RankHeight(Ten) == 1 && RankHeight(Queen) == 2
    ensures RankHeight(Jack) == 3 && RankHeight(Nine) == 4
  {
    RankHeightIsPosition(King);
    RankHeightIsPosition(Ten);
    RankHeightIsPosition(Queen);
    RankHeightIsPosition(Jack);
    RankHeightIsPosition(Nine);
  }

  /** SUITS lists every suit once. */
  lemma SuitsListed(s: Suit)
    ensures s in Suits
    ensures forall i, j :: 0 <= i < j < |Suits| ==> Suits[i] != Suits[j]
  {
    match s
    case Hearts => assert Suits[0] == s;
    case Spades => assert Suits[1] == s;
    case Diamonds => assert Suits[2] == s;
    case Clubs => assert Suits[3] == s;
  }

  /** RANKS.indexOf of a suit letter is -1: no suit letter is a rank letter. */
  lemma SuitIsNoRank(s: Suit)
    ensures IndexOf(RankLetters, SuitLetter(s)) == -1
  {
    assert SuitLetter(s) !in RankLetters;
  }

  /** With MATADORS = ['A','T'] and no Ace in the deck, only Tens are matadors. */
  lemma MatadorsAreTens(c: Card)
    ensures IsMatador(c) <==> c.rank == Ten
  {
  }

  /** Card points as the table is written: Ten and Nine both score nothing. */
  lemma CardPointsByRank(c: Card)
    ensures CardPoint(c) == match c.rank
      case King => 3
      case Queen => 2
      case Jack => 1
      case Ten => 0
      case Nine => 0
  {
  }

  /** Only the King's string contains 'K', only the Queen's contains 'Q'. */
  lemma TextNamesRank(c: Card)
    ensures 'K' in CardText(c) <==> c.rank == King
    ensures 'Q' in CardText(c) <==> c.rank == Queen
  {
  }

  /**
   * buildDeck: for each suit in SUITS, for each rank in RANKS, push the card.
   * The result is the 20 cards in suit-major order, each exactly once.
   */
  method BuildDeck() returns (deck: seq<Card>)
    ensures |deck| == |Suits| * |Ranks| == 20
    ensures forall k :: 0 <= k < |deck| ==> deck[k] == Card(Ranks[k % 5], Suits[k / 5])
    ensures forall i, j :: 0 <= i < j < |deck| ==> deck[i] != deck[j]
    ensures forall c: Card :: c in deck
  {
    deck := [];
    for si := 0 to |Suits|
      invariant |deck| == si * 5
      invariant forall k :: 0 <= k < |deck| ==> deck[k] == Card(Ranks[k % 5], Suits[k / 5])
    {
      for ri := 0 to |Ranks|
        invariant |deck| == si * 5 + ri
        invariant forall k :: 0 <= k < |deck| ==> deck[k] == Card(Ranks[k % 5], Suits[k / 5])
      {
        deck := deck + [Card(Ranks[ri], Suits[si])];
      }
    }
    forall i, j | 0 <= i < j < |deck| ensures deck[i] != deck[j] {
      DeckPositionsDiffer(i, j);
    }
    forall c: Card ensures c in deck {
      var k := DeckPosition(c);
      assert deck[k] == c;
    }
  }

  /** Two different positions of the suit-major layout hold different cards. */
  lemma DeckPositionsDiffer(i: int, j: int)
    requires 0 <= i < j < 20
    ensures Card(Ranks[i % 5], Suits[i / 5]) != Card(Ranks[j % 5], Suits[j / 5])
  {
    if i / 5 == j / 5 {
      assert i % 5 != j % 5;
    }
  }

  /** Where a card sits in the suit-major layout. */
  function DeckPosition(c: Card): (k: int)
    ensures 0 <= k < 20 && Card(Ranks[k % 5], Suits[k / 5]) == c
  {
    var s := match c.suit case Hearts => 0 case Spades => 1 case Diamonds => 2 case Clubs => 3;
    var r := match c.rank case King => 0 case Ten => 1 case Queen => 2 case Jack => 3 case Nine => 4;
    s * 5 + r
  }
}
