/**
 * Legal-move enumeration: getValidMoves and getMarriages. Both are pure
 * functions of the position; they only build local lists.
 */
module Moves {
  import opened Wrappers
  import opened Cards
  import opened State

  /** The cards of one suit, in hand order (filter on the suit). */
  function CardsOfSuit(cards: seq<Card>, suit: Suit): (r: seq<Card>)
    ensures forall c :: c in r <==> c in cards && c.suit == suit
    ensures forall c :: multiset(r)[c] == if c.suit == suit then multiset(cards)[c] else 0
  {
    if cards == [] then []
    else
      assert cards == [cards[0]] + cards[1..];
      (if cards[0].suit == suit then [cards[0]] else []) + CardsOfSuit(cards[1..], suit)
  }

  /**
   * A suit is married in a hand when the hand's cards of that suit include
   * one whose text contains 'K' and one whose text contains 'Q'.
   */
  predicate Married(hand: seq<Card>, suit: Suit) {
    var group := CardsOfSuit(hand, suit);
    (exists c :: c in group && 'K' in CardText(c)) && (exists c :: c in group && 'Q' in CardText(c))
  }

  /** A suit is married exactly when the hand holds its King and its Queen. */
  lemma MarriedMeansKingAndQueen(hand: seq<Card>, suit: Suit)
    ensures Married(hand, suit) <==> Card(King, suit) in hand && Card(Queen, suit) in hand
  {
    var group := CardsOfSuit(hand, suit);
    forall c | c in group ensures ('K' in CardText(c) <==> c.rank == King) && ('Q' in CardText(c) <==> c.rank == Queen) {
      TextNamesRank(c);
    }
    if Card(King, suit) in hand {
      assert Card(King, suit) in group;
      TextNamesRank(Card(King, suit));
    }
    if Card(Queen, suit) in hand {
      assert Card(Queen, suit) in group;
      TextNamesRank(Card(Queen, suit));
    }
  }

  /** The married groups, taken suit by suit in the order of `suits` and concatenated. */
  function MarriedGroups(hand: seq<Card>, suits: seq<Suit>): seq<Card> {
    if suits == [] then []
    else
      (if Married(hand, suits[0]) then CardsOfSuit(hand, suits[0]) else [])
      + MarriedGroups(hand, suits[1..])
  }

  lemma {:induction false} MarriedGroupsCount(hand: seq<Card>, suits: seq<Suit>, c: Card)
    requires forall i, j :: 0 <= i < j < |suits| ==> suits[i] != suits[j]
    ensures multiset(MarriedGroups(hand, suits))[c] ==
      (if c.suit in suits && Married(hand, c.suit) then multiset(hand)[c] else 0)
  {
    if suits != [] {
      assert suits == [suits[0]] + suits[1..];
      MarriedGroupsCount(hand, suits[1..], c);
      assert c.suit == suits[0] ==> c.suit !in suits[1..];
    }
  }

  /**
   * getMarriages: every card of every suit in which the hand holds both King
   * and Queen, with its multiplicity in the hand, and nothing else.
   */
  function GetMarriages(hand: seq<Card>): (r: seq<Card>)
    ensures forall c :: multiset(r)[c] == if Married(hand, c.suit) then multiset(hand)[c] else 0
    ensures forall c :: c in r <==> c in hand && Card(King, c.suit) in hand && Card(Queen, c.suit) in hand
  {
    var r := MarriedGroups(hand, Suits);
    assert forall c :: multiset(r)[c] == if Married(hand, c.suit) then multiset(hand)[c] else 0 by {
      forall c ensures multiset(r)[c] == if Married(hand, c.suit) then multiset(hand)[c] else 0 {
        SuitsListed(c.suit);
        MarriedGroupsCount(hand, Suits, c);
      }
    }
    assert forall c :: c in r <==> c in hand && Card(King, c.suit) in hand && Card(Queen, c.suit) in hand by {
      forall c ensures c in r <==> c in hand && Card(King, c.suit) in hand && Card(Queen, c.suit) in hand {
        MarriedMeansKingAndQueen(hand, c.suit);
        assert c in r <==> multiset(r)[c] > 0;
        assert c in hand <==> multiset(hand)[c] > 0;
      }
    }
    r
  }

  /** One move of the given kind per card, in card order (a map over the cards). */
  function MovesFor(kind: MoveType, cards: seq<Card>, p: Seat): (r: seq<Move>)
    ensures forall m :: m in r <==> m.kind == kind && m.player == p && m.card in cards
  {
    var r := seq(|cards|, i requires 0 <= i < |cards| => Move(kind, cards[i], p));
    assert forall i :: 0 <= i < |cards| ==> r[i] == Move(kind, cards[i], p);
    r
  }

  /** The suit-led cards whose RANKS index is below RANKS.indexOf(suitLed). */
  function Heading(cards: seq<Card>, suitLed: Suit): seq<Card> {
    if cards == [] then []
    else
      (if RankHeight(cards[0].rank) < IndexOf(RankLetters, SuitLetter(suitLed)) then [cards[0]] else [])
      + Heading(cards[1..], suitLed)
  }

  /** The moves of a player following to a trick once the stock is closed. */
  function FollowMoves(hand: seq<Card>, suitLed: Suit, trump: Option<Suit>, p: Seat): seq<Move> {
    var validCards := CardsOfSuit(hand, suitLed);
    if validCards != [] then
      var heading := Heading(validCards, suitLed);
      if heading != [] then MovesFor(Play, heading, p) else MovesFor(Play, validCards, p)
    else if trump.Some? && CardsOfSuit(hand, trump.value) != [] then
      MovesFor(Play, CardsOfSuit(hand, trump.value), p)
    else
      MovesFor(Play, hand, p)
  }

  /**
   * getValidMoves. Every offered move belongs to the player to move and
   * names a card in that player's hand; nothing is offered outside the two
   * stock phases; a marriage is offered only on lead with the stock open.
   */
  function ValidMoves(s: GameState): (r: seq<Move>)
    ensures forall m :: m in r ==> m.player == s.currentPlayer && m.card in s.Player(s.currentPlayer).hand
    ensures s.phase !in {StockOpen, StockClosed} ==> r == []
    ensures forall m :: m in r && m.kind == DeclareMarriage ==> s.phase == StockOpen && s.currentTrick == []
  {
    var p := s.currentPlayer;
    var hand := s.Player(p).hand;
    match s.phase
    case Dealing => []
    case StockOpen =>
      MovesFor(Play, hand, p)
      + (if s.currentTrick == [] then MovesFor(DeclareMarriage, GetMarriages(hand), p) else [])
    case StockClosed =>
      if s.currentTrick == [] then MovesFor(Play, hand, p)
      else
        var r := FollowMoves(hand, s.currentTrick[0].card.suit, s.trump, p);
        HeadingNeverFires(CardsOfSuit(hand, s.currentTrick[0].card.suit), s.currentTrick[0].card.suit);
        r
    case Scoring => []
    case End => []
  }

  /** The cards of the moves of one kind, in order. */
  function CardsOfKind(moves: seq<Move>, kind: MoveType): seq<Card> {
    if moves == [] then []
    else (if moves[0].kind == kind then [moves[0].card] else []) + CardsOfKind(moves[1..], kind)
  }

  lemma {:induction false} CardsOfKindAppend(a: seq<Move>, b: seq<Move>, kind: MoveType)
    ensures CardsOfKind(a + b, kind) == CardsOfKind(a, kind) + CardsOfKind(b, kind)
  {
    if a != [] {
      var head := if a[0].kind == kind then [a[0].card] else [];
      assert (a + b)[0] == a[0];
      assert (a + b)[1..] == a[1..] + b;
      CardsOfKindAppend(a[1..], b, kind);
      calc {
        CardsOfKind(a + b, kind);
        head + CardsOfKind(a[1..] + b, kind);
        head + (CardsOfKind(a[1..], kind) + CardsOfKind(b, kind));
        (head + CardsOfKind(a[1..], kind)) + CardsOfKind(b, kind);
      }
    } else {
      assert a + b == b;
    }
  }

  lemma {:induction false} CardsOfKindMovesFor(kind: MoveType, cards: seq<Card>, p: Seat, k: MoveType)
    ensures CardsOfKind(MovesFor(kind, cards, p), k) == if k == kind then cards else []
  {
    var ms := MovesFor(kind, cards, p);
    if cards != [] {
      assert ms[1..] == MovesFor(kind, cards[1..], p);
      CardsOfKindMovesFor(kind, cards[1..], p, k);
      assert cards == [cards[0]] + cards[1..];
    }
  }

  /** The heading filter never keeps a card: RANKS.indexOf of a suit letter is -1. */
  lemma {:induction false} HeadingNeverFires(cards: seq<Card>, suitLed: Suit)
    ensures Heading(cards, suitLed) == []
  {
    SuitIsNoRank(suitLed);
    if cards != [] {
      HeadingNeverFires(cards[1..], suitLed);
    }
  }

  /**
   * With the stock open, or on lead with the stock closed, every card of the
   * mover's hand is offered as exactly one `play` move (as many as the hand
   * holds copies), by the player to move.
   */
  lemma PlaysWhenUnrestricted(s: GameState)
    requires s.phase == StockOpen || (s.phase == StockClosed && s.currentTrick == [])
    ensures multiset(CardsOfKind(ValidMoves(s), Play)) == multiset(s.Player(s.currentPlayer).hand)
    ensures forall c :: Move(Play, c, s.currentPlayer) in ValidMoves(s) <==> c in s.Player(s.currentPlayer).hand
  {
    var p := s.currentPlayer;
    var hand := s.Player(p).hand;
    CardsOfKindMovesFor(Play, hand, p, Play);
    if s.phase == StockOpen {
      var decl := if s.currentTrick == [] then MovesFor(DeclareMarriage, GetMarriages(hand), p) else [];
      CardsOfKindAppend(MovesFor(Play, hand, p), decl, Play);
      CardsOfKindMovesFor(DeclareMarriage, GetMarriages(hand), p, Play);
    }
  }

  /**
   * A `declare-marriage` move is offered exactly on lead with the stock
   * open, for every card of a suit whose King and Queen are both in hand
   * (so a Jack, Ten or Nine of that suit too), whatever marriages were
   * declared before.
   */
  lemma MarriageOffers(s: GameState, c: Card, q: Seat)
    ensures Move(DeclareMarriage, c, q) in ValidMoves(s) <==>
      && s.phase == StockOpen && s.currentTrick == [] && q == s.currentPlayer
      && c in s.Player(q).hand && Card(King, c.suit) in s.Player(q).hand && Card(Queen, c.suit) in s.Player(q).hand
  {
  }

  /** On lead with the stock open, the declared cards are getMarriages' cards, copy for copy. */
  lemma MarriageOfferCount(s: GameState)
    requires s.phase == StockOpen && s.currentTrick == []
    ensures multiset(CardsOfKind(ValidMoves(s), DeclareMarriage)) == multiset(GetMarriages(s.Player(s.currentPlayer).hand))
  {
    var p := s.currentPlayer;
    var hand := s.Player(p).hand;
    CardsOfKindAppend(MovesFor(Play, hand, p), MovesFor(DeclareMarriage, GetMarriages(hand), p), DeclareMarriage);
    CardsOfKindMovesFor(Play, hand, p, DeclareMarriage);
    CardsOfKindMovesFor(DeclareMarriage, GetMarriages(hand), p, DeclareMarriage);
  }

  /** The hand holds a card of the suit. */
  predicate Holds(hand: seq<Card>, suit: Suit) {
    exists c :: c in hand && c.suit == suit
  }

  /**
   * Following with the stock closed: the cards of the led suit if the hand
   * has any (no heading requirement survives), else the trumps if trump is
   * set and held, else the whole hand; only `play` moves by the mover.
   */
  lemma FollowingMoves(s: GameState, m: Move)
    requires s.phase == StockClosed && s.currentTrick != []
    ensures var hand := s.Player(s.currentPlayer).hand;
      var led := s.currentTrick[0].card.suit;
      m in ValidMoves(s) <==>
        && m.kind == Play && m.player == s.currentPlayer && m.card in hand
        && if Holds(hand, led) then m.card.suit == led
           else if s.trump.Some? && Holds(hand, s.trump.value) then m.card.suit == s.trump.value
           else true
  {
    var hand := s.Player(s.currentPlayer).hand;
    var led := s.currentTrick[0].card.suit;
    assert ValidMoves(s) == FollowMoves(hand, led, s.trump, s.currentPlayer);
    FollowMovesMembership(hand, led, s.trump, s.currentPlayer, m);
  }

  lemma FollowMovesMembership(hand: seq<Card>, led: Suit, trump: Option<Suit>, p: Seat, m: Move)
    ensures m in FollowMoves(hand, led, trump, p) <==>
        && m.kind == Play && m.player == p && m.card in hand
        && if Holds(hand, led) then m.card.suit == led
           else if trump.Some? && Holds(hand, trump.value) then m.card.suit == trump.value
           else true
  {
    var validCards := CardsOfSuit(hand, led);
    HeadingNeverFires(validCards, led);
    HoldsMeansCards(hand, led);
    if trump.Some? {
      HoldsMeansCards(hand, trump.value);
    }
  }

  lemma HoldsMeansCards(hand: seq<Card>, suit: Suit)
    ensures Holds(hand, suit) <==> CardsOfSuit(hand, suit) != []
  {
    if Holds(hand, suit) {
      var c :| c in hand && c.suit == suit;
      assert c in CardsOfSuit(hand, suit);
    }
  }

  /**
   * The trick is not headed when it could be, although the comments on the
   * stock-closed branch (src/lib/bondtolva.tsx:93 and :102) say it must be:
   * holding the Ten and Nine of Spades against a led Queen of Spades, the
   * Nine is offered too.
   */
  lemma UnderCardOffered(s: GameState)
    requires s.phase == StockClosed && s.currentTrick == [TrickEntry(Other(s.currentPlayer), Card(Queen, Spades))]
    requires s.Player(s.currentPlayer).hand == [Card(Ten, Spades), Card(Nine, Spades)]
    ensures Move(Play, Card(Nine, Spades), s.currentPlayer) in ValidMoves(s)
  {
    FollowingMoves(s, Move(Play, Card(Nine, Spades), s.currentPlayer));
  }
}
