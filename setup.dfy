/**
 * Starting a game: seating the two players and dealing. The coin that picks
 * the dealer and the shuffle are parameters: `dealerPick` is the seat index
 * the random draw chose in the caller's list, and `shuffled` is the deck
 * after shuffling (any permutation of it).
 */
module Setup {
  import opened Wrappers
  import opened Cards
  import opened State
  import opened Engine
  import opened EngineLemmas

  /** Number of cards dealt in total: six to each player, three at a time. */
  const DealCount: nat := 12

  /**
   * The table before the deal: elder hand (the player who is not the dealer)
   * in seat 0 and to act first, dealer in seat 1, both players with nothing.
   */
  function InitialState(players: Pair<PlayerId>, dealerPick: Seat): (r: GameState)
    requires players.first != players.second
    ensures r.players.At(1) == players.At(dealerPick) && r.players.At(0) == players.At(Other(dealerPick))
    ensures r.players.At(0) != r.players.At(1)
    ensures r.currentPlayer == 0 && r.dealer == 1 && r.currentPlayer != r.dealer
    ensures r.phase == Dealing && r.trump == None && r.stock == [] && r.currentTrick == []
    ensures forall p: Seat :: r.Player(p) == EmptyPlayer
    ensures AllCards(r) == multiset{}
  {
    var dealer := players.At(dealerPick);
    var eldest := players.At(Other(dealerPick));
    var r := GameState(Pair(eldest, dealer), Pair(EmptyPlayer, EmptyPlayer), [], None, [], 0, 1, Dealing);
    assert TrickCards(r.currentTrick) == [];
    r
  }

  /** `shuffled` holds the cards of `deck` in some order. */
  predicate IsShuffleOf(shuffled: seq<Card>, deck: seq<Card>)
    ensures IsShuffleOf(shuffled, deck) ==> |shuffled| == |deck|
  {
    var same := multiset(shuffled) == multiset(deck);
    assert same ==> |multiset(shuffled)| == |multiset(deck)|;
    same
  }

  /** The i-th card popped off the end of the shuffled deck (i counts from 0). */
  function Popped(shuffled: seq<Card>, i: nat): Card
    requires i < |shuffled|
  {
    shuffled[|shuffled| - 1 - i]
  }

  /** The seat that receives the i-th popped card: packets of three, alternating. */
  function DealSeat(i: nat): Seat {
    (i / 3) % 2
  }

  /** What seat p receives from the i-th pop: the card, or nothing when it goes to the other seat. */
  function Share(shuffled: seq<Card>, p: Seat, i: nat): seq<Card>
    requires i < |shuffled|
  {
    if DealSeat(i) == p then [Popped(shuffled, i)] else []
  }

  /** The cards seat p receives among the first i pops, in the order received. */
  function DealtTo(shuffled: seq<Card>, p: Seat, i: nat): (r: seq<Card>)
    requires i <= |shuffled|
    ensures |r| <= i
  {
    if i == 0 then [] else DealtTo(shuffled, p, i - 1) + Share(shuffled, p, i - 1)
  }

  /** Both hands' receipts among the first i pops. */
  function Dealt2(shuffled: seq<Card>, i: nat): multiset<Card>
    requires i <= |shuffled|
  {
    multiset(DealtTo(shuffled, 0, i)) + multiset(DealtTo(shuffled, 1, i))
  }

  /** The state once the first i pops have gone onto the players' hands. */
  function HandsAfter(s: GameState, shuffled: seq<Card>, i: nat): GameState
    requires i <= |shuffled|
  {
    var p0, p1 := s.Player(0), s.Player(1);
    s.(playerStates := Pair(p0.(hand := p0.hand + DealtTo(shuffled, 0, i)),
                            p1.(hand := p1.hand + DealtTo(shuffled, 1, i))))
  }

  /** One more pop: the receiving seat's cards grow by that card, the other seat's stay. */
  lemma DealtToStep(shuffled: seq<Card>, i: nat)
    requires i < |shuffled|
    ensures DealtTo(shuffled, DealSeat(i), i + 1) == DealtTo(shuffled, DealSeat(i), i) + [Popped(shuffled, i)]
    ensures DealtTo(shuffled, Other(DealSeat(i)), i + 1) == DealtTo(shuffled, Other(DealSeat(i)), i)
  {
  }

  /** The result of `deal` as written: the hands dealt, and the whole deck as stock. */
  function Dealt(deck: seq<Card>, shuffled: seq<Card>, s: GameState): GameState
    requires DealCount <= |shuffled|
  {
    HandsAfter(s, shuffled, DealCount).(phase := StockOpen, stock := deck)
  }

  /** The deal as evidently intended: the undealt rest of the shuffled deck is the stock. */
  function DealtWithLeftover(shuffled: seq<Card>, s: GameState): GameState
    requires DealCount <= |shuffled|
  {
    HandsAfter(s, shuffled, DealCount).(phase := StockOpen, stock := shuffled[..|shuffled| - DealCount])
  }

  /**
   * Pops twelve cards off the shuffled copy and appends them to the hands in
   * packets of three, elder hand first. Returns the new state and what is
   * left of the shuffled copy.
   */
  method DealHands(shuffled: seq<Card>, s: GameState) returns (r: GameState, rest: seq<Card>)
    requires DealCount <= |shuffled|
    ensures r == HandsAfter(s, shuffled, DealCount)
    ensures rest == shuffled[..|shuffled| - DealCount]
  {
    r := s;
    rest := shuffled;
    assert r == HandsAfter(s, shuffled, 0) by {
      var p0, p1 := s.Player(0), s.Player(1);
      assert p0.hand + [] == p0.hand && p1.hand + [] == p1.hand;
    }
    for i := 0 to DealCount
      invariant rest == shuffled[..|shuffled| - i]
      invariant r == HandsAfter(s, shuffled, i)
    {
      var p := DealSeat(i);
      var ps := r.Player(p);
      var card := rest[|rest| - 1];
      assert card == Popped(shuffled, i);
      DealtToStep(shuffled, i);
      r := r.WithPlayer(p, ps.(hand := ps.hand + [card]));
      rest := rest[..|rest| - 1];
      assert r == HandsAfter(s, shuffled, i + 1) by {
        var h := s.Player(p).hand;
        assert ps.hand == h + DealtTo(shuffled, p, i);
        assert ps.hand + [card] == h + DealtTo(shuffled, p, i + 1);
        if p == 0 {} else {}
      }
    }
  }

  /**
   * `deal` as written: the players get six cards each, the phase opens the
   * stock, and the stock is set to the whole unshuffled deck.
   */
  method Deal(deck: seq<Card>, shuffled: seq<Card>, s: GameState) returns (r: GameState)
    requires IsShuffleOf(shuffled, deck) && DealCount <= |deck|
    ensures r == Dealt(deck, shuffled, s)
  {
    var rest;
    r, rest := DealHands(shuffled, s);
    r := r.(phase := StockOpen, stock := deck);
  }

  /** The deal with the leftover of the shuffled deck as the stock. */
  method DealWithLeftover(deck: seq<Card>, shuffled: seq<Card>, s: GameState) returns (r: GameState)
    requires IsShuffleOf(shuffled, deck) && DealCount <= |deck|
    ensures r == DealtWithLeftover(shuffled, s)
  {
    var rest;
    r, rest := DealHands(shuffled, s);
    r := r.(phase := StockOpen, stock := rest);
  }

  /** The first two packets of three: elder hand receives pops 0-2. */
  lemma ElderFirstRound(shuffled: seq<Card>)
    requires DealCount <= |shuffled|
    ensures DealtTo(shuffled, 0, 6) == [Popped(shuffled, 0), Popped(shuffled, 1), Popped(shuffled, 2)]
  {
    assert DealtTo(shuffled, 0, 0) == [];
    assert DealtTo(shuffled, 0, 1) == [Popped(shuffled, 0)];
    assert DealtTo(shuffled, 0, 2) == [Popped(shuffled, 0), Popped(shuffled, 1)];
    assert DealtTo(shuffled, 0, 3) == [Popped(shuffled, 0), Popped(shuffled, 1), Popped(shuffled, 2)];
    assert DealtTo(shuffled, 0, 4) == DealtTo(shuffled, 0, 3);
    assert DealtTo(shuffled, 0, 5) == DealtTo(shuffled, 0, 4);
    assert DealtTo(shuffled, 0, 6) == DealtTo(shuffled, 0, 5);
  }

  /** All four packets give seat 0 pops 0-2 and 6-8: six cards. */
  lemma ElderPackets(shuffled: seq<Card>)
    requires DealCount <= |shuffled|
    ensures DealtTo(shuffled, 0, 12) == [Popped(shuffled, 0), Popped(shuffled, 1), Popped(shuffled, 2), Popped(shuffled, 6), Popped(shuffled, 7), Popped(shuffled, 8)]
  {
    ElderFirstRound(shuffled);
    assert DealtTo(shuffled, 0, 7) == [Popped(shuffled, 0), Popped(shuffled, 1), Popped(shuffled, 2), Popped(shuffled, 6)];
    assert DealtTo(shuffled, 0, 8) == [Popped(shuffled, 0), Popped(shuffled, 1), Popped(shuffled, 2), Popped(shuffled, 6), Popped(shuffled, 7)];
    assert DealtTo(shuffled, 0, 9) == [Popped(shuffled, 0), Popped(shuffled, 1), Popped(shuffled, 2), Popped(shuffled, 6), Popped(shuffled, 7), Popped(shuffled, 8)];
    assert DealtTo(shuffled, 0, 10) == DealtTo(shuffled, 0, 9);
    assert DealtTo(shuffled, 0, 11) == DealtTo(shuffled, 0, 10);
    assert DealtTo(shuffled, 0, 12) == DealtTo(shuffled, 0, 11);
  }

  /** The first two packets of three: the dealer receives pops 3-5. */
  lemma DealerFirstRound(shuffled: seq<Card>)
    requires DealCount <= |shuffled|
    ensures DealtTo(shuffled, 1, 6) == [Popped(shuffled, 3), Popped(shuffled, 4), Popped(shuffled, 5)]
  {
    assert DealtTo(shuffled, 1, 0) == [];
    assert DealtTo(shuffled, 1, 1) == DealtTo(shuffled, 1, 0);
    assert DealtTo(shuffled, 1, 2) == DealtTo(shuffled, 1, 1);
    assert DealtTo(shuffled, 1, 3) == DealtTo(shuffled, 1, 2);
    assert DealtTo(shuffled, 1, 4) == [Popped(shuffled, 3)];
    assert DealtTo(shuffled, 1, 5) == [Popped(shuffled, 3), Popped(shuffled, 4)];
    assert DealtTo(shuffled, 1, 6) == [Popped(shuffled, 3), Popped(shuffled, 4), Popped(shuffled, 5)];
  }

  /** All four packets give seat 1 pops 3-5 and 9-11: six cards. */
  lemma DealerPackets(shuffled: seq<Card>)
    requires DealCount <= |shuffled|
    ensures DealtTo(shuffled, 1, 12) == [Popped(shuffled, 3), Popped(shuffled, 4), Popped(shuffled, 5), Popped(shuffled, 9), Popped(shuffled, 10), Popped(shuffled, 11)]
  {
    DealerFirstRound(shuffled);
    assert DealtTo(shuffled, 1, 7) == DealtTo(shuffled, 1, 6);
    assert DealtTo(shuffled, 1, 8) == DealtTo(shuffled, 1, 7);
    assert DealtTo(shuffled, 1, 9) == DealtTo(shuffled, 1, 8);
    assert DealtTo(shuffled, 1, 10) == [Popped(shuffled, 3), Popped(shuffled, 4), Popped(shuffled, 5), Popped(shuffled, 9)];
    assert DealtTo(shuffled, 1, 11) == [Popped(shuffled, 3), Popped(shuffled, 4), Popped(shuffled, 5), Popped(shuffled, 9), Popped(shuffled, 10)];
    assert DealtTo(shuffled, 1, 12) == [Popped(shuffled, 3), Popped(shuffled, 4), Popped(shuffled, 5), Popped(shuffled, 9), Popped(shuffled, 10), Popped(shuffled, 11)];
  }

  lemma SuffixStep(s: seq<Card>, i: nat)
    requires 0 < i <= |s|
    ensures multiset(s[|s| - i..]) == multiset{s[|s| - i]} + multiset(s[|s| - (i - 1)..])
  {
    assert s[|s| - i..] == [s[|s| - i]] + s[|s| - (i - 1)..];
  }

  /** Every pop goes to exactly one of the two hands. */
  lemma Dealt2Step(shuffled: seq<Card>, i: nat)
    requires 0 < i <= |shuffled|
    ensures Dealt2(shuffled, i) == multiset{shuffled[|shuffled| - i]} + Dealt2(shuffled, i - 1)
  {
    var a0, a1 := DealtTo(shuffled, 0, i - 1), DealtTo(shuffled, 1, i - 1);
    var s0, s1 := Share(shuffled, 0, i - 1), Share(shuffled, 1, i - 1);
    assert multiset(s0) + multiset(s1) == multiset{shuffled[|shuffled| - i]};
    assert multiset(DealtTo(shuffled, 0, i)) == multiset(a0) + multiset(s0);
    assert multiset(DealtTo(shuffled, 1, i)) == multiset(a1) + multiset(s1);
  }

  /** The two hands together are exactly the cards popped off the end of the shuffled deck. */
  lemma {:induction false} DealtTakesTop(shuffled: seq<Card>, i: nat)
    requires i <= |shuffled|
    ensures Dealt2(shuffled, i) == multiset(shuffled[|shuffled| - i..])
  {
    if i > 0 {
      DealtTakesTop(shuffled, i - 1);
      Dealt2Step(shuffled, i);
      SuffixStep(shuffled, i);
    } else {
      assert shuffled[|shuffled|..] == [];
    }
  }

  /** The cards of a state that holds no cards yet, after its hands were filled. */
  lemma HandsAfterCards(s: GameState, shuffled: seq<Card>)
    requires DealCount <= |shuffled|
    requires AllCards(s) == multiset{}
    ensures var h := HandsAfter(s, shuffled, DealCount);
      h.currentTrick == s.currentTrick && h.stock == s.stock
      && multiset(h.Player(0).hand) + multiset(h.Player(1).hand) == multiset(shuffled[|shuffled| - DealCount..])
      && multiset(h.Player(0).tricksWon) + multiset(h.Player(1).tricksWon) + multiset(TrickCards(h.currentTrick)) == multiset{}
  {
    DealtTakesTop(shuffled, DealCount);
    var h := HandsAfter(s, shuffled, DealCount);
    assert h.Player(0).tricksWon == s.Player(0).tricksWon && h.Player(1).tricksWon == s.Player(1).tricksWon;
    assert multiset(s.Player(0).hand) == multiset{} && multiset(s.Player(1).hand) == multiset{};
    assert s.Player(0).hand == [] && s.Player(1).hand == [];
  }

  /**
   * As written, dealing from an empty table leaves every dealt card twice in
   * play, once in a hand and once in the stock: twelve more cards than the deck has.
   */
  lemma DealDuplicatesDealt(deck: seq<Card>, shuffled: seq<Card>, s: GameState)
    requires IsShuffleOf(shuffled, deck) && DealCount <= |deck|
    requires AllCards(s) == multiset{}
    ensures AllCards(Dealt(deck, shuffled, s)) == multiset(deck) + multiset(shuffled[|shuffled| - DealCount..])
    ensures |AllCards(Dealt(deck, shuffled, s))| == |deck| + DealCount
  {
    HandsAfterCards(s, shuffled);
  }

  /** With the 20-card deck, a fresh deal puts 32 cards in play, each dealt card twice. */
  lemma DealOfFullDeck(deck: seq<Card>, shuffled: seq<Card>, s: GameState)
    requires |deck| == 20 && IsShuffleOf(shuffled, deck)
    requires AllCards(s) == multiset{}
    ensures |AllCards(Dealt(deck, shuffled, s))| == 32
    ensures forall c :: c in Dealt(deck, shuffled, s).Player(0).hand ==> AllCards(Dealt(deck, shuffled, s))[c] >= 2
  {
    DealDuplicatesDealt(deck, shuffled, s);
    HandsAfterCards(s, shuffled);
    var r := Dealt(deck, shuffled, s);
    forall c | c in r.Player(0).hand
      ensures AllCards(r)[c] >= 2
    {
      assert c in multiset(shuffled[|shuffled| - DealCount..]);
      assert c in shuffled by {
        var top := shuffled[|shuffled| - DealCount..];
        var j :| 0 <= j < |top| && top[j] == c;
        assert shuffled[|shuffled| - DealCount + j] == c;
      }
      assert c in multiset(deck);
    }
  }

  /** The intended deal puts exactly the deck in play: six cards per hand, the rest in stock. */
  lemma DealWithLeftoverConserves(deck: seq<Card>, shuffled: seq<Card>, s: GameState)
    requires IsShuffleOf(shuffled, deck) && DealCount <= |deck|
    requires AllCards(s) == multiset{}
    ensures AllCards(DealtWithLeftover(shuffled, s)) == multiset(deck)
    ensures |DealtWithLeftover(shuffled, s).stock| == |deck| - DealCount
  {
    HandsAfterCards(s, shuffled);
    var n := |shuffled|;
    assert shuffled == shuffled[..n - DealCount] + shuffled[n - DealCount..];
  }

  /**
   * Either deal leaves a stock the first trick can draw from, and keeps it
   * even, exactly when the stock it installs is even and holds two cards.
   */
  lemma DealOpensEvenStock(deck: seq<Card>, shuffled: seq<Card>, s: GameState)
    requires IsShuffleOf(shuffled, deck) && DealCount <= |deck|
    ensures StockEven(Dealt(deck, shuffled, s)) <==> |deck| >= 2 && |deck| % 2 == 0
    ensures StockEven(DealtWithLeftover(shuffled, s)) <==> |deck| >= DealCount + 2 && |deck| % 2 == 0
  {
  }

  /**
   * A fresh game dealt from the 20-card deck with the leftover as stock:
   * six cards each, eight in the stock, elder hand to lead, nothing played,
   * won or scored, and the stock fit for four drawing tricks.
   */
  lemma FreshDeal(players: Pair<PlayerId>, dealerPick: Seat, deck: seq<Card>, shuffled: seq<Card>)
    requires players.first != players.second
    requires IsShuffleOf(shuffled, deck) && |deck| == 20
    ensures var r := DealtWithLeftover(shuffled, InitialState(players, dealerPick));
      && |r.Player(0).hand| == 6 && |r.Player(1).hand| == 6 && |r.stock| == 8
      && AllCards(r) == multiset(deck) && StockEven(r)
      && r.currentPlayer == 0 && r.phase == StockOpen && r.currentTrick == [] && r.trump == None
      && r.Player(0).currentScore == 0 && r.Player(1).currentScore == 0
  {
    ElderPackets(shuffled);
    DealerPackets(shuffled);
    DealWithLeftoverConserves(deck, shuffled, InitialState(players, dealerPick));
  }
}
