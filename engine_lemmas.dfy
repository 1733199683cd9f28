/**
 * Properties of makeMove, stated over its specification `Next`: what the
 * first card of a trick changes, what a marriage scores, who wins a trick,
 * how the stock is drawn, how a round is scored, and what no move can do
 * (lower a score, move the phase back, change trump, lose a card).
 */
module EngineLemmas {
  import opened Wrappers
  import opened Cards
  import opened State
  import opened Moves
  import opened Engine

  // ---------------------------------------------------------------------
  // The steps of Apply, one at a time

  /** A valid move is the mover's, names a card in hand, and declares only on lead. */
  lemma ValidMoveShape(s: GameState, m: Move)
    requires m in ValidMoves(s)
    ensures m.player == s.currentPlayer && m.card in s.Player(m.player).hand
    ensures s.phase == StockOpen || s.phase == StockClosed
    ensures m.kind == DeclareMarriage ==> s.phase == StockOpen && s.currentTrick == []
  {
  }

  /** The mover's hand after the card is played; the other hand as it was. */
  function HandAfterPlay(s: GameState, m: Move, q: Seat): seq<Card> {
    if q == m.player then Without(s.Player(q).hand, m.card) else s.Player(q).hand
  }

  /** The intermediate states of a move that completes a trick. */
  lemma CompleteTrace(s: GameState, m: Move) returns (t: GameState, w: Seat, x: GameState)
    requires StockCovers(s) && m in ValidMoves(s) && s.currentTrick != []
    ensures t == PlayCard(s, m.player, m.card)
    ensures t.currentTrick == s.currentTrick + [TrickEntry(m.player, m.card)]
    ensures w == TrickWinner(t.currentTrick, s.trump)
    ensures var u := Collect(t, w);
      var v := if s.phase == StockOpen then DrawTwo(u, w) else u;
      x == if v.stock == [] then v.(phase := StockClosed) else v
    ensures Next(s, m) == Success(EndOfTrick(x, w))
  {
    ValidMoveShape(s, m);
    assert Declare(s, m) == s;
    t := PlayCard(s, m.player, m.card);
    w := TrickWinner(t.currentTrick, t.trump);
    var u := Collect(t, w);
    var v := if s.phase == StockOpen then DrawTwo(u, w) else u;
    x := if v.stock == [] then v.(phase := StockClosed) else v;
  }

  /** What the state looks like once the trick is collected and the stock drawn. */
  lemma TraceFacts(s: GameState, m: Move, t: GameState, w: Seat, x: GameState)
    requires StockCovers(s) && (s.phase == StockOpen || s.phase == StockClosed)
    requires t == PlayCard(s, m.player, m.card)
    requires w == TrickWinner(t.currentTrick, s.trump)
    requires var u := Collect(t, w);
      var v := if s.phase == StockOpen then DrawTwo(u, w) else u;
      x == if v.stock == [] then v.(phase := StockClosed) else v
    ensures x.currentTrick == [] && x.currentPlayer == w && x.trump == s.trump
    ensures x.players == s.players && x.dealer == s.dealer
    ensures forall q: Seat :: x.Player(q).currentScore == s.Player(q).currentScore
                           && x.Player(q).marriages == s.Player(q).marriages
    ensures x.Player(w).tricksWon == s.Player(w).tricksWon + TrickCards(t.currentTrick)
    ensures x.Player(Other(w)).tricksWon == s.Player(Other(w)).tricksWon
    ensures s.phase == StockOpen ==>
      && x.stock == s.stock[..|s.stock| - 2]
      && x.Player(w).hand == HandAfterPlay(s, m, w) + [s.stock[|s.stock| - 1]]
      && x.Player(Other(w)).hand == HandAfterPlay(s, m, Other(w)) + [s.stock[|s.stock| - 2]]
    ensures s.phase == StockClosed ==>
      x.stock == s.stock && forall q: Seat :: x.Player(q).hand == HandAfterPlay(s, m, q)
    ensures x.phase == if x.stock == [] then StockClosed else s.phase
  {
    PlayCardFacts(s, m);
    var u := Collect(t, w);
    CollectFacts(t, w);
    if s.phase == StockOpen {
      DrawTwoFacts(u, w);
    }
  }

  lemma PlayCardFacts(s: GameState, m: Move)
    ensures var t := PlayCard(s, m.player, m.card);
      && t.currentTrick == s.currentTrick + [TrickEntry(m.player, m.card)]
      && t.currentPlayer == s.currentPlayer && t.trump == s.trump && t.stock == s.stock && t.phase == s.phase
      && t.players == s.players && t.dealer == s.dealer
      && forall q: Seat :: && t.Player(q).hand == HandAfterPlay(s, m, q)
                           && t.Player(q).currentScore == s.Player(q).currentScore
                           && t.Player(q).marriages == s.Player(q).marriages
                           && t.Player(q).tricksWon == s.Player(q).tricksWon
  {
  }

  lemma CollectFacts(t: GameState, w: Seat)
    ensures var u := Collect(t, w);
      && u.currentTrick == [] && u.currentPlayer == w
      && u.trump == t.trump && u.stock == t.stock && u.phase == t.phase
      && u.players == t.players && u.dealer == t.dealer
      && u.Player(w).tricksWon == t.Player(w).tricksWon + TrickCards(t.currentTrick)
      && u.Player(Other(w)).tricksWon == t.Player(Other(w)).tricksWon
      && forall q: Seat :: && u.Player(q).hand == t.Player(q).hand
                           && u.Player(q).currentScore == t.Player(q).currentScore
                           && u.Player(q).marriages == t.Player(q).marriages
  {
  }

  lemma DrawTwoFacts(u: GameState, w: Seat)
    requires |u.stock| >= 2
    ensures var v := DrawTwo(u, w); var n := |u.stock|;
      && v.stock == u.stock[..n - 2]
      && v.Player(w).hand == u.Player(w).hand + [u.stock[n - 1]]
      && v.Player(Other(w)).hand == u.Player(Other(w)).hand + [u.stock[n - 2]]
      && v.currentTrick == u.currentTrick && v.currentPlayer == u.currentPlayer
      && v.trump == u.trump && v.phase == u.phase && v.players == u.players && v.dealer == u.dealer
      && forall q: Seat :: && v.Player(q).tricksWon == u.Player(q).tricksWon
                           && v.Player(q).currentScore == u.Player(q).currentScore
                           && v.Player(q).marriages == u.Player(q).marriages
  {
  }

  /** Scoring the round and checking the target touch only scores and the phase. */
  lemma EndOfTrickKeeps(x: GameState, w: Seat)
    ensures var y := EndOfTrick(x, w);
      && y.currentTrick == x.currentTrick && y.currentPlayer == x.currentPlayer
      && y.trump == x.trump && y.stock == x.stock && y.players == x.players && y.dealer == x.dealer
      && forall q: Seat :: && y.Player(q).hand == x.Player(q).hand
                           && y.Player(q).tricksWon == x.Player(q).tricksWon
                           && y.Player(q).marriages == x.Player(q).marriages
  {
  }

  /** What the end of a trick adds to each score, and the phase it leaves. */
  lemma EndOfTrickScores(x: GameState, w: Seat, q: Seat)
    ensures var y := EndOfTrick(x, w);
      var bonus := RoundBonusWinner(x.Player(0).tricksWon, x.Player(1).tricksWon);
      && y.Player(q).currentScore == x.Player(q).currentScore +
           (if HandsEmpty(x) then (if q == w then 1 else 0) + (if bonus == Some(q) then 1 else 0) else 0)
      && y.phase == (if TargetReached(y) then End else if HandsEmpty(x) then Scoring else x.phase)
  {
    var x1 := AddPoint(x, w);
    assert x1.Player(0).tricksWon == x.Player(0).tricksWon && x1.Player(1).tricksWon == x.Player(1).tricksWon;
  }

  // ---------------------------------------------------------------------
  // The first card of a trick

  /**
   * Leading a card removes it (every copy) from the mover's hand, starts the
   * trick with it and passes the turn; a plain play changes nothing else.
   */
  lemma LeadingCard(s: GameState, m: Move)
    requires StockCovers(s) && m in ValidMoves(s) && s.currentTrick == []
    ensures Next(s, m).Success?
    ensures var r := Next(s, m).value; var p := m.player;
      && r.currentTrick == [TrickEntry(p, m.card)]
      && r.currentPlayer == Other(p)
      && multiset(r.Player(p).hand) == multiset(s.Player(p).hand)[m.card := 0]
      && r.Player(p).tricksWon == s.Player(p).tricksWon
      && r.Player(Other(p)) == s.Player(Other(p))
      && r.stock == s.stock && r.phase == s.phase && r.players == s.players && r.dealer == s.dealer
    ensures m.kind == Play ==>
      Next(s, m).value == s.WithPlayer(m.player, s.Player(m.player).(hand := Without(s.Player(m.player).hand, m.card)))
                           .(currentTrick := [TrickEntry(m.player, m.card)], currentPlayer := Other(m.player))
  {
    ValidMoveShape(s, m);
    var p := m.player;
    var d := Declare(s, m);
    DeclareFacts(s, m);
    PlayCardFacts(d, m);
    var t := PlayCard(d, p, m.card);
    assert Next(s, m) == Success(t.(currentPlayer := Other(p)));
    assert t.Player(p).hand == Without(s.Player(p).hand, m.card);
    assert t.Player(Other(p)) == s.Player(Other(p)) by {
      assert HandAfterPlay(d, m, Other(p)) == d.Player(Other(p)).hand;
    }
  }

  /** Declaring touches only the mover's marriages and score, and the trump. */
  lemma DeclareFacts(s: GameState, m: Move)
    ensures var d := Declare(s, m); var p := m.player;
      && d.Player(p).hand == s.Player(p).hand && d.Player(p).tricksWon == s.Player(p).tricksWon
      && d.Player(Other(p)) == s.Player(Other(p))
      && d.currentTrick == s.currentTrick && d.currentPlayer == s.currentPlayer
      && d.stock == s.stock && d.phase == s.phase && d.players == s.players && d.dealer == s.dealer
  {
  }

  /**
   * Declaring a marriage records the suit; with no trump yet it makes the
   * suit trump and scores 2, otherwise it scores 1 and trump stays. The card
   * is then led like a plain play.
   */
  lemma MarriageDeclared(s: GameState, m: Move)
    requires StockCovers(s) && m in ValidMoves(s) && m.kind == DeclareMarriage
    ensures Next(s, m).Success?
    ensures var r := Next(s, m).value; var p := m.player; var ps := s.Player(p);
      && r.Player(p).marriages == ps.marriages + [m.card.suit]
      && (s.trump == None ==> r.trump == Some(m.card.suit) && r.Player(p).currentScore == ps.currentScore + 2)
      && (s.trump != None ==> r.trump == s.trump && r.Player(p).currentScore == ps.currentScore + 1)
      && r.Player(p).hand == Without(ps.hand, m.card)
      && r.currentTrick == [TrickEntry(p, m.card)] && r.currentPlayer == Other(p)
      && r.Player(Other(p)) == s.Player(Other(p))
  {
    ValidMoveShape(s, m);
  }

  // ---------------------------------------------------------------------
  // Completing a trick

  /**
   * A completed trick goes, in play order, to the winner's won cards; the
   * trick is cleared and the winner moves next; trump and marriages stay.
   */
  lemma TrickCompleted(s: GameState, m: Move)
    requires StockCovers(s) && m in ValidMoves(s) && s.currentTrick != []
    ensures Next(s, m).Success?
    ensures var r := Next(s, m).value;
      var trick := s.currentTrick + [TrickEntry(m.player, m.card)];
      var w := TrickWinner(trick, s.trump);
      && r.currentTrick == [] && r.currentPlayer == w
      && r.Player(w).tricksWon == s.Player(w).tricksWon + TrickCards(trick)
      && r.Player(Other(w)).tricksWon == s.Player(Other(w)).tricksWon
      && r.trump == s.trump
      && r.Player(0).marriages == s.Player(0).marriages && r.Player(1).marriages == s.Player(1).marriages
  {
    var t, w, x := CompleteTrace(s, m);
    TraceFacts(s, m, t, w, x);
    EndOfTrickKeeps(x, w);
  }

  /**
   * The winner of a two-card trick: the only trump if exactly one card is
   * trump, else the follower only if it followed suit with a stronger card.
   */
  lemma TwoCardTrick(a: TrickEntry, b: TrickEntry, trump: Option<Suit>)
    ensures TrickWinner([a, b], trump) ==
      if IsTrump(a.card, trump) && !IsTrump(b.card, trump) then a.player
      else if IsTrump(b.card, trump) && !IsTrump(a.card, trump) then b.player
      else if b.card.suit == a.card.suit && RankHeight(b.card.rank) < RankHeight(a.card.rank) then b.player
      else a.player
  {
    var trick := [a, b];
    assert trick[1..] == [b];
    assert trick[1..][1..] == [];
    var trumps := TrumpEntries(trick, trump);
    assert TrumpEntries([b], trump) == (if IsTrump(b.card, trump) then [b] else []) + TrumpEntries([], trump);
    assert trumps == (if IsTrump(a.card, trump) then [a] else []) + (if IsTrump(b.card, trump) then [b] else []);
    var followed := EntriesOfSuit(trick, a.card.suit);
    assert EntriesOfSuit([b], a.card.suit) == (if b.card.suit == a.card.suit then [b] else []) + EntriesOfSuit([], a.card.suit);
    assert followed == [a] + (if b.card.suit == a.card.suit then [b] else []);
    if b.card.suit == a.card.suit {
      assert followed[1..] == [b];
      assert Strongest(followed, a) == Strongest([b], a);
    } else {
      assert followed == [a];
      assert Strongest(followed, a) == Strongest([], a);
    }
  }

  /** A follower that neither follows suit nor trumps never takes the trick. */
  lemma OffSuitFollowerLoses(a: TrickEntry, b: TrickEntry, trump: Option<Suit>)
    requires b.card.suit != a.card.suit && !IsTrump(b.card, trump)
    ensures TrickWinner([a, b], trump) == a.player
  {
    TwoCardTrick(a, b, trump);
  }

  // ---------------------------------------------------------------------
  // The stock

  /**
   * With the stock open, the trick winner draws the top card of the stock
   * and then the other seat the next one; the stock loses those two cards,
   * and once it is empty the phase is 'stock-closed' (unless the game ended).
   */
  lemma StockDrawn(s: GameState, m: Move)
    requires StockCovers(s) && m in ValidMoves(s) && s.currentTrick != [] && s.phase == StockOpen
    ensures Next(s, m).Success?
    ensures var r := Next(s, m).value; var n := |s.stock|; var w := r.currentPlayer;
      && r.stock == s.stock[..n - 2]
      && r.Player(w).hand == HandAfterPlay(s, m, w) + [s.stock[n - 1]]
      && r.Player(Other(w)).hand == HandAfterPlay(s, m, Other(w)) + [s.stock[n - 2]]
      && r.phase == (if TargetReached(r) then End else if r.stock == [] then StockClosed else StockOpen)
  {
    var t, w, x := CompleteTrace(s, m);
    TraceFacts(s, m, t, w, x);
    EndOfTrickKeeps(x, w);
    EndOfTrickScores(x, w, 0);
    assert !HandsEmpty(x) by {
      assert x.Player(w).hand != [];
    }
  }

  /** With the stock closed, a completed trick draws nothing. */
  lemma ClosedTrickDrawsNothing(s: GameState, m: Move)
    requires StockCovers(s) && m in ValidMoves(s) && s.currentTrick != [] && s.phase == StockClosed
    ensures Next(s, m).Success?
    ensures var r := Next(s, m).value;
      && r.stock == s.stock
      && r.Player(0).hand == HandAfterPlay(s, m, 0) && r.Player(1).hand == HandAfterPlay(s, m, 1)
  {
    var t, w, x := CompleteTrace(s, m);
    TraceFacts(s, m, t, w, x);
    EndOfTrickKeeps(x, w);
  }

  // ---------------------------------------------------------------------
  // Round end and game end

  /**
   * When both hands are empty after a trick, the last-trick winner scores 1
   * and the tie-break point goes to the round's bonus winner (if any); the
   * phase is 'scoring', or 'end' once a score reaches the target.
   */
  lemma RoundEnd(s: GameState, m: Move, q: Seat)
    requires StockCovers(s) && m in ValidMoves(s) && s.currentTrick != []
    requires HandsEmpty(Next(s, m).value)
    ensures var r := Next(s, m).value;
      var bonus := RoundBonusWinner(r.Player(0).tricksWon, r.Player(1).tricksWon);
      && r.Player(q).currentScore == s.Player(q).currentScore
           + (if q == r.currentPlayer then 1 else 0) + (if bonus == Some(q) then 1 else 0)
      && r.phase == if TargetReached(r) then End else Scoring
  {
    var t, w, x := CompleteTrace(s, m);
    TraceFacts(s, m, t, w, x);
    EndOfTrickKeeps(x, w);
    EndOfTrickScores(x, w, q);
  }

  /** A trick that leaves a card in some hand scores nothing. */
  lemma TrickWithoutRoundEnd(s: GameState, m: Move, q: Seat)
    requires StockCovers(s) && m in ValidMoves(s) && s.currentTrick != []
    requires !HandsEmpty(Next(s, m).value)
    ensures Next(s, m).value.Player(q).currentScore == s.Player(q).currentScore
  {
    var t, w, x := CompleteTrace(s, m);
    TraceFacts(s, m, t, w, x);
    EndOfTrickKeeps(x, w);
    EndOfTrickScores(x, w, q);
  }

  /**
   * After a completed trick the phase is 'end' exactly when a score has
   * reached the target; after a lead the phase is unchanged, whatever the
   * marriage scored.
   */
  lemma GameEnd(s: GameState, m: Move)
    requires StockCovers(s) && m in ValidMoves(s)
    ensures s.currentTrick != [] ==> (Next(s, m).value.phase == End <==> TargetReached(Next(s, m).value))
    ensures s.currentTrick == [] ==> Next(s, m).value.phase == s.phase
  {
    ValidMoveShape(s, m);
    if s.currentTrick != [] {
      var t, w, x := CompleteTrace(s, m);
      TraceFacts(s, m, t, w, x);
      EndOfTrickScores(x, w, 0);
    } else {
      LeadingCard(s, m);
    }
  }

  // ---------------------------------------------------------------------
  // What no move does

  /** No move lowers a score. */
  lemma ScoresNeverDecrease(s: GameState, m: Move, q: Seat)
    requires StockCovers(s) && m in ValidMoves(s)
    ensures Next(s, m).value.Player(q).currentScore >= s.Player(q).currentScore
  {
    if s.currentTrick == [] {
      LeadingCard(s, m);
      if m.kind == DeclareMarriage {
        MarriageDeclared(s, m);
      }
    } else {
      TrickRaisesScores(s, m, q);
    }
  }

  lemma TrickRaisesScores(s: GameState, m: Move, q: Seat)
    requires StockCovers(s) && m in ValidMoves(s) && s.currentTrick != []
    ensures Next(s, m).value.Player(q).currentScore >= s.Player(q).currentScore
  {
    ValidMoveShape(s, m);
    var t, w, x := CompleteTrace(s, m);
    TraceFacts(s, m, t, w, x);
    EndOfTrickScores(x, w, q);
  }

  /** The phase only moves forward along deal, stock-open, stock-closed, scoring/end. */
  lemma PhaseNeverRegresses(s: GameState, m: Move)
    requires StockCovers(s) && m in ValidMoves(s)
    ensures PhaseRank(Next(s, m).value.phase) >= PhaseRank(s.phase)
  {
    ValidMoveShape(s, m);
    ApplyAdvancesPhase(s, m);
  }

  lemma ApplyAdvancesPhase(s: GameState, m: Move)
    requires StockCovers(s) && (s.phase == StockOpen || s.phase == StockClosed)
    ensures PhaseRank(Apply(s, m).phase) >= PhaseRank(s.phase)
  {
    var d := Declare(s, m);
    DeclareFacts(s, m);
    PlayCardFacts(d, m);
    var t := PlayCard(d, m.player, m.card);
    if |t.currentTrick| != 1 {
      ResolveAdvancesPhase(t, s.phase);
    }
  }

  lemma ResolveAdvancesPhase(t: GameState, phase0: Phase)
    requires t.currentTrick != [] && t.phase == phase0
    requires phase0 == StockOpen || phase0 == StockClosed
    requires phase0 == StockOpen ==> |t.stock| >= 2
    ensures PhaseRank(ResolveTrick(t, phase0).phase) >= PhaseRank(phase0)
  {
    var w := TrickWinner(t.currentTrick, t.trump);
    var u := Collect(t, w);
    CollectFacts(t, w);
    var v := if phase0 == StockOpen then DrawTwo(u, w) else u;
    if phase0 == StockOpen {
      DrawTwoFacts(u, w);
    }
    var x := if v.stock == [] then v.(phase := StockClosed) else v;
    assert PhaseRank(x.phase) >= PhaseRank(phase0);
    EndOfTrickScores(x, w, 0);
  }

  /** Once set, trump never changes; it is only ever set by a marriage. */
  lemma TrumpFixed(s: GameState, m: Move)
    requires StockCovers(s) && m in ValidMoves(s)
    ensures s.trump.Some? ==> Next(s, m).value.trump == s.trump
    ensures Next(s, m).value.trump != s.trump ==> s.trump == None && m.kind == DeclareMarriage
  {
    ValidMoveShape(s, m);
    if s.currentTrick == [] {
      LeadingCard(s, m);
      if m.kind == DeclareMarriage {
        MarriageDeclared(s, m);
      } else {
        assert Next(s, m).value.trump == s.trump;
      }
    } else {
      TrickCompleted(s, m);
    }
  }

  // ---------------------------------------------------------------------
  // Cards are neither made nor lost

  /** Every card in play: both hands, both won piles, the stock and the trick. */
  function AllCards(s: GameState): multiset<Card> {
    multiset(s.Player(0).hand) + multiset(s.Player(1).hand)
    + multiset(s.Player(0).tricksWon) + multiset(s.Player(1).tricksWon)
    + multiset(s.stock) + multiset(TrickCards(s.currentTrick))
  }

  lemma PlayCardCards(s: GameState, m: Move)
    requires m.card in s.Player(m.player).hand
    ensures var k := multiset(s.Player(m.player).hand)[m.card];
      AllCards(PlayCard(s, m.player, m.card)) == AllCards(s)[m.card := AllCards(s)[m.card] - k + 1]
  {
    var p, c := m.player, m.card;
    var t := PlayCard(s, p, c);
    var o := Other(p);
    assert t.Player(p).hand == Without(s.Player(p).hand, c);
    assert t.Player(p).tricksWon == s.Player(p).tricksWon;
    assert t.Player(o) == s.Player(o);
    assert TrickCards(t.currentTrick) == TrickCards(s.currentTrick) + [c];
    var rest := multiset(s.Player(o).hand)
      + multiset(s.Player(p).tricksWon) + multiset(s.Player(o).tricksWon)
      + multiset(s.stock) + multiset(TrickCards(s.currentTrick));
    assert AllCards(s) == multiset(s.Player(p).hand) + rest by {
      if p == 0 {} else {}
    }
    assert AllCards(t) == multiset(s.Player(p).hand)[c := 0] + rest + multiset{c} by {
      if p == 0 {} else {}
    }
    ReplaceCopies(multiset(s.Player(p).hand), rest, c);
  }

  /** Removing every copy of c from one part and adding one copy back. */
  lemma ReplaceCopies(h: multiset<Card>, rest: multiset<Card>, c: Card)
    ensures h[c := 0] + rest + multiset{c} == (h + rest)[c := (h + rest)[c] - h[c] + 1]
  {
    var lhs := h[c := 0] + rest + multiset{c};
    var rhs := (h + rest)[c := (h + rest)[c] - h[c] + 1];
    forall d ensures lhs[d] == rhs[d] {
    }
  }

  lemma CollectCards(t: GameState, w: Seat)
    ensures AllCards(Collect(t, w)) == AllCards(t)
  {
    CollectFacts(t, w);
    assert TrickCards([]) == [];
  }

  lemma DrawTwoCards(u: GameState, w: Seat)
    requires |u.stock| >= 2
    ensures AllCards(DrawTwo(u, w)) == AllCards(u)
  {
    DrawTwoFacts(u, w);
    var n := |u.stock|;
    assert u.stock == u.stock[..n - 2] + [u.stock[n - 2], u.stock[n - 1]];
  }

  /**
   * A move takes the played card out of the mover's hand once for every copy
   * the hand held and puts one copy into the trick; nothing else is added or
   * lost. So when the hand held the card once, the cards in play are exactly
   * preserved.
   */
  lemma CardsConserved(s: GameState, m: Move)
    requires StockCovers(s) && m in ValidMoves(s)
    ensures var k := multiset(s.Player(m.player).hand)[m.card];
      AllCards(Next(s, m).value) == AllCards(s)[m.card := AllCards(s)[m.card] - k + 1]
    ensures multiset(s.Player(m.player).hand)[m.card] == 1 ==> AllCards(Next(s, m).value) == AllCards(s)
  {
    ValidMoveShape(s, m);
    ApplyCards(s, m);
  }

  lemma ApplyCards(s: GameState, m: Move)
    requires StockCovers(s) && m.card in s.Player(m.player).hand
    ensures var k := multiset(s.Player(m.player).hand)[m.card];
      AllCards(Apply(s, m)) == AllCards(s)[m.card := AllCards(s)[m.card] - k + 1]
  {
    var p, c := m.player, m.card;
    var d := Declare(s, m);
    DeclareCards(s, m);
    PlayCardCards(d, m);
    ResolveKeepsCards(s, m);
  }

  /** Whatever follows the card reaching the trick moves cards but adds or drops none. */
  lemma ResolveKeepsCards(s: GameState, m: Move)
    requires StockCovers(s)
    ensures AllCards(Apply(s, m)) == AllCards(PlayCard(Declare(s, m), m.player, m.card))
  {
    var t := PlayCard(Declare(s, m), m.player, m.card);
    if |t.currentTrick| == 1 {
      assert Apply(s, m) == t.(currentPlayer := Other(m.player));
    } else {
      assert t.stock == s.stock;
      ResolveCards(t, s.phase);
    }
  }

  lemma DeclareCards(s: GameState, m: Move)
    ensures AllCards(Declare(s, m)) == AllCards(s)
    ensures Declare(s, m).Player(m.player).hand == s.Player(m.player).hand
  {
    var d := Declare(s, m);
    assert d.Player(m.player).hand == s.Player(m.player).hand && d.Player(m.player).tricksWon == s.Player(m.player).tricksWon;
    assert d.Player(Other(m.player)) == s.Player(Other(m.player));
    if m.player == 0 {} else {}
  }

  lemma ResolveCards(t: GameState, phase0: Phase)
    requires t.currentTrick != []
    requires phase0 == StockOpen ==> |t.stock| >= 2
    ensures AllCards(ResolveTrick(t, phase0)) == AllCards(t)
  {
    var w := TrickWinner(t.currentTrick, t.trump);
    var u := Collect(t, w);
    CollectCards(t, w);
    if phase0 == StockOpen {
      DrawTwoCards(u, w);
    }
    var v := if phase0 == StockOpen then DrawTwo(u, w) else u;
    var x := if v.stock == [] then v.(phase := StockClosed) else v;
    assert AllCards(x) == AllCards(t);
    EndOfTrickKeeps(x, w);
    assert AllCards(EndOfTrick(x, w)) == AllCards(x);
  }

  // ---------------------------------------------------------------------
  // The stock stays drawable

  /** While the stock is open it holds an even number of cards, at least two. */
  predicate StockEven(s: GameState)
    ensures StockEven(s) ==> StockCovers(s)
  {
    s.phase == StockOpen ==> |s.stock| >= 2 && |s.stock| % 2 == 0
  }

  /**
   * Every move keeps the stock drawable: the open stock loses two cards per
   * trick and closes when it runs out, so `Next` can be applied again.
   */
  lemma StockEvenPreserved(s: GameState, m: Move)
    requires StockEven(s) && m in ValidMoves(s)
    ensures StockEven(Next(s, m).value) && StockCovers(Next(s, m).value)
  {
    if s.currentTrick == [] {
      LeadingCard(s, m);
    } else {
      TrickKeepsStockEven(s, m);
    }
  }

  lemma TrickKeepsStockEven(s: GameState, m: Move)
    requires StockEven(s) && m in ValidMoves(s) && s.currentTrick != []
    ensures StockEven(Next(s, m).value)
  {
    ValidMoveShape(s, m);
    var t, w, x := CompleteTrace(s, m);
    TraceFacts(s, m, t, w, x);
    EndOfTrickKeeps(x, w);
    EndOfTrickScores(x, w, 0);
  }

  // ---------------------------------------------------------------------
  // The round's tie-break point

  /** How many of the cards have the given rank. */
  function CountRank(cards: seq<Card>, r: Rank): nat {
    if cards == [] then 0 else (if cards[0].rank == r then 1 else 0) + CountRank(cards[1..], r)
  }

  /** The matadors counted are exactly the Tens. */
  lemma {:induction false} MatadorsCountTens(cards: seq<Card>)
    ensures MatadorCount(cards) == CountRank(cards, Ten)
  {
    if cards != [] {
      MatadorsAreTens(cards[0]);
      MatadorsCountTens(cards[1..]);
    }
  }

  /** Card points are 3 per King, 2 per Queen and 1 per Jack; Tens and Nines add nothing. */
  lemma {:induction false} CardPointsByRanks(cards: seq<Card>)
    ensures CardPoints(cards) == 3 * CountRank(cards, King) + 2 * CountRank(cards, Queen) + CountRank(cards, Jack)
  {
    if cards != [] {
      CardPointsByRank(cards[0]);
      CardPointsByRanks(cards[1..]);
    }
  }

  /**
   * The tie-break cascade: more Tens wins the point; with equal Tens, more
   * card points (K=3, Q=2, J=1) wins it; with those equal too, no one scores.
   */
  lemma BonusCascade(won0: seq<Card>, won1: seq<Card>)
    ensures var t0, t1 := CountRank(won0, Ten), CountRank(won1, Ten);
      var p0 := 3 * CountRank(won0, King) + 2 * CountRank(won0, Queen) + CountRank(won0, Jack);
      var p1 := 3 * CountRank(won1, King) + 2 * CountRank(won1, Queen) + CountRank(won1, Jack);
      RoundBonusWinner(won0, won1) ==
        if t0 > t1 then Some(0) else if t1 > t0 then Some(1)
        else if p0 > p1 then Some(0) else if p1 > p0 then Some(1)
        else None
  {
    MatadorsCountTens(won0);
    MatadorsCountTens(won1);
    CardPointsByRanks(won0);
    CardPointsByRanks(won1);
  }
}
