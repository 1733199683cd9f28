/**
 * Move application: makeMove. The specification `Next` is built from one
 * function per step of the engine (marriage, play, trick resolution, drawing
 * from the stock, round-end bonuses, game-end check); `MakeMove` performs the
 * same steps on a copy of the state and is proved to agree with `Next`.
 */
module Engine {
  import opened Wrappers
  import opened Cards
  import opened State
  import opened Moves

  /** hand.filter(c => c !== card): every copy of the card leaves the hand. */
  function Without(hand: seq<Card>, card: Card): (r: seq<Card>)
    ensures multiset(r) == multiset(hand)[card := 0]
  {
    if hand == [] then []
    else
      assert hand == [hand[0]] + hand[1..];
      (if hand[0] == card then [] else [hand[0]]) + Without(hand[1..], card)
  }

  /** A card is a trump when its suit equals the trump suit; with no trump nothing is. */
  predicate IsTrump(c: Card, trump: Option<Suit>) {
    trump.Some? && c.suit == trump.value
  }

  /** The trick entries that are trumps, in play order. */
  function TrumpEntries(trick: seq<TrickEntry>, trump: Option<Suit>): (r: seq<TrickEntry>)
    ensures forall e :: e in r <==> e in trick && IsTrump(e.card, trump)
  {
    if trick == [] then []
    else
      assert trick == [trick[0]] + trick[1..];
      (if IsTrump(trick[0].card, trump) then [trick[0]] else []) + TrumpEntries(trick[1..], trump)
  }

  /** The trick entries of one suit, in play order. */
  function EntriesOfSuit(trick: seq<TrickEntry>, suit: Suit): (r: seq<TrickEntry>)
    ensures forall e :: e in r <==> e in trick && e.card.suit == suit
    ensures trick != [] && trick[0].card.suit == suit ==> r != [] && r[0] == trick[0]
  {
    if trick == [] then []
    else
      assert trick == [trick[0]] + trick[1..];
      (if trick[0].card.suit == suit then [trick[0]] else []) + EntriesOfSuit(trick[1..], suit)
  }

  /**
   * The reduce that keeps the entry with the lowest RANKS index, starting
   * from `acc`; an entry replaces `acc` only when strictly stronger.
   */
  function Strongest(entries: seq<TrickEntry>, acc: TrickEntry): (r: TrickEntry)
    ensures r == acc || r in entries
    ensures RankHeight(r.card.rank) <= RankHeight(acc.card.rank)
    ensures forall e :: e in entries ==> RankHeight(r.card.rank) <= RankHeight(e.card.rank)
  {
    if entries == [] then acc
    else
      var next := if RankHeight(entries[0].card.rank) < RankHeight(acc.card.rank) then entries[0] else acc;
      var r := Strongest(entries[1..], next);
      assert forall e :: e in entries ==> e == entries[0] || e in entries[1..];
      r
  }

  /**
   * The trick winner: the player of the only trump if exactly one trump was
   * played, else the player of the strongest card of the suit led.
   */
  function TrickWinner(trick: seq<TrickEntry>, trump: Option<Suit>): (w: Seat)
    requires trick != []
    ensures exists e :: e in trick && e.player == w
  {
    var trumps := TrumpEntries(trick, trump);
    if |trumps| == 1 then
      assert trumps[0] in trumps;
      trumps[0].player
    else
      var followed := EntriesOfSuit(trick, trick[0].card.suit);
      Strongest(followed, followed[0]).player
  }

  /** tricksWon.filter(card is a matador).length */
  function MatadorCount(cards: seq<Card>): nat {
    if cards == [] then 0
    else (if IsMatador(cards[0]) then 1 else 0) + MatadorCount(cards[1..])
  }

  /** tricksWon.reduce over the card-point table. */
  function CardPoints(cards: seq<Card>): int {
    if cards == [] then 0 else CardPoint(cards[0]) + CardPoints(cards[1..])
  }

  /**
   * Sort two seats' values in descending order and take the first seat when
   * the set of values has two elements; with equal values there is no leader.
   */
  function Leader(a: int, b: int): Option<Seat> {
    if a != b then Some(if a > b then 0 else 1) else None
  }

  /** Who takes the round's tie-break point: matadors first, then card points. */
  function RoundBonusWinner(won0: seq<Card>, won1: seq<Card>): Option<Seat> {
    var matadorWinner := Leader(MatadorCount(won0), MatadorCount(won1));
    if matadorWinner.Some? then matadorWinner else Leader(CardPoints(won0), CardPoints(won1))
  }

  /** The marriage step: a marriage is recorded, fixes trump if none is set, and scores 2 or 1. */
  function Declare(s: GameState, m: Move): GameState {
    if m.kind == DeclareMarriage then
      var suit := m.card.suit;
      var ps := s.Player(m.player).(marriages := s.Player(m.player).marriages + [suit]);
      if s.trump == None then
        s.(trump := Some(suit)).WithPlayer(m.player, ps.(currentScore := ps.currentScore + 2))
      else
        s.WithPlayer(m.player, ps.(currentScore := ps.currentScore + 1))
    else s
  }

  /** The play step: the card leaves the player's hand and joins the trick. */
  function PlayCard(s: GameState, p: Seat, card: Card): GameState {
    var ps := s.Player(p);
    s.WithPlayer(p, ps.(hand := Without(ps.hand, card))).(currentTrick := s.currentTrick + [TrickEntry(p, card)])
  }

  /** The trick's cards go to the winner, the trick is cleared, the winner moves next. */
  function Collect(t: GameState, w: Seat): GameState {
    var ps := t.Player(w);
    t.WithPlayer(w, ps.(tricksWon := ps.tricksWon + TrickCards(t.currentTrick))).(currentTrick := [], currentPlayer := w)
  }

  /** The winner takes the top of the stock, then the other seat the next card. */
  function DrawTwo(u: GameState, w: Seat): GameState
    requires |u.stock| >= 2
  {
    var n := |u.stock|;
    var pw := u.Player(w);
    var u1 := u.WithPlayer(w, pw.(hand := pw.hand + [u.stock[n - 1]]));
    var po := u1.Player(Other(w));
    u1.WithPlayer(Other(w), po.(hand := po.hand + [u.stock[n - 2]])).(stock := u.stock[..n - 2])
  }

  predicate HandsEmpty(x: GameState) {
    x.Player(0).hand == [] && x.Player(1).hand == []
  }

  /** currentScore += 1 for one seat. */
  function AddPoint(x: GameState, p: Seat): GameState {
    x.WithPlayer(p, x.Player(p).(currentScore := x.Player(p).currentScore + 1))
  }

  /** Round end: a point for the last trick, the tie-break point, phase 'scoring'. */
  function ScoreRound(x: GameState, w: Seat): GameState {
    var x1 := AddPoint(x, w);
    var bonus := RoundBonusWinner(x1.Player(0).tricksWon, x1.Player(1).tricksWon);
    (if bonus.Some? then AddPoint(x1, bonus.value) else x1).(phase := Scoring)
  }

  predicate TargetReached(y: GameState) {
    y.Player(0).currentScore >= GameTarget || y.Player(1).currentScore >= GameTarget
  }

  /** Any score at GAME_TARGET or above ends the game. */
  function CheckGameEnd(y: GameState): GameState {
    if TargetReached(y) then y.(phase := End) else y
  }

  /**
   * Trick resolution once the trick has its second card: the winner collects
   * it, both seats draw while the stock was open, an empty stock closes, and
   * round-end scoring and the game-end check follow. `phase0` is the phase
   * before the move.
   */
  function ResolveTrick(t: GameState, phase0: Phase): GameState
    requires t.currentTrick != []
    requires phase0 == StockOpen ==> |t.stock| >= 2
  {
    var w := TrickWinner(t.currentTrick, t.trump);
    var u := Collect(t, w);
    var v := if phase0 == StockOpen then DrawTwo(u, w) else u;
    var x := if v.stock == [] then v.(phase := StockClosed) else v;
    EndOfTrick(x, w)
  }

  /** Round-end scoring and the game-end check: score the round if both hands are empty, then check the target. */
  function EndOfTrick(x: GameState, w: Seat): GameState {
    CheckGameEnd(if HandsEmpty(x) then ScoreRound(x, w) else x)
  }

  /**
   * The stock holds the two cards a completed trick draws whenever it is
   * open (the engine would otherwise pop `undefined` into a hand). It is
   * required of every move, a lead included, although a lead draws nothing.
   */
  predicate StockCovers(s: GameState) {
    s.phase == StockOpen ==> |s.stock| >= 2
  }

  /** The state after a move, without the legality gate. */
  function Apply(s: GameState, m: Move): GameState
    requires StockCovers(s)
  {
    var t := PlayCard(Declare(s, m), m.player, m.card);
    if |t.currentTrick| == 1 then t.(currentPlayer := Other(m.player))
    else ResolveTrick(t, s.phase)
  }

  /** makeMove: rejects exactly the moves getValidMoves does not offer. */
  function Next(s: GameState, m: Move): (r: Result<GameState>)
    requires StockCovers(s)
    ensures r.Success? <==> m in ValidMoves(s)
  {
    if m in ValidMoves(s) then Success(Apply(s, m)) else Failure("Invalid move")
  }

  /**
   * makeMove: the legality gate, then the steps of the move on a copy of the
   * state (the input is a value and is never changed).
   */
  method MakeMove(s: GameState, m: Move) returns (r: Result<GameState>)
    requires StockCovers(s)
    ensures r == Next(s, m)
  {
    if m !in ValidMoves(s) {
      return Failure("Invalid move");
    }
    var ns := ApplySteps(s, m);
    r := Success(ns);
  }

  /** The body of makeMove after the gate: each step updates the copy `ns`. */
  method ApplySteps(s: GameState, m: Move) returns (ns: GameState)
    requires StockCovers(s)
    ensures ns == Apply(s, m)
  {
    ns := s;
    var phase := ns.phase;
    var kind, card, player := m.kind, m.card, m.player;

    if kind == DeclareMarriage {
      var ps := ns.Player(player);
      ps := ps.(marriages := ps.marriages + [card.suit]);
      if ns.trump == None {
        ns := ns.(trump := Some(card.suit));
        ps := ps.(currentScore := ps.currentScore + 2);
        ns := ns.WithPlayer(player, ps);
        assert ns == s.(trump := Some(card.suit)).WithPlayer(player, ps);
      } else {
        ps := ps.(currentScore := ps.currentScore + 1);
        ns := ns.WithPlayer(player, ps);
      }
      kind := Play;
    }
    assert ns == Declare(s, m);

    if kind == Play {
      var ps := ns.Player(player);
      ns := ns.WithPlayer(player, ps.(hand := Without(ps.hand, card)));
      ns := ns.(currentTrick := ns.currentTrick + [TrickEntry(player, card)]);
    }
    ghost var t := ns;
    assert t == PlayCard(Declare(s, m), player, card);

    if |ns.currentTrick| == 1 {
      ns := ns.(currentPlayer := Other(player));
      return;
    }

    ns := ResolveSteps(ns, phase);
  }

  /** The two pops from the stock: the winner's card first, then the other seat's. */
  method DrawSteps(u: GameState, trickWinner: Seat) returns (ns: GameState)
    requires |u.stock| >= 2
    ensures ns == DrawTwo(u, trickWinner)
  {
    ns := u;
    var top := ns.stock[|ns.stock| - 1];
    ns := ns.(stock := ns.stock[..|ns.stock| - 1]);
    var pw := ns.Player(trickWinner);
    ns := ns.WithPlayer(trickWinner, pw.(hand := pw.hand + [top]));
    var next := ns.stock[|ns.stock| - 1];
    ns := ns.(stock := ns.stock[..|ns.stock| - 1]);
    var po := ns.Player(Other(trickWinner));
    ns := ns.WithPlayer(Other(trickWinner), po.(hand := po.hand + [next]));
    assert ns.stock == u.stock[..|u.stock| - 2];
  }

  /**
   * The rest of makeMove once the trick is complete: the winner collects the
   * trick, both seats draw while the stock was open, the stock closes when
   * empty, the round is scored when both hands are empty, and the game ends
   * at the target.
   */
  method ResolveSteps(t: GameState, phase: Phase) returns (ns: GameState)
    requires t.currentTrick != []
    requires phase == StockOpen ==> |t.stock| >= 2
    ensures ns == ResolveTrick(t, phase)
  {
    ns := t;
    var trickWinner := TrickWinner(ns.currentTrick, ns.trump);
    var pw := ns.Player(trickWinner);
    ns := ns.WithPlayer(trickWinner, pw.(tricksWon := pw.tricksWon + TrickCards(ns.currentTrick)));
    ns := ns.(currentTrick := [], currentPlayer := trickWinner);
    assert ns == Collect(t, trickWinner);

    if phase == StockOpen {
      ns := DrawSteps(ns, trickWinner);
    }

    ghost var v := ns;
    assert v == if phase == StockOpen then DrawTwo(Collect(t, trickWinner), trickWinner) else Collect(t, trickWinner);

    if |ns.stock| == 0 {
      ns := ns.(phase := StockClosed);
    }
    assert ns == if v.stock == [] then v.(phase := StockClosed) else v;
    ns := EndOfTrickSteps(ns, trickWinner);
  }

  /** The round-end and game-end checks that close every completed trick. */
  method EndOfTrickSteps(x: GameState, trickWinner: Seat) returns (ns: GameState)
    ensures ns == EndOfTrick(x, trickWinner)
  {
    ns := x;
    if ns.Player(0).hand == [] && ns.Player(1).hand == [] {
      var pw := ns.Player(trickWinner);
      ns := ns.WithPlayer(trickWinner, pw.(currentScore := pw.currentScore + 1));
      ghost var x1 := ns;
      assert x1 == AddPoint(x, trickWinner);
      assert ns.Player(0).tricksWon == x.Player(0).tricksWon && ns.Player(1).tricksWon == x.Player(1).tricksWon;
      var matadorWinner := Leader(MatadorCount(ns.Player(0).tricksWon), MatadorCount(ns.Player(1).tricksWon));
      if matadorWinner.Some? {
        var pm := ns.Player(matadorWinner.value);
        ns := ns.WithPlayer(matadorWinner.value, pm.(currentScore := pm.currentScore + 1));
      } else {
        var cardWinner := Leader(CardPoints(ns.Player(0).tricksWon), CardPoints(ns.Player(1).tricksWon));
        if cardWinner.Some? {
          var pc := ns.Player(cardWinner.value);
          ns := ns.WithPlayer(cardWinner.value, pc.(currentScore := pc.currentScore + 1));
        }
      }
      ghost var bonus := RoundBonusWinner(x1.Player(0).tricksWon, x1.Player(1).tricksWon);
      assert ns == if bonus.Some? then AddPoint(x1, bonus.value) else x1;
      ns := ns.(phase := Scoring);
      assert ns == ScoreRound(x, trickWinner);
    }
    ghost var y := ns;
    assert y == if HandsEmpty(x) then ScoreRound(x, trickWinner) else x;

    if ns.Player(0).currentScore >= GameTarget || ns.Player(1).currentScore >= GameTarget {
      ns := ns.(phase := End);
    }
    assert ns == CheckGameEnd(y);
  }
}
