/**
 * The Bondtolva game state. Players are addressed by seat: seat 0 is the
 * elder hand (first to act), seat 1 the dealer, as `initialState` orders
 * them; the names of the two players are kept only to say who sits where.
 */
module State {
  import opened Wrappers
  import opened Cards

  type PlayerId = string

  /** A seat index into the two-player table. */
  type Seat = i: int | 0 <= i < 2

  /** The next seat: players[(players.indexOf(p) + 1) % 2]. */
  function Other(p: Seat): (q: Seat)
    ensures q != p
  {
    (p + 1) % 2
  }

  /** One value per seat. */
  datatype Pair<T> = Pair(first: T, second: T) {
    function At(p: Seat): T {
      if p == 0 then first else second
    }

    function With(p: Seat, v: T): (r: Pair<T>)
      ensures r.At(p) == v && r.At(Other(p)) == At(Other(p))
    {
      if p == 0 then this.(first := v) else this.(second := v)
    }
  }

  datatype PlayerState = PlayerState(
    hand: seq<Card>,
    marriages: seq<Suit>,
    tricksWon: seq<Card>,
    currentScore: int)

  const EmptyPlayer: PlayerState := PlayerState([], [], [], 0)

  datatype Phase = Dealing | StockOpen | StockClosed | Scoring | End

  /** The position of a phase along deal -> stock-open -> stock-closed -> scoring/end. */
  function PhaseRank(ph: Phase): nat {
    match ph
    case Dealing => 0
    case StockOpen => 1
    case StockClosed => 2
    case Scoring => 3
    case End => 3
  }

  datatype MoveType = Play | DeclareMarriage

  datatype Move = Move(kind: MoveType, card: Card, player: Seat)

  /** One entry of the trick in progress. */
  datatype TrickEntry = TrickEntry(player: Seat, card: Card)

  datatype GameState = GameState(
    players: Pair<PlayerId>,
    playerStates: Pair<PlayerState>,
    currentTrick: seq<TrickEntry>,
    trump: Option<Suit>,
    stock: seq<Card>,
    currentPlayer: Seat,
    dealer: Seat,
    phase: Phase)
  {
    function Player(p: Seat): PlayerState {
      playerStates.At(p)
    }

    function WithPlayer(p: Seat, ps: PlayerState): (r: GameState)
      ensures r.Player(p) == ps && r.Player(Other(p)) == Player(Other(p))
    {
      this.(playerStates := playerStates.With(p, ps))
    }
  }

  /** The cards of a trick, in play order. */
  function TrickCards(trick: seq<TrickEntry>): (r: seq<Card>)
    ensures |r| == |trick|
  {
    seq(|trick|, i requires 0 <= i < |trick| => trick[i].card)
  }
}
