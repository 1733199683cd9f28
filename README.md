# Bondtolva rules engine in Dafny

This project models the rules engine of a two-player game of Bondtolva, as
written in `src/lib/bondtolva.tsx`. Bondtolva is a Swedish trick-taking game
played with a 20-card deck (King, Ten, Queen, Jack and Nine in four suits),
a trump suit set by the first marriage declared, and a first-to-12 score.
The engine is a state machine over the phases deal → stock-open →
stock-closed → scoring | end. The model covers:

- the card and deck constants: `RANKS`, `SUITS`, `MATADORS`, `GAME_TARGET`,
  the card-point table and `buildDeck` (module `Cards`);
- the state and move types (module `State`);
- legal-move enumeration, `getValidMoves` and `getMarriages` (module `Moves`);
- move application, `makeMove` (module `Engine`), with its properties in
  module `EngineLemmas`;
- table setup and dealing, `initialState` and `deal` (module `Setup`).

Modelling choices:

- A card is a `(Rank, Suit)` datatype. Its letters are kept so that lookups
  the source does on the `"R-S"` text are done literally. These are
  `RANKS.indexOf`, `MATADORS.includes`, `card.includes('K')` and the
  card-point table.
- Players are addressed by seat. Seat 0 is the elder hand and seat 1 the
  dealer, the order `initialState` puts them in. The names are kept only in
  `players`.
- `makeMove` is the specification function `Engine.Next` together with the
  step-wise method `Engine.MakeMove`. The method follows the source's
  sequence of updates on a cloned state and is proved equal to `Next`. Every
  game property is proved about `Next`.
- `buildDeck` and `deal` are loops in the source and are methods here.
  `getValidMoves` and `getMarriages` are functions.

Where the game's rules and the code differ, the model follows the code:

- **Heading never applies.** The heading test compares a rank's position
  with `RANKS.indexOf(suitLed)`. That value is -1 because a suit letter is
  not a rank. So `Moves.HeadingNeverFires` shows the "must head" filter
  never removes anything.
- **Only Tens are matadors.** `MATADORS` lists `'A'` and `'T'`, and there is
  no Ace rank.
- **Card points.** The point table gives K=3, Q=2, J=1. Ten and Nine score 0.
- **Whole-suit marriage offers.** A marriage offer is made for every card of
  a suit that holds King and Queen, not just the pair. A suit already in
  `marriages` is offered again.
- **Value membership.** The legality gate at line 155 uses `includes` on
  objects, which compares references. The model uses value membership, so a
  move equal to an offered one is accepted.

## Model

| member | source | states |
|---|---|---|
| Cards.IndexOf | src/lib/bondtolva.tsx:110 | `Array.indexOf`: -1 exactly when the letter is absent; otherwise the first position holding it |
| Cards.RankHeightIsPosition | src/lib/bondtolva.tsx:12 | a rank's height is its position in RANKS, K=0 … 9=4 (lower is stronger) |
| Cards.RankHeights | src/lib/bondtolva.tsx:12 | the heights are K 0, T 1, Q 2, J 3, 9 4 |
| Cards.SuitsListed | src/lib/bondtolva.tsx:10 | every suit is in SUITS and SUITS has no repeats |
| Cards.SuitIsNoRank | src/lib/bondtolva.tsx:118 | `RANKS.indexOf` of any suit letter is -1 |
| Cards.MatadorsAreTens | src/lib/bondtolva.tsx:6 | a card counts as a matador exactly when it is a Ten |
| Cards.CardPointsByRank | src/lib/bondtolva.tsx:245-250 | card points are K 3, Q 2, J 1, and T and 9 score 0 |
| Cards.TextNamesRank | src/lib/bondtolva.tsx:351-352 | a card's text contains 'K' (or 'Q') exactly when it is a King (or Queen) |
| Cards.BuildDeck | src/lib/bondtolva.tsx:279-287 | 20 cards in suit-major order (card k is rank k mod 5 of suit k div 5), pairwise distinct, every card present |
| Cards.DeckPositionsDiffer | src/lib/bondtolva.tsx:281-283 | two different loop positions push different cards |
| Cards.DeckPosition | src/lib/bondtolva.tsx:281-283 | every card has a position in the nested loops that pushes it |
| State.Other | src/lib/bondtolva.tsx:184 | the next seat, `(indexOf(player) + 1) % 2`, is always the other seat |
| State.Pair.With | src/lib/bondtolva.tsx:41-43 | updating one seat's entry sets it and leaves the other seat's alone |
| State.GameState.WithPlayer | src/lib/bondtolva.tsx:164-175 | updating one player's state leaves the other player's untouched |
| State.TrickCards | src/lib/bondtolva.tsx:203 | `currentTrick.map(play => play.card)` has one card per entry |
| Moves.CardsOfSuit | src/lib/bondtolva.tsx:339-348 | the suit's bucket holds exactly the hand's cards of that suit, each as often as in the hand |
| Moves.MarriedMeansKingAndQueen | src/lib/bondtolva.tsx:350-352 | a suit passes the K-and-Q filter exactly when the hand holds its King and its Queen |
| Moves.MarriedGroupsCount | src/lib/bondtolva.tsx:350-354 | the flattened groups hold each card of a married suit as often as the hand, and nothing else |
| Moves.GetMarriages | src/lib/bondtolva.tsx:338-355 | `getMarriages` returns every card, with multiplicity, of each suit whose King and Queen are in the hand, and nothing else |
| Moves.MovesFor | src/lib/bondtolva.tsx:72-76 | mapping cards to moves gives exactly the moves of that kind, by that player, naming one of the cards |
| Moves.ValidMoves | src/lib/bondtolva.tsx:63-151 | every offered move is by the current player with a card in hand; no move outside stock-open and stock-closed; a marriage only with the stock open and on lead |
| Moves.CardsOfKindAppend | src/lib/bondtolva.tsx:81-87 | appending moves appends their cards per kind, so pushes after the plays keep the plays intact |
| Moves.CardsOfKindMovesFor | src/lib/bondtolva.tsx:72-76 | the cards of the mapped moves are the input cards, in order |
| Moves.HeadingNeverFires | src/lib/bondtolva.tsx:117-120 | the heading filter is empty for every input, so `canHead` is always false |
| Moves.PlaysWhenUnrestricted | src/lib/bondtolva.tsx:70-100 | with the stock open, or on lead with it closed, each card of the hand yields exactly one `play` move by the current player |
| Moves.MarriageOffers | src/lib/bondtolva.tsx:77-88 | a declare move is offered iff stock open, trick empty, by the mover, for a card of a suit whose K and Q are in hand; `marriages` is not consulted |
| Moves.MarriageOfferCount | src/lib/bondtolva.tsx:80-87 | on lead with the stock open, the declare moves name exactly the cards `getMarriages` returns |
| Moves.FollowingMoves | src/lib/bondtolva.tsx:101-146 | following with the stock closed: led-suit cards if any are held, else trumps if trump is set and held, else the whole hand; only `play` by the mover |
| Moves.FollowMovesMembership | src/lib/bondtolva.tsx:113-146 | the same three-way rule, stated on the hand, led suit and trump |
| Moves.HoldsMeansCards | src/lib/bondtolva.tsx:113-114 | `some(card => card.suit === s)` holds iff the filtered list is non-empty |
| Moves.UnderCardOffered | src/lib/bondtolva.tsx:116-132 | 9♠ may follow a led Q♠ even though T♠ could head it |
| Engine.Without | src/lib/bondtolva.tsx:175 | the hand filter removes every copy of the played card and keeps all other cards |
| Engine.TrumpEntries | src/lib/bondtolva.tsx:190 | `trickTrumps` holds exactly the trick's trump entries |
| Engine.EntriesOfSuit | src/lib/bondtolva.tsx:194-195 | `trickFollowed` holds exactly the led-suit entries and starts with the lead |
| Engine.Strongest | src/lib/bondtolva.tsx:196-199 | the reduce returns an entry with the least rank height among those seen |
| Engine.TrickWinner | src/lib/bondtolva.tsx:189-200 | the trick winner is a seat that played in the trick |
| Engine.Next | src/lib/bondtolva.tsx:154-157 | `makeMove` succeeds exactly when the move is among `getValidMoves` and fails otherwise |
| Engine.MakeMove | src/lib/bondtolva.tsx:154-273 | the step-by-step update of the cloned state equals `Next` |
| Engine.ApplySteps | src/lib/bondtolva.tsx:159-186 | declare and play steps, with the early return after a lead, equal `Apply` |
| Engine.ResolveSteps | src/lib/bondtolva.tsx:189-218 | winner, collection, draws and stock closing equal `ResolveTrick` |
| Engine.DrawSteps | src/lib/bondtolva.tsx:207-213 | the two pops and pushes equal `DrawTwo`: winner gets the last stock card, the other seat the one before |
| Engine.EndOfTrickSteps | src/lib/bondtolva.tsx:221-271 | round scoring and the game-end check equal `EndOfTrick` |
| EngineLemmas.ValidMoveShape | src/lib/bondtolva.tsx:63-151 | a legal move is by the current player, names a card in hand, and occurs only in the two stock phases |
| EngineLemmas.CompleteTrace | src/lib/bondtolva.tsx:174-271 | a trick-completing move is play, collect, draw when open, close when empty, then round end |
| EngineLemmas.TraceFacts | src/lib/bondtolva.tsx:174-218 | after collecting and drawing: trick cleared, winner to move, stock shrunk by 2 when open, scores unchanged |
| EngineLemmas.PlayCardFacts | src/lib/bondtolva.tsx:174-180 | playing removes the card from the mover's hand and appends it to the trick; nothing else changes |
| EngineLemmas.DeclareFacts | src/lib/bondtolva.tsx:163-172 | declaring changes no hand, pile, trick, stock, phase or turn, and leaves the other player alone |
| EngineLemmas.CollectFacts | src/lib/bondtolva.tsx:201-206 | the trick's cards are appended to the winner's pile, the trick is cleared, the winner moves next |
| EngineLemmas.DrawTwoFacts | src/lib/bondtolva.tsx:207-213 | the winner gets the last stock card, the other seat the one before it, and the stock loses both |
| EngineLemmas.EndOfTrickKeeps | src/lib/bondtolva.tsx:221-271 | round scoring and the game-end check touch only scores and phase |
| EngineLemmas.EndOfTrickScores | src/lib/bondtolva.tsx:221-271 | when both hands are empty: +1 for the last trick, +1 for the bonus winner, phase scoring; any score ≥ 12 gives end |
| EngineLemmas.LeadingCard | src/lib/bondtolva.tsx:174-186 | a lead removes the card, starts a one-card trick, passes the turn; the other player, stock and phase are unchanged |
| EngineLemmas.MarriageDeclared | src/lib/bondtolva.tsx:163-172 | a marriage appends its suit; with no trump it sets trump and scores 2, otherwise 1 with trump unchanged; the card is then led |
| EngineLemmas.TrickCompleted | src/lib/bondtolva.tsx:189-206 | a second card sends the trick, in play order, to the winner's pile; the winner moves next |
| EngineLemmas.TwoCardTrick | src/lib/bondtolva.tsx:189-200 | a sole trump wins; otherwise the follower wins only by following suit with a stronger rank |
| EngineLemmas.OffSuitFollowerLoses | src/lib/bondtolva.tsx:194-199 | an off-suit non-trump follower never wins the trick |
| EngineLemmas.StockDrawn | src/lib/bondtolva.tsx:207-218 | with the stock open, the winner draws the last card and the other seat the next; an emptied stock closes |
| EngineLemmas.ClosedTrickDrawsNothing | src/lib/bondtolva.tsx:207-213 | with the stock closed, no card is drawn |
| EngineLemmas.RoundEnd | src/lib/bondtolva.tsx:221-265 | with both hands empty after a trick, each score rises by the last-trick point plus the bonus point; phase scoring, or end at 12 |
| EngineLemmas.TrickWithoutRoundEnd | src/lib/bondtolva.tsx:221 | a trick that leaves a card in some hand changes no score |
| EngineLemmas.GameEnd | src/lib/bondtolva.tsx:267-271 | after a trick the phase is end exactly when a score reached 12; a lead keeps the phase |
| EngineLemmas.ScoresNeverDecrease | src/lib/bondtolva.tsx:163-271 | no move lowers a score |
| EngineLemmas.TrickRaisesScores | src/lib/bondtolva.tsx:221-271 | a trick-completing move lowers no score |
| EngineLemmas.PhaseNeverRegresses | src/lib/bondtolva.tsx:207-271 | phases only advance along deal → stock-open → stock-closed → scoring/end |
| EngineLemmas.ApplyAdvancesPhase | src/lib/bondtolva.tsx:159-271 | applying a move in a stock phase never moves the phase back |
| EngineLemmas.ResolveAdvancesPhase | src/lib/bondtolva.tsx:207-271 | resolving a trick only keeps the phase, closes the stock, or moves to scoring or end |
| EngineLemmas.TrumpFixed | src/lib/bondtolva.tsx:165-166 | once set, trump never changes; only the first marriage declared sets it |
| EngineLemmas.PlayCardCards | src/lib/bondtolva.tsx:175-179 | playing removes every copy of the card from the hand and puts one copy in the trick |
| EngineLemmas.ReplaceCopies | src/lib/bondtolva.tsx:175-179 | removing every copy of c from one part of the cards and adding one copy back changes c's count by 1 − h[c] and leaves every other card's count alone |
| EngineLemmas.CollectCards | src/lib/bondtolva.tsx:201-205 | collecting the trick neither adds nor drops a card |
| EngineLemmas.DrawTwoCards | src/lib/bondtolva.tsx:210-212 | drawing moves two stock cards into the hands, no more and no fewer |
| EngineLemmas.DeclareCards | src/lib/bondtolva.tsx:163-172 | declaring a marriage moves no card |
| EngineLemmas.ResolveCards | src/lib/bondtolva.tsx:189-271 | resolving a trick moves cards between places but adds or drops none |
| EngineLemmas.ResolveKeepsCards | src/lib/bondtolva.tsx:183-271 | everything after the card reaches the trick preserves the cards in play |
| EngineLemmas.ApplyCards | src/lib/bondtolva.tsx:163-271 | a move changes the cards in play only by the copies of the played card the hand held beyond one |
| EngineLemmas.CardsConserved | src/lib/bondtolva.tsx:154-273 | `makeMove` preserves the multiset of cards over hands, piles, stock and trick whenever the hand held the played card once |
| EngineLemmas.StockEvenPreserved | src/lib/bondtolva.tsx:207-218 | an open stock that is even and holds at least 2 stays so, so the next trick never pops an empty stock |
| EngineLemmas.TrickKeepsStockEven | src/lib/bondtolva.tsx:207-218 | a trick-completing move keeps an open stock even and at least 2, or closes it |
| EngineLemmas.MatadorsCountTens | src/lib/bondtolva.tsx:230 | the matador count of a pile is its number of Tens |
| EngineLemmas.CardPointsByRanks | src/lib/bondtolva.tsx:244-252 | a pile's card points are 3·Kings + 2·Queens + Jacks |
| EngineLemmas.BonusCascade | src/lib/bondtolva.tsx:228-263 | the bonus goes to the player with more Tens; on a tie, to more card points; otherwise nobody gets it |
| Setup.InitialState | src/lib/bondtolva.tsx:291-321 | elder hand (the non-dealer) sits in seat 0 and moves first, the dealer in seat 1; empty hands and piles, scores 0, no trump, no stock, phase deal |
| Setup.IsShuffleOf | src/lib/bondtolva.tsx:324-328 | a shuffled copy has the deck's length |
| Setup.DealtTo | src/lib/bondtolva.tsx:329-331 | a seat receives at most one card per pop |
| Setup.DealHands | src/lib/bondtolva.tsx:329-331 | the loop pops twelve cards off the end of the shuffled copy onto the hands, pop i going to seat (i div 3) mod 2 |
| Setup.Deal | src/lib/bondtolva.tsx:323-336 | `deal` deals the hands as above, opens the stock, and makes the unshuffled deck the stock |
| Setup.ElderFirstRound | src/lib/bondtolva.tsx:329-331 | after two packets the elder hand holds pops 0-2 |
| Setup.ElderPackets | src/lib/bondtolva.tsx:329-331 | the elder hand receives pops 0-2 and 6-8, six cards |
| Setup.DealerFirstRound | src/lib/bondtolva.tsx:329-331 | after two packets the dealer holds pops 3-5 |
| Setup.DealerPackets | src/lib/bondtolva.tsx:329-331 | the dealer receives pops 3-5 and 9-11, six cards |
| Setup.Dealt2Step | src/lib/bondtolva.tsx:330 | each pop lands in exactly one hand |
| Setup.DealtTakesTop | src/lib/bondtolva.tsx:329-331 | the two hands together hold exactly the cards popped off the end of the shuffled copy |
| Setup.HandsAfterCards | src/lib/bondtolva.tsx:325-331 | dealing onto an empty table puts just the twelve popped cards in play |
| Setup.DealDuplicatesDealt | src/lib/bondtolva.tsx:334 | as written, a deal from an empty table puts the whole deck plus the twelve dealt cards in play |
| Setup.DealOfFullDeck | src/lib/bondtolva.tsx:334 | with the 20-card deck that is 32 cards, and every card in elder hand's hand is in play twice |
| Setup.DealWithLeftover | src/lib/bondtolva.tsx:323-336 | corrected deal: the unpopped rest of the shuffled copy becomes the stock |
| Setup.DealWithLeftoverConserves | src/lib/bondtolva.tsx:323-336 | the corrected deal puts exactly the deck in play, with deck length − 12 cards in stock |
| Setup.DealOpensEvenStock | src/lib/bondtolva.tsx:333-334 | the open stock is drawable and even iff the installed stock has an even size ≥ 2 (deck size as written, deck − 12 corrected) |
| Setup.FreshDeal | src/lib/bondtolva.tsx:291-336 | a fresh 20-card game dealt correctly: 6 cards each, 8 in stock, deck conserved, elder to lead, no trump, scores 0 |

## Left out

- The random dealer choice in `initialState` (`Math.random`): the chosen index is the parameter `dealerPick`.
- `shuffle` from `src/lib/utils.tsx`: the shuffled order is the parameter `shuffled`, required only to be a permutation of the deck. `src/lib/utils.tsx` is not part of this model.
- `structuredClone`: the model uses values, so the input state is never changed. The failure case is `Failure("Invalid move")` in place of a thrown error.
- Reference-identity `includes` in the legality gate: taken literally, it rejects every move built outside `getValidMoves`. The model uses value membership instead.
- Engine.Next: requires `StockCovers` (an open stock holds at least two cards) for every move, including a lead, which pops nothing. A trick-completing move from a smaller open stock would pop `undefined` into a hand in the source; neither case is modelled. Such states are unreachable from a deal of an even-sized deck: `Setup.DealOpensEvenStock` and `EngineLemmas.StockEvenPreserved`.
- Setup.Deal: requires at least 12 cards. With fewer, the source pushes `undefined` into the hands.
- Setup.InitialState: requires two different player names. With equal names, `players.find` returns `undefined`, which the source asserts away with `!`.
- EngineLemmas.CardsConserved: the exact multiset is preserved only when the hand held the played card once. The source's hand filter removes every copy. The lemma states the general effect: the card ends with one copy in play where the hand had k.
- Engine.EndOfTrickSteps: a bonus winner whose player id is the empty string is falsy in `if (matadorWinner)` in the source. The model treats every seat as a winner.
- Starting a new round after scoring: the source has no logic for it.
- Card strings: cards are a `(Rank, Suit)` datatype, so malformed card strings cannot be expressed.
- `src/components/SignInButton.tsx`: UI and authentication. It is not part of this model.

## Findings

| source | as written | input that shows it | evidently intended | confidence | as-written member | corrected member |
|---|---|---|---|---|---|---|
| src/lib/bondtolva.tsx:334 | `newState.stock = deck` makes the whole unshuffled deck the stock after dealing | any deal from `initialState` with the 20-card deck: 12 cards in hands and 20 in stock, so 32 cards in play and each dealt card also in the stock | the stock is the 8 cards left in the shuffled copy | not executed | Setup.DealOfFullDeck | Setup.DealWithLeftoverConserves |
