# Trendsetters auction engine, modelled in Dafny

The repository implements a turn-based auction board game. A `Game`
(game.py) holds:

- a board of 0/1 ownership flags with `players * areas + 1` rows, where row 0
  belongs to the King and every other row is one player's band in one area;
- two shuffled decks of area cards and ability cards;
- the players' funds;
- the current phase.

An auction offers the ability on top of the ability deck, for the area on top
of the area deck. Each player in turn, starting from `auctionstarter`, may
pay to check the hidden area, pay to hide the lot, and then bid or pass. Once
play comes back to the starter, the round settles:

- both decks are popped;
- the highest bidder pays its bid and gets the ability in its row for the
  area, or in the King's row when the area is 0.

A payday then pays every player 2000, and the next player starts the next
auction. The concrete board (`NumGame`, numgame.py) scores with column
frequencies, which count the King's flag twice, and row weights. `winner()`
reports the first heaviest row once its weight reaches `c + c // 2 + 1` or a
deck runs out.

The model has seven modules:

- `Optional`: the `Option` datatype.
- `Rows`: the row layout (`find_row`, `rowinfo`) and the round-robin
  arithmetic of the turn order.
- `Board`: the numgame.py matrix: `emptyboard`, `set`, `colfreqs`,
  `rowweights`. Each aggregate is written as the vector expression it
  computes and proved equal to a plain cell-by-cell sum.
- `Decks`: the full decks `initdecks` builds, and the invariant that a live
  deck is what remains of a shuffle of them.
- `Scoring`: `winner()` as a function on the row weights, and its
  characterisation as the first maximum.
- `Engine`:
  - the `Game` class: fields updated in place, with `modifies` and `reads`
    frames;
  - the `AuctionPhase` class: the auction state machine, with a ghost turn
    counter for the turn-order invariant;
  - `AuctionStep` as a datatype;
  - the `Phase` datatype. A payday is a value because it never changes after
    its constructor has paid out; that payout is `Game.BeginPayday`.
  - the turn step of the `__iter__` driver, as `Game.Turn`;
  - the only invariant the game preserves is `Game.Valid()`:
    - the board is an `r x c` flag matrix;
    - there is one fund entry per player;
    - the decks are remainders of a shuffle of the full decks;
    - the current auction keeps the turn-order invariant `AuctionPhase.Valid()`.
- `Scenarios`: the unit tests of tests.py, stated on the model. This covers
  the board test vectors and a whole auction round of a three-player game,
  followed by a payday, for every shuffle of the decks.

The shuffle (`random.shuffle`) is a parameter: the constructor takes any
rearrangement of the full decks.

Single-player games are reproduced as written. With one player the round
settles at the first bid or pass. When the `__iter__` driver then calls
`finalize_for(0)` on the closed auction (game.py:53), the active seat is still
0, so it passes a second time and settles again. Both decks are then popped
twice, and the bidder pays twice. `AuctionPhase.FinalizeFor` needs cards left
only when it would settle, so the model allows this second settlement too.

## Model

| member | source | states |
|---|---|---|
| Rows.RowCount | game.py:33 | the board has `r = players * areas + 1` rows, so there is always at least the King's row |
| Rows.FindRow | game.py:88-97 | area 0 maps to the King's row 0 and every positive area maps to a row above 0 |
| Rows.RowInfo | game.py:99-106 | row 0 and only row 0 answers `(None, 0)`: the King's row has no player and area 0 |
| Rows.RowInfoOfFindRow | game.py:88-106 | for a player below `players` and an area in `1..areas`, `find_row` lands in `1..r-1` (with `r = players * areas + 1`, game.py:33) and `rowinfo` gives back the same (player, area) |
| Rows.FindRowOfRowInfo | game.py:88-106 | every row in `1..r-1` belongs to a player below `players` and an area in `1..areas`, and `find_row` of that pair is the row again: the two functions are mutually inverse |
| Rows.KingRow | game.py:94-95 | `find_row(_, 0) == 0` and `rowinfo(0) == (None, 0)` |
| Rows.NextSeat | game.py:302 | advancing the seat `(s + t) % n` by one modulo `n` gives seat `(s + t + 1) % n` |
| Rows.FirstReturnAfterFullRound | game.py:302-303 | after `k` moves with `1 <= k <= n` the turn is back at the starter exactly when `k == n` |
| Board.Zeros | numgame.py:10-11 | `emptyboard` is an `r x c` board of flags |
| Board.ZerosAreZero | numgame.py:10-11 | every cell of the empty board is 0 |
| Board.SetCell | numgame.py:13-14 | `set(r, c, val)` makes cell `(r, c)` equal to `val`, leaves every other cell and the shape unchanged |
| Board.SetCellKeepsInvariant | numgame.py:13-14 | writing a 0 or 1 into a flag board keeps its shape and keeps it a flag board |
| Board.ColFreqs | numgame.py:17-18 | `ones(r) . board + board[0]`, one entry per column; its meaning is proved by `Board.ColFreqsIsColumnSum` |
| Board.RowWeights | numgame.py:20-22 | `(board * colfreqs) . ones(c)`, one entry per row; its meaning is proved by `Board.RowWeightIsDot` |
| Board.ColFreqsIsColumnSum | numgame.py:17-18 | `colfreqs()[j]` is the number of rows holding `j` plus the King's flag for `j` a second time |
| Board.RowWeightIsDot | numgame.py:20-22 | `rowweights()[i]` is the sum over `j` of `board[i][j] * colfreqs()[j]` |
| Board.ColFreqsOfSetCell | numgame.py:13-18 | `set` moves the frequency of the changed column by the change of the cell, doubled on the King's row, and leaves every other column's frequency alone |
| Board.ColFreqAfterGrant | game.py:148-158 | granting a flag raises its column frequency by 0 if it was already held, by 2 on the King's row, by 1 otherwise |
| Board.WeightsNonNegative | numgame.py:17-22 | on a flag board every column frequency and every row weight is at least 0 |
| Board.FirstGrantWeights | numgame.py:17-22 | after the first grant on an empty board the granted row weighs 2 if it is the King's and 1 otherwise, and every other row weighs 0 |
| Decks.FullAreaDeck | game.py:83 | `list(range(areas + 1)) * c`, counted by `Decks.FullDecks` |
| Decks.FullAbilityDeck | game.py:84 | `list(range(c)) * (areas + 1)`, counted by `Decks.FullDecks` |
| Decks.FullDecks | game.py:82-84 | both full decks hold `c * (areas + 1)` cards; the area deck holds each area `0..areas` exactly `c` times, the ability deck each ability `0..c-1` exactly `areas + 1` times |
| Decks.ShuffleLength | game.py:85-86 | a shuffle of `range(n) * k` holds `n * k` cards |
| Decks.ShuffleNonEmpty | game.py:85-86 | a shuffle of `range(n) * k` with `n, k >= 1` is not empty |
| Decks.ShuffleCodesInRange | game.py:83-86 | every card of a shuffle of `range(n) * k` is below `n` |
| Decks.ShuffleIsRemainder | game.py:82-86 | a fresh shuffle satisfies the deck invariant: it is a rearrangement of the full deck, none of it has been dealt, every card is a valid code |
| Decks.PopIsRemainder | game.py:126-146 | the front card of a deck satisfying the invariant is a valid code, and removing it keeps the invariant |
| Scoring.WinAmount | game.py:40 | `winamount = c + c // 2 + 1` |
| Scoring.Scan | game.py:185-191 | `(max_player, max_weight)` after the loop has visited every row, characterised by `Scoring.ScanFindsFirstMax` |
| Scoring.WinnerOf | game.py:192-197 | the value `winner()` returns for given row weights and deck state, characterised by `Scoring.WinnerIsFirstMax` |
| Scoring.ScanFindsFirstMax | game.py:185-191 | the scan finds no row exactly when every weight is at most -1; otherwise it finds the first row of greatest weight and that weight |
| Scoring.WinnerIsFirstMax | game.py:181-197 | the winner, when there is one, is the first row of greatest weight, and that weight reaches `winamount` or a deck is empty; conversely such a row is always reported |
| Scoring.NoWinnerMeansCardsLeft | game.py:192-197 | with non-negative weights, "no winner" implies that both decks still hold cards |
| Engine.Truthy | game.py:54 | Python's truth value of `winner()`: both `None` and row 0 (a King's win) are false, so `not self.winner()` still lets a game the King has won move on to a payday; the assert at game.py:174 applies the same test |
| Engine.AuctionStep | game.py:344-361 | the step record `(player, checked, hid, bid)`; Python's field-wise `__eq__` is the datatype's structural equality |
| Engine.OpenStep | game.py:354-358 | `AuctionStep(player)` with the default fields: not checked, not hid, no bid |
| Engine.Phase | game.py:383-393 | the current phase: an auction object, or a payday that has paid out |
| Engine.Phase.Active | game.py:385-391 | an auction is active while its `active` flag is set; a payday is never active |
| Engine.Phase.ActivePlayer | game.py:385-386 | an auction's active player; a payday has none |
| Engine.Paid | game.py:390 | every fund entry raised by `PAY`, one entry per player |
| Engine.AwardKeepsDeckBalance | game.py:312-313 | an award pops exactly one card from each deck, so the difference of the deck lengths is kept (equal decks stay equal) |
| Engine.Game.constructor | game.py:23-40 | calls `EmptyBoard` and `InitDecks` as the source does; the new game is valid, has `r = players * areas + 1` rows, `winamount = c + c // 2 + 1`, starter 0, an empty board, the full decks it shuffled from, the shuffled decks (both non-empty), `startfunds` for every player, and an opened auction on the deck fronts |
| Engine.Game.OpenAuction | game.py:39 | `AuctionPhase(self)` becomes the current phase: an opened auction on the deck fronts, and the game stays valid |
| Engine.Game.EmptyBoard | numgame.py:10-11 | the board becomes the all-zero `r x c` board |
| Engine.Game.InitDecks | game.py:82-86 | the decks become the given shuffles, keep the deck invariant, both hold `c * (areas + 1)` cards, and are non-empty when `c >= 1` |
| Engine.Game.Set | numgame.py:13-14 | the board becomes the old board with one cell set, and remains an `r x c` flag board |
| Engine.Game.SetForPlayer | game.py:108-112 | sets the cell of the ability in the row `find_row(player, area)`, which is a row of the board |
| Engine.Game.SetForKing | game.py:114-118 | sets the cell of the ability in row 0 |
| Engine.Game.HiddenArea | game.py:120-124 | the front of the area deck, which on a consistent game is a valid area `<= areas` |
| Engine.Game.HiddenAbility | game.py:134-138 | the front of the ability deck, which on a consistent game is a valid ability `< c` |
| Engine.Game.PopArea | game.py:126-132 | returns the old front of the area deck, leaves exactly its tail, and the card is a valid area |
| Engine.Game.PopAbility | game.py:140-146 | returns the old front of the ability deck, leaves exactly its tail, and the card is a valid ability |
| Engine.Game.Buy | game.py:148-158 | grants the hidden ability in `find_row(player, hidden area)` (row 0 for area 0), pops one card from each deck so their length difference is kept, `has` then holds, and the column frequency changes by 0, 2 or 1 as in `Board.ColFreqAfterGrant` |
| Engine.Game.Has | game.py:160-166 | true exactly when the board cell of `find_row(player, area)` and the ability is non-zero |
| Engine.Game.WinnerOf | game.py:181-197 | `Scoring.WinnerOf` on the current row weights, with "out of cards" meaning either deck is empty |
| Engine.Game.Winner | game.py:181-197 | the loop returns the value of `Scoring.WinnerOf` on the row weights; a returned row is the first maximum and reaches `winamount` unless a deck is empty |
| Engine.Game.BeginPayday | game.py:383-393 | every player's funds rise by `PAY = 2000`, and the phase becomes an inactive payday with no active player |
| Engine.Game.NextPhase | game.py:168-179 | from an inactive auction with a falsy winner (`None` or the King's row 0, `Engine.Truthy`): to a payday that pays everyone 2000. From a payday: `auctionstarter` moves on by one modulo `players` and a fresh auction opens. The game stays valid |
| Engine.Game.Turn | game.py:49-55 | one pass of the driver loop after the consumer's move. In an auction, `finalize_for(player)` passes for the active player (the turn moves on or the round settles, as in `FinalizeFor`, with the resulting assets `after`) and changes nothing for any other player; then a closed auction with a falsy winner (`None` or the King's row 0, `Engine.Truthy`) gives way to a payday that pays out on `after`, otherwise phase and assets stay as `finalize_for` left them. From a payday with no winner: the next starter's auction opens on the deck fronts and funds, board and decks are unchanged |
| Engine.Game.AuctionTurn | game.py:53-55 | the auction case of `Turn`, with the same postcondition |
| Engine.Game.LeaveAuction | game.py:54-55 | a closed auction with a falsy winner (`None` or the King's row 0, `Engine.Truthy`) becomes a payday and every player is paid `PAY`; otherwise phase and assets are unchanged |
| Engine.Game.PaydayTurn | game.py:53-55 | the payday case of `Turn`: with no winner the decks are not exhausted, so the next auction opens on the deck fronts, with `auctionstarter` moved on and funds, board and decks unchanged |
| Engine.AuctionPhase.constructor | game.py:227-242 | an opened auction: the starter is active, nothing checked or hidden, no bid, active, one open step record for the starter, `item`/`area` the deck fronts |
| Engine.AuctionPhase.PlayerFunds | game.py:289-290 | the active player's balance |
| Engine.AuctionPhase.CanCheck | game.py:247-248 | the active player can afford `CHECK_COST` and the lot is not hidden |
| Engine.AuctionPhase.CanHide | game.py:260-261 | the active player can afford `HIDE_COST` and the lot is not hidden |
| Engine.AuctionPhase.WouldSettle | game.py:302-303 | the next seat is the starter's, so the next bid or pass settles the round (`Rows.FirstReturnAfterFullRound`) |
| Engine.AuctionPhase.Deduct | game.py:292-295 | only the given player (the active one by default) loses `amount`; every other fund entry is unchanged |
| Engine.AuctionPhase.Check | game.py:247-258 | requires `can_check`; debits only the active player by `CHECK_COST`, appends them to `checked`, flags the last step as checked, returns the front of the area deck, and does not move the turn |
| Engine.AuctionPhase.Hide | game.py:260-267 | requires `can_hide`; debits only the active player by `HIDE_COST`, sets `hidden`, flags the last step as hid, and afterwards neither `can_check` nor `can_hide` holds |
| Engine.AuctionPhase.Bid | game.py:269-276 | requires funds at least `bidsum` and a raise of at least `BIDDING_STEP`; records the bid as the highest, by the active player, in the last step; funds do not change unless the turn move settles the round |
| Engine.AuctionPhase.PassBid | game.py:278-280 | records a pass in the last step, keeps the highest bid, and the turn moves on |
| Engine.AuctionPhase.FinalizeFor | game.py:282-285 | passes on behalf of `player` exactly when it is the active player; otherwise nothing changes |
| Engine.AuctionPhase.NextPlayer | game.py:298-307 | the next seat becomes active; back at the starter the round settles, otherwise a fresh step record is appended and nothing else changes. The turn-order invariant is kept: after `k` turns the seat is `(auctionstarter + k) % players`, the auction is active exactly while `k < players`, and step `i` belongs to seat `(auctionstarter + i) % players` |
| Engine.AuctionPhase.Finalize | game.py:309-316 | the auction goes inactive, its winner is the highest bidder (None if all passed), both decks are popped, only that bidder is debited its bid, and it then holds the popped ability in its row for the popped area |
| Engine.AuctionPhase.Award | game.py:312-316 | the changes `finalize` makes to the game: one card popped from each deck; the bidder, if any, debited by the price and granted the popped cell, which it then holds (`has`); otherwise funds and board unchanged |
| Scenarios.TestBoardAggregates | tests.py:9-19 | the test board has column frequencies `[0, 1, 0, 2, 0]` and row weights `[0, 3, 2, 0]` |
| Scenarios.KingGrantAggregates | tests.py:20-22 | once the King holds ability 0 they are `[2, 1, 0, 2, 0]` and `[2, 3, 2, 0]` |
| Scenarios.NoWinnerAfterFirstGrant | game.py:181-197 | after one grant on an empty board, with cards left and `winamount > 2`, `winner()` is None |
| Scenarios.AuctionRound | tests.py:74-128 | for every shuffle, a three-player game with five abilities runs the unit test's round. Player 2 wins and holds the lot. Funds end at `[10000, 12000, 9000]`, because only the winner pays. The next auction is opened by player 1 |
| Scenarios.PlayRound | tests.py:79-128 | the same round, from the state a new `NumGame(players=3, c=5)` is in |
| Scenarios.CheckAndHide | tests.py:79-97 | player 0 checks and hides: 2000 debited, `checked == [0]`, hidden, and the turn has not moved |
| Scenarios.OpeningBids | tests.py:99-113 | player 0 bids 1700 and player 1 passes: the highest bid is 1700 by player 0, player 2 is active, the round goes on, and no funds, board or decks change |
| Scenarios.ClosingBid | tests.py:115-119 | player 2 bids 3000 and closes the round: it wins, pays 3000, and `has(2, area, item)` holds |
| Scenarios.PaydayAndReopen | tests.py:121-128 | the settled auction leads to a payday, then to an active auction opened by player 1 |

## Left out

- `random.shuffle` (game.py:85-86) is not modelled. The shuffled decks are parameters: any rearrangement of the full decks.
- Every `__repr__`, console.py (the interactive front-end), nn.py and test_nn.py (a neural-net trainer unrelated to the game) and the `__main__` demo blocks are not part of this model.
- The abstract stubs of game.py:60-79 are not modelled; the model uses the numgame.py versions of those operations.
- numpy is left out. The board is a matrix of integers, not of floats. `np.dot` is written as explicit vector sums.
- Engine.Game.Set: accepts only the values 0 and 1, which are the only values the game writes. The flag invariant relies on this.
- Python's negative indices, and the `AssertionError`/`IndexError` raised on misuse, are preconditions. This covers, for example, an empty deck or `check` without `can_check`.
- `setforplayer`, `has` and `buy` (game.py:97, game.py:112, game.py:165) do not check the player index: for `player >= players` the row formula silently lands in another player's band while the row is below `r`. The model requires `player < players` and `area <= areas`, the domain the docstring of `find_row` gives (game.py:91-92).
- The source's default arguments are not modelled: `c=9, areas=3, startfunds=10000` (game.py:23) and `val=1` (game.py:66, game.py:108, game.py:114, numgame.py:13). Callers pass every argument explicitly.
- The generator mechanics of `__iter__` (game.py:43-55) are left out: the lazy sequence, and the consumer's moves while it is suspended. Engine.Game.Turn models one pass of its loop body, after the yield. The loop guard `winner() == None` (game.py:49) becomes Turn's requirement that a payday is only finished while there is no winner.
- Engine.Game.constructor: the opening auction needs the finished game, so the phase holds a placeholder payday until `OpenAuction` runs at the end, where the source assigns `AuctionPhase(self)` directly (game.py:39).
- Deck-length equality is not an invariant of `Valid()`. `Buy` ensures the length difference is preserved, and so does every award (`Engine.AwardKeepsDeckBalance`). `InitDecks` gives both decks the same length.
- Engine.AuctionPhase.Bid: follows game.py, where the debit at line 272 is commented out, so a bid never debits the bidder. tests.py:102 expects the bid of 1700 to be debited at once; that test line disagrees with the code. `Scenarios.AuctionRound` states the funds the code produces.
- `AuctionStep.__eq__` (game.py:360-361) is not a separate member: it is the structural equality of the `AuctionStep` datatype.
