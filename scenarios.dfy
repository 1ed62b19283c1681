/**
 * The behaviour the repository's unit tests describe (tests.py), stated on
 * the model: the board aggregates of a small hand-built board, and one full
 * auction round of a three-player game followed by a payday.
 */
module Scenarios {
  import opened Optional
  import Rows
  import Board
  import Decks
  import Scoring
  import Engine

  /**
   * The board of `TestTable.setUp` (tests.py:9-13): one player, five
   * abilities, three areas (four rows), with ability 3 set in rows 2 and 1
   * and ability 1 set in player 0's row for area 1.
   */
  function TestBoard(): (b: Board.Matrix)
    ensures Board.IsShape(b, 4, 5) && Board.IsFlags(b)
  {
    var z := Board.Zeros(Rows.RowCount(1, 3), 5);
    Board.SetCellKeepsInvariant(z, 4, 5, 2, 3, 1);
    var b1 := Board.SetCell(z, 2, 3, 1);
    Board.SetCellKeepsInvariant(b1, 4, 5, 1, 3, 1);
    var b2 := Board.SetCell(b1, 1, 3, 1);
    Board.SetCellKeepsInvariant(b2, 4, 5, Rows.FindRow(1, 0, 1), 1, 1);
    Board.SetCell(b2, Rows.FindRow(1, 0, 1), 1, 1)
  }

  /** `TestTable.test_board` (tests.py:15-19): the aggregates of the test board. */
  lemma TestBoardAggregates()
    ensures Board.ColFreqs(TestBoard(), 5) == [0, 1, 0, 2, 0]
    ensures Board.RowWeights(TestBoard(), 5) == [0, 3, 2, 0]
  {
    var b := TestBoard();
    TestBoardRows();
    Aggregates(b);
  }

  /** `TestTable.test_board` (tests.py:20-22): the aggregates once the King holds ability 0. */
  lemma KingGrantAggregates()
    ensures Board.ColFreqs(Board.SetCell(TestBoard(), 0, 0, 1), 5) == [2, 1, 0, 2, 0]
    ensures Board.RowWeights(Board.SetCell(TestBoard(), 0, 0, 1), 5) == [2, 3, 2, 0]
  {
    KingBoardRows();
    Aggregates(Board.SetCell(TestBoard(), 0, 0, 1));
  }

  lemma TestBoardRows()
    ensures |TestBoard()| == 4
    ensures TestBoard()[0] == [0, 0, 0, 0, 0] && TestBoard()[1] == [0, 1, 0, 1, 0]
    ensures TestBoard()[2] == [0, 0, 0, 1, 0] && TestBoard()[3] == [0, 0, 0, 0, 0]
  {
  }

  lemma KingBoardRows()
    ensures |Board.SetCell(TestBoard(), 0, 0, 1)| == 4
    ensures Board.SetCell(TestBoard(), 0, 0, 1)[0] == [1, 0, 0, 0, 0]
    ensures Board.SetCell(TestBoard(), 0, 0, 1)[1] == [0, 1, 0, 1, 0]
    ensures Board.SetCell(TestBoard(), 0, 0, 1)[2] == [0, 0, 0, 1, 0]
    ensures Board.SetCell(TestBoard(), 0, 0, 1)[3] == [0, 0, 0, 0, 0]
  {
    TestBoardRows();
    assert Board.SetCell(TestBoard(), 0, 0, 1)[0] == [0, 0, 0, 0, 0][0 := 1];
  }

  /** The column frequency of column `j` of a four-row board, cell by cell. */
  function Freq(b: Board.Matrix, j: nat): (freq: int)
    requires |b| == 4 && forall i :: 0 <= i < 4 ==> j < |b[i]|
  {
    b[0][j] + b[1][j] + b[2][j] + b[3][j] + b[0][j]
  }

  /** The aggregates of a four-row, five-column board, cell by cell. */
  lemma Aggregates(b: Board.Matrix)
    requires Board.IsShape(b, 4, 5)
    ensures Board.ColFreqs(b, 5) == [Freq(b, 0), Freq(b, 1), Freq(b, 2), Freq(b, 3), Freq(b, 4)]
    ensures var f := Board.ColFreqs(b, 5);
            Board.RowWeights(b, 5)
            == seq(4, i requires 0 <= i < 4 =>
                     b[i][0] * f[0] + b[i][1] * f[1] + b[i][2] * f[2] + b[i][3] * f[3] + b[i][4] * f[4])
  {
    var f := Board.ColFreqs(b, 5);
    forall j | 0 <= j < 5 ensures f[j] == Freq(b, j) {
      Board.ColFreqsIsColumnSum(b, 5, j);
      ColumnSumOfFour(b, j);
    }
    forall i | 0 <= i < 4
      ensures Board.RowWeights(b, 5)[i]
              == b[i][0] * f[0] + b[i][1] * f[1] + b[i][2] * f[2] + b[i][3] * f[3] + b[i][4] * f[4]
    {
      Board.RowWeightIsDot(b, 5, i);
      DotOfFive(b[i], f);
    }
  }

  lemma ColumnSumOfFour(b: Board.Matrix, j: nat)
    requires |b| == 4 && forall i :: 0 <= i < 4 ==> j < |b[i]|
    ensures Board.ColumnSum(b, j) == b[0][j] + b[1][j] + b[2][j] + b[3][j]
  {
    assert b[..3][..2] == b[..2] && b[..2][..1] == b[..1] && b[..1][..0] == [];
    assert Board.ColumnSum(b[..1], j) == b[0][j];
    assert Board.ColumnSum(b[..2], j) == b[0][j] + b[1][j];
    assert Board.ColumnSum(b[..3], j) == b[0][j] + b[1][j] + b[2][j];
  }

  lemma DotOfFive(u: seq<int>, v: seq<int>)
    requires |u| == 5 && |v| == 5
    ensures Board.Dot(u, v) == u[0] * v[0] + u[1] * v[1] + u[2] * v[2] + u[3] * v[3] + u[4] * v[4]
  {
    assert u[..4][..3] == u[..3] && u[..3][..2] == u[..2] && u[..2][..1] == u[..1] && u[..1][..0] == [];
    assert v[..4][..3] == v[..3] && v[..3][..2] == v[..2] && v[..2][..1] == v[..1] && v[..1][..0] == [];
    assert Board.Dot(u[..1], v[..1]) == u[0] * v[0];
    assert Board.Dot(u[..2], v[..2]) == u[0] * v[0] + u[1] * v[1];
    assert Board.Dot(u[..3], v[..3]) == u[0] * v[0] + u[1] * v[1] + u[2] * v[2];
    assert Board.Dot(u[..4], v[..4]) == u[0] * v[0] + u[1] * v[1] + u[2] * v[2] + u[3] * v[3];
  }

  /** Nobody has won after the first grant on an empty board while cards are left and `winamount > 2`. */
  lemma NoWinnerAfterFirstGrant(rows: nat, cols: nat, row: nat, col: nat, winamount: int)
    requires row < rows && col < cols
    requires winamount > 2
    ensures Scoring.WinnerOf(Board.RowWeights(Board.SetCell(Board.Zeros(rows, cols), row, col, 1), cols), winamount, false)
            == None
  {
    var ws := Board.RowWeights(Board.SetCell(Board.Zeros(rows, cols), row, col, 1), cols);
    Board.FirstGrantWeights(rows, cols, row, col);
    Scoring.WinnerIsFirstMax(ws, winamount, false);
  }

  /**
   * `TestAuctionPhase.test` (tests.py:74-128) on any shuffle of the decks of
   * a three-player game with five abilities: player 0 checks and hides,
   * bids 1700, player 1 passes, player 2 bids 3000 and wins the lot; then a
   * payday and the next auction, opened by player 1.  The bid of 1700 does
   * not debit player 0 (game.py:272 is commented out); only the winner pays.
   */
  method AuctionRound(shuffledAreas: seq<nat>, shuffledAbilities: seq<nat>)
    returns (winner: Option<nat>, held: bool, funds: seq<int>, starter: nat, reopened: bool)
    requires multiset(shuffledAreas) == multiset(Decks.FullAreaDeck(3, 5))
    requires multiset(shuffledAbilities) == multiset(Decks.FullAbilityDeck(3, 5))
    ensures winner == Some(2)
    ensures held
    ensures funds == [10000 - 2000 + 2000, 10000 + 2000, 10000 - 3000 + 2000]
    ensures starter == 1
    ensures reopened
  {
    var g := new Engine.Game(3, 5, 3, 10000, shuffledAreas, shuffledAbilities);
    Decks.ShuffleLength(shuffledAreas, 4, 5);
    Decks.ShuffleLength(shuffledAbilities, 5, 4);
    winner, held, funds, starter, reopened := PlayRound(g);
  }

  /** tests.py:79-128 from the state `NumGame(players=3, c=5)` starts in. */
  method PlayRound(g: Engine.Game)
    returns (winner: Option<nat>, held: bool, funds: seq<int>, starter: nat, reopened: bool)
    requires g.Valid()
    requires g.players == 3 && g.c == 5 && g.areas == 3 && g.r == 10 && g.winamount == 8
    requires g.auctionstarter == 0 && g.board == Board.Zeros(10, 5)
    requires |g.areadeck| == 20 && |g.abilitydeck| == 20 && g.playerfunds == [10000, 10000, 10000]
    requires g.currentphase.Auction? && g.currentphase.auction.Opened()
    requires g.currentphase.auction.item == g.abilitydeck[0] && g.currentphase.auction.area == g.areadeck[0]
    modifies g, g.currentphase.auction
    ensures winner == Some(2)
    ensures held
    ensures funds == [10000 - 2000 + 2000, 10000 + 2000, 10000 - 3000 + 2000]
    ensures starter == 1
    ensures reopened
  {
    var phase := g.currentphase.auction;
    var item, area := phase.item, phase.area;
    CheckAndHide(phase);
    OpeningBids(phase);
    ClosingBid(phase);
    winner := phase.winner;
    held := g.Has(2, area, item);
    funds, starter, reopened := PaydayAndReopen(g, Rows.FindRow(3, 2, area), item);
  }

  /** tests.py:121-128: the settled auction gives way to a payday, and the payday to the next auction. */
  method PaydayAndReopen(g: Engine.Game, row: nat, col: nat) returns (funds: seq<int>, starter: nat, reopened: bool)
    requires g.Valid()
    requires g.players == 3 && g.c == 5 && g.r == 10 && g.winamount == 8 && g.auctionstarter == 0
    requires g.currentphase.Auction? && !g.currentphase.auction.active
    requires row < 10 && col < 5 && g.board == Board.SetCell(Board.Zeros(10, 5), row, col, 1)
    requires |g.areadeck| == 19 && |g.abilitydeck| == 19
    requires g.playerfunds == [8000, 10000, 7000]
    modifies g
    ensures funds == [10000, 12000, 9000]
    ensures starter == 1
    ensures reopened
  {
    NoWinnerAfterFirstGrant(10, 5, row, col, 8);
    g.NextPhase();
    assert g.currentphase.Payday? && !g.currentphase.Active();
    g.NextPhase();
    funds := g.playerfunds;
    starter := g.auctionstarter;
    reopened := g.currentphase.Active();
  }

  /** tests.py:79-97: the opening player checks, learning the hidden area, then hides the lot. */
  method CheckAndHide(phase: Engine.AuctionPhase)
    requires phase.Opened() && phase.game.Ok()
    requires phase.game.players == 3 && phase.game.auctionstarter == 0
    requires phase.game.playerfunds == [10000, 10000, 10000]
    requires |phase.game.areadeck| == 20 && phase.game.areadeck[0] == phase.area
    modifies phase`checked, phase`hidden, phase`steps, phase.game`playerfunds
    ensures phase.Valid() && phase.game.Ok()
    ensures phase.activeplayer == 0 && phase.turns == 0 && phase.active
    ensures phase.highestBid == 0 && phase.highestBidder == None
    ensures phase.checked == [0] && phase.hidden
    ensures phase.game.playerfunds == [8000, 10000, 10000]
  {
    assert phase.activeplayer == 0 && phase.checked == [];
    var seen := phase.Check();
    assert seen == phase.area && phase.game.playerfunds == [9000, 10000, 10000];
    phase.Hide();
  }

  /**
   * tests.py:99-113: player 0 bids 1700 without paying yet (the lot stays
   * checked and hidden, so nobody can check any more), then player 1
   * passes; the round goes on.
   */
  method OpeningBids(phase: Engine.AuctionPhase)
    requires phase.Valid() && phase.game.Ok()
    requires phase.game.players == 3 && phase.game.auctionstarter == 0
    requires phase.activeplayer == 0 && phase.turns == 0
    requires phase.highestBid == 0 && phase.highestBidder == None && phase.hidden
    requires phase.game.playerfunds == [8000, 10000, 10000]
    modifies phase, phase.game`board, phase.game`areadeck, phase.game`abilitydeck, phase.game`playerfunds
    ensures phase.Valid() && phase.game.Ok()
    ensures phase.activeplayer == 2 && phase.turns == 2 && phase.active
    ensures phase.highestBid == 1700 && phase.highestBidder == Some(0)
    ensures phase.game.CurrentAssets() == old(phase.game.CurrentAssets())
  {
    phase.Bid(1700);
    assert phase.highestBid == 1700 && phase.highestBidder == Some(0);
    assert phase.activeplayer == 1 && phase.active;
    assert phase.game.playerfunds == [8000, 10000, 10000];
    assert !phase.CanCheck();
    phase.PassBid();
  }

  /**
   * tests.py:115-119: player 2 bids 3000, which closes the round: player 2
   * wins, pays 3000 and holds the lot.
   */
  method ClosingBid(phase: Engine.AuctionPhase)
    requires phase.Valid() && phase.game.Ok()
    requires phase.game.players == 3 && phase.game.auctionstarter == 0
    requires phase.activeplayer == 2 && phase.turns == 2
    requires phase.highestBid == 1700
    requires phase.game.playerfunds == [8000, 10000, 10000]
    requires phase.game.board == Board.Zeros(10, 5)
    requires phase.game.CardsLeft()
    requires phase.game.areadeck[0] == phase.area && phase.game.abilitydeck[0] == phase.item
    modifies phase, phase.game`board, phase.game`areadeck, phase.game`abilitydeck, phase.game`playerfunds
    ensures phase.Valid() && phase.game.Ok()
    ensures !phase.active && phase.winner == Some(2) && phase.highestBid == 3000
    ensures phase.game.playerfunds == [8000, 10000, 7000]
    ensures phase.area <= 3 && phase.item < 5
    ensures phase.game.board == Board.SetCell(Board.Zeros(10, 5), Rows.FindRow(3, 2, phase.area), phase.item, 1)
    ensures phase.game.Has(2, phase.area, phase.item)
    ensures |phase.game.areadeck| == |old(phase.game.areadeck)| - 1
    ensures |phase.game.abilitydeck| == |old(phase.game.abilitydeck)| - 1
  {
    phase.Bid(3000);
  }
}
