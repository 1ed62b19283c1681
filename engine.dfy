/**
 * The game-state engine of game.py: the `Game` aggregate (board, decks,
 * funds, current phase, win detection), the `AuctionPhase` state machine,
 * its `AuctionStep` history records and the payday phase.
 *
 * `Game` is the concrete `NumGame` of numgame.py: its board is the integer
 * flag matrix of module Board.
 */
module Engine {
  import opened Optional
  import Rows
  import Board
  import Decks
  import Scoring

  /** Fees and the minimum raise of every auction (game.py:230-232) and the payday stipend (game.py:389). */
  const CHECK_COST: int := 1000
  const HIDE_COST: int := 1000
  const BIDDING_STEP: int := 1000
  const PAY: int := 2000

  /** Python truthiness of `winner()`'s result: `None` and row `0` are both false. */
  predicate Truthy(w: Option<nat>)
  {
    w.Some? && w.value != 0
  }

  /**
   * One player's turn in an auction (game.py:344-364): whether they checked,
   * whether they hid, and their bid (`None` when they passed).  Python's
   * field-wise `__eq__` is Dafny's structural equality of datatype values.
   */
  datatype AuctionStep = AuctionStep(player: nat, checked: bool, hid: bool, bid: Option<int>)

  /** `AuctionStep(player)` with the default fields. */
  function OpenStep(player: nat): (step: AuctionStep)
  {
    AuctionStep(player, false, false, None)
  }

  /**
   * The current phase of a game.  An auction is an object whose fields its
   * methods update; a payday (game.py:383-393) never changes after it has
   * paid out, is never active and has no active player.
   */
  datatype Phase = Auction(auction: AuctionPhase) | Payday(pay: int)
  {
    function Objects(): (objs: set<object>)
    {
      if Auction? then {auction} else {}
    }

    predicate Active()
      reads Objects()
    {
      Auction? && auction.active
    }

    function ActivePlayer(): (player: Option<nat>)
      reads Objects()
    {
      if Auction? then Some(auction.activeplayer) else None
    }
  }

  /** A snapshot of the parts of a game that an auction's settlement changes. */
  datatype Assets = Assets(board: Board.Matrix, areadeck: seq<nat>, abilitydeck: seq<nat>, playerfunds: seq<int>)

  /**
   * `after` is `before` once a lot has been awarded (game.py:312-316): one
   * card popped from each deck and, when there is a `bidder`, it has paid
   * `price` and holds the popped ability in its row for the popped area;
   * without a bidder funds and board are as they were.
   */
  predicate AwardedAssets(players: nat, before: Assets, after: Assets, bidder: Option<nat>, price: int)
  {
    && |before.areadeck| > 0 && after.areadeck == before.areadeck[1..]
    && |before.abilitydeck| > 0 && after.abilitydeck == before.abilitydeck[1..]
    && (bidder.None? ==> after.playerfunds == before.playerfunds && after.board == before.board)
    && (bidder.Some? ==>
          var b := bidder.value;
          var row := Rows.FindRow(players, b, before.areadeck[0]);
          && b < |before.playerfunds|
          && after.playerfunds == before.playerfunds[b := before.playerfunds[b] - price]
          && row < |before.board| && before.abilitydeck[0] < |before.board[row]|
          && after.board == Board.SetCell(before.board, row, before.abilitydeck[0], 1))
  }

  /** An award pops one card from each deck, so decks of equal length stay of equal length. */
  lemma AwardKeepsDeckBalance(players: nat, before: Assets, after: Assets, bidder: Option<nat>, price: int)
    requires AwardedAssets(players, before, after, bidder, price)
    ensures |after.areadeck| == |before.areadeck| - 1 && |after.abilitydeck| == |before.abilitydeck| - 1
    ensures |after.areadeck| - |after.abilitydeck| == |before.areadeck| - |before.abilitydeck|
  {
  }

  /** `[x + PAY for x in funds]` (game.py:390). */
  function Paid(funds: seq<int>): (paid: seq<int>)
    ensures |paid| == |funds|
    ensures forall i :: 0 <= i < |funds| ==> paid[i] == funds[i] + PAY
  {
    seq(|funds|, i requires 0 <= i < |funds| => funds[i] + PAY)
  }

  /** The assets after a payday has paid out. */
  function PaidOut(a: Assets): (paid: Assets)
  {
    a.(playerfunds := Paid(a.playerfunds))
  }

  /** A snapshot of the parts of an auction that a turn changes, with the game's assets. */
  datatype TurnState = TurnState(activeplayer: nat, turns: nat, hidden: bool, checked: seq<nat>,
                       active: bool, winner: Option<nat>, assets: Assets)

  class Game {
    const players: nat
    const areas: nat
    const r: nat
    const c: nat
    const winamount: int

    var auctionstarter: nat
    var board: Board.Matrix
    var areadeck: seq<nat>
    var abilitydeck: seq<nat>
    var playerfunds: seq<int>
    var currentphase: Phase

    /** The full decks `initdecks` shuffles (game.py:82-86), fixed by the constructor. */
    ghost const fullAreas: seq<nat>
    ghost const fullAbilities: seq<nat>

    /** The decks as shuffled by `initdecks`; the live decks are what is left of them. */
    ghost var dealtAreas: seq<nat>
    ghost var dealtAbilities: seq<nat>

    /**
     * The decks are what remains of a shuffle of the full decks, so every
     * card is a valid area or ability code.
     */
    ghost predicate DecksOk()
      reads this`areadeck, this`abilitydeck, this`dealtAreas, this`dealtAbilities
    {
      && Decks.IsRemainder(areadeck, dealtAreas, fullAreas, areas + 1)
      && Decks.IsRemainder(abilitydeck, dealtAbilities, fullAbilities, c)
    }

    /** The board is an `r x c` flag matrix. */
    ghost predicate BoardOk()
      reads this`board
    {
      Board.IsShape(board, r, c) && Board.IsFlags(board)
    }

    /** The invariant of the game's own fields. */
    ghost predicate Ok()
      reads this`auctionstarter, this`board, this`playerfunds
      reads this`areadeck, this`abilitydeck, this`dealtAreas, this`dealtAbilities
    {
      && players >= 1
      && r == Rows.RowCount(players, areas)
      && winamount == Scoring.WinAmount(c)
      && BoardOk()
      && |playerfunds| == players
      && auctionstarter < players
      && DecksOk()
    }

    /** The current auction, if any, belongs to this game and is in a consistent state. */
    ghost predicate PhaseOk()
      reads this`currentphase, this`auctionstarter, currentphase.Objects()
    {
      currentphase.Auction? ==> currentphase.auction.game == this && currentphase.auction.Valid()
    }

    ghost predicate Valid()
      reads this, currentphase.Objects()
    {
      Ok() && PhaseOk()
    }

    predicate CardsLeft()
      reads this`areadeck, this`abilitydeck
    {
      |areadeck| > 0 && |abilitydeck| > 0
    }

    /**
     * `Game(players, c, areas, startfunds)` (game.py:23-40).  Like the source
     * it calls `EmptyBoard` and `InitDecks`; the shuffled decks are
     * parameters: any rearrangement of the full decks.
     */
    constructor (players: nat, c: nat, areas: nat, startfunds: int,
                 shuffledAreas: seq<nat>, shuffledAbilities: seq<nat>)
      requires players >= 1
      requires c >= 1
      requires multiset(shuffledAreas) == multiset(Decks.FullAreaDeck(areas, c))
      requires multiset(shuffledAbilities) == multiset(Decks.FullAbilityDeck(areas, c))
      ensures Valid()
      ensures this.players == players && this.c == c && this.areas == areas
      ensures r == Rows.RowCount(players, areas) && winamount == Scoring.WinAmount(c)
      ensures fullAreas == Decks.FullAreaDeck(this.areas, this.c)
      ensures fullAbilities == Decks.FullAbilityDeck(this.areas, this.c)
      ensures auctionstarter == 0
      ensures board == Board.Zeros(r, c)
      ensures areadeck == shuffledAreas && abilitydeck == shuffledAbilities
      ensures CardsLeft()
      ensures playerfunds == seq(players, _ => startfunds)
      ensures currentphase.Auction? && fresh(currentphase.auction)
      ensures currentphase.auction.Opened()
      ensures currentphase.auction.item == abilitydeck[0] && currentphase.auction.area == areadeck[0]
    {
      var rows := Rows.RowCount(players, areas);
      this.players := players;
      this.areas := areas;
      this.r := rows;
      this.c := c;
      this.winamount := Scoring.WinAmount(c);
      fullAreas := Decks.FullAreaDeck(areas, c);
      fullAbilities := Decks.FullAbilityDeck(areas, c);
      auctionstarter := 0;
      currentphase := Payday(0);  // placeholder: the opening auction needs `this`, created below
      new;
      EmptyBoard();
      InitDecks(shuffledAreas, shuffledAbilities);
      playerfunds := seq(players, _ => startfunds);
      assert DecksOk() && BoardOk();
      OpenAuction();
    }

    /** `self.currentphase = AuctionPhase(self)` (game.py:39, game.py:179): open an auction on the current decks. */
    method OpenAuction()
      requires Ok() && CardsLeft()
      modifies this`currentphase
      ensures Valid()
      ensures currentphase.Auction? && fresh(currentphase.auction)
      ensures currentphase.auction.Opened()
      ensures currentphase.auction.item == abilitydeck[0] && currentphase.auction.area == areadeck[0]
    {
      var auction := new AuctionPhase(this);
      currentphase := Auction(auction);
    }

    /** `emptyboard` (numgame.py:10-11). */
    method EmptyBoard()
      modifies this`board
      ensures board == Board.Zeros(r, c)
    {
      board := Board.Zeros(r, c);
    }

    /**
     * `initdecks` (game.py:82-86), with the shuffle supplied by the caller:
     * both decks hold `c * (areas + 1)` cards (`Decks.FullDecks` counts each
     * card).
     */
    method InitDecks(shuffledAreas: seq<nat>, shuffledAbilities: seq<nat>)
      requires fullAreas == Decks.FullAreaDeck(areas, c) && fullAbilities == Decks.FullAbilityDeck(areas, c)
      requires multiset(shuffledAreas) == multiset(Decks.FullAreaDeck(areas, c))
      requires multiset(shuffledAbilities) == multiset(Decks.FullAbilityDeck(areas, c))
      modifies this`areadeck, this`abilitydeck, this`dealtAreas, this`dealtAbilities
      ensures areadeck == shuffledAreas && abilitydeck == shuffledAbilities
      ensures DecksOk()
      ensures |areadeck| == |abilitydeck| == c * (areas + 1)
      ensures c >= 1 ==> CardsLeft()
    {
      areadeck, abilitydeck := shuffledAreas, shuffledAbilities;
      dealtAreas, dealtAbilities := shuffledAreas, shuffledAbilities;
      Decks.FullDecks(areas, c);
      Decks.ShuffleIsRemainder(shuffledAreas, areas + 1, c);
      Decks.ShuffleIsRemainder(shuffledAbilities, c, areas + 1);
      calc {
        |areadeck|;
        |multiset(shuffledAreas)|;
        |multiset(Decks.FullAreaDeck(areas, c))|;
        c * (areas + 1);
      }
      calc {
        |abilitydeck|;
        |multiset(shuffledAbilities)|;
        |multiset(Decks.FullAbilityDeck(areas, c))|;
        c * (areas + 1);
      }
      if c >= 1 {
        Rows.MultipleAtLeast(areas + 1, c);
      }
    }

    /** `set(r, c, val)` (numgame.py:13-14) on a flag board. */
    method Set(row: nat, col: nat, val: int)
      requires Ok()
      requires row < r && col < c
      requires val == 0 || val == 1
      modifies this`board
      ensures Ok()
      ensures board == Board.SetCell(old(board), row, col, val)
    {
      Board.SetCellKeepsInvariant(board, r, c, row, col, val);
      board := Board.SetCell(board, row, col, val);
    }

    /** `setforplayer` (game.py:108-112): the cell of ability `ability` in the player's row for `area` (the King's row for area 0). */
    method SetForPlayer(player: nat, area: nat, ability: nat, val: int)
      requires Ok()
      requires player < players && area <= areas && ability < c
      requires val == 0 || val == 1
      modifies this`board
      ensures Ok()
      ensures Rows.FindRow(players, player, area) < r
      ensures board == Board.SetCell(old(board), Rows.FindRow(players, player, area), ability, val)
    {
      if area > 0 {
        Rows.RowInfoOfFindRow(players, areas, player, area);
      }
      Set(Rows.FindRow(players, player, area), ability, val);
    }

    /** `setforking` (game.py:114-118): row 0. */
    method SetForKing(ability: nat, val: int)
      requires Ok()
      requires ability < c
      requires val == 0 || val == 1
      modifies this`board
      ensures Ok()
      ensures board == Board.SetCell(old(board), 0, ability, val)
    {
      Set(0, ability, val);
    }

    /** `hiddenarea` (game.py:120-124): the front of the area deck, a valid area code. */
    function HiddenArea(): (area: nat)
      reads this
      requires |areadeck| > 0
      ensures Ok() ==> area <= areas
    {
      areadeck[0]
    }

    /** `hiddenability` (game.py:134-138): the front of the ability deck, a valid ability code. */
    function HiddenAbility(): (ability: nat)
      reads this
      requires |abilitydeck| > 0
      ensures Ok() ==> ability < c
    {
      abilitydeck[0]
    }

    /** `poparea` (game.py:126-132): removes and returns the front card. */
    method PopArea() returns (result: nat)
      requires Ok()
      requires |areadeck| > 0
      modifies this`areadeck
      ensures Ok()
      ensures result == old(areadeck)[0] && areadeck == old(areadeck)[1..]
      ensures result <= areas
    {
      Decks.PopIsRemainder(areadeck, dealtAreas, fullAreas, areas + 1);
      result := areadeck[0];
      areadeck := areadeck[1..];
    }

    /** `popability` (game.py:140-146): removes and returns the front card. */
    method PopAbility() returns (result: nat)
      requires Ok()
      requires |abilitydeck| > 0
      modifies this`abilitydeck
      ensures Ok()
      ensures result == old(abilitydeck)[0] && abilitydeck == old(abilitydeck)[1..]
      ensures result < c
    {
      Decks.PopIsRemainder(abilitydeck, dealtAbilities, fullAbilities, c);
      result := abilitydeck[0];
      abilitydeck := abilitydeck[1..];
    }

    /** The board, the decks and the funds: what settling an auction changes. */
    function CurrentAssets(): (assets: Assets)
      reads this`board, this`areadeck, this`abilitydeck, this`playerfunds
    {
      Assets(board, areadeck, abilitydeck, playerfunds)
    }

    /** The current assets are the assets `before` once the lot has been awarded to `bidder` at `price`. */
    predicate Awarded(before: Assets, bidder: Option<nat>, price: int)
      reads this`board, this`areadeck, this`abilitydeck, this`playerfunds
    {
      AwardedAssets(players, before, CurrentAssets(), bidder, price)
    }

    /**
     * `buy` (game.py:148-158): grants the hidden ability in the player's row
     * for the hidden area (the King's row when that area is 0), then pops one
     * card from each deck.
     */
    method Buy(player: nat)
      requires Ok()
      requires player < players
      requires CardsLeft()
      modifies this`board, this`areadeck, this`abilitydeck
      ensures Ok()
      ensures Rows.FindRow(players, player, old(areadeck)[0]) < r && old(abilitydeck)[0] < c
      ensures board == Board.SetCell(old(board), Rows.FindRow(players, player, old(areadeck)[0]), old(abilitydeck)[0], 1)
      ensures areadeck == old(areadeck)[1..] && abilitydeck == old(abilitydeck)[1..]
      ensures |areadeck| - |abilitydeck| == |old(areadeck)| - |old(abilitydeck)|
      ensures old(areadeck)[0] <= areas && Has(player, old(areadeck)[0], old(abilitydeck)[0])
      ensures var row, col := Rows.FindRow(players, player, old(areadeck)[0]), old(abilitydeck)[0];
              Board.ColFreqs(board, c)[col]
              == Board.ColFreqs(old(board), c)[col]
                 + (if old(board)[row][col] == 1 then 0 else if old(areadeck)[0] == 0 then 2 else 1)
    {
      var row := Rows.FindRow(players, player, HiddenArea());
      if HiddenArea() > 0 {
        SetForPlayer(player, HiddenArea(), HiddenAbility(), 1);
      } else {
        SetForKing(HiddenAbility(), 1);
      }
      Board.ColFreqAfterGrant(old(board), c, row, old(abilitydeck)[0]);
      var _ := PopArea();
      var _ := PopAbility();
    }

    /** `has` (game.py:160-166): whether the row for `(player, area)` (the King's for area 0) holds `ability`. */
    function Has(player: nat, area: nat, ability: nat): (held: bool)
      reads this
      requires Ok()
      requires player < players && area <= areas && ability < c
      ensures Rows.FindRow(players, player, area) < r
      ensures held <==> board[Rows.FindRow(players, player, area)][ability] != 0
    {
      if area > 0 then
        Rows.RowInfoOfFindRow(players, areas, player, area);
        board[Rows.FindRow(players, player, area)][ability] != 0
      else
        board[0][ability] != 0
    }

    /** The value `winner()` returns on the current board and decks. */
    function WinnerOf(): (winner: Option<nat>)
      reads this`board, this`areadeck, this`abilitydeck
      requires BoardOk() && r >= 1
    {
      Scoring.WinnerOf(Board.RowWeights(board, c), winamount, |abilitydeck| == 0 || |areadeck| == 0)
    }

    /**
     * `winner` (game.py:181-197): the first row of greatest weight once that
     * weight reaches `winamount` or a deck is exhausted, otherwise `None`.
     * The result is a row index, not a player.
     */
    method Winner() returns (w: Option<nat>)
      requires Ok()
      ensures w == WinnerOf()
      ensures w.Some? ==> Scoring.IsFirstMax(Board.RowWeights(board, c), w.value)
      ensures w.Some? ==> Board.RowWeights(board, c)[w.value] >= winamount || !CardsLeft()
    {
      var weights := Board.RowWeights(board, c);
      var maxWeight := -1;
      var maxPlayer: Option<nat> := None;
      for i := 0 to |weights|
        invariant (maxPlayer, maxWeight) == Scoring.Scan(weights[..i])
      {
        assert weights[..i + 1][..i] == weights[..i];
        if weights[i] > maxWeight {
          maxWeight := weights[i];
          maxPlayer := Some(i);
        }
      }
      assert weights[..|weights|] == weights;
      if maxWeight >= winamount {
        w := maxPlayer;
      } else if |abilitydeck| == 0 || |areadeck| == 0 {
        w := maxPlayer;
      } else {
        w := None;
      }
      Scoring.WinnerIsFirstMax(weights, winamount, |abilitydeck| == 0 || |areadeck| == 0);
    }

    /** The constructor of the payday phase (game.py:385-391): every player is paid `PAY` at once. */
    method BeginPayday()
      requires Ok()
      modifies this`playerfunds, this`currentphase
      ensures Valid()
      ensures currentphase == Payday(PAY)
      ensures playerfunds == Paid(old(playerfunds))
      ensures |playerfunds| == |old(playerfunds)|
      ensures forall i :: 0 <= i < |playerfunds| ==> playerfunds[i] == old(playerfunds)[i] + PAY
    {
      playerfunds := Paid(playerfunds);
      currentphase := Payday(PAY);
    }

    /**
     * `nextphase` (game.py:168-179): from an auction to a payday, and from a
     * payday to a fresh auction started by the next player.  Like the source,
     * it only demands that `winner()` be falsy, so a King's-row winner (row 0)
     * does not stop it.
     */
    method NextPhase()
      requires Valid()
      requires !currentphase.Active()
      requires !Truthy(WinnerOf())
      requires currentphase.Payday? ==> CardsLeft()
      modifies this`currentphase, this`auctionstarter, this`playerfunds
      ensures Valid()
      ensures old(currentphase).Auction? ==>
                && currentphase == Payday(PAY)
                && auctionstarter == old(auctionstarter)
                && playerfunds == Paid(old(playerfunds))
                && |playerfunds| == |old(playerfunds)|
                && forall i :: 0 <= i < |playerfunds| ==> playerfunds[i] == old(playerfunds)[i] + PAY
      ensures old(currentphase).Payday? ==>
                && auctionstarter == (old(auctionstarter) + 1) % players
                && playerfunds == old(playerfunds)
                && currentphase.Auction? && fresh(currentphase.auction)
                && currentphase.auction.Opened()
                && currentphase.auction.item == abilitydeck[0]
                && currentphase.auction.area == areadeck[0]
    {
      if currentphase.Auction? {
        BeginPayday();
      } else {
        auctionstarter := (auctionstarter + 1) % players;
        OpenAuction();
      }
    }

    /**
     * One pass of the driver loop of `__iter__` (game.py:49-55) after the
     * consumer has acted on the yielded `(currentphase, player)`: the
     * player's turn is finalized, and the game moves to the next phase when
     * the phase is over and `winner()` is falsy.  The loop itself (and the
     * consumer's actions) stay outside; the loop runs while `WinnerOf()` is
     * `None`, so a payday is only ever finished while there is no winner.
     * `after` is the game's assets as `finalize_for` leaves them, before a
     * payday that follows pays out.
     */
    method Turn(player: Option<nat>) returns (ghost after: Assets)
      requires Valid()
      requires currentphase.Auction? ==>
                 player == Some(currentphase.auction.activeplayer) && currentphase.auction.WouldSettle()
                 ==> CardsLeft()
      requires currentphase.Payday? ==> WinnerOf() == None
      modifies this, currentphase.Objects()
      ensures Valid()
      ensures old(currentphase).Payday? ==>
                && currentphase.Auction? && fresh(currentphase.auction) && currentphase.auction.Opened()
                && CardsLeft() && currentphase.auction.item == abilitydeck[0] && currentphase.auction.area == areadeck[0]
                && auctionstarter == (old(auctionstarter) + 1) % players
                && after == old(CurrentAssets()) && CurrentAssets() == after
      ensures old(currentphase).Auction? ==>
                var a := old(currentphase).auction;
                && (player == Some(old(a.activeplayer)) ==>
                      && a.highestBid == old(a.highestBid) && a.highestBidder == old(a.highestBidder)
                      && a.TurnMoved(old(a.CurrentTurn()),
                                     old(a.steps)[|old(a.steps)| - 1 := old(a.LastStep()).(bid := None)], after))
                && (player != Some(old(a.activeplayer)) ==> unchanged(a) && after == old(CurrentAssets()))
                && auctionstarter == old(auctionstarter)
                && if !a.active && !Truthy(WinnerOf())
                   then currentphase == Payday(PAY) && CurrentAssets() == PaidOut(after)
                   else currentphase == old(currentphase) && CurrentAssets() == after
    {
      if currentphase.Auction? {
        after := AuctionTurn(player);
      } else {
        after := CurrentAssets();
        PaydayTurn();
      }
    }

    /** `Turn` during an auction: finalize the player's turn, then leave a closed auction. */
    method AuctionTurn(player: Option<nat>) returns (ghost after: Assets)
      requires Valid() && currentphase.Auction?
      requires player == Some(currentphase.auction.activeplayer) && currentphase.auction.WouldSettle()
               ==> CardsLeft()
      modifies this`currentphase, this`auctionstarter, this`playerfunds, this`board,
               this`areadeck, this`abilitydeck, currentphase.auction
      ensures Valid()
      ensures var a := old(currentphase).auction;
              player == Some(old(a.activeplayer)) ==>
                && a.highestBid == old(a.highestBid) && a.highestBidder == old(a.highestBidder)
                && a.TurnMoved(old(a.CurrentTurn()),
                               old(a.steps)[|old(a.steps)| - 1 := old(a.LastStep()).(bid := None)], after)
      ensures var a := old(currentphase).auction;
              player != Some(old(a.activeplayer)) ==> unchanged(a) && after == old(CurrentAssets())
      ensures auctionstarter == old(auctionstarter)
      ensures if !old(currentphase).auction.active && !Truthy(WinnerOf())
              then currentphase == Payday(PAY) && CurrentAssets() == PaidOut(after)
              else currentphase == old(currentphase) && CurrentAssets() == after
    {
      var auction := currentphase.auction;
      auction.FinalizeFor(player);
      after := CurrentAssets();
      LeaveAuction();
    }

    /** game.py:54-55: a closed auction gives way to a payday unless `winner()` is truthy. */
    method LeaveAuction()
      requires Valid() && currentphase.Auction?
      modifies this`currentphase, this`auctionstarter, this`playerfunds
      ensures Valid()
      ensures auctionstarter == old(auctionstarter)
      ensures if !old(currentphase).auction.active && !Truthy(WinnerOf())
              then currentphase == Payday(PAY) && CurrentAssets() == PaidOut(old(CurrentAssets()))
              else currentphase == old(currentphase) && CurrentAssets() == old(CurrentAssets())
    {
      var w := Winner();
      if !currentphase.auction.active && !Truthy(w) {
        NextPhase();
      }
    }

    /** `Turn` during a payday: with no winner, and so cards left, open the next auction on the deck fronts. */
    method PaydayTurn()
      requires Valid() && currentphase.Payday?
      requires WinnerOf() == None
      modifies this`currentphase, this`auctionstarter, this`playerfunds
      ensures Valid()
      ensures && currentphase.Auction? && fresh(currentphase.auction) && currentphase.auction.Opened()
              && CardsLeft() && currentphase.auction.item == abilitydeck[0] && currentphase.auction.area == areadeck[0]
              && auctionstarter == (old(auctionstarter) + 1) % players
      ensures CurrentAssets() == old(CurrentAssets())
    {
      Board.WeightsNonNegative(board, c);
      Scoring.NoWinnerMeansCardsLeft(Board.RowWeights(board, c), winamount, |abilitydeck| == 0 || |areadeck| == 0);
      NextPhase();
    }
  }

  class AuctionPhase {
    const game: Game
    /** The ability and area on top of the decks when the auction opened (game.py:239-240). */
    const item: nat
    const area: nat

    var activeplayer: nat
    var checked: seq<nat>
    var hidden: bool
    var winner: Option<nat>
    var highestBid: int
    var highestBidder: Option<nat>
    var active: bool
    var steps: seq<AuctionStep>

    /** How many turns (bids and passes) have been taken in this auction. */
    ghost var turns: nat

    /**
     * Turn order: after `turns` bids and passes the active player is
     * `(auctionstarter + turns) % players`; while the round lasts there is one
     * step record per turn taken plus one for the active player, in seat
     * order; the round is over exactly when a full round has been played.
     */
    ghost predicate Ticking()
      reads this, game`auctionstarter
    {
      && game.players >= 1 && game.auctionstarter < game.players
      && activeplayer == (game.auctionstarter + turns) % game.players
      && |steps| >= 1
      && (turns < game.players ==> |steps| == turns + 1)
      && (turns == game.players ==> |steps| == game.players)
      && (turns <= game.players ==>
            forall i :: 0 <= i < |steps| ==> steps[i].player == (game.auctionstarter + i) % game.players)
      && (highestBidder.Some? ==> highestBidder.value < game.players)
    }

    ghost predicate Valid()
      reads this, game`auctionstarter
    {
      Ticking() && (active <==> turns < game.players)
    }

    /** The state of a newly opened auction (game.py:228-242). */
    ghost predicate Opened()
      reads this, game`auctionstarter
    {
      && Valid()
      && turns == 0
      && activeplayer == game.auctionstarter
      && checked == [] && !hidden && winner == None
      && highestBid == 0 && highestBidder == None
      && active
      && steps == [OpenStep(game.auctionstarter)]
    }

    constructor (game: Game)
      requires game.Ok()
      requires game.CardsLeft()
      ensures this.game == game
      ensures Opened()
      ensures item == game.abilitydeck[0] && area == game.areadeck[0]
    {
      this.game := game;
      this.item := game.HiddenAbility();
      this.area := game.HiddenArea();
      activeplayer := game.auctionstarter;
      checked := [];
      hidden := false;
      winner := None;
      highestBid := 0;
      highestBidder := None;
      active := true;
      steps := [OpenStep(game.auctionstarter)];
      turns := 0;
      Rows.DivModOf(0, game.auctionstarter, game.players);
    }

    /** `playerfunds` (game.py:289-290): the active player's balance. */
    function PlayerFunds(): (funds: int)
      reads this, game`playerfunds
      requires activeplayer < |game.playerfunds|
    {
      game.playerfunds[activeplayer]
    }

    /** `can_check` (game.py:247-248). */
    predicate CanCheck()
      reads this, game`playerfunds
      requires activeplayer < |game.playerfunds|
    {
      PlayerFunds() >= CHECK_COST && !hidden
    }

    /** `can_hide` (game.py:260-261). */
    predicate CanHide()
      reads this, game`playerfunds
      requires activeplayer < |game.playerfunds|
    {
      PlayerFunds() >= HIDE_COST && !hidden
    }

    /** The next turn closes the round: the seat after the active one is the starter's (game.py:302-303). */
    predicate WouldSettle()
      reads this, game`auctionstarter
      requires game.players > 0
    {
      (activeplayer + 1) % game.players == game.auctionstarter
    }

    /** `steps[-1]`: the step record of the active player. */
    function LastStep(): (step: AuctionStep)
      reads this
      requires |steps| > 0
    {
      steps[|steps| - 1]
    }

    /** `deduct` (game.py:292-295): debit `player`, the active player when `None`. */
    method Deduct(amount: int, player: Option<nat>)
      requires game.Ok()
      requires (if player.None? then activeplayer else player.value) < |game.playerfunds|
      modifies game`playerfunds
      ensures game.Ok()
      ensures var p := if player.None? then activeplayer else player.value;
              game.playerfunds == old(game.playerfunds)[p := old(game.playerfunds)[p] - amount]
    {
      var p := if player.None? then activeplayer else player.value;
      game.playerfunds := game.playerfunds[p := game.playerfunds[p] - amount];
    }

    /**
     * `check` (game.py:250-258): the active player pays `CHECK_COST`, is
     * recorded as having checked, and learns the hidden area.  The turn does
     * not move on.
     */
    method Check() returns (hiddenArea: nat)
      requires Valid() && game.Ok()
      requires CanCheck()
      requires |game.areadeck| > 0
      modifies this`checked, this`steps, game`playerfunds
      ensures Valid() && game.Ok()
      ensures game.playerfunds == old(game.playerfunds)[activeplayer := old(game.playerfunds)[activeplayer] - CHECK_COST]
      ensures checked == old(checked) + [activeplayer]
      ensures steps == old(steps)[|old(steps)| - 1 := old(LastStep()).(checked := true)]
      ensures hiddenArea == game.areadeck[0]
    {
      Deduct(CHECK_COST, None);
      checked := checked + [activeplayer];
      steps := steps[|steps| - 1 := LastStep().(checked := true)];
      hiddenArea := game.HiddenArea();
    }

    /**
     * `hide` (game.py:263-267): the active player pays `HIDE_COST` and the
     * lot is hidden, so nobody can check or hide any more.  The turn does not
     * move on.
     */
    method Hide()
      requires Valid() && game.Ok()
      requires CanHide()
      modifies this`hidden, this`steps, game`playerfunds
      ensures Valid() && game.Ok()
      ensures game.playerfunds == old(game.playerfunds)[activeplayer := old(game.playerfunds)[activeplayer] - HIDE_COST]
      ensures hidden
      ensures steps == old(steps)[|old(steps)| - 1 := old(LastStep()).(hid := true)]
      ensures !CanCheck() && !CanHide()
    {
      Deduct(HIDE_COST, None);
      hidden := true;
      steps := steps[|steps| - 1 := LastStep().(hid := true)];
    }

    /**
     * The round is settled (game.py:309-316): the auction is over, its winner
     * is the highest bidder, and the game has awarded the lot to it.
     */
    predicate Settled(before: Assets)
      reads this, game`board, game`areadeck, game`abilitydeck, game`playerfunds
    {
      !active && winner == highestBidder && game.Awarded(before, highestBidder, highestBid)
    }

    /** The parts of this auction a turn changes, with the game's assets. */
    ghost function CurrentTurn(): (turn: TurnState)
      reads this`activeplayer, this`turns, this`hidden, this`checked, this`active, this`winner
      reads game`board, game`areadeck, game`abilitydeck, game`playerfunds
    {
      TurnState(activeplayer, turns, hidden, checked, active, winner, game.CurrentAssets())
    }

    /**
     * The turn has passed to the next seat (game.py:298-307) after the active
     * player's record became `closed`: either the round settled, or a fresh
     * record was opened for the next player and nothing else changed.
     */
    ghost predicate TurnAdvanced(before: TurnState, closed: seq<AuctionStep>)
      reads this, game
    {
      TurnMoved(before, closed, game.CurrentAssets())
    }

    /** `TurnAdvanced`, with the game's assets after the move given as `after`. */
    ghost predicate TurnMoved(before: TurnState, closed: seq<AuctionStep>, after: Assets)
      reads this, game`auctionstarter
    {
      && game.players > 0
      && activeplayer == (before.activeplayer + 1) % game.players
      && turns == before.turns + 1
      && hidden == before.hidden && checked == before.checked
      && (activeplayer == game.auctionstarter ==>
            && steps == closed && !active && winner == highestBidder
            && AwardedAssets(game.players, before.assets, after, highestBidder, highestBid))
      && (activeplayer != game.auctionstarter ==>
            && steps == closed + [OpenStep(activeplayer)]
            && active == before.active && winner == before.winner
            && after == before.assets)
    }

    /** `finalize` (game.py:309-316), entered once the turn count has reached a full round. */
    method Finalize()
      requires Ticking() && turns >= game.players && game.Ok()
      requires game.CardsLeft()
      modifies this`active, this`winner, game`board, game`areadeck, game`abilitydeck, game`playerfunds
      ensures Valid() && game.Ok()
      ensures Settled(old(game.CurrentAssets()))
      ensures winner.Some? ==>
                old(game.areadeck)[0] <= game.areas && old(game.abilitydeck)[0] < game.c
                && game.Has(winner.value, old(game.areadeck)[0], old(game.abilitydeck)[0])
    {
      active := false;
      winner := highestBidder;
      assert Valid();
      Award();
    }

    /** The changes `finalize` makes to the game (game.py:312-316). */
    method Award()
      requires game.Ok() && game.CardsLeft()
      requires highestBidder.Some? ==> highestBidder.value < game.players
      modifies game`board, game`areadeck, game`abilitydeck, game`playerfunds
      ensures game.Ok()
      ensures game.Awarded(old(game.CurrentAssets()), highestBidder, highestBid)
      ensures highestBidder.Some? ==>
                old(game.areadeck)[0] <= game.areas && old(game.abilitydeck)[0] < game.c
                && game.Has(highestBidder.value, old(game.areadeck)[0], old(game.abilitydeck)[0])
    {
      ghost var before := game.CurrentAssets();
      var poppedArea := game.PopArea();
      var poppedAbility := game.PopAbility();
      if highestBidder != None {
        var b := highestBidder.value;
        Deduct(highestBid, highestBidder);
        assert game.playerfunds == before.playerfunds[b := before.playerfunds[b] - highestBid];
        game.SetForPlayer(b, poppedArea, poppedAbility, 1);
        var row := Rows.FindRow(game.players, b, poppedArea);
        assert row < |before.board| && poppedAbility < |before.board[row]|;
        assert game.board == Board.SetCell(before.board, row, poppedAbility, 1);
        assert AwardedAssets(game.players, before, game.CurrentAssets(), highestBidder, highestBid);
      } else {
        assert AwardedAssets(game.players, before, game.CurrentAssets(), None, highestBid);
      }
    }

    /** `nextplayer` (game.py:298-307): move to the next seat, settling the round when it comes back to the starter. */
    method NextPlayer()
      requires Valid() && game.Ok()
      requires WouldSettle() ==> game.CardsLeft()
      modifies this, game`board, game`areadeck, game`abilitydeck, game`playerfunds
      ensures Valid() && game.Ok()
      ensures highestBid == old(highestBid) && highestBidder == old(highestBidder)
      ensures TurnAdvanced(old(CurrentTurn()), old(steps))
    {
      Rows.NextSeat(game.auctionstarter, turns, game.players);
      activeplayer := (activeplayer + 1) % game.players;
      turns := turns + 1;
      if turns <= game.players {
        Rows.FirstReturnAfterFullRound(game.auctionstarter, turns, game.players);
      }
      if activeplayer == game.auctionstarter {
        Finalize();
      } else {
        steps := steps + [OpenStep(activeplayer)];
      }
    }

    /**
     * `bid` (game.py:269-276): the bid must be affordable and beat the
     * highest bid by `BIDDING_STEP`.  It becomes the highest bid and the turn
     * moves on; nobody pays until the round settles.
     */
    method Bid(bidsum: int)
      requires Valid() && game.Ok()
      requires PlayerFunds() >= bidsum
      requires bidsum >= highestBid + BIDDING_STEP
      requires WouldSettle() ==> game.CardsLeft()
      modifies this, game`board, game`areadeck, game`abilitydeck, game`playerfunds
      ensures Valid() && game.Ok()
      ensures highestBid == bidsum && highestBidder == Some(old(activeplayer))
      ensures TurnAdvanced(old(CurrentTurn()), old(steps)[|old(steps)| - 1 := old(LastStep()).(bid := Some(bidsum))])
    {
      highestBid := bidsum;
      highestBidder := Some(activeplayer);
      steps := steps[|steps| - 1 := LastStep().(bid := Some(bidsum))];
      NextPlayer();
    }

    /** `pass_bid` (game.py:278-280): record a pass and move to the next seat. */
    method PassBid()
      requires Valid() && game.Ok()
      requires WouldSettle() ==> game.CardsLeft()
      modifies this, game`board, game`areadeck, game`abilitydeck, game`playerfunds
      ensures Valid() && game.Ok()
      ensures highestBid == old(highestBid) && highestBidder == old(highestBidder)
      ensures TurnAdvanced(old(CurrentTurn()), old(steps)[|old(steps)| - 1 := old(LastStep()).(bid := None)])
    {
      steps := steps[|steps| - 1 := LastStep().(bid := None)];
      NextPlayer();
    }

    /** `finalize_for` (game.py:282-285): pass on behalf of `player` when it is still their turn, otherwise do nothing. */
    method FinalizeFor(player: Option<nat>)
      requires Valid() && game.Ok()
      requires player == Some(activeplayer) && WouldSettle() ==> game.CardsLeft()
      modifies this, game`board, game`areadeck, game`abilitydeck, game`playerfunds
      ensures Valid() && game.Ok()
      ensures player == Some(old(activeplayer)) ==>
                && highestBid == old(highestBid) && highestBidder == old(highestBidder)
                && TurnAdvanced(old(CurrentTurn()), old(steps)[|old(steps)| - 1 := old(LastStep()).(bid := None)])
      ensures player != Some(old(activeplayer)) ==>
                && unchanged(this)
                && game.playerfunds == old(game.playerfunds) && game.board == old(game.board)
                && game.areadeck == old(game.areadeck) && game.abilitydeck == old(game.abilitydeck)
    {
      if player == Some(activeplayer) {
        PassBid();
      }
    }
  }
}
