/** The game engine: a 20-square board, four players in a shuffled turn order, a
    round loop capped at 1000 rounds, the winner and the ranking, and the batch
    runner that tallies wins and rounds over many games.

    Randomness is taken as input: `order` is the result of shuffling the four
    strategy names, `roll(t)` is the t-th die roll of the game's generator, and
    `coins(c)` is the c-th draw of the process-wide random source that the random
    strategy uses. */
module Games {
  import opened Models
  import opened Strategies

  const BoardSize: nat := 20
  const LapBonus: int := 100
  const MaxRounds: nat := 1000

  /** The square at index `j` of a fresh board: linear price and rent, no owner. */
  function Square(j: int): (p: Property)
  {
    Property(j, 100 + j * 10, 10 + j * 5, None)
  }

  /** `order` is a permutation of the four strategy names. */
  predicate IsShuffle(order: seq<string>)
  {
    multiset(order) == multiset(StrategyNames)
  }

  // ---------------------------------------------------------------------------
  // Counting and summing

  function CountTrue(a: seq<bool>): (n: nat)
    ensures n <= |a|
  {
    if a == [] then 0 else (if a[0] then 1 else 0) + CountTrue(a[1..])
  }

  /** Switching one flag off lowers the count by one exactly when that flag was on. */
  lemma {:induction false} CountTrueClear(a: seq<bool>, k: nat)
    requires k < |a|
    ensures CountTrue(a[k := false]) == CountTrue(a) - (if a[k] then 1 else 0)
  {
    if k > 0 {
      assert a[k := false][1..] == a[1..][k - 1 := false];
      CountTrueClear(a[1..], k - 1);
    } else {
      assert a[k := false][1..] == a[1..];
    }
  }

  /** A count of one names a single seat: the first flag that is on, and no other. */
  lemma {:induction false} CountTrueOne(a: seq<bool>)
    requires CountTrue(a) == 1
    ensures FirstTrue(a) < |a| && a[FirstTrue(a)]
    ensures forall i :: 0 <= i < |a| && i != FirstTrue(a) ==> !a[i]
  {
    if !a[0] {
      CountTrueOne(a[1..]);
    } else {
      assert CountTrue(a[1..]) == 0;
      CountTrueZero(a[1..]);
    }
  }

  /** With every flag on, the count is the length. */
  lemma {:induction false} CountTrueAll(a: seq<bool>)
    requires forall i :: 0 <= i < |a| ==> a[i]
    ensures CountTrue(a) == |a|
  {
    if a != [] {
      CountTrueAll(a[1..]);
    }
  }

  lemma {:induction false} CountTrueZero(a: seq<bool>)
    requires CountTrue(a) == 0
    ensures forall i :: 0 <= i < |a| ==> !a[i]
  {
    if a != [] {
      CountTrueZero(a[1..]);
    }
  }

  /** Index of the first flag that is on (|a| when there is none). */
  function FirstTrue(a: seq<bool>): (i: nat)
    ensures i <= |a|
    ensures CountTrue(a) > 0 ==> i < |a|
    ensures i < |a| ==> a[i]
    ensures forall j :: 0 <= j < i ==> !a[j]
  {
    if a == [] then 0 else if a[0] then 0 else 1 + FirstTrue(a[1..])
  }

  /** The elements of `xs` whose flag in `keep` is on, in their original order. */
  function Select<T>(xs: seq<T>, keep: seq<bool>): (r: seq<T>)
    requires |xs| == |keep|
    ensures |r| == CountTrue(keep)
    ensures CountTrue(keep) > 0 ==> FirstTrue(keep) < |xs| && r[0] == xs[FirstTrue(keep)]
  {
    if xs == [] then []
    else (if keep[0] then [xs[0]] else []) + Select(xs[1..], keep[1..])
  }

  function Sum(s: seq<int>): (total: int)
  {
    if s == [] then 0 else s[0] + Sum(s[1..])
  }

  /** Changing one entry changes the sum by exactly the difference. */
  lemma {:induction false} SumUpdate(s: seq<int>, k: nat, v: int)
    requires k < |s|
    ensures Sum(s[k := v]) == Sum(s) - s[k] + v
  {
    if k > 0 {
      assert s[k := v][1..] == s[1..][k - 1 := v];
      SumUpdate(s[1..], k - 1, v);
    } else {
      assert s[k := v][1..] == s[1..];
    }
  }

  // ---------------------------------------------------------------------------
  // Ranking: a stable sort of seats by balance, highest first

  /** Seat `i` is ranked ahead of seat `j`: a higher balance, or the same balance and
      an earlier seat (the sort is stable, so ties keep turn order). */
  predicate Ahead(b: seq<int>, i: nat, j: nat)
    requires i < |b| && j < |b|
  {
    b[i] > b[j] || (b[i] == b[j] && i < j)
  }

  /** `r` lists seats of `b` with every seat ranked ahead of all the later ones. */
  predicate RankedBy(b: seq<int>, r: seq<nat>)
  {
    (forall k :: 0 <= k < |r| ==> r[k] < |b|) &&
    (forall k, l :: 0 <= k < l < |r| ==> Ahead(b, r[k], r[l]))
  }

  /** Inserts seat `x` after every seat whose balance is at least `b[x]`. */
  function Insert(b: seq<int>, x: nat, s: seq<nat>): (r: seq<nat>)
    requires x < |b|
    requires forall k :: 0 <= k < |s| ==> s[k] < |b|
    ensures |r| == |s| + 1
    ensures forall e :: e in r <==> e == x || e in s
    ensures forall k :: 0 <= k < |r| ==> r[k] < |b|
  {
    if s == [] then [x]
    else if b[s[0]] >= b[x] then [s[0]] + Insert(b, x, s[1..])
    else [x] + s
  }

  /** The first `n` seats, sorted by balance, highest first, ties in seat order. */
  function RankPrefix(b: seq<int>, n: nat): (r: seq<nat>)
    requires n <= |b|
    ensures |r| == n
    ensures forall k :: 0 <= k < |r| ==> r[k] < n
  {
    if n == 0 then []
    else
      var r := Insert(b, n - 1, RankPrefix(b, n - 1));
      assert forall k :: 0 <= k < |r| ==> r[k] in r;
      r
  }

  /** All seats sorted by balance, highest first, ties in seat order. */
  function RankSeats(b: seq<int>): (r: seq<nat>)
    ensures |r| == |b|
  {
    RankPrefix(b, |b|)
  }

  lemma {:induction false} InsertRanked(b: seq<int>, x: nat, s: seq<nat>)
    requires x < |b| && RankedBy(b, s)
    requires forall k :: 0 <= k < |s| ==> s[k] < x
    ensures RankedBy(b, Insert(b, x, s))
  {
    if s != [] {
      if b[s[0]] >= b[x] {
        InsertRanked(b, x, s[1..]);
        var r := Insert(b, x, s);
        var t := Insert(b, x, s[1..]);
        assert r == [s[0]] + t;
        forall l | 0 < l < |r|
          ensures Ahead(b, r[0], r[l])
        {
          assert r[l] == t[l - 1];
          assert t[l - 1] in t;
          if t[l - 1] != x {
            var m :| 0 <= m < |s[1..]| && s[1..][m] == t[l - 1];
            assert Ahead(b, s[0], s[m + 1]);
          }
        }
      } else {
        var r := [x] + s;
        forall l | 0 < l < |r|
          ensures Ahead(b, r[0], r[l])
        {
          if l > 1 {
            assert Ahead(b, s[0], s[l - 1]);
          }
        }
      }
    }
  }

  /** The ranking is a permutation of the seats, sorted highest balance first with
      ties in seat order. */
  lemma {:induction false} RankSorted(b: seq<int>, n: nat)
    requires n <= |b|
    ensures RankedBy(b, RankPrefix(b, n))
    ensures forall i :: 0 <= i < n ==> i in RankPrefix(b, n)
  {
    if n > 0 {
      RankSorted(b, n - 1);
      InsertRanked(b, n - 1, RankPrefix(b, n - 1));
    }
  }

  /** Seats of `RankSeats(b)` are pairwise distinct and cover every seat. */
  lemma RankSeatsPermutation(b: seq<int>)
    ensures |RankSeats(b)| == |b|
    ensures forall i :: 0 <= i < |b| <==> i in RankSeats(b)
    ensures forall k, l :: 0 <= k < l < |b| ==> RankSeats(b)[k] != RankSeats(b)[l]
    ensures RankedBy(b, RankSeats(b))
  {
    RankSorted(b, |b|);
  }

  /** The head of the ranking holds the highest balance, and among the seats with
      that balance it is the earliest in turn order. */
  lemma RankHeadIsFirstMaximum(b: seq<int>)
    requires |b| > 0
    ensures var w := RankSeats(b)[0];
            w < |b| && forall i :: 0 <= i < |b| ==> b[i] <= b[w] && (b[i] == b[w] ==> w <= i)
  {
    var r := RankSeats(b);
    RankSeatsPermutation(b);
    forall i | 0 <= i < |b|
      ensures b[i] <= b[r[0]] && (b[i] == b[r[0]] ==> r[0] <= i)
    {
      assert i in r;
      var l :| 0 <= l < |r| && r[l] == i;
      if l > 0 {
        assert Ahead(b, r[0], r[l]);
      }
    }
  }

  /** The winner's seat: the sole active player if exactly one is left, otherwise
      the head of the ranking by balance. */
  function WinnerSeat(b: seq<int>, active: seq<bool>): (w: nat)
    requires |b| == |active| > 0
    ensures w < |b|
  {
    if CountTrue(active) == 1 then FirstTrue(active) else RankSeats(b)[0]
  }

  lemma WinnerSeatSpec(b: seq<int>, active: seq<bool>)
    requires |b| == |active| > 0
    ensures var w := WinnerSeat(b, active);
            w < |b| &&
            (CountTrue(active) == 1 ==> active[w] && forall i :: 0 <= i < |b| && i != w ==> !active[i]) &&
            (CountTrue(active) != 1 ==>
               forall i :: 0 <= i < |b| ==> b[i] <= b[w] && (b[i] == b[w] ==> w <= i))
  {
    if CountTrue(active) == 1 {
      CountTrueOne(active);
    } else {
      RankHeadIsFirstMaximum(b);
    }
  }

  /** How a game ends: the winning strategy and every strategy ranked. */
  datatype Standing = Standing(winner: string, ranking: seq<string>)

  /** The end of a game whose seats carry strategies `names`, balances `b` and
      active flags `active`: the winner is the sole active seat if one is left,
      otherwise the richest (earliest in turn order among equals); the ranking
      lists every seat's strategy by balance, highest first, ties in turn order. */
  function Standings(names: seq<string>, b: seq<int>, active: seq<bool>): (r: Standing)
    requires |names| == |b| == |active| > 0
    ensures |r.ranking| == |names|
    ensures forall i :: 0 <= i < |r.ranking| ==> r.ranking[i] == names[RankSeats(b)[i]]
    ensures r.winner == names[WinnerSeat(b, active)] && r.winner in r.ranking
  {
    var seats := RankSeats(b);
    RankSeatsPermutation(b);
    var winner := if CountTrue(active) == 1 then names[FirstTrue(active)] else names[seats[0]];
    var ranking := seq(|seats|, i requires 0 <= i < |seats| => names[seats[i]]);
    var w := WinnerSeat(b, active);
    assert w in seats;
    var l :| 0 <= l < |seats| && seats[l] == w;
    assert ranking[l] == winner;
    Standing(winner, ranking)
  }

  /** For a shuffled roster, the ranking names every strategy exactly once. */
  lemma StandingsListEveryName(order: seq<string>, b: seq<int>, active: seq<bool>)
    requires IsShuffle(order) && |order| == |b| == |active|
    ensures |order| == 4
    ensures var r := Standings(order, b, active);
            r.winner in Table &&
            (forall s :: s in r.ranking <==> s in StrategyNames) &&
            (forall i, j :: 0 <= i < j < |r.ranking| ==> r.ranking[i] != r.ranking[j])
  {
    ShuffleFacts(order);
    RankSeatsPermutation(b);
    var r := Standings(order, b, active);
    RankingListsEveryName(order, RankSeats(b), r.ranking);
  }

  /** A permutation of the four names has four pairwise distinct entries, each a key
      of the strategy table, and every name occurs in it. */
  lemma ShuffleFacts(order: seq<string>)
    requires IsShuffle(order)
    ensures |order| == 4
    ensures forall i :: 0 <= i < |order| ==> order[i] in Table
    ensures forall s :: s in order <==> s in StrategyNames
    ensures forall i, j :: 0 <= i < j < |order| ==> order[i] != order[j]
  {
    TableIsComplete();
    assert |multiset(order)| == |order|;
    ShuffleDistinct(order);
    forall s
      ensures s in order <==> s in StrategyNames
    {
      assert s in order <==> s in multiset(order);
      assert s in StrategyNames <==> s in multiset(StrategyNames);
    }
  }

  /** No name occurs twice in a permutation of four distinct names. */
  lemma ShuffleDistinct(order: seq<string>)
    requires IsShuffle(order)
    ensures forall i, j :: 0 <= i < j < |order| ==> order[i] != order[j]
  {
    assert |multiset(order)| == |order| == 4;
    forall i, j | 0 <= i < j < |order|
      ensures order[i] != order[j]
    {
      assert multiset(StrategyNames)[order[i]] <= 1;
    }
  }

  /** Listing the entries of a shuffled roster in the order of a permutation of its
      seats names every strategy exactly once. */
  lemma RankingListsEveryName(order: seq<string>, seats: seq<nat>, ranking: seq<string>)
    requires IsShuffle(order)
    requires |seats| == |order|
    requires forall k :: 0 <= k < |seats| ==> seats[k] < |order|
    requires forall i :: 0 <= i < |order| ==> i in seats
    requires forall k, l :: 0 <= k < l < |seats| ==> seats[k] != seats[l]
    requires |ranking| == |seats| && forall k :: 0 <= k < |seats| ==> ranking[k] == order[seats[k]]
    ensures forall s :: s in ranking <==> s in StrategyNames
    ensures forall k, l :: 0 <= k < l < |ranking| ==> ranking[k] != ranking[l]
  {
    ShuffleFacts(order);
    forall k, l | 0 <= k < l < |ranking|
      ensures ranking[k] != ranking[l]
    {
      assert seats[k] != seats[l];
    }
    forall s | s in ranking
      ensures s in StrategyNames
    {
      var k :| 0 <= k < |ranking| && ranking[k] == s;
      assert order[seats[k]] in order;
    }
    forall s | s in StrategyNames
      ensures s in ranking
    {
      var i :| 0 <= i < |order| && order[i] == s;
      assert i in seats;
      var l :| 0 <= l < |seats| && seats[l] == i;
      assert ranking[l] == s;
    }
  }

  // ---------------------------------------------------------------------------
  // The rules of a turn, on values

  /** What the engine knows of a player at a given moment. */
  datatype Seat = Seat(strategy: string, balance: int, position: int, properties: seq<nat>, active: bool)

  /** The board and the players, in turn order, at a given moment. */
  datatype GameState = GameState(board: seq<Property>, seats: seq<Seat>)

  /** The state after a turn, whether a lap was completed, whether the square was
      bought, and whether the random strategy was asked (using up one coin). */
  datatype TurnResult = TurnResult(state: GameState, lap: bool, bought: bool, drewCoin: bool)

  function BalancesOf(seats: seq<Seat>): (b: seq<int>)
  {
    seq(|seats|, i requires 0 <= i < |seats| => seats[i].balance)
  }

  function ActivesOf(seats: seq<Seat>): (a: seq<bool>)
  {
    seq(|seats|, i requires 0 <= i < |seats| => seats[i].active)
  }

  /** Twenty squares with their fixed positions, prices and rents; four players on
      the board with known strategies; ownership consistent in both directions
      (square `j` has owner `p` exactly when `j` is in `p`'s list); an inactive
      player owns nothing. */
  ghost predicate Consistent(g: GameState)
  {
    Owned(g) &&
    (forall p :: 0 <= p < |g.seats| && !g.seats[p].active ==> g.seats[p].properties == [])
  }

  /** Everything `Consistent` asks except that inactive players own nothing. */
  ghost predicate Owned(g: GameState)
  {
    |g.board| == BoardSize && |g.seats| == 4 &&
    (forall j :: 0 <= j < |g.board| ==> g.board[j] == Square(j).(owner := g.board[j].owner)) &&
    (forall j :: 0 <= j < |g.board| && g.board[j].owner.Some? ==> g.board[j].owner.value < |g.seats|) &&
    (forall p, j :: 0 <= p < |g.seats| && 0 <= j < |g.board| ==>
       (g.board[j].owner == Some(p) <==> j in g.seats[p].properties)) &&
    (forall p, j :: 0 <= p < |g.seats| && j in g.seats[p].properties ==> 0 <= j < |g.board|) &&
    (forall p :: 0 <= p < |g.seats| ==>
       0 <= g.seats[p].position < |g.board| && g.seats[p].strategy in Table)
  }

  /** A player is active exactly while its balance is not negative. */
  ghost predicate Solvent(g: GameState)
  {
    forall p :: 0 <= p < |g.seats| ==> (g.seats[p].active <==> g.seats[p].balance >= 0)
  }

  /** The board after the squares listed in `owned` lose their owner. */
  function Released(board: seq<Property>, owned: seq<nat>): (r: seq<Property>)
  {
    seq(|board|, j requires 0 <= j < |board| => if j in owned then board[j].(owner := None) else board[j])
  }

  /** The mover after moving `steps` squares on a loop of `boardSize`, with the lap
      bonus credited when the move wrapped. */
  function Moved(me: Seat, steps: int, boardSize: nat): (moved: Seat)
    requires boardSize > 0
  {
    var lap := CompletesLap(me.position, steps, boardSize);
    me.(position := (me.position + steps) % boardSize, balance := me.balance + (if lap then LapBonus else 0))
  }

  /** The state after landing, whether the square was bought, and whether the random
      strategy was asked (using up one coin). */
  datatype Landing = Landing(state: GameState, bought: bool, drewCoin: bool)

  /** Seat `k` stands on an unowned square: it buys it when its balance covers the
      price and its strategy approves (`coin` is the random strategy's answer). */
  function Offer(g: GameState, k: nat, coin: bool): (l: Landing)
    requires Consistent(g) && k < |g.seats|
  {
    var me := g.seats[k];
    var pos := me.position;
    var prop := g.board[pos];
    var asks := me.balance >= prop.price;
    var drew := asks && DrawsCoin(me.strategy);
    if asks && Approves(me.strategy, me.balance, prop, coin) then
      var buyer := me.(balance := me.balance - prop.price, properties := me.properties + [pos]);
      Landing(GameState(g.board[pos := prop.(owner := Some(k))], g.seats[k := buyer]), true, drew)
    else
      Landing(g, false, drew)
  }

  /** Seat `k` stands on the board, on a square owned by another seat. */
  predicate RentDue(g: GameState, k: nat)
  {
    k < |g.seats| && 0 <= g.seats[k].position < |g.board| &&
    var owner := g.board[g.seats[k].position].owner;
    owner.Some? && owner.value < |g.seats| && owner.value != k
  }

  /** Seat `k` stands on a square owned by another seat: it pays the rent to the
      owner and, if that leaves it below zero, leaves the game and gives up all its
      squares. */
  function PayRent(g: GameState, k: nat): (h: GameState)
    requires RentDue(g, k)
  {
    var prop := g.board[g.seats[k].position];
    var t := Transferred(g, k, prop.owner.value, prop.rent);
    if t.seats[k].active then t else Forfeited(t, k)
  }

  /** Seat `k` pays `amount` to seat `o`, and is out of the game if that leaves it
      below zero. */
  function Transferred(g: GameState, k: nat, o: nat, amount: int): (h: GameState)
    requires k < |g.seats| && o < |g.seats|
  {
    var me := g.seats[k];
    var payer := me.(balance := me.balance - amount, active := me.active && me.balance - amount >= 0);
    var seats := g.seats[k := payer];
    GameState(g.board, seats[o := seats[o].(balance := seats[o].balance + amount)])
  }

  /** Seat `k` gives up every square it owns. */
  function Forfeited(g: GameState, k: nat): (h: GameState)
    requires k < |g.seats|
  {
    GameState(Released(g.board, g.seats[k].properties), g.seats[k := g.seats[k].(properties := [])])
  }

  /** How the rent branch ends in the source as written: the call that should give
      up the bankrupt player's squares names a method players do not have, so the
      game stops with an error instead of going on. */
  datatype RentStep = Continues(state: GameState) | Raises

  /** The rent branch exactly as written: the transfer happens, and a payer left
      inactive reaches the misspelt call. */
  function PayRentAsWritten(g: GameState, k: nat): (r: RentStep)
    requires RentDue(g, k)
    ensures var me := g.seats[k];
            r.Raises? <==> !(me.active && me.balance - g.board[me.position].rent >= 0)
    ensures r.Continues? ==> r.state == PayRent(g, k)
  {
    var prop := g.board[g.seats[k].position];
    var t := Transferred(g, k, prop.owner.value, prop.rent);
    if t.seats[k].active then Continues(t) else Raises
  }

  /** A game the misspelt call stops: seat 0 owns square 2, has 10 left and lands
      on square 10, owned by seat 1, whose rent is 60. As written the turn raises;
      the corrected rule takes seat 0 out of the game owning nothing, frees square 2
      and credits the rent to seat 1. */
  lemma BankruptcyRaisesAsWritten()
    ensures var g := BankruptcyExample();
            RentDue(g, 0) && PayRentAsWritten(g, 0) == Raises &&
            !PayRent(g, 0).seats[0].active && PayRent(g, 0).seats[0].properties == [] &&
            PayRent(g, 0).board[2].owner == None && PayRent(g, 0).seats[1].balance == 1060
  {
    var g := BankruptcyExample();
    assert g.board[10] == Square(10).(owner := Some(1));
    assert g.seats[0].properties == [2];
    assert PayRent(g, 0).board == Released(g.board, [2]);
  }

  /** The example is a state the rules keep: ownership two-way, squares as laid out. */
  lemma BankruptcyExampleConsistent()
    ensures Consistent(BankruptcyExample())
  {
    var g := BankruptcyExample();
    assert forall p :: 0 <= p < |g.seats| ==> g.seats[p].strategy == StrategyNames[p];
    forall p, j | 0 <= p < |g.seats| && 0 <= j < |g.board|
      ensures g.board[j].owner == Some(p) <==> j in g.seats[p].properties
    {
      assert g.seats[p].properties == if p == 0 then [2] else if p == 1 then [10] else [];
    }
  }

  function BankruptcyExample(): (g: GameState)
  {
    var board := seq(BoardSize, j => Square(j).(owner := if j == 2 then Some(0) else if j == 10 then Some(1) else None));
    GameState(board, [Seat("impulsivo", 10, 10, [2], true), Seat("exigente", 1000, 3, [10], true),
                      Seat("cauteloso", 1000, 0, [], true), Seat("aleatorio", 1000, 0, [], true)])
  }

  /** What happens on the square seat `k` stands on: an offer if it is unowned, the
      rent if another seat owns it, nothing if it is the mover's own. */
  function Land(g: GameState, k: nat, coin: bool): (l: Landing)
    requires Consistent(g) && k < |g.seats|
  {
    var owner := g.board[g.seats[k].position].owner;
    if owner.None? then Offer(g, k, coin)
    else if owner.value == k then Landing(g, false, false)
    else Landing(PayRent(g, k), false, false)
  }

  /** One turn of seat `k` with die roll `steps`: the move (with the lap bonus),
      then the landing. */
  function Turn(g: GameState, k: nat, steps: int, coin: bool): (r: TurnResult)
    requires Consistent(g) && k < |g.seats|
  {
    var me := g.seats[k];
    var moved := GameState(g.board, g.seats[k := Moved(me, steps, |g.board|)]);
    MoveKeepsConsistent(g, k, steps);
    var l := Land(moved, k, coin);
    TurnResult(l.state, CompletesLap(me.position, steps, |g.board|), l.bought, l.drewCoin)
  }

  lemma MoveKeepsConsistent(g: GameState, k: nat, steps: int)
    requires Consistent(g) && k < |g.seats|
    ensures Consistent(GameState(g.board, g.seats[k := Moved(g.seats[k], steps, |g.board|)]))
  {
    var h := GameState(g.board, g.seats[k := Moved(g.seats[k], steps, |g.board|)]);
    assert forall p :: 0 <= p < |g.seats| ==> h.seats[p].properties == g.seats[p].properties;
  }

  lemma OfferKeepsConsistent(g: GameState, k: nat, coin: bool)
    requires Consistent(g) && k < |g.seats| && g.seats[k].active
    requires g.board[g.seats[k].position].owner.None?
    ensures Consistent(Offer(g, k, coin).state)
  {
    var h := Offer(g, k, coin).state;
    var pos := g.seats[k].position;
    if h != g {
      forall p, j | 0 <= p < |h.seats| && 0 <= j < |h.board|
        ensures h.board[j].owner == Some(p) <==> j in h.seats[p].properties
      {
        if j == pos && p != k {
          assert j !in g.seats[p].properties;
        }
      }
    }
  }

  lemma RentKeepsConsistent(g: GameState, k: nat)
    requires Consistent(g) && k < |g.seats|
    requires var owner := g.board[g.seats[k].position].owner; owner.Some? && owner.value != k
    ensures Consistent(PayRent(g, k))
  {
    var prop := g.board[g.seats[k].position];
    var o := prop.owner.value;
    var t := Transferred(g, k, o, prop.rent);
    assert forall p :: 0 <= p < |g.seats| ==>
      t.seats[p].properties == g.seats[p].properties && t.seats[p].position == g.seats[p].position &&
      t.seats[p].strategy == g.seats[p].strategy && (p != k ==> t.seats[p].active == g.seats[p].active);
    assert Owned(t);
    if !t.seats[k].active {
      ForfeitKeepsOwned(t, k);
    }
  }

  /** Giving up every square keeps ownership two-way, and leaves the seat owning
      nothing. */
  lemma ForfeitKeepsOwned(g: GameState, k: nat)
    requires Owned(g) && k < |g.seats|
    ensures Owned(Forfeited(g, k)) && Forfeited(g, k).seats[k].properties == []
  {
    var h := Forfeited(g, k);
    forall p, j | 0 <= p < |h.seats| && 0 <= j < |h.board|
      ensures h.board[j].owner == Some(p) <==> j in h.seats[p].properties
    {
      if j in g.seats[k].properties && p != k {
        assert g.board[j].owner == Some(k);
      }
    }
  }

  /** A turn keeps the state consistent: in particular ownership stays two-way and
      a player who leaves the game owns nothing afterwards. */
  lemma TurnKeepsConsistent(g: GameState, k: nat, steps: int, coin: bool)
    requires Consistent(g) && k < |g.seats| && g.seats[k].active
    ensures Consistent(Turn(g, k, steps, coin).state)
  {
    var moved := GameState(g.board, g.seats[k := Moved(g.seats[k], steps, |g.board|)]);
    MoveKeepsConsistent(g, k, steps);
    var owner := moved.board[moved.seats[k].position].owner;
    if owner.None? {
      OfferKeepsConsistent(moved, k, coin);
    } else if owner.value != k {
      RentKeepsConsistent(moved, k);
    }
  }

  /** With every player active exactly while solvent, a turn of an active player
      keeps it so: the lap bonus only adds, a purchase never overdraws (the balance
      covered the price), and a player who cannot cover the rent leaves the game. */
  lemma TurnKeepsSolvent(g: GameState, k: nat, steps: int, coin: bool)
    requires Consistent(g) && Solvent(g) && k < |g.seats| && g.seats[k].active
    ensures Solvent(Turn(g, k, steps, coin).state)
  {
    var moved := GameState(g.board, g.seats[k := Moved(g.seats[k], steps, |g.board|)]);
    MoveKeepsConsistent(g, k, steps);
    assert Solvent(moved);
    var owner := moved.board[moved.seats[k].position].owner;
    if owner.None? {
      assert Solvent(Offer(moved, k, coin).state);
    } else if owner.value != k {
      assert moved.seats[owner.value].active;
      assert Solvent(PayRent(moved, k));
    }
  }

  /** Rent is a transfer: the payer loses exactly what the owner gains, so the sum
      of all balances is unchanged. */
  lemma RentConservesMoney(g: GameState, k: nat)
    requires RentDue(g, k)
    ensures Sum(BalancesOf(PayRent(g, k).seats)) == Sum(BalancesOf(g.seats))
  {
    var prop := g.board[g.seats[k].position];
    var t := Transferred(g, k, prop.owner.value, prop.rent);
    TransferConservesMoney(g, k, prop.owner.value, prop.rent);
    assert BalancesOf(Forfeited(t, k).seats) == BalancesOf(t.seats);
  }

  lemma TransferConservesMoney(g: GameState, k: nat, o: nat, amount: int)
    requires k < |g.seats| && o < |g.seats| && k != o
    ensures Sum(BalancesOf(Transferred(g, k, o, amount).seats)) == Sum(BalancesOf(g.seats))
  {
    var b := BalancesOf(g.seats);
    var b1 := b[k := b[k] - amount];
    assert BalancesOf(Transferred(g, k, o, amount).seats) == b1[o := b[o] + amount];
    SumUpdate(b, k, b[k] - amount);
    SumUpdate(b1, o, b[o] + amount);
  }

  /** A purchase takes exactly the price out of the game's money; declining changes
      nothing. */
  lemma OfferMoney(g: GameState, k: nat, coin: bool)
    requires Consistent(g) && k < |g.seats|
    ensures var l := Offer(g, k, coin);
            Sum(BalancesOf(l.state.seats)) ==
              Sum(BalancesOf(g.seats)) - (if l.bought then g.board[g.seats[k].position].price else 0)
  {
    var l := Offer(g, k, coin);
    if l.bought {
      var me := g.seats[k];
      var b := BalancesOf(g.seats);
      var price := g.board[me.position].price;
      assert BalancesOf(l.state.seats) == b[k := me.balance - price];
      SumUpdate(b, k, me.balance - price);
    }
  }

  /** Money enters only through the lap bonus and leaves only through a purchase:
      rent moves from payer to owner and leaves the sum of balances unchanged. */
  lemma TurnMoney(g: GameState, k: nat, steps: int, coin: bool)
    requires Consistent(g) && k < |g.seats|
    ensures var r := Turn(g, k, steps, coin);
            var pos := (g.seats[k].position + steps) % |g.board|;
            Sum(BalancesOf(r.state.seats)) ==
              Sum(BalancesOf(g.seats)) + (if r.lap then LapBonus else 0) - (if r.bought then g.board[pos].price else 0)
  {
    var me := g.seats[k];
    var mover := Moved(me, steps, |g.board|);
    var moved := GameState(g.board, g.seats[k := mover]);
    MoveKeepsConsistent(g, k, steps);
    var b := BalancesOf(g.seats);
    assert BalancesOf(moved.seats) == b[k := mover.balance];
    SumUpdate(b, k, mover.balance);
    var owner := g.board[mover.position].owner;
    if owner.None? {
      OfferMoney(moved, k, coin);
    } else if owner.value != k {
      RentConservesMoney(moved, k);
    }
  }

  /** Only the mover can leave the game during its turn (by failing to cover a
      rent), so at most one player leaves per turn. */
  lemma TurnDeactivatesAtMostMover(g: GameState, k: nat, steps: int, coin: bool)
    requires Consistent(g) && k < |g.seats|
    ensures var a := ActivesOf(Turn(g, k, steps, coin).state.seats);
            a == ActivesOf(g.seats) || a == ActivesOf(g.seats)[k := false]
    ensures CountTrue(ActivesOf(Turn(g, k, steps, coin).state.seats)) >= CountTrue(ActivesOf(g.seats)) - 1
  {
    var a := ActivesOf(g.seats);
    var mover := Moved(g.seats[k], steps, |g.board|);
    var moved := GameState(g.board, g.seats[k := mover]);
    MoveKeepsConsistent(g, k, steps);
    assert ActivesOf(moved.seats) == a;
    var owner := g.board[mover.position].owner;
    if owner.None? {
      OfferKeepsActives(moved, k, coin);
    } else if owner.value != k {
      RentActives(moved, k);
    }
    CountTrueClear(a, k);
  }

  /** An offer changes no player's active flag. */
  lemma OfferKeepsActives(g: GameState, k: nat, coin: bool)
    requires Consistent(g) && k < |g.seats|
    ensures ActivesOf(Offer(g, k, coin).state.seats) == ActivesOf(g.seats)
  {
  }

  /** Paying rent can only switch off the payer's own active flag. */
  lemma RentActives(g: GameState, k: nat)
    requires RentDue(g, k)
    ensures var a := ActivesOf(PayRent(g, k).seats);
            a == ActivesOf(g.seats) || a == ActivesOf(g.seats)[k := false]
  {
    var prop := g.board[g.seats[k].position];
    var t := Transferred(g, k, prop.owner.value, prop.rent);
    assert ActivesOf(Forfeited(t, k).seats) == ActivesOf(t.seats);
    if t.seats[k].active {
      assert ActivesOf(t.seats) == ActivesOf(g.seats);
    } else {
      assert ActivesOf(t.seats) == ActivesOf(g.seats)[k := false];
    }
  }

  /** The purchase rule: a square is bought exactly when it is unowned, the balance
      after the move covers the price, and the strategy approves; the buyer then
      owns it and keeps a non-negative balance. The random strategy's coin is used
      up exactly when that strategy is asked. */
  lemma TurnPurchaseRule(g: GameState, k: nat, steps: int, coin: bool)
    requires Consistent(g) && k < |g.seats|
    ensures var r := Turn(g, k, steps, coin);
            var me := g.seats[k];
            var pos := (me.position + steps) % |g.board|;
            var funds := me.balance + (if r.lap then LapBonus else 0);
            var prop := g.board[pos];
            (r.bought <==> prop.owner.None? && funds >= prop.price && Approves(me.strategy, funds, prop, coin)) &&
            (r.bought ==> r.state.board[pos].owner == Some(k) && r.state.seats[k].balance == funds - prop.price >= 0) &&
            (r.drewCoin <==> prop.owner.None? && funds >= prop.price && DrawsCoin(me.strategy))
  {
    MoveKeepsConsistent(g, k, steps);
  }

  /** The move itself: the new position is the old one plus the roll around the
      20-square loop, and the lap flag is set exactly on a wrap; a roll of at most 6
      wraps at most once. */
  lemma TurnMove(g: GameState, k: nat, steps: int, coin: bool)
    requires Consistent(g) && k < |g.seats| && 1 <= steps <= 6
    ensures var r := Turn(g, k, steps, coin);
            var prev := g.seats[k].position;
            r.state.seats[k].position == (prev + steps) % BoardSize &&
            (r.lap <==> prev + steps >= BoardSize) &&
            (r.lap ==> r.state.seats[k].position == prev + steps - BoardSize)
  {
    MoveKeepsConsistent(g, k, steps);
    MoveWrapsAtMostOnce(g.seats[k].position, steps, BoardSize);
  }

  /** A cautious player keeps its reserve through a purchase: when a turn ends in a
      purchase by the cautious strategy, at least 80 is left. */
  lemma CautiousTurnKeepsReserve(g: GameState, k: nat, steps: int, coin: bool)
    requires Consistent(g) && k < |g.seats| && g.seats[k].strategy == StrategyNames[2]
    ensures var r := Turn(g, k, steps, coin);
            r.bought ==> r.state.seats[k].balance >= CautiousReserve
  {
    TurnPurchaseRule(g, k, steps, coin);
  }

  /** A demanding player only ever buys a square whose rent is above 50. */
  lemma DemandingTurnBuysHighRent(g: GameState, k: nat, steps: int, coin: bool)
    requires Consistent(g) && k < |g.seats| && g.seats[k].strategy == StrategyNames[1]
    ensures var r := Turn(g, k, steps, coin);
            var pos := (g.seats[k].position + steps) % |g.board|;
            r.bought ==> g.board[pos].rent > DemandingRentFloor
  {
    TurnPurchaseRule(g, k, steps, coin);
  }

  // ---------------------------------------------------------------------------
  // The rules of a round and of a game, on values

  /** The state when the board is laid out and the players are seated in `order`:
      every square unowned, every player on square 0 with `balance`, active and
      owning nothing. */
  function Initial(order: seq<string>, balance: int): (g: GameState)
    requires IsShuffle(order)
    ensures Consistent(g) && CountTrue(ActivesOf(g.seats)) == |g.seats| == 4
    ensures balance >= 0 ==> Solvent(g)
  {
    ShuffleFacts(order);
    var g := GameState(seq(BoardSize, j => Square(j)),
                       seq(|order|, i requires 0 <= i < |order| => Seat(order[i], balance, 0, [], true)));
    CountTrueAll(ActivesOf(g.seats));
    g
  }

  /** The state after a round, and the indices of the next die roll and coin. */
  datatype RoundResult = RoundResult(state: GameState, t: nat, c: nat)

  /** The rest of a round from seat `k` on: every seat still active plays a turn with
      the next die roll `roll(t)`, and the round stops as soon as a single player is
      left. A state that is not consistent, which no game reaches (`RoundFromKeeps`),
      is left as it is. */
  ghost function RoundFrom(g: GameState, k: nat, roll: nat -> int, t: nat, coins: nat -> bool, c: nat): (r: RoundResult)
    decreases |g.seats| - k
  {
    if k >= |g.seats| || !Consistent(g) then RoundResult(g, t, c)
    else if !g.seats[k].active then RoundFrom(g, k + 1, roll, t, coins, c)
    else
      var turn := Turn(g, k, roll(t), coins(c));
      var next := if turn.drewCoin then c + 1 else c;
      if CountTrue(ActivesOf(turn.state.seats)) == 1 then RoundResult(turn.state, t + 1, next)
      else RoundFrom(turn.state, k + 1, roll, t + 1, coins, next)
  }

  /** A round keeps the state consistent, leaves at least one player active (each
      turn switches off at most the mover, and the round stops at one), keeps every
      player active exactly while solvent, and only advances the roll and coin
      indices. */
  lemma {:induction false} RoundFromKeeps(g: GameState, k: nat, roll: nat -> int, t: nat, coins: nat -> bool, c: nat)
    requires Consistent(g) && CountTrue(ActivesOf(g.seats)) >= 2
    ensures var r := RoundFrom(g, k, roll, t, coins, c);
            Consistent(r.state) && CountTrue(ActivesOf(r.state.seats)) >= 1 && t <= r.t && c <= r.c &&
            (Solvent(g) ==> Solvent(r.state))
    decreases |g.seats| - k
  {
    if k < |g.seats| {
      if !g.seats[k].active {
        RoundFromKeeps(g, k + 1, roll, t, coins, c);
      } else {
        var turn := Turn(g, k, roll(t), coins(c));
        var next := if turn.drewCoin then c + 1 else c;
        TurnKeepsConsistent(g, k, roll(t), coins(c));
        TurnDeactivatesAtMostMover(g, k, roll(t), coins(c));
        if Solvent(g) {
          TurnKeepsSolvent(g, k, roll(t), coins(c));
        }
        if CountTrue(ActivesOf(turn.state.seats)) != 1 {
          RoundFromKeeps(turn.state, k + 1, roll, t + 1, coins, next);
        }
      }
    }
  }

  /** The state after a game, the number of rounds played, and the indices of the
      next die roll and coin. */
  datatype PlayResult = PlayResult(state: GameState, rounds: nat, t: nat, c: nat)

  /** The game from round `done` on: rounds are played while fewer than 1000 have
      been and more than one player is active. */
  ghost function PlayFrom(g: GameState, done: nat, roll: nat -> int, t: nat, coins: nat -> bool, c: nat): (r: PlayResult)
    decreases MaxRounds - done
  {
    if done >= MaxRounds || CountTrue(ActivesOf(g.seats)) <= 1 then PlayResult(g, done, t, c)
    else
      var round := RoundFrom(g, 0, roll, t, coins, c);
      PlayFrom(round.state, done + 1, roll, round.t, coins, round.c)
  }

  /** How a game ends: after at most 1000 rounds, with the state consistent and at
      least one player active; before the 1000th round only when a single player is
      left. The coin index only advances, and solvency is kept. */
  lemma {:induction false} PlayFromEnds(g: GameState, done: nat, roll: nat -> int, t: nat, coins: nat -> bool, c: nat)
    requires Consistent(g) && CountTrue(ActivesOf(g.seats)) >= 1 && done <= MaxRounds
    ensures var r := PlayFrom(g, done, roll, t, coins, c);
            Consistent(r.state) && done <= r.rounds <= MaxRounds &&
            CountTrue(ActivesOf(r.state.seats)) >= 1 &&
            (r.rounds < MaxRounds ==> CountTrue(ActivesOf(r.state.seats)) == 1) &&
            c <= r.c && (Solvent(g) ==> Solvent(r.state))
    decreases MaxRounds - done
  {
    if done < MaxRounds && CountTrue(ActivesOf(g.seats)) != 1 {
      var round := RoundFrom(g, 0, roll, t, coins, c);
      RoundFromKeeps(g, 0, roll, t, coins, c);
      PlayFromEnds(round.state, done + 1, roll, round.t, coins, round.c);
    }
  }

  /** One more round is played while fewer than 1000 have been and more than one
      player is active. */
  lemma PlayFromStep(g: GameState, done: nat, roll: nat -> int, t: nat, coins: nat -> bool, c: nat)
    requires Consistent(g) && CountTrue(ActivesOf(g.seats)) >= 2 && done < MaxRounds
    ensures var round := RoundFrom(g, 0, roll, t, coins, c);
            Consistent(round.state) && CountTrue(ActivesOf(round.state.seats)) >= 1 &&
            PlayFrom(g, done, roll, t, coins, c) == PlayFrom(round.state, done + 1, roll, round.t, coins, round.c)
  {
    RoundFromKeeps(g, 0, roll, t, coins, c);
  }

  /** A whole game seated in `order`: at least one round is played, since all four
      players start active. */
  lemma PlayStartsWithARound(order: seq<string>, balance: int, roll: nat -> int, coins: nat -> bool, c: nat)
    requires IsShuffle(order)
    ensures PlayFrom(Initial(order, balance), 0, roll, 0, coins, c).rounds >= 1
  {
    var g := Initial(order, balance);
    var round := RoundFrom(g, 0, roll, 0, coins, c);
    RoundFromKeeps(g, 0, roll, 0, coins, c);
    PlayFromEnds(round.state, 1, roll, round.t, coins, round.c);
  }

  // ---------------------------------------------------------------------------
  // The engine

  class Game {
    var board: array<Property>
    var players: seq<Player>
    const maxRounds: nat := MaxRounds
    const initialBalance: int

    /** A game with an empty board and no players; the random source of the
        original is replaced by the inputs of `Simulate`. */
    constructor (initialBalance: int)
      ensures this.initialBalance == initialBalance
      ensures board.Length == 0 && players == []
    {
      this.initialBalance := initialBalance;
      board := new Property[0];
      players := [];
    }

    function Balances(): (b: seq<int>)
      reads this, players
    {
      seq(|players|, i requires 0 <= i < |players| reads this, players => players[i].balance)
    }

    function Actives(): (a: seq<bool>)
      reads this, players
    {
      seq(|players|, i requires 0 <= i < |players| reads this, players => players[i].active)
    }

    /** The players still in the game, in turn order. */
    function ActivePlayers(): (r: seq<Player>)
      reads this, players
      ensures |r| == CountTrue(Actives())
      ensures |r| > 0 ==> FirstTrue(Actives()) < |players| && r[0] == players[FirstTrue(Actives())]
    {
      Select(players, Actives())
    }

    /** The current board and players as values. */
    ghost function State(): (g: GameState)
      reads this, board, players
    {
      GameState(board[..], seq(|players|, i requires 0 <= i < |players| reads this, players =>
        Seat(players[i].strategy, players[i].balance, players[i].position, players[i].properties, players[i].active)))
    }

    ghost predicate Valid()
      reads this, board, players
    {
      Distinct() && Consistent(State()) && (initialBalance >= 0 ==> Solvent(State()))
    }

    /** No player object sits at two seats. */
    ghost predicate Distinct()
      reads this
    {
      forall i, j :: 0 <= i < j < |players| ==> players[i] != players[j]
    }

    /** Lays out the 20 squares: square `j` sits at position `j`, costs
        100 + 10j, charges rent 10 + 5j and has no owner. */
    method Setup()
      modifies this`board
      ensures fresh(board) && board.Length == BoardSize
      ensures forall j :: 0 <= j < board.Length ==> board[j] == Square(j)
    {
      board := new Property[BoardSize](j => Square(j));
    }

    /** Seats the four players in the shuffled `order`; each is named after its
        strategy and starts with the initial balance at square 0, active, owning
        nothing. */
    method CreatePlayers(order: seq<string>)
      requires IsShuffle(order)
      modifies this`players
      ensures |players| == |order|
      ensures forall i :: 0 <= i < |players| ==>
                fresh(players[i]) && players[i].name == order[i] && players[i].strategy == order[i] &&
                players[i].balance == initialBalance && players[i].position == 0 &&
                players[i].properties == [] && players[i].active
      ensures forall i, j :: 0 <= i < j < |players| ==> players[i] != players[j]
    {
      players := [];
      var i := 0;
      while i < |order|
        invariant 0 <= i <= |order| && |players| == i
        invariant forall k :: 0 <= k < i ==>
                    fresh(players[k]) && players[k].name == order[k] && players[k].strategy == order[k] &&
                    players[k].balance == initialBalance && players[k].position == 0 &&
                    players[k].properties == [] && players[k].active
        invariant forall k, l :: 0 <= k < l < i ==> players[k] != players[l]
      {
        var p := new Player(order[i], order[i], initialBalance);
        players := players + [p];
        i := i + 1;
      }
    }

    /** The player at seat `k` stands on an unowned square: it buys it when its
        balance covers the price and its strategy approves; asking the random
        strategy uses up the coin `coins(c)`. */
    method OfferSquare(k: nat, coins: nat -> bool, c: nat) returns (next: nat, bought: bool)
      requires Distinct() && Consistent(State()) && k < |players| && 0 <= players[k].position < board.Length
      requires board[players[k].position].owner.None?
      modifies board, players[k]
      ensures var l := Offer(old(State()), k, coins(c));
              State() == l.state && bought == l.bought && next == (if l.drewCoin then c + 1 else c)
    {
      ghost var g := State();
      var player := players[k];
      var s := player.position;
      var prop := board[s];
      next := c;
      bought := false;
      if player.balance >= prop.price {
        if DrawsCoin(player.strategy) {
          next := c + 1;
        }
        if Approves(player.strategy, player.balance, prop, coins(c)) {
          player.Buy(board, s, k);
          bought := true;
          assert State().seats == g.seats[k := g.seats[k].(balance := g.seats[k].balance - prop.price,
                                                           properties := g.seats[k].properties + [s])];
        }
      }
    }

    /** The player at seat `k` stands on a square another player owns: it pays the
        rent to the owner, and if that leaves it below zero it is deactivated and
        gives up all its squares. */
    method ChargeRent(k: nat)
      requires Distinct() && RentDue(State(), k)
      requires forall j :: j in players[k].properties ==> j < board.Length
      modifies board, players
      ensures State() == PayRent(old(State()), k)
    {
      ghost var g := State();
      var player := players[k];
      assert player.position == g.seats[k].position;
      var prop := board[player.position];
      var o := prop.owner.value;
      Transfer(k, o, prop.rent);
      ghost var paid := State();
      assert player.properties == paid.seats[k].properties == g.seats[k].properties;
      assert player.active == paid.seats[k].active;
      if !player.active {
        Forfeit(k);
      }
    }

    /** Seat `k` pays `amount` to seat `o`: the payer leaves the game if that takes
        its balance below zero; nothing else changes. */
    method Transfer(k: nat, o: nat, amount: int)
      requires Distinct() && k < |players| && o < |players| && k != o
      modifies players[k], players[o]
      ensures State() == Transferred(old(State()), k, o, amount)
    {
      ghost var g := State();
      ghost var me := g.seats[k];
      players[k].Pay(amount);
      assert State().seats == g.seats[k := me.(balance := me.balance - amount, active := me.active && me.balance - amount >= 0)];
      ghost var mid := State();
      players[o].Receive(amount);
      assert State().seats == mid.seats[o := mid.seats[o].(balance := mid.seats[o].balance + amount)];
    }

    /** Seat `k` gives up all its squares: each of them loses its owner and the
        seat's list becomes empty; nothing else changes. */
    method Forfeit(k: nat)
      requires Distinct() && k < |players|
      requires forall j :: j in players[k].properties ==> j < board.Length
      modifies board, players[k]
      ensures State() == Forfeited(old(State()), k)
    {
      ghost var g := State();
      players[k].ReleaseProperties(board);
      assert board[..] == Released(g.board, g.seats[k].properties);
      assert State().seats == g.seats[k := g.seats[k].(properties := [])];
    }

    /** One turn of the active player at seat `k` with die roll `steps`; `c` is the
        index of the next outside coin. The new board and players are exactly those
        the rules of `Turn` give; the coin is used up only when the random strategy
        was asked. */
    method PlayTurn(k: nat, steps: int, coins: nat -> bool, c: nat) returns (next: nat, lap: bool, bought: bool)
      requires Valid() && k < |players| && players[k].active
      modifies board, players
      ensures Valid()
      ensures var r := Turn(old(State()), k, steps, coins(c));
              State() == r.state && lap == r.lap && bought == r.bought &&
              next == (if r.drewCoin then c + 1 else c)
    {
      ghost var g := State();
      lap := Advance(k, steps);
      MoveKeepsConsistent(g, k, steps);
      next, bought := LandOn(k, coins, c);
      TurnKeepsConsistent(g, k, steps, coins(c));
      if initialBalance >= 0 {
        TurnKeepsSolvent(g, k, steps, coins(c));
      }
    }

    /** The move of seat `k` by `steps` squares, with the lap bonus when it passes
        the start square; nothing else changes. */
    method Advance(k: nat, steps: int) returns (lap: bool)
      requires Distinct() && k < |players| && board.Length > 0
      modifies players[k]
      ensures var g := old(State());
              lap == CompletesLap(g.seats[k].position, steps, |g.board|) &&
              State() == GameState(g.board, g.seats[k := Moved(g.seats[k], steps, |g.board|)])
    {
      ghost var g := State();
      var player := players[k];
      lap := player.Move(steps, board.Length);
      if lap {
        player.Receive(LapBonus);
      }
      assert State().seats == g.seats[k := Moved(g.seats[k], steps, |g.board|)];
    }

    /** What happens on the square seat `k` has landed on, by the rules of `Land`:
        an offer if it is unowned, the rent if another player owns it, nothing if
        it is the player's own. */
    method LandOn(k: nat, coins: nat -> bool, c: nat) returns (next: nat, bought: bool)
      requires Distinct() && Consistent(State()) && k < |players|
      modifies board, players
      ensures var l := Land(old(State()), k, coins(c));
              State() == l.state && bought == l.bought && next == (if l.drewCoin then c + 1 else c)
    {
      ghost var g := State();
      assert players[k].position == g.seats[k].position;
      var prop := board[players[k].position];
      next := c;
      bought := false;
      if prop.owner.None? {
        next, bought := OfferSquare(k, coins, c);
      } else if prop.owner.value != k {
        ChargeRent(k);
      }
    }

    /** The players' active flags, read off the value snapshot. */
    lemma ActivesMatchState()
      ensures Actives() == ActivesOf(State().seats)
      ensures Balances() == BalancesOf(State().seats)
    {
    }

    /** Lays out the board and seats the players in `order`: the state is the
        initial one (every square unowned; every player on square 0 with the initial
        balance, active, owning nothing) and valid. */
    method Start(order: seq<string>)
      requires IsShuffle(order)
      modifies this
      ensures State() == Initial(order, initialBalance) && Valid()
      ensures fresh(board) && board.Length == BoardSize
      ensures forall j :: 0 <= j < board.Length ==> board[j] == Square(j) && board[j].owner == None
      ensures |players| == |order|
      ensures forall i :: 0 <= i < |players| ==>
                fresh(players[i]) && players[i].strategy == order[i] && players[i].balance == initialBalance &&
                players[i].position == 0 && players[i].properties == [] && players[i].active
    {
      ShuffleFacts(order);
      Setup();
      CreatePlayers(order);
      assert State().board == Initial(order, initialBalance).board;
      assert State().seats == Initial(order, initialBalance).seats;
    }

    /** Plays one game: setup, seating in `order`, then rounds until at most one
        player is active or `maxRounds` rounds have been played; inactive players
        are skipped and a round stops as soon as a single player is left. The final
        board and players, the number of rounds and the next unused coin are those
        of `PlayFrom` from the initial state; the winner and the ranking are the
        standings of the final balances and active flags. */
    method Simulate(order: seq<string>, roll: nat -> int, coins: nat -> bool, c0: nat)
      returns (winner: string, ranking: seq<string>, rounds: nat, c: nat)
      requires IsShuffle(order)
      modifies this
      ensures Valid()
      ensures |players| == |order| && forall i :: 0 <= i < |players| ==> players[i].strategy == order[i]
      ensures var p := PlayFrom(Initial(order, initialBalance), 0, roll, 0, coins, c0);
              State() == p.state && rounds == p.rounds && c == p.c
      ensures 1 <= rounds <= maxRounds
      ensures CountTrue(Actives()) >= 1
      ensures rounds < maxRounds ==> CountTrue(Actives()) == 1
      ensures var st := Standings(order, Balances(), Actives());
              winner == st.winner && ranking == st.ranking
    {
      Start(order);
      PlayStartsWithARound(order, initialBalance, roll, coins, c0);
      PlayFromEnds(State(), 0, roll, 0, coins, c0);
      ghost var t;
      rounds, c, t := PlayRounds(roll, coins, c0);
      ActivesMatchState();
      var names := Roster();
      assert names == order;
      var st := Standings(names, Balances(), Actives());
      winner, ranking := st.winner, st.ranking;
    }

    /** The players' strategies in turn order. */
    function Roster(): (names: seq<string>)
      reads this, players
      ensures |names| == |players| && forall i :: 0 <= i < |players| ==> names[i] == players[i].strategy
    {
      seq(|players|, i requires 0 <= i < |players| reads this => players[i].strategy)
    }

    /** The round loop of a game: rounds are played while fewer than `maxRounds`
        have been and more than one player is active. The new board and players, the
        number of rounds and the next coin index are those of `PlayFrom` from round 0
        and die roll 0. */
    method PlayRounds(roll: nat -> int, coins: nat -> bool, c0: nat) returns (rounds: nat, c: nat, ghost t: nat)
      requires Valid()
      modifies board, players
      ensures Valid() && Actives() == ActivesOf(State().seats)
      ensures PlayFrom(old(State()), 0, roll, 0, coins, c0) == PlayResult(State(), rounds, t, c)
    {
      ghost var final := PlayFrom(State(), 0, roll, 0, coins, c0);
      rounds := 0;
      c := c0;
      var die := 0;
      ActivesMatchState();
      while rounds < maxRounds && |ActivePlayers()| > 1
        invariant Valid() && rounds <= maxRounds && Actives() == ActivesOf(State().seats)
        invariant PlayFrom(State(), rounds, roll, die, coins, c) == final
        decreases maxRounds - rounds
      {
        die, c := NextRound(rounds, roll, die, coins, c);
        rounds := rounds + 1;
      }
      t := die;
    }

    method NextRound(done: nat, roll: nat -> int, t0: nat, coins: nat -> bool, c0: nat) returns (t: nat, c: nat)
      requires Valid() && CountTrue(ActivesOf(State().seats)) >= 2 && done < MaxRounds
      modifies board, players
      ensures Valid() && Actives() == ActivesOf(State().seats)
      ensures PlayFrom(State(), done + 1, roll, t, coins, c) == PlayFrom(old(State()), done, roll, t0, coins, c0)
    {
      PlayFromStep(State(), done, roll, t0, coins, c0);
      t, c := PlayRound(roll, t0, coins, c0);
      ActivesMatchState();
    }

    /** One round: every seat in turn order that is still active plays a turn with
        the next die roll; the round stops early once a single player is left. The
        new board and players and the next roll and coin indices are those of
        `RoundFrom` from seat 0. */
    method PlayRound(roll: nat -> int, t0: nat, coins: nat -> bool, c0: nat) returns (t: nat, c: nat)
      requires Valid() && CountTrue(ActivesOf(State().seats)) >= 2
      modifies board, players
      ensures Valid()
      ensures var r := RoundFrom(old(State()), 0, roll, t0, coins, c0);
              State() == r.state && t == r.t && c == r.c
    {
      t, c := t0, c0;
      var k := 0;
      while k < |players|
        invariant Valid()
        invariant 0 <= k <= |players|
        invariant CountTrue(ActivesOf(State().seats)) >= 2
        invariant RoundFrom(State(), k, roll, t, coins, c) == RoundFrom(old(State()), 0, roll, t0, coins, c0)
      {
        if players[k].active {
          var steps := roll(t);
          ghost var g := State();
          ghost var before := RoundFrom(g, k, roll, t, coins, c);
          ghost var coin := coins(c);
          t := t + 1;
          var lap, bought;
          c, lap, bought := PlayTurn(k, steps, coins, c);
          TurnDeactivatesAtMostMover(g, k, steps, coin);
          ActivesMatchState();
          if |ActivePlayers()| == 1 {
            assert before == RoundResult(State(), t, c);
            return;
          }
          assert before == RoundFrom(State(), k + 1, roll, t, coins, c);
        }
        k := k + 1;
      }
    }
  }

  // ---------------------------------------------------------------------------
  // Batch runs

  /** What one game reports: the winning strategy, all strategies ranked, and the
      number of rounds played. */
  datatype Outcome = Outcome(winner: string, ranking: seq<string>, rounds: nat)

  /** The report of a batch: a single game's outcome when one game was asked for,
      otherwise the number of games, the wins per strategy and the total of rounds
      (the percentages and the mean are these counts divided by the number of games). */
  datatype Report =
    | Single(winner: string, ranking: seq<string>, rounds: nat)
    | Aggregate(simulations: int, wins: map<string, nat>, totalRounds: nat)

  /** A game outcome as the engine produces it. */
  ghost predicate WellFormed(o: Outcome)
  {
    o.winner in Table && 1 <= o.rounds <= MaxRounds && |o.ranking| == 4 &&
    (forall s :: s in o.ranking <==> s in StrategyNames) &&
    (forall i, j :: 0 <= i < j < |o.ranking| ==> o.ranking[i] != o.ranking[j])
  }

  /** The winners of `results`, game by game. */
  function Winners(results: seq<Outcome>): (ws: seq<string>)
  {
    seq(|results|, i requires 0 <= i < |results| => results[i].winner)
  }

  function TotalRounds(results: seq<Outcome>): (total: nat)
  {
    if results == [] then 0 else TotalRounds(results[..|results| - 1]) + results[|results| - 1].rounds
  }

  /** Every game plays between 1 and 1000 rounds, so n games play between n and
      1000 n rounds in all. */
  lemma {:induction false} TotalRoundsBounds(results: seq<Outcome>)
    requires forall i :: 0 <= i < |results| ==> 1 <= results[i].rounds <= MaxRounds
    ensures |results| <= TotalRounds(results) <= MaxRounds * |results|
  {
    if results != [] {
      TotalRoundsBounds(results[..|results| - 1]);
    }
  }

  /** The sum of the counts in `m` of the names in `names`. */
  function CountsOf(m: multiset<string>, names: seq<string>): (count: nat)
  {
    if names == [] then 0 else m[names[0]] + CountsOf(m, names[1..])
  }

  lemma {:induction false} CountsOfAdd(m: multiset<string>, w: string, names: seq<string>)
    requires forall i, j :: 0 <= i < j < |names| ==> names[i] != names[j]
    ensures CountsOf(m + multiset{w}, names) == CountsOf(m, names) + (if w in names then 1 else 0)
  {
    if names != [] {
      CountsOfAdd(m, w, names[1..]);
      assert w in names <==> w == names[0] || w in names[1..];
    }
  }

  /** When every winner is one of the four strategies, their win counts add up to
      the number of games. */
  lemma {:induction false} WinCountsSumToGames(ws: seq<string>)
    requires forall i :: 0 <= i < |ws| ==> ws[i] in StrategyNames
    ensures CountsOf(multiset(ws), StrategyNames) == |ws|
  {
    TableIsComplete();
    if ws == [] {
      CountsOfNone(multiset{}, StrategyNames);
    } else {
      var init := ws[..|ws| - 1];
      WinCountsSumToGames(init);
      assert ws == init + [ws[|ws| - 1]];
      assert multiset(ws) == multiset(init) + multiset{ws[|ws| - 1]};
      CountsOfAdd(multiset(init), ws[|ws| - 1], StrategyNames);
    }
  }

  /** Names that do not occur count nothing. */
  lemma {:induction false} CountsOfNone(m: multiset<string>, names: seq<string>)
    requires forall i :: 0 <= i < |names| ==> m[names[i]] == 0
    ensures CountsOf(m, names) == 0
  {
    if names != [] {
      CountsOfNone(m, names[1..]);
    }
  }

  /** With the names pairwise distinct, `CountsOf` over the four strategy names is
      the sum of their four counts. */
  lemma CountsOfStrategyNames(m: multiset<string>)
    ensures CountsOf(m, StrategyNames) ==
            m[StrategyNames[0]] + m[StrategyNames[1]] + m[StrategyNames[2]] + m[StrategyNames[3]]
  {
    var ns := StrategyNames;
    assert ns[1..][1..][1..][1..] == [];
    assert CountsOf(m, ns[1..][1..][1..]) == m[ns[3]];
    assert CountsOf(m, ns[1..][1..]) == m[ns[2]] + m[ns[3]];
  }

  /** The counting loop of the batch: starts every strategy at zero wins, adds one
      win per game to the winner's entry (creating it if absent), and adds up the
      rounds. */
  method Tally(results: seq<Outcome>) returns (wins: map<string, nat>, totalRounds: nat)
    ensures wins == WinsOf(results)
    ensures totalRounds == TotalRounds(results)
  {
    wins := NoWins();
    totalRounds := 0;
    var i := 0;
    assert results[..0] == [];
    while i < |results|
      invariant 0 <= i <= |results|
      invariant wins == WinsOf(results[..i])
      invariant totalRounds == TotalRounds(results[..i])
    {
      var w := results[i].winner;
      assert results[..i + 1][..i] == results[..i];
      wins := wins[w := (if w in wins then wins[w] else 0) + 1];
      totalRounds := totalRounds + results[i].rounds;
      i := i + 1;
    }
    assert results[..i] == results;
  }

  /** The wins per strategy after counting `results` in order. */
  function WinsOf(results: seq<Outcome>): (wins: map<string, nat>)
  {
    if results == [] then NoWins()
    else
      var m := WinsOf(results[..|results| - 1]);
      var w := results[|results| - 1].winner;
      m[w := (if w in m then m[w] else 0) + 1]
  }

  /** The tally holds the four strategies and every winner, each with its number
      of wins. */
  lemma {:induction false} WinsOfCounts(results: seq<Outcome>)
    ensures Counts(WinsOf(results), Winners(results))
  {
    if results != [] {
      var init := results[..|results| - 1];
      WinsOfCounts(init);
      assert Winners(results) == Winners(init) + [results[|results| - 1].winner];
      CountsStep(WinsOf(init), Winners(init), results[|results| - 1].winner);
    }
  }

  /** `wins` holds the four strategies and every winner in `ws`, each with its
      number of wins in `ws`. */
  ghost predicate Counts(wins: map<string, nat>, ws: seq<string>)
  {
    (forall s :: s in wins <==> s in Table || s in ws) &&
    (forall s :: s in wins ==> wins[s] == multiset(ws)[s])
  }

  /** Adding one win for `w` (the entry starting at zero when absent) counts one
      more game. */
  lemma CountsStep(wins: map<string, nat>, ws: seq<string>, w: string)
    requires Counts(wins, ws)
    ensures Counts(wins[w := (if w in wins then wins[w] else 0) + 1], ws + [w])
  {
    assert multiset(ws + [w]) == multiset(ws) + multiset{w};
  }

  /** Every strategy with zero wins. */
  function NoWins(): (wins: map<string, nat>)
    ensures Counts(wins, [])
  {
    map s | s in Table.Keys :: 0
  }

  /** What a game seated in `order` reports, and the index of the next unused coin. */
  datatype Played = Played(outcome: Outcome, c: nat)

  /** The outcome of a game seated in `order` with die rolls `roll` and coins from
      index `c0` on: the standings of the state `PlayFrom` reaches from the initial
      state, with its number of rounds. */
  ghost function GameOutcome(initialBalance: int, order: seq<string>, roll: nat -> int, coins: nat -> bool, c0: nat): (r: Played)
    requires IsShuffle(order)
    ensures WellFormed(r.outcome) && c0 <= r.c
  {
    var p := PlayFrom(Initial(order, initialBalance), 0, roll, 0, coins, c0);
    PlayStartsWithARound(order, initialBalance, roll, coins, c0);
    PlayFromEnds(Initial(order, initialBalance), 0, roll, 0, coins, c0);
    ShuffleFacts(order);
    var b := BalancesOf(p.state.seats);
    var a := ActivesOf(p.state.seats);
    StandingsListEveryName(order, b, a);
    var st := Standings(order, b, a);
    Played(Outcome(st.winner, st.ranking, p.rounds), p.c)
  }

  /** The outcomes of a run of games, and the index of the next unused coin. */
  datatype BatchResult = BatchResult(results: seq<Outcome>, c: nat)

  /** The outcomes of a batch's first `i` games, game `j` seated in `orders(j)` with
      rolls `rolls(j)`, all drawing coins from one stream that starts at index 0:
      each game starts at the coin where the previous one stopped. */
  ghost function Batch(i: nat, initialBalance: int, orders: nat -> seq<string>, rolls: nat -> nat -> int,
                       coins: nat -> bool): (r: BatchResult)
    requires forall j :: IsShuffle(orders(j))
    ensures |r.results| == i && AllWellFormed(r.results)
  {
    if i == 0 then BatchResult([], 0)
    else
      var prev := Batch(i - 1, initialBalance, orders, rolls, coins);
      var p := GameOutcome(initialBalance, orders(i - 1), rolls(i - 1), coins, prev.c);
      AppendWellFormed(prev.results, p.outcome);
      BatchResult(prev.results + [p.outcome], p.c)
  }

  /** Plays one game on a fresh engine and reports its outcome; `c` is the index of
      the next unused outside coin before and after. */
  method RunGame(initialBalance: int, order: seq<string>, roll: nat -> int, coins: nat -> bool, c0: nat)
    returns (o: Outcome, c: nat)
    requires IsShuffle(order)
    ensures Played(o, c) == GameOutcome(initialBalance, order, roll, coins, c0)
    ensures WellFormed(o)
  {
    var g := new Game(initialBalance);
    var winner, ranking, rounds;
    winner, ranking, rounds, c := g.Simulate(order, roll, coins, c0);
    g.ActivesMatchState();
    o := Outcome(winner, ranking, rounds);
  }

  /** Runs `n` games and reports them. Game `i` is seated in `orders(i)` and rolls
      `rolls(i)`; the random strategy's coins come from one stream shared by all
      games. With `n` negative no game is played and every count is zero; `n` = 0
      is excluded because the percentages would divide by zero. One game is
      reported as it is; otherwise the report holds the number of games, each
      strategy's wins and the total of rounds over the games' outcomes `results`,
      which are those of `Batch`. */
  method SimulateGames(n: int, initialBalance: int, orders: nat -> seq<string>, rolls: nat -> nat -> int,
                       coins: nat -> bool) returns (report: Report, ghost results: seq<Outcome>)
    requires n != 0
    requires forall i :: IsShuffle(orders(i))
    ensures results == Batch(if n > 0 then n else 0, initialBalance, orders, rolls, coins).results
    ensures |results| == (if n > 0 then n else 0)
    ensures forall j :: 0 <= j < |results| ==> WellFormed(results[j])
    ensures n == 1 ==> report == Single(results[0].winner, results[0].ranking, results[0].rounds)
    ensures n != 1 ==> report.Aggregate? && report.simulations == n &&
                       report.wins == WinsOf(results) && report.totalRounds == TotalRounds(results)
    ensures n != 1 ==> report.Aggregate? && report.wins.Keys == Table.Keys
    ensures n > 1 ==> report.Aggregate? &&
                      report.wins[StrategyNames[0]] + report.wins[StrategyNames[1]] +
                      report.wins[StrategyNames[2]] + report.wins[StrategyNames[3]] == n &&
                      n <= report.totalRounds <= MaxRounds * n
    ensures n < 0 ==> report.Aggregate? && report.totalRounds == 0 &&
                      forall s :: s in report.wins ==> report.wins[s] == 0
  {
    var outcomes := RunGames(if n > 0 then n else 0, initialBalance, orders, rolls, coins);
    results := outcomes;
    if n == 1 {
      var r := outcomes[0];
      report := Single(r.winner, r.ranking, r.rounds);
    } else {
      report := Aggregated(n, outcomes);
    }
  }

  /** Plays `n` games in turn, game `i` seated in `orders(i)` with rolls `rolls(i)`,
      all drawing from one coin stream starting at index 0: the outcomes are those
      of `Batch`. */
  method RunGames(n: nat, initialBalance: int, orders: nat -> seq<string>, rolls: nat -> nat -> int,
                  coins: nat -> bool) returns (outcomes: seq<Outcome>)
    requires forall i :: IsShuffle(orders(i))
    ensures outcomes == Batch(n, initialBalance, orders, rolls, coins).results
  {
    outcomes := [];
    var c := 0;
    var i := 0;
    while i < n
      invariant i <= n && BatchResult(outcomes, c) == Batch(i, initialBalance, orders, rolls, coins)
    {
      var o;
      o, c := RunGame(initialBalance, orders(i), rolls(i), coins, c);
      outcomes := outcomes + [o];
      i := i + 1;
    }
  }

  /** Every outcome in `results` is well formed. */
  ghost predicate AllWellFormed(results: seq<Outcome>)
  {
    forall j :: 0 <= j < |results| ==> WellFormed(results[j])
  }

  lemma AppendWellFormed(results: seq<Outcome>, o: Outcome)
    requires AllWellFormed(results) && WellFormed(o)
    ensures AllWellFormed(results + [o])
  {
    forall j | 0 <= j < |results + [o]|
      ensures WellFormed((results + [o])[j])
    {
      if j < |results| {
        assert (results + [o])[j] == results[j];
      }
    }
  }

  /** The report of a batch of `n` games (n other than 1) whose outcomes are
      `results`: the number of games, the wins per strategy and the total of rounds. */
  method Aggregated(n: int, results: seq<Outcome>) returns (report: Report)
    requires n != 1 && |results| == (if n > 0 then n else 0)
    requires forall j :: 0 <= j < |results| ==> WellFormed(results[j])
    ensures report.Aggregate? && report.simulations == n && report.wins.Keys == Table.Keys
    ensures report.wins == WinsOf(results) && report.totalRounds == TotalRounds(results)
    ensures n > 1 ==> report.wins[StrategyNames[0]] + report.wins[StrategyNames[1]] +
                      report.wins[StrategyNames[2]] + report.wins[StrategyNames[3]] == n &&
                      n <= report.totalRounds <= MaxRounds * n
    ensures n < 0 ==> report.totalRounds == 0 && forall s :: s in report.wins ==> report.wins[s] == 0
  {
    var wins, totalRounds := Tally(results);
    WinsOfCounts(results);
    WinsAddUp(results, wins);
    TotalRoundsBounds(results);
    report := Aggregate(n, wins, totalRounds);
  }

  /** A tally of well-formed outcomes has exactly the four strategies as keys, and
      their win counts add up to the number of games. */
  lemma WinsAddUp(results: seq<Outcome>, wins: map<string, nat>)
    requires forall j :: 0 <= j < |results| ==> WellFormed(results[j])
    requires Counts(wins, Winners(results))
    ensures wins.Keys == Table.Keys
    ensures wins[StrategyNames[0]] + wins[StrategyNames[1]] + wins[StrategyNames[2]] + wins[StrategyNames[3]] ==
            |results|
  {
    TableIsComplete();
    var ws := Winners(results);
    forall j | 0 <= j < |ws|
      ensures ws[j] in StrategyNames && ws[j] in Table
    {
      assert WellFormed(results[j]);
    }
    SameKeys(wins, ws);
    WinCountsSumToGames(ws);
    CountsOfStrategyNames(multiset(ws));
  }

  lemma SameKeys(wins: map<string, nat>, ws: seq<string>)
    requires forall j :: 0 <= j < |ws| ==> ws[j] in Table
    requires forall s :: s in wins <==> s in Table || s in ws
    ensures wins.Keys == Table.Keys
  {
  }
}
