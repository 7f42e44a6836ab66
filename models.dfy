/** The two entities of the board game: a square of the board (`Property`) and a
    participant (`Player`). Ownership is kept by index: a property names its owner
    by the owner's seat in turn order, and a player lists the board indices of the
    squares it owns. */
module Models {

  datatype Option<T> = None | Some(value: T)

  /** A square of the board. Created once at setup; only `owner` ever changes. */
  datatype Property = Property(position: int, price: int, rent: int, owner: Option<nat>)

  /** True iff a move from `prev` by `steps` on a loop of `boardSize` squares passes
      (or lands on) the start square, i.e. completes a lap. */
  predicate CompletesLap(prev: int, steps: int, boardSize: int)
  {
    prev + steps >= boardSize
  }

  /** A move that starts on the board and is shorter than the board wraps at most
      once: it either stays ahead of `prev` without wrapping, or it completes exactly
      one lap and ends behind `prev`. */
  lemma MoveWrapsAtMostOnce(prev: int, steps: int, boardSize: int)
    requires 0 <= prev < boardSize
    requires 0 <= steps < boardSize
    ensures CompletesLap(prev, steps, boardSize) ==>
              (prev + steps) % boardSize == prev + steps - boardSize && (prev + steps) % boardSize < prev
    ensures !CompletesLap(prev, steps, boardSize) ==>
              (prev + steps) % boardSize == prev + steps && (prev + steps) % boardSize >= prev
  {
  }

  class Player {
    const name: string
    const strategy: string
    var balance: int
    var position: int
    /** Board indices of the squares this player owns, in order of purchase. */
    var properties: seq<nat>
    var active: bool

    /** A new player: `balance` is the game's initial balance; it stands at square 0,
        active, owning nothing. */
    constructor (name: string, strategy: string, balance: int)
      ensures this.name == name && this.strategy == strategy
      ensures this.balance == balance && position == 0
      ensures properties == [] && active
    {
      this.name := name;
      this.strategy := strategy;
      this.balance := balance;
      position := 0;
      properties := [];
      active := true;
    }

    /** Advances `steps` squares on a loop of `boardSize`; reports whether a lap was
        completed. Nothing but the position changes. */
    method Move(steps: int, boardSize: int) returns (completed: bool)
      requires boardSize > 0
      modifies this`position
      ensures position == (old(position) + steps) % boardSize
      ensures 0 <= position < boardSize
      ensures completed == CompletesLap(old(position), steps, boardSize)
    {
      var prev := position;
      position := (position + steps) % boardSize;
      completed := CompletesLap(prev, steps, boardSize);
    }

    /** Takes `amount` off the balance; a negative result deactivates the player for
        good (an inactive player is never reactivated). */
    method Pay(amount: int)
      modifies this`balance, this`active
      ensures balance == old(balance) - amount
      ensures active == (old(active) && balance >= 0)
    {
      balance := balance - amount;
      if balance < 0 {
        active := false;
      }
    }

    /** Adds `amount` to the balance; no bound and no other effect. */
    method Receive(amount: int)
      modifies this`balance
      ensures balance == old(balance) + amount
    {
      balance := balance + amount;
    }

    /** Buys square `j` of `board` for the player sitting at `seat`: the price is
        taken off the balance without any affordability check, the square is
        appended to `properties` and its owner becomes `seat`. */
    method Buy(board: array<Property>, j: nat, seat: nat)
      requires j < board.Length
      modifies this`balance, this`properties, board
      ensures balance == old(balance) - old(board[j].price)
      ensures properties == old(properties) + [j]
      ensures board[..] == old(board[..])[j := old(board[j]).(owner := Some(seat))]
    {
      balance := balance - board[j].price;
      properties := properties + [j];
      board[j] := board[j].(owner := Some(seat));
    }

    /** Gives up every owned square: each one listed in `properties` loses its owner,
        every other square is untouched, and the list becomes empty. */
    method ReleaseProperties(board: array<Property>)
      requires forall j :: j in properties ==> j < board.Length
      modifies this`properties, board
      ensures properties == []
      ensures forall j :: 0 <= j < board.Length ==>
                board[j] == if j in old(properties) then old(board[j]).(owner := None) else old(board[j])
    {
      var owned := properties;
      var i := 0;
      while i < |owned|
        invariant 0 <= i <= |owned|
        invariant forall j :: j in owned ==> j < board.Length
        invariant forall j :: 0 <= j < board.Length ==>
                    board[j] == if j in owned[..i] then old(board[j]).(owner := None) else old(board[j])
      {
        var j := owned[i];
        assert j in owned;
        board[j] := board[j].(owner := None);
        assert owned[..i + 1] == owned[..i] + [j];
        i := i + 1;
      }
      assert owned[..i] == owned;
      properties := [];
    }
  }
}
