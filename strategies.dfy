/** The four purchase rules. Each decides, for a player standing on an unowned
    square it can afford, whether to buy it. The only attribute of the player any
    rule looks at is its balance, so the rules take that balance as a value; being
    functions, none of them can change the player or the square. */
module Strategies {
  import opened Models

  /** Reserve that the cautious rule keeps after buying. */
  const CautiousReserve: int := 80
  /** Rent above which the demanding rule buys. */
  const DemandingRentFloor: int := 50

  /** Which predicate a strategy name stands for. */
  datatype Kind = Impulsive | Demanding | Cautious | Random

  /** The strategy names in the order the roster is listed before shuffling. */
  const StrategyNames: seq<string> := ["impulsivo", "exigente", "cauteloso", "aleatorio"]

  /** The dispatch table from strategy name to predicate. */
  const Table: map<string, Kind> :=
    map["impulsivo" := Impulsive, "exigente" := Demanding, "cauteloso" := Cautious, "aleatorio" := Random]

  function ImpulsiveStrategy(balance: int, prop: Property): (buys: bool)
    ensures buys
  {
    true
  }

  function DemandingStrategy(balance: int, prop: Property): (buys: bool)
    ensures buys <==> prop.rent > DemandingRentFloor
  {
    prop.rent > DemandingRentFloor
  }

  function CautiousStrategy(balance: int, prop: Property): (buys: bool)
    ensures buys <==> balance - prop.price >= CautiousReserve
  {
    balance - prop.price >= CautiousReserve
  }

  /** The random rule answers with an outside coin flip (a draw of the process-wide
      random source that is not the game's own generator); player and square play
      no part in it. */
  function RandomStrategy(balance: int, prop: Property, coin: bool): (buys: bool)
    ensures buys == coin
  {
    coin
  }

  /** Looks `name` up in the table and asks that predicate. */
  function Approves(name: string, balance: int, prop: Property, coin: bool): (buys: bool)
    requires name in Table
    ensures buys <==> (match Table[name]
                       case Impulsive => true
                       case Demanding => prop.rent > DemandingRentFloor
                       case Cautious => balance - prop.price >= CautiousReserve
                       case Random => coin)
  {
    match Table[name]
    case Impulsive => ImpulsiveStrategy(balance, prop)
    case Demanding => DemandingStrategy(balance, prop)
    case Cautious => CautiousStrategy(balance, prop)
    case Random => RandomStrategy(balance, prop, coin)
  }

  /** True iff asking the rule `name` draws a coin from the outside random source. */
  predicate DrawsCoin(name: string)
    requires name in Table
  {
    Table[name] == Random
  }

  /** The table has exactly the four names, each bound to its own predicate, and
      the names are pairwise distinct. */
  lemma TableIsComplete()
    ensures Table.Keys == set s | s in StrategyNames
    ensures |StrategyNames| == 4
    ensures forall i, j :: 0 <= i < j < |StrategyNames| ==> StrategyNames[i] != StrategyNames[j]
    ensures Table[StrategyNames[0]] == Impulsive && Table[StrategyNames[1]] == Demanding
    ensures Table[StrategyNames[2]] == Cautious && Table[StrategyNames[3]] == Random
  {
  }

  /** Only the random rule consults the coin; the other three are determined by
      balance and square alone. */
  lemma OnlyRandomUsesCoin(name: string, balance: int, prop: Property)
    requires name in Table
    ensures !DrawsCoin(name) ==> Approves(name, balance, prop, true) == Approves(name, balance, prop, false)
    ensures DrawsCoin(name) ==> Approves(name, balance, prop, true) && !Approves(name, balance, prop, false)
  {
  }

  /** The demanding rule at its threshold: rent 51 buys, rent 50 does not. */
  lemma DemandingThreshold(balance: int, price: int)
    ensures DemandingStrategy(balance, Property(0, price, 51, None))
    ensures !DemandingStrategy(balance, Property(1, price, 50, None))
  {
  }

  /** The cautious rule with balance 200: price 120 buys (80 left), price 150 does not (50 left). */
  lemma CautiousThreshold()
    ensures CautiousStrategy(200, Property(0, 120, 10, None))
    ensures !CautiousStrategy(200, Property(1, 150, 10, None))
  {
  }

  /** The deterministic rules are monotone: a richer player, or a square with a higher
      rent, is approved whenever a poorer player or a lower rent was. */
  lemma DeterministicRulesMonotone(name: string, b1: int, b2: int, p: Property, r2: int)
    requires name in Table && !DrawsCoin(name)
    requires b1 <= b2 && p.rent <= r2
    ensures Approves(name, b1, p, false) ==> Approves(name, b2, p.(rent := r2), false)
  {
  }
}
