/** The stored-value travel card: a balance with a top-up ceiling, a minimum balance to touch in,
    a flat fare for a completed journey and a penalty fare for touching out without touching in. */
module Oystercards {
  import opened Wrappers
  import opened Stations
  import opened Journeys

  const MAXIMUM_BALANCE: int := 90
  const MINIMUM_FARE: int := 1
  const PENALTY_FARE: int := 6

  datatype Error =
    | BalanceExceeded(maximum: int)  // a top-up would push the balance past the ceiling
    | InsufficientFunds              // touching in with less than the minimum fare

  datatype Outcome = Pass | Fail(error: Error)

  /** What touching out charges: the minimum fare for a journey that was touched in, the penalty otherwise. */
  function FareFor(entry: Option<Station>): int {
    if entry.Some? then MINIMUM_FARE else PENALTY_FARE
  }

  /** The state an operation leaves the card in, and whether the operation succeeded. */
  datatype Step = Step(next: CardState, outcome: Outcome)

  /** The observable state of a card: its balance and its journey tracker. */
  datatype CardState = CardState(balance: int, journey: Tracker)
  {
    function TopUp(amount: int): Step {
      if balance + amount > MAXIMUM_BALANCE then Step(this, Fail(BalanceExceeded(MAXIMUM_BALANCE)))
      else Step(this.(balance := balance + amount), Pass)
    }

    function TouchIn(station: Station): Step {
      if balance < MINIMUM_FARE then Step(this, Fail(InsufficientFunds))
      else Step(this.(journey := journey.Start(station)), Pass)
    }

    function TouchOut(station: Station): CardState {
      CardState(balance - FareFor(journey.entry), journey.Finish(station))
    }
  }

  const NewCard: CardState := CardState(0, Idle)

  class Card {
    var balance: int
    const journey: Journey

    /** The balance never exceeds the top-up ceiling, and the tracker is consistent. */
    ghost predicate Valid()
      reads this, journey
    {
      journey.Valid() && balance <= MAXIMUM_BALANCE
    }

    function State(): CardState
      reads this, journey
    {
      CardState(balance, journey.Value())
    }

    constructor ()
      ensures Valid() && fresh(journey)
      ensures State() == NewCard
    {
      balance := 0;
      journey := new Journey();
    }

    method TopUp(amount: int) returns (r: Outcome)
      requires Valid()
      modifies this
      ensures Valid()
      ensures Step(State(), r) == old(State()).TopUp(amount)
    {
      if balance + amount > MAXIMUM_BALANCE {
        r := Fail(BalanceExceeded(MAXIMUM_BALANCE));
      } else {
        balance := balance + amount;
        r := Pass;
      }
    }

    method TouchIn(station: Station) returns (r: Outcome)
      requires Valid()
      modifies journey
      ensures Valid()
      ensures Step(State(), r) == old(State()).TouchIn(station)
    {
      if balance < MINIMUM_FARE {
        r := Fail(InsufficientFunds);
      } else {
        journey.Start(station);
        r := Pass;
      }
    }

    method TouchOut(station: Station)
      requires Valid()
      modifies this, journey
      ensures Valid()
      ensures State() == old(State()).TouchOut(station)
    {
      balance := balance - FareFor(journey.entryStation);
      journey.Finish(station);
    }
  }

  /** A top-up succeeds exactly when the resulting balance stays within the maximum; it then adds
      exactly the amount and leaves the journey alone; otherwise it reports the maximum and changes nothing. */
  lemma TopUpWithinCeiling(c: CardState, amount: int)
    ensures c.TopUp(amount).outcome.Pass? <==> c.balance + amount <= MAXIMUM_BALANCE
    ensures c.TopUp(amount).outcome.Pass? ==>
      c.TopUp(amount).next.balance == c.balance + amount && c.TopUp(amount).next.journey == c.journey
    ensures c.TopUp(amount).outcome.Fail? ==>
      c.TopUp(amount) == Step(c, Fail(BalanceExceeded(MAXIMUM_BALANCE)))
  {
  }

  /** Touching in succeeds exactly when the balance covers the minimum fare; it then records the entry
      station and nothing else; otherwise it reports insufficient funds and changes nothing. */
  lemma TouchInNeedsMinimumFare(c: CardState, station: Station)
    ensures c.TouchIn(station).outcome.Pass? <==> c.balance >= MINIMUM_FARE
    ensures c.TouchIn(station).outcome.Pass? ==>
      c.TouchIn(station).next == CardState(c.balance, Tracker(Some(station), c.journey.history))
    ensures c.TouchIn(station).outcome.Fail? ==> c.TouchIn(station) == Step(c, Fail(InsufficientFunds))
  {
  }

  /** Touching out after touching in at `entry` charges exactly the minimum fare, clears the entry
      station and records the journey from `entry` to `exit`; without a touch-in it charges the penalty. */
  lemma TouchOutCharges(c: CardState, exit: Station)
    ensures c.journey.entry.Some? ==> c.TouchOut(exit).balance == c.balance - MINIMUM_FARE
    ensures c.journey.entry.None? ==> c.TouchOut(exit).balance == c.balance - PENALTY_FARE
    ensures c.TouchOut(exit).journey.entry == None
    ensures c.TouchOut(exit).journey.history == c.journey.history + [Trip(c.journey.entry, exit)]
  {
  }
}
