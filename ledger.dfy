/** Sequences of card operations and the invariants they keep: the balance never passes the
    ceiling, the journey history only grows, and every change of balance is either an accepted
    top-up or the fare of a journey recorded in the history. */
module Ledger {
  import opened Wrappers
  import opened Stations
  import opened Journeys
  import opened Oystercards

  datatype Event =
    | TopUpEvent(amount: int)
    | TouchInEvent(station: Station)
    | TouchOutEvent(station: Station)

  function Apply(c: CardState, e: Event): Step {
    match e
    case TopUpEvent(amount) => c.TopUp(amount)
    case TouchInEvent(station) => c.TouchIn(station)
    case TouchOutEvent(station) => Step(c.TouchOut(station), Pass)
  }

  /** The state after running the events in order; a failed operation leaves the state as it was. */
  function Run(c: CardState, events: seq<Event>): CardState
    decreases |events|
  {
    if events == [] then c else Run(Apply(c, events[0]).next, events[1..])
  }

  function TouchOuts(events: seq<Event>): nat {
    if events == [] then 0 else (if events[0].TouchOutEvent? then 1 else 0) + TouchOuts(events[1..])
  }

  /** The total of the top-ups that were accepted while running the events. */
  function Credited(c: CardState, events: seq<Event>): int
    decreases |events|
  {
    if events == [] then 0
    else
      var step := Apply(c, events[0]);
      (if events[0].TopUpEvent? && step.outcome.Pass? then events[0].amount else 0)
      + Credited(step.next, events[1..])
  }

  /** The fares that the recorded journeys cost. */
  function Fares(trips: seq<Trip>): int {
    if trips == [] then 0 else FareFor(trips[0].entry) + Fares(trips[1..])
  }

  /** One touch-in followed by one touch-out per (entry, exit) pair. */
  function Commutes(pairs: seq<(Station, Station)>): seq<Event> {
    if pairs == [] then [] else [TouchInEvent(pairs[0].0), TouchOutEvent(pairs[0].1)] + Commutes(pairs[1..])
  }

  function CommuteTrips(pairs: seq<(Station, Station)>): seq<Trip> {
    if pairs == [] then [] else [Trip(Some(pairs[0].0), pairs[0].1)] + CommuteTrips(pairs[1..])
  }

  /** A failed operation changes nothing: only a top-up or a touch-in can fail, and each leaves the state as it was. */
  lemma FailedStepChangesNothing(c: CardState, e: Event)
    ensures Apply(c, e).outcome.Fail? ==> Apply(c, e).next == c
  {
    match e
    case TopUpEvent(amount) => TopUpWithinCeiling(c, amount);
    case TouchInEvent(station) => TouchInNeedsMinimumFare(c, station);
    case TouchOutEvent(_) =>
  }

  lemma {:induction false} RunKeepsCeiling(c: CardState, events: seq<Event>)
    requires c.balance <= MAXIMUM_BALANCE
    ensures Run(c, events).balance <= MAXIMUM_BALANCE
    decreases |events|
  {
    if events != [] {
      RunKeepsCeiling(Apply(c, events[0]).next, events[1..]);
    }
  }

  /** The history is append-only: the old history is a prefix of the new one, and each touch-out adds one entry. */
  lemma {:induction false} RunExtendsHistory(c: CardState, events: seq<Event>)
    ensures c.journey.history <= Run(c, events).journey.history
    ensures |Run(c, events).journey.history| == |c.journey.history| + TouchOuts(events)
    decreases |events|
  {
    if events != [] {
      var next := Apply(c, events[0]).next;
      RunExtendsHistory(next, events[1..]);
    }
  }

  lemma {:induction false} RunConcat(c: CardState, a: seq<Event>, b: seq<Event>)
    ensures Run(c, a + b) == Run(Run(c, a), b)
    decreases |a|
  {
    if a != [] {
      assert (a + b)[0] == a[0];
      assert (a + b)[1..] == a[1..] + b;
      RunConcat(Apply(c, a[0]).next, a[1..], b);
    } else {
      assert a + b == b;
    }
  }

  /** Every change of balance is accounted for: the final balance is the initial one, plus the
      accepted top-ups, minus the fare of every journey recorded while running the events. */
  lemma {:induction false} RunLedger(c: CardState, events: seq<Event>)
    ensures |c.journey.history| <= |Run(c, events).journey.history|
         && Run(c, events).balance
         == c.balance + Credited(c, events) - Fares(Run(c, events).journey.history[|c.journey.history|..])
    decreases |events|
  {
    RunExtendsHistory(c, events);
    var final := Run(c, events).journey.history;
    var k := |c.journey.history|;
    if events == [] {
      assert final[k..] == [];
    } else {
      var next := Apply(c, events[0]).next;
      RunLedger(next, events[1..]);
      RunExtendsHistory(next, events[1..]);
      if events[0].TouchOutEvent? {
        var exit := events[0].station;
        assert next.journey.history == c.journey.history + [Trip(c.journey.entry, exit)];
        assert final[k] == next.journey.history[k];
        assert final[k..][1..] == final[k + 1..];
      } else {
        assert next.journey.history == c.journey.history;
      }
    }
  }

  /** Running k touch-in/touch-out cycles on a card with no open journey and a balance of at least
      k minimum fares charges exactly k minimum fares and records exactly those k journeys, in order. */
  lemma {:induction false} CommutesCostMinimumFares(c: CardState, pairs: seq<(Station, Station)>)
    requires c.journey.entry == None
    requires c.balance >= |pairs| * MINIMUM_FARE
    ensures Run(c, Commutes(pairs))
         == CardState(c.balance - |pairs| * MINIMUM_FARE, Tracker(None, c.journey.history + CommuteTrips(pairs)))
    decreases |pairs|
  {
    if pairs != [] {
      var (entry, exit) := pairs[0];
      var cycle := [TouchInEvent(entry), TouchOutEvent(exit)];
      var after := CardState(c.balance - MINIMUM_FARE, Tracker(None, c.journey.history + [Trip(Some(entry), exit)]));
      assert Run(c, cycle) == after by {
        var mid := Apply(c, cycle[0]).next;
        assert mid == CardState(c.balance, Tracker(Some(entry), c.journey.history));
        assert cycle[1..] == [TouchOutEvent(exit)];
        assert Run(mid, cycle[1..]) == Run(after, []);
      }
      RunConcat(c, cycle, Commutes(pairs[1..]));
      CommutesCostMinimumFares(after, pairs[1..]);
      assert c.journey.history + CommuteTrips(pairs)
          == (c.journey.history + [Trip(Some(entry), exit)]) + CommuteTrips(pairs[1..]);
    }
  }
}
