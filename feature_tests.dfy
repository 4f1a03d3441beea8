/** The card's feature scenarios, each written as a client of the Card and Journey classes:
    what a caller can conclude from the classes' contracts alone. */
module FeatureTests {
  import opened Wrappers
  import opened Stations
  import opened Journeys
  import opened Oystercards

  method NewCardHasZeroBalance() returns (balance: int)
    ensures balance == 0
  {
    var card := new Card();
    balance := card.balance;
  }

  method TopUpRaisesBalanceByAmount() returns (change: int)
    ensures change == 1
  {
    var card := new Card();
    var before := card.balance;
    var _ := card.TopUp(1);
    change := card.balance - before;
  }

  /** Topping up to exactly the maximum succeeds; one more unit is refused and the balance stays put. */
  method TopUpPastMaximumFails() returns (first: Outcome, second: Outcome, balance: int)
    ensures first == Pass
    ensures second == Fail(BalanceExceeded(MAXIMUM_BALANCE))
    ensures balance == MAXIMUM_BALANCE
  {
    var card := new Card();
    first := card.TopUp(MAXIMUM_BALANCE);
    second := card.TopUp(1);
    balance := card.balance;
  }

  method TouchInRecordsEntryStation(station: Station) returns (r: Outcome, entry: Option<Station>)
    ensures r == Pass && entry == Some(station)
  {
    var card := new Card();
    var _ := card.TopUp(MINIMUM_FARE);
    r := card.TouchIn(station);
    entry := card.journey.entryStation;
  }

  method TouchInWithZeroBalanceFails(station: Station) returns (r: Outcome, entry: Option<Station>)
    ensures r == Fail(InsufficientFunds) && entry == None
  {
    var card := new Card();
    r := card.TouchIn(station);
    entry := card.journey.entryStation;
  }

  /** After topping up the minimum fare and touching in, touching out charges the minimum fare
      and clears the entry station. */
  method TouchOutChargesAndClears(station: Station) returns (change: int, entry: Option<Station>)
    ensures change == -MINIMUM_FARE
    ensures entry == None
  {
    var card := new Card();
    var _ := card.TopUp(MINIMUM_FARE);
    var _ := card.TouchIn(station);
    var before := card.balance;
    card.TouchOut(station);
    change := card.balance - before;
    entry := card.journey.entryStation;
  }

  method RecallsPreviousJourneys(entry: Station, exit: Station) returns (history: seq<Trip>)
    ensures history == [Trip(Some(entry), exit)]
  {
    var card := new Card();
    var _ := card.TopUp(MINIMUM_FARE);
    var _ := card.TouchIn(entry);
    card.TouchOut(exit);
    history := card.journey.history;
  }

  method NewJourneyIsNotInJourney() returns (entry: Option<Station>)
    ensures entry == None
  {
    var journey := new Journey();
    entry := journey.entryStation;
  }

  method PenaltyWithoutTouchIn(station: Station) returns (change: int)
    ensures change == -6
  {
    var card := new Card();
    var _ := card.TopUp(20);
    var before := card.balance;
    card.TouchOut(station);
    change := card.balance - before;
  }
}
