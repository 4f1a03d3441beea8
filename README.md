# Oyster card — a verified Dafny model

A model of a stored-value travel card (the "Oystercard") and its journey tracker.
The card holds a balance. Topping up is refused when it would take the balance past
`MAXIMUM_BALANCE`. Touching in is refused when the balance is below `MINIMUM_FARE`;
otherwise it records the entry station in the tracker's current-journey slot.
Touching out charges the minimum fare when a journey was touched in, or the
penalty fare of 6 when it was not. It then closes the current journey into the
append-only journey history and clears the slot.

Files (one module each):

- `wrappers.dfy`: `Option`, for the journey slots that may be nil.
- `station.dfy`: `Station`, an immutable name/zone value; the model only compares stations for equality.
- `journey.dfy`: the `Tracker` value (current entry station and history) with `Start`/`Finish`,
  and the `Journey` class whose methods update its slots and history in place.
- `oystercard.dfy`: the constants, the `Error`/`Outcome` datatypes standing for the raised errors,
  the `CardState` value with `TopUp`/`TouchIn`/`TouchOut`, and the `Card` class. Each class method
  is proved to move the object exactly as the matching `CardState` function says.
- `ledger.dfy`: runs of operations and the invariants they keep. The balance never passes the
  ceiling. The history only grows, by one trip per touch-out. Every change of balance is an
  accepted top-up or the fare of a journey recorded in the history. k commutes cost k minimum fares.
- `feature_tests.dfy`: each feature scenario as a client of the classes, proved from their contracts.

Constants: `MAXIMUM_BALANCE = 90` and `MINIMUM_FARE = 1`. The scenarios do not fix these two;
they only need `0 < MINIMUM_FARE <= MAXIMUM_BALANCE` and `20 <= MAXIMUM_BALANCE`, and both values
hold for these. `PENALTY_FARE = 6` is fixed by the penalty scenario.

Modelling choices on points the scenarios leave open:

- A second touch-in while a journey is open overwrites the entry station.
- A touch-out without a touch-in is still recorded in the history, with no entry station.
- Touching out has no balance floor, so the balance is an `int` and may go negative.

## Model

| member | source | states |
|---|---|---|
| `Oystercards.Card.constructor` | spec/feature_tests_spec.rb:11-13 | a new card has balance 0, no open journey and an empty history |
| `Oystercards.Card.TopUp` | spec/feature_tests_spec.rb:15-22 | the card moves exactly as `CardState.TopUp` says and keeps its balance within the maximum |
| `Oystercards.Card.TouchIn` | spec/feature_tests_spec.rb:27-37 | the card moves exactly as `CardState.TouchIn` says; the balance is not changed |
| `Oystercards.Card.TouchOut` | spec/feature_tests_spec.rb:50-62 | the card moves exactly as `CardState.TouchOut` says: fare deducted, journey closed into the history |
| `Oystercards.TopUpWithinCeiling` | spec/feature_tests_spec.rb:15-22 | top-up succeeds iff balance + amount <= maximum; success adds exactly the amount; failure reports the maximum and changes nothing |
| `Oystercards.TouchInNeedsMinimumFare` | spec/feature_tests_spec.rb:27-37 | touch-in succeeds iff balance >= minimum fare; success sets the entry station; failure is InsufficientFunds and changes nothing |
| `Oystercards.TouchOutCharges` | spec/feature_tests_spec.rb:110-113 | touch-out charges the minimum fare after a touch-in and the penalty otherwise, clears the entry and appends the trip (given the choice that a penalty touch-out is recorded) |
| `Journeys.Journey.constructor` | spec/feature_tests_spec.rb:104-107 | a fresh journey tracker has no entry station and no history |
| `Journeys.Journey.Start` | spec/feature_tests_spec.rb:27-31 | starting sets the entry station and keeps the history |
| `Journeys.Journey.Finish` | spec/feature_tests_spec.rb:59-62 | finishing appends the closed journey to the history and resets the current journey to empty |
| `Journeys.FinishRecordsTrip` | spec/feature_tests_spec.rb:67-74 | finishing keeps every earlier trip, adds exactly one trip made of the current entry and the exit, and leaves no open journey |
| `Ledger.FailedStepChangesNothing` | spec/feature_tests_spec.rb:19-37 | a refused top-up or touch-in leaves balance and journey state unchanged |
| `Ledger.RunKeepsCeiling` | spec/feature_tests_spec.rb:19-22 | over any sequence of operations the balance never exceeds the maximum |
| `Ledger.RunExtendsHistory` | spec/feature_tests_spec.rb:67-74 | the history is append-only: the old history is a prefix and grows by one per touch-out (given the choice that a penalty touch-out is recorded) |
| `Ledger.RunLedger` | spec/feature_tests_spec.rb:55-56 | final balance = initial balance + accepted top-ups - the fares of the journeys recorded meanwhile (given the choice that a penalty touch-out is recorded) |
| `Ledger.CommutesCostMinimumFares` | spec/feature_tests_spec.rb:45-74 | k touch-in/touch-out cycles with enough funds cost exactly k minimum fares and record those k journeys in order |
| `FeatureTests.NewCardHasZeroBalance` | spec/feature_tests_spec.rb:11-13 | a new card's balance is 0 |
| `FeatureTests.TopUpRaisesBalanceByAmount` | spec/feature_tests_spec.rb:15-17 | top_up(1) changes the balance by 1 |
| `FeatureTests.TopUpPastMaximumFails` | spec/feature_tests_spec.rb:19-22 | topping up to exactly the maximum succeeds; top_up(1) then fails with BalanceExceeded(maximum) and the balance stays at the maximum |
| `FeatureTests.TouchInRecordsEntryStation` | spec/feature_tests_spec.rb:27-31 | after topping up the minimum fare, touch_in succeeds and the entry station is the one given |
| `FeatureTests.TouchInWithZeroBalanceFails` | spec/feature_tests_spec.rb:34-37 | touch_in on a zero balance fails with InsufficientFunds and opens no journey |
| `FeatureTests.TouchOutChargesAndClears` | spec/feature_tests_spec.rb:45-62 | touch_out after touch_in changes the balance by -minimum fare and clears the entry station |
| `FeatureTests.RecallsPreviousJourneys` | spec/feature_tests_spec.rb:67-74 | after one cycle from a new card the history is exactly [entry E, exit X] |
| `FeatureTests.NewJourneyIsNotInJourney` | spec/feature_tests_spec.rb:104-107 | a new journey's entry station is nil |
| `FeatureTests.PenaltyWithoutTouchIn` | spec/feature_tests_spec.rb:110-113 | touch_out without touch_in, after topping up 20, changes the balance by -6 |

## Left out

- The penalty for a missed touch-out (spec/feature_tests_spec.rb:101-103 asks for a penalty when the rider fails to touch in or out): only the missed touch-in is charged. A second touch-in while a journey is open overwrites the entry station; the abandoned entry is neither charged nor recorded in the history.
- Error message text (`"Maximum balance of £… exceeded"`, `"Insufficent funds: top up"`): the errors are datatype constructors. `BalanceExceeded` carries the maximum that the message would display.
- Raising exceptions: a refused operation returns `Fail(…)` and leaves the state unchanged, as the caller would observe after a raise.
- The value `top_up` returns: the scenario title mentions it, but nothing asserts it, so `Card.TopUp` returns only its outcome.
- Station: its `name` and `zone` accessors (spec/feature_tests_spec.rb:79-97) are the fields of the `Station` datatype, with no further behaviour.
- The scenarios use RSpec test doubles as stations. The model uses `Station` values, and only their equality matters.
- The Oystercard, Journey and Station implementation files are not part of this model. Behaviour is taken from what the scenarios assert. Where they are silent, the modelling choices listed above apply.
