/** The journey tracker a card owns: the current journey slot and the history of completed journeys. */
module Journeys {
  import opened Wrappers
  import opened Stations

  /** One completed journey as recorded in the history. The entry station is absent when the
      rider touched out without touching in first. */
  datatype Trip = Trip(entry: Option<Station>, exit: Station)

  /** The observable value of a tracker: the entry station of the current journey, if any,
      and the completed journeys, oldest first. */
  datatype Tracker = Tracker(entry: Option<Station>, history: seq<Trip>)
  {
    /** Touching in records the entry station, overwriting any earlier one. */
    function Start(station: Station): Tracker {
      Tracker(Some(station), history)
    }

    /** Touching out closes the current journey into the history and clears the slot. */
    function Finish(station: Station): Tracker {
      Tracker(None, history + [Trip(entry, station)])
    }
  }

  const Idle: Tracker := Tracker(None, [])

  class Journey {
    // the current journey: entry and exit station slots
    var entryStation: Option<Station>
    var exitStation: Option<Station>
    // completed journeys, in completion order
    var history: seq<Trip>

    /** Between operations the exit slot is always empty: it is set only while a journey is being closed. */
    ghost predicate Valid()
      reads this
    {
      exitStation == None
    }

    function Value(): Tracker
      reads this
    {
      Tracker(entryStation, history)
    }

    constructor ()
      ensures Valid() && Value() == Idle
    {
      entryStation, exitStation, history := None, None, [];
    }

    method Start(station: Station)
      requires Valid()
      modifies this
      ensures Valid() && Value() == old(Value()).Start(station)
    {
      entryStation := Some(station);
    }

    method Finish(station: Station)
      requires Valid()
      modifies this
      ensures Valid() && Value() == old(Value()).Finish(station)
    {
      // the exit slot is filled first, then the completed journey is recorded and both slots are cleared
      exitStation := Some(station);
      history := history + [Trip(entryStation, exitStation.value)];
      entryStation, exitStation := None, None;
    }
  }

  /** Finishing a journey appends exactly one trip, made of the entry station that was current
      and the exit station given, keeps every earlier trip, and leaves no journey open. */
  lemma FinishRecordsTrip(t: Tracker, exit: Station)
    ensures t.Finish(exit).entry == None
    ensures |t.Finish(exit).history| == |t.history| + 1
    ensures t.Finish(exit).history[..|t.history|] == t.history
    ensures t.Finish(exit).history[|t.history|] == Trip(t.entry, exit)
  {
  }
}
