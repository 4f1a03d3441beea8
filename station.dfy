/** A station is an immutable value with a name and a fare zone.
    The card and its journey tracker only store stations and compare them by equality. */
module Stations {
  datatype Station = Station(name: string, zone: int)
}
