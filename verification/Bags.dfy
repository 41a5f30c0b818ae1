/** The bag that travels on every belt. */
module Bags {

  // `rfid` 0 marks the dummy value: it is what a freshly built bag holds.
  datatype Bag = Bag(rfid: int, flight: int, stop: string, weight: int)

  const NO_BAG := Bag(0, 0, "", 0)

  // The bags that are not dummies.
  function Real(bags: seq<Bag>): seq<Bag> {
    if bags == [] then []
    else Real(bags[..|bags| - 1]) + if bags[|bags| - 1].rfid != 0 then [bags[|bags| - 1]] else []
  }
}
