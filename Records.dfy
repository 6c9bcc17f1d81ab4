/**
 * The entities of the billing store: customers, meter readings and the
 * per-customer pair of reading lists. Dates are day numbers (see Dates).
 */
module Records {

  datatype Utility = Water | Electric

  datatype Reading = Reading(id: int, meter: real, date: int, kind: Utility, customerId: int)

  datatype Customer = Customer(id: int, name: string, address: string, phone: string, note: string, createdAt: string)

  /** What the store keeps for one customer: a water list and an electricity list. */
  datatype CustomerReadings = CustomerReadings(water: seq<Reading>, electric: seq<Reading>) {

    function Of(u: Utility): seq<Reading> {
      match u
      case Water => water
      case Electric => electric
    }

    function With(u: Utility, rs: seq<Reading>): (cr: CustomerReadings)
      ensures cr.Of(u) == rs
      ensures forall v :: v != u ==> cr.Of(v) == Of(v)
    {
      match u
      case Water => this.(water := rs)
      case Electric => this.(electric := rs)
    }
  }

  const NoReadings := CustomerReadings([], [])
}
