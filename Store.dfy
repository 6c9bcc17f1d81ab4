/**
 * The in-memory application store: the customers in the order they were
 * added, each customer's water and electricity readings keyed by customer
 * id, the tariff settings, and the customer selected on the recording tab.
 * Each method is one user action, taken after any confirmation dialog.
 */
module Store {
  import opened Wrappers
  import opened Records
  import opened ReadingLists
  import opened Tariff

  datatype SaveCustomerOutcome = CustomerSaved(id: int) | NameRequired | EditedCustomerMissing

  datatype SaveReadingOutcome = ReadingSaved | NoCustomerSelected | IncompleteReading | NoReadingList

  /** A list of customer `id`'s readings of utility `u`, kept in date order. */
  predicate WellFormedList(rs: seq<Reading>, u: Utility, id: int) {
    SortedByDate(rs) && forall i :: 0 <= i < |rs| ==> rs[i].kind == u && rs[i].customerId == id
  }

  predicate WellFormed(id: int, cr: CustomerReadings) {
    WellFormedList(cr.water, Water, id) && WellFormedList(cr.electric, Electric, id)
  }

  /** The first position of a customer with id `id` (`findIndex`), if any. */
  function FindCustomer(cs: seq<Customer>, id: int): (k: Option<nat>)
    ensures k.Some? ==> k.value < |cs| && cs[k.value].id == id
    ensures k.Some? ==> forall j :: 0 <= j < k.value ==> cs[j].id != id
    ensures k.None? ==> forall j :: 0 <= j < |cs| ==> cs[j].id != id
  {
    if |cs| == 0 then None
    else if cs[0].id == id then Some(0)
    else match FindCustomer(cs[1..], id)
      case None => None
      case Some(k) => Some(k + 1)
  }

  /** The customers whose id differs from `id`, in their order. */
  function WithoutCustomer(cs: seq<Customer>, id: int): (out: seq<Customer>)
    ensures |out| <= |cs|
  {
    if |cs| == 0 then []
    else if cs[0].id != id then [cs[0]] + WithoutCustomer(cs[1..], id)
    else WithoutCustomer(cs[1..], id)
  }

  /** Exactly the customers with another id are kept. */
  lemma {:induction false} WithoutCustomerMembers(cs: seq<Customer>, id: int)
    ensures forall c :: c in WithoutCustomer(cs, id) <==> c in cs && c.id != id
  {
    if |cs| > 0 {
      WithoutCustomerMembers(cs[1..], id);
      assert cs == [cs[0]] + cs[1..];
    }
  }

  /** Removing a customer keeps the others in their order. */
  lemma {:induction false} WithoutCustomerAppend(a: seq<Customer>, b: seq<Customer>, id: int)
    ensures WithoutCustomer(a + b, id) == WithoutCustomer(a, id) + WithoutCustomer(b, id)
  {
    if |a| > 0 {
      WithoutCustomerAppend(a[1..], b, id);
      assert (a + b)[1..] == a[1..] + b;
    } else {
      assert a + b == b;
    }
  }

  /** Adding a reading keeps a well-formed list well-formed, and grows it by that reading alone. */
  lemma AddReadingWellFormed(rs: seq<Reading>, u: Utility, id: int, r: Reading)
    requires WellFormedList(rs, u, id)
    requires r.kind == u && r.customerId == id
    ensures SortByDate(rs + [r]) == InsertByDate(rs, r)
    ensures WellFormedList(SortByDate(rs + [r]), u, id)
    ensures multiset(SortByDate(rs + [r])) == multiset(rs) + multiset{r}
  {
    AppendThenSort(rs, r);
    InsertByDatePermutation(rs, r);
    var out := InsertByDate(rs, r);
    forall i | 0 <= i < |out| ensures out[i].kind == u && out[i].customerId == id {
      assert out[i] in multiset(rs) + multiset{r};
    }
  }

  /** Removing readings keeps a well-formed list well-formed. */
  lemma RemoveReadingWellFormed(rs: seq<Reading>, u: Utility, id: int, readingId: int)
    requires WellFormedList(rs, u, id)
    ensures WellFormedList(WithoutId(rs, readingId), u, id)
  {
    WithoutIdSorted(rs, readingId);
    WithoutIdMembers(rs, readingId);
    var out := WithoutId(rs, readingId);
    forall i | 0 <= i < |out| ensures out[i].kind == u && out[i].customerId == id {
      assert out[i] in rs;
    }
  }

  class AppData {
    var customers: seq<Customer>
    var meterData: map<int, CustomerReadings>
    var settings: Settings
    var currentCustomerId: Option<int>

    /** Every reading list is in date order and holds only its own customer's readings of its own utility. */
    ghost predicate Valid()
      reads this
    {
      && (forall id :: id in meterData ==> WellFormed(id, meterData[id]))
      && currentCustomerId != Some(0)
    }

    constructor ()
      ensures Valid()
      ensures customers == [] && meterData == map[] && settings == DefaultSettings && currentCustomerId == None
    {
      customers := [];
      meterData := map[];
      settings := DefaultSettings;
      currentCustomerId := None;
    }

    /**
     * `saveCustomer`: a blank name is refused. Editing (`editing` holds the
     * id being edited) replaces the first customer with that id and keeps
     * its creation stamp; a missing one stops the action. Otherwise a new
     * customer with `freshId` is appended and given two empty reading lists.
     */
    method SaveCustomer(name: string, address: string, phone: string, note: string,
                        editing: Option<int>, freshId: int, now: string)
      returns (outcome: SaveCustomerOutcome)
      requires Valid()
      modifies this
      ensures Valid()
      ensures settings == old(settings) && currentCustomerId == old(currentCustomerId)
      ensures name == "" ==> outcome == NameRequired
      ensures name != "" && editing.Some? && FindCustomer(old(customers), editing.value).None? ==> outcome == EditedCustomerMissing
      ensures !outcome.CustomerSaved? ==> customers == old(customers) && meterData == old(meterData)
      ensures name != "" && editing.Some? && FindCustomer(old(customers), editing.value).Some? ==>
                var k := FindCustomer(old(customers), editing.value).value;
                && outcome == CustomerSaved(editing.value)
                && customers == old(customers)[k := Customer(editing.value, name, address, phone, note, old(customers)[k].createdAt)]
                && meterData == old(meterData)
      ensures name != "" && editing.None? ==>
                && outcome == CustomerSaved(freshId)
                && customers == old(customers) + [Customer(freshId, name, address, phone, note, now)]
                && meterData == old(meterData)[freshId := NoReadings]
    {
      if name == "" {
        return NameRequired;
      }
      if editing.Some? {
        var index := FindCustomer(customers, editing.value);
        if index.None? {
          return EditedCustomerMissing;
        }
        var createdAt := customers[index.value].createdAt;
        customers := customers[index.value := Customer(editing.value, name, address, phone, note, createdAt)];
        return CustomerSaved(editing.value);
      }
      customers := customers + [Customer(freshId, name, address, phone, note, now)];
      meterData := meterData[freshId := NoReadings];
      return CustomerSaved(freshId);
    }

    /**
     * `handleCustomerSelection`: the parsed id of the chosen customer (`None`
     * when it does not parse); 0 selects nobody. A selected customer without
     * reading lists gets two empty ones.
     */
    method SelectCustomer(parsedId: Option<int>)
      requires Valid()
      modifies this
      ensures Valid()
      ensures customers == old(customers) && settings == old(settings)
      ensures currentCustomerId == if parsedId == Some(0) then None else parsedId
      ensures currentCustomerId.Some? && currentCustomerId.value !in old(meterData) ==>
                meterData == old(meterData)[currentCustomerId.value := NoReadings]
      ensures currentCustomerId.None? || currentCustomerId.value in old(meterData) ==> meterData == old(meterData)
    {
      currentCustomerId := if parsedId == Some(0) then None else parsedId;
      if currentCustomerId.Some? && currentCustomerId.value !in meterData {
        meterData := meterData[currentCustomerId.value := NoReadings];
      }
    }

    /**
     * `saveWaterReading` / `saveElectricReading`: with a customer selected,
     * a meter value that is neither 0 nor missing (`None` for NaN) and a
     * date, a reading with `freshId` is appended to the customer's list of
     * utility `u` and the list is stably sorted by date. A selected customer
     * without reading lists stops the action (the push fails).
     */
    method SaveReading(u: Utility, meter: Option<real>, date: Option<int>, freshId: int)
      returns (outcome: SaveReadingOutcome)
      requires Valid()
      modifies this
      ensures Valid()
      ensures customers == old(customers) && settings == old(settings) && currentCustomerId == old(currentCustomerId)
      ensures outcome == if currentCustomerId.None? then NoCustomerSelected
                         else if meter.None? || meter.value == 0.0 || date.None? then IncompleteReading
                         else if currentCustomerId.value !in old(meterData) then NoReadingList
                         else ReadingSaved
      ensures outcome != ReadingSaved ==> meterData == old(meterData)
      ensures outcome == ReadingSaved ==>
                var id := currentCustomerId.value;
                var before := old(meterData)[id].Of(u);
                var r := Reading(freshId, meter.value, date.value, u, id);
                && meterData == old(meterData)[id := old(meterData)[id].With(u, SortByDate(before + [r]))]
                && SortByDate(before + [r]) == InsertByDate(before, r)
                && multiset(meterData[id].Of(u)) == multiset(before) + multiset{r}
    {
      if currentCustomerId.None? {
        return NoCustomerSelected;
      }
      if meter.None? || meter.value == 0.0 || date.None? {
        return IncompleteReading;
      }
      var id := currentCustomerId.value;
      if id !in meterData {
        return NoReadingList;
      }
      var reading := Reading(freshId, meter.value, date.value, u, id);
      var before := meterData[id].Of(u);
      AddReadingWellFormed(before, u, id, reading);
      meterData := meterData[id := meterData[id].With(u, SortByDate(before + [reading]))];
      return ReadingSaved;
    }

    /**
     * `deleteReading`: when the customer has reading lists, the readings of
     * utility `u` with id `readingId` are removed; otherwise nothing changes.
     */
    method DeleteReading(readingId: int, u: Utility, customerId: int)
      requires Valid()
      modifies this
      ensures Valid()
      ensures customers == old(customers) && settings == old(settings) && currentCustomerId == old(currentCustomerId)
      ensures customerId in old(meterData) ==>
                meterData == old(meterData)[customerId := old(meterData)[customerId].With(u, WithoutId(old(meterData)[customerId].Of(u), readingId))]
      ensures customerId !in old(meterData) ==> meterData == old(meterData)
    {
      if customerId in meterData {
        var before := meterData[customerId].Of(u);
        RemoveReadingWellFormed(before, u, customerId, readingId);
        meterData := meterData[customerId := meterData[customerId].With(u, WithoutId(before, readingId))];
      }
    }

    /**
     * `deleteCustomer`: every customer with that id goes, with its readings;
     * if it was selected, nobody is selected any more.
     */
    method DeleteCustomer(customerId: int)
      requires Valid()
      modifies this
      ensures Valid()
      ensures settings == old(settings)
      ensures customers == WithoutCustomer(old(customers), customerId)
      ensures meterData == old(meterData) - {customerId}
      ensures currentCustomerId == if old(currentCustomerId) == Some(customerId) then None else old(currentCustomerId)
    {
      customers := WithoutCustomer(customers, customerId);
      meterData := meterData - {customerId};
      if currentCustomerId == Some(customerId) {
        currentCustomerId := None;
      }
    }

    /** `clearAllHistory`: every customer keeps its entry, with both lists emptied. */
    method ClearAllHistory()
      requires Valid()
      modifies this
      ensures Valid()
      ensures customers == old(customers) && settings == old(settings) && currentCustomerId == old(currentCustomerId)
      ensures meterData.Keys == old(meterData).Keys
      ensures forall id :: id in meterData ==> meterData[id] == NoReadings
    {
      meterData := map id | id in meterData :: NoReadings;
    }

    /** `saveSettings`: each parsed field, a field that is 0 or does not parse becoming 0. */
    method SaveSettings(waterBaseFee: Option<real>, waterUnitRate: Option<real>,
                        electricBaseFee: Option<real>, electricUnitRate: Option<real>)
      requires Valid()
      modifies this
      ensures Valid()
      ensures customers == old(customers) && meterData == old(meterData) && currentCustomerId == old(currentCustomerId)
      ensures settings == Settings(waterBaseFee.GetOr(0.0), waterUnitRate.GetOr(0.0),
                                   electricBaseFee.GetOr(0.0), electricUnitRate.GetOr(0.0))
    {
      settings := Settings(waterBaseFee.GetOr(0.0), waterUnitRate.GetOr(0.0),
                           electricBaseFee.GetOr(0.0), electricUnitRate.GetOr(0.0));
    }
  }
}
