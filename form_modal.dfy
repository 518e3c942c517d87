/**
 * The record detail modal of the admin view: the flight-option lookups in the
 * static departure and arrival tables, and the rules that pick which fields of
 * a stored record are shown and with what text.
 */
module FormModal {
  import opened Wrappers

  /**
   * A stored record as the fetch returns it: backend field name to value.
   * A missing key stands for `undefined`; everywhere below a missing key and
   * "" behave the same.
   */
  type Record = map<string, string>

  /** `userData.key`, with a missing key read as "". */
  function Value(rec: Record, key: string): string
  {
    if key in rec then rec[key] else ""
  }

  /** One entry of a flight reference table. */
  datatype FlightOption = FlightOption(
    Id: string,
    Title: string,
    Date: string,
    Airline: string,
    Flight_Number: string,
    Departure_Time: string,
    Arrival_Time: string,
    Layover: string)

  /** A reference table: travel mode, then city, then the options offered. */
  type FlightTable = map<string, map<string, seq<FlightOption>>>

  /** `{ ...flight, mode }`: the option found, tagged with the mode it was found under. */
  datatype FlightDetails = FlightDetails(option: FlightOption, mode: string)

  /** `options[k]` is the first option whose `Id` is exactly `id`. */
  ghost predicate FirstWithId(options: seq<FlightOption>, id: string, k: int)
  {
    && 0 <= k < |options|
    && options[k].Id == id
    && forall j :: 0 <= j < k ==> options[j].Id != id
  }

  /** The index `options.find` stops at: the first option whose `Id` is exactly `id`. */
  function FindIndex(options: seq<FlightOption>, id: string): (r: Option<nat>)
    ensures r.None? <==> forall k :: 0 <= k < |options| ==> options[k].Id != id
    ensures r.Some? ==> FirstWithId(options, id, r.value)
  {
    if options == [] then None
    else if options[0].Id == id then Some(0)
    else match FindIndex(options[1..], id)
      case Some(k) => Some(k + 1)
      case None => None
  }

  /** `options.find(f => f.Id === id)`. */
  function FindById(options: seq<FlightOption>, id: string): (r: Option<FlightOption>)
    ensures r.None? <==> forall k :: 0 <= k < |options| ==> options[k].Id != id
    ensures r.Some? ==> exists k :: FirstWithId(options, id, k) && options[k] == r.value
  {
    match FindIndex(options, id)
    case Some(k) => Some(options[k])
    case None => None
  }

  /** The two modes the lookups know. */
  predicate KnownMode(mode: string)
  {
    mode == "Economy" || mode == "Business"
  }

  /**
   * The rule shared by both lookups: no option chosen (empty or "NA"), no city
   * (empty or "Other") or an unknown mode give nothing; otherwise the option
   * is searched in `table[mode][city]`.
   */
  function ResolveFlight(table: FlightTable, mode: string, city: string, optionId: string): (r: Option<FlightDetails>)
    ensures optionId == "" || optionId == "NA" ==> r.None?
    ensures city == "" || city == "Other" ==> r.None?
    ensures !KnownMode(mode) ==> r.None?
    ensures r.Some? ==>
      && r.value.mode == mode && mode in table && city in table[mode]
      && exists k :: FirstWithId(table[mode][city], optionId, k) && table[mode][city][k] == r.value.option
    ensures r.None? && optionId != "" && optionId != "NA" && city != "" && city != "Other" && KnownMode(mode) ==>
      mode !in table || city !in table[mode]
      || forall k :: 0 <= k < |table[mode][city]| ==> table[mode][city][k].Id != optionId
  {
    if optionId == "" || optionId == "NA" then None
    else if city == "" || city == "Other" then None
    else if mode == "Economy" then
      if mode in table && city in table[mode] then
        match FindById(table[mode][city], optionId)
        case Some(f) => Some(FlightDetails(f, "Economy"))
        case None => None
      else None
    else if mode == "Business" then
      if mode in table && city in table[mode] then
        match FindById(table[mode][city], optionId)
        case Some(f) => Some(FlightDetails(f, "Business"))
        case None => None
      else None
    else None
  }

  /** `getDepartureFlightDetails`, with the configured `MODE` and the departure table as parameters. */
  function GetDepartureFlightDetails(departures: FlightTable, mode: string, rec: Record): Option<FlightDetails>
  {
    ResolveFlight(departures, mode, Value(rec, "Departure_City"), Value(rec, "Flight_Option_Departure"))
  }

  /** `getArrivalFlightDetails`, with the configured `MODE` and the arrival table as parameters. */
  function GetArrivalFlightDetails(arrivals: FlightTable, mode: string, rec: Record): Option<FlightDetails>
  {
    ResolveFlight(arrivals, mode, Value(rec, "Arrival_City"), Value(rec, "Flight_Option_Arrival"))
  }

  /**
   * Both lookups give nothing when the record has no option or it is "NA",
   * when it has no city or the city is "Other", or when the mode is neither
   * "Economy" nor "Business"; what they give is the first exact `Id` match in
   * their own table under that mode and city, tagged with the mode.
   */
  lemma FlightLookupRules(departures: FlightTable, arrivals: FlightTable, mode: string, rec: Record)
    ensures var opt, city := Value(rec, "Flight_Option_Departure"), Value(rec, "Departure_City");
      && (opt == "" || opt == "NA" || city == "" || city == "Other" || !KnownMode(mode) ==>
            GetDepartureFlightDetails(departures, mode, rec).None?)
      && (GetDepartureFlightDetails(departures, mode, rec).Some? ==>
            var f := GetDepartureFlightDetails(departures, mode, rec).value;
            f.mode == mode && mode in departures && city in departures[mode]
            && exists k :: FirstWithId(departures[mode][city], opt, k) && departures[mode][city][k] == f.option)
      && (opt != "" && opt != "NA" && city != "" && city != "Other" && KnownMode(mode)
          && mode in departures && city in departures[mode]
          && (exists k :: 0 <= k < |departures[mode][city]| && departures[mode][city][k].Id == opt) ==>
            GetDepartureFlightDetails(departures, mode, rec).Some?)
    ensures var opt, city := Value(rec, "Flight_Option_Arrival"), Value(rec, "Arrival_City");
      && (opt == "" || opt == "NA" || city == "" || city == "Other" || !KnownMode(mode) ==>
            GetArrivalFlightDetails(arrivals, mode, rec).None?)
      && (GetArrivalFlightDetails(arrivals, mode, rec).Some? ==>
            var f := GetArrivalFlightDetails(arrivals, mode, rec).value;
            f.mode == mode && mode in arrivals && city in arrivals[mode]
            && exists k :: FirstWithId(arrivals[mode][city], opt, k) && arrivals[mode][city][k] == f.option)
      && (opt != "" && opt != "NA" && city != "" && city != "Other" && KnownMode(mode)
          && mode in arrivals && city in arrivals[mode]
          && (exists k :: 0 <= k < |arrivals[mode][city]| && arrivals[mode][city][k].Id == opt) ==>
            GetArrivalFlightDetails(arrivals, mode, rec).Some?)
  {
  }

  // ----- What the modal shows -----

  /** The places in the modal a value can be shown in. */
  datatype Slot =
    | FullNameSlot | EmailSlot | AddressSlot
    | ValidVisaSlot | ArrangingVisaSlot
    | FlightBookingSlot
    | DepartureCitySlot | DepartureCityOtherSlot | OnwardFlightSlot
    | ArrivalCitySlot | ArrivalCityOtherSlot | ReturnFlightSlot
    | SeatPreferenceSlot
    | LeisureActivitySlot | MealPreferenceSlot | MealPreferenceOtherSlot | FoodAllergiesSlot
    | SubmittedOnSlot

  /** The slots of the flight-booking block that appears only for a "Yes" booking answer. */
  predicate IsBookingOnlySlot(s: Slot)
  {
    || s.DepartureCitySlot? || s.DepartureCityOtherSlot? || s.OnwardFlightSlot?
    || s.ArrivalCitySlot? || s.ArrivalCityOtherSlot? || s.ReturnFlightSlot? || s.SeatPreferenceSlot?
  }

  /** A flight card; the layover line is left out for a direct flight. */
  datatype FlightCard = FlightCard(
    title: string,
    date: string,
    airline: string,
    flightNumber: string,
    departureTime: string,
    arrivalTime: string,
    layover: Option<string>)

  /** One shown element: a labelled text field, or a flight card. */
  datatype Item =
    | Field(slot: Slot, text: string)
    | Card(slot: Slot, card: FlightCard)

  /** What the modal body shows. */
  datatype ModalBody = Spinner | NoUserData | Details(items: seq<Item>)

  /** `renderField`'s text: an empty value reads "Not provided". */
  function FieldText(v: string): string
  {
    if v == "" then "Not provided" else v
  }

  function FieldItem(slot: Slot, v: string): Item
  {
    Field(slot, FieldText(v))
  }

  /** `renderFlightCard`. */
  function CardOf(f: FlightDetails): (c: FlightCard)
    ensures c.layover.None? <==> f.option.Layover == "NULL"
    ensures c.layover.Some? ==> c.layover.value == f.option.Layover
  {
    var o := f.option;
    FlightCard(o.Title, o.Date, o.Airline, o.Flight_Number, o.Departure_Time, o.Arrival_Time,
               if o.Layover != "NULL" then Some(o.Layover) else None)
  }

  /**
   * A selector with an "Other" choice: a value other than "Other" is shown
   * itself; "Other" shows its text when that is neither empty nor "NA", and
   * nothing otherwise.
   */
  function ChoiceItems(selector: string, other: string, slot: Slot, otherSlot: Slot): seq<Item>
  {
    if selector != "Other" then [FieldItem(slot, selector)]
    else if other != "" && other != "NA" then [FieldItem(otherSlot, other)]
    else []
  }

  /** The food-allergy text: "None" stands in for an empty or "NA" value. */
  function AllergiesText(v: string): string
  {
    if v != "" && v != "NA" then v else "None"
  }

  function PersonalItems(rec: Record): seq<Item>
  {
    [FieldItem(FullNameSlot, Value(rec, "Full_Name")),
     FieldItem(EmailSlot, Value(rec, "Email_ID")),
     FieldItem(AddressSlot, Value(rec, "Address"))]
  }

  function VisaItems(rec: Record): seq<Item>
  {
    [FieldItem(ValidVisaSlot, Value(rec, "Valid_Visa"))]
    + (if Value(rec, "Valid_Visa") == "No" then [FieldItem(ArrangingVisaSlot, Value(rec, "Arranging_Visa"))] else [])
  }

  function FlightItems(rec: Record, departure: Option<FlightDetails>, arrival: Option<FlightDetails>): seq<Item>
  {
    [FieldItem(FlightBookingSlot, Value(rec, "Flight_Booking"))]
    + if Value(rec, "Flight_Booking") == "Yes" then BookingItems(rec, departure, arrival) else []
  }

  /** The block shown for a "Yes" booking answer: each city with its flight card, then the seat preference. */
  function BookingItems(rec: Record, departure: Option<FlightDetails>, arrival: Option<FlightDetails>): seq<Item>
  {
    ChoiceItems(Value(rec, "Departure_City"), Value(rec, "Departure_City_Other"), DepartureCitySlot, DepartureCityOtherSlot)
    + CardItems(OnwardFlightSlot, departure)
    + ChoiceItems(Value(rec, "Arrival_City"), Value(rec, "Arrival_City_Other"), ArrivalCitySlot, ArrivalCityOtherSlot)
    + CardItems(ReturnFlightSlot, arrival)
    + [FieldItem(SeatPreferenceSlot, Value(rec, "Seat_Preference"))]
  }

  /** A flight card when the lookup found a flight, nothing otherwise. */
  function CardItems(slot: Slot, flight: Option<FlightDetails>): seq<Item>
  {
    if flight.Some? then [Card(slot, CardOf(flight.value))] else []
  }

  function ExtrasItems(rec: Record): seq<Item>
  {
    [FieldItem(LeisureActivitySlot, Value(rec, "Preference_Leisure_Activity"))]
    + ChoiceItems(Value(rec, "Meal_Preference"), Value(rec, "Meal_Preference_Other"), MealPreferenceSlot, MealPreferenceOtherSlot)
    + [FieldItem(FoodAllergiesSlot, AllergiesText(Value(rec, "Food_Allergies")))]
  }

  /** The submission time, shown when present; locale date formatting is a parameter. */
  function SubmittedOnItems(rec: Record, formatDate: string -> string): seq<Item>
  {
    if Value(rec, "Created_At") != "" then [Field(SubmittedOnSlot, formatDate(Value(rec, "Created_At")))] else []
  }

  /** Every element shown for a record, section by section. */
  function DetailItems(rec: Record, departure: Option<FlightDetails>, arrival: Option<FlightDetails>,
                       formatDate: string -> string): seq<Item>
  {
    PersonalItems(rec) + VisaItems(rec) + FlightItems(rec, departure, arrival)
    + ExtrasItems(rec) + SubmittedOnItems(rec, formatDate)
  }

  /**
   * The modal body: a spinner while loading, otherwise the record's details,
   * with both flights looked up, or a "no data" notice.
   */
  function Body(loading: bool, userData: Option<Record>, departures: FlightTable, arrivals: FlightTable,
                mode: string, formatDate: string -> string): (b: ModalBody)
    ensures loading <==> b.Spinner?
    ensures b.NoUserData? <==> !loading && userData.None?
    ensures b.Details? ==> b.items == DetailItems(userData.value,
      GetDepartureFlightDetails(departures, mode, userData.value),
      GetArrivalFlightDetails(arrivals, mode, userData.value), formatDate)
  {
    if loading then Spinner
    else if userData.Some? then
      var rec := userData.value;
      Details(DetailItems(rec, GetDepartureFlightDetails(departures, mode, rec), GetArrivalFlightDetails(arrivals, mode, rec), formatDate))
    else NoUserData
  }

  /** Some shown element sits in the slot. */
  predicate Shows(items: seq<Item>, s: Slot)
  {
    exists i :: 0 <= i < |items| && items[i].slot == s
  }

  lemma {:induction false} ShowsAppend(a: seq<Item>, b: seq<Item>, s: Slot)
    ensures Shows(a + b, s) <==> Shows(a, s) || Shows(b, s)
  {
    if Shows(a + b, s) {
      var i :| 0 <= i < |a + b| && (a + b)[i].slot == s;
      if i < |a| { assert a[i].slot == s; } else { assert b[i - |a|].slot == s; }
    }
    if Shows(a, s) {
      var i :| 0 <= i < |a| && a[i].slot == s;
      assert (a + b)[i].slot == s;
    }
    if Shows(b, s) {
      var i :| 0 <= i < |b| && b[i].slot == s;
      assert (a + b)[|a| + i].slot == s;
    }
  }

  /** Shows, for each section of the body. */
  lemma ShowsDetail(rec: Record, departure: Option<FlightDetails>, arrival: Option<FlightDetails>,
                    formatDate: string -> string, s: Slot)
    ensures Shows(DetailItems(rec, departure, arrival, formatDate), s) <==>
      || Shows(PersonalItems(rec), s) || Shows(VisaItems(rec), s) || Shows(FlightItems(rec, departure, arrival), s)
      || Shows(ExtrasItems(rec), s) || Shows(SubmittedOnItems(rec, formatDate), s)
  {
    var p, v, f := PersonalItems(rec), VisaItems(rec), FlightItems(rec, departure, arrival);
    var e, t := ExtrasItems(rec), SubmittedOnItems(rec, formatDate);
    ShowsAppend(p, v, s);
    ShowsAppend(p + v, f, s);
    ShowsAppend(p + v + f, e, s);
    ShowsAppend(p + v + f + e, t, s);
  }

  /** The personal section always shows name, email and address, and nothing else. */
  lemma PersonalSlots(rec: Record)
    ensures forall s :: Shows(PersonalItems(rec), s) <==> s == FullNameSlot || s == EmailSlot || s == AddressSlot
  {
    var items := PersonalItems(rec);
    assert items[0].slot == FullNameSlot && items[1].slot == EmailSlot && items[2].slot == AddressSlot;
  }

  /** The visa section shows the visa answer, and the assistance answer exactly when the visa answer is "No". */
  lemma VisaSlots(rec: Record)
    ensures forall s :: Shows(VisaItems(rec), s) <==>
      s == ValidVisaSlot || (s == ArrangingVisaSlot && Value(rec, "Valid_Visa") == "No")
  {
    var items := VisaItems(rec);
    assert items[0].slot == ValidVisaSlot;
    if Value(rec, "Valid_Visa") == "No" {
      assert items[1].slot == ArrangingVisaSlot;
    }
  }

  /**
   * The three "Other" selectors: a value other than "Other" is shown itself
   * and its text never is; "Other" shows the text exactly when it is neither
   * empty nor "NA", and then as it is stored.
   */
  lemma OtherChoiceRule(selector: string, other: string, slot: Slot, otherSlot: Slot)
    requires slot != otherSlot
    ensures forall s :: Shows(ChoiceItems(selector, other, slot, otherSlot), s) ==> s == slot || s == otherSlot
    ensures Shows(ChoiceItems(selector, other, slot, otherSlot), slot) <==> selector != "Other"
    ensures Shows(ChoiceItems(selector, other, slot, otherSlot), otherSlot) <==>
      selector == "Other" && other != "" && other != "NA"
    ensures selector != "Other" ==> ChoiceItems(selector, other, slot, otherSlot) == [Field(slot, FieldText(selector))]
    ensures selector == "Other" && other != "" && other != "NA" ==>
      ChoiceItems(selector, other, slot, otherSlot) == [Field(otherSlot, other)]
  {
    forall s ensures Shows(ChoiceItems(selector, other, slot, otherSlot), s) ==> s == slot || s == otherSlot {
      ChoiceSlots(selector, other, slot, otherSlot, s);
    }
    ChoiceSlots(selector, other, slot, otherSlot, slot);
    ChoiceSlots(selector, other, slot, otherSlot, otherSlot);
  }

  /** A single element shows its own slot and no other. */
  lemma ShowsSingle(it: Item, s: Slot)
    ensures Shows([it], s) <==> it.slot == s
  {
    assert [it][0] == it;
  }

  /** The slot-by-slot form of the "Other" rule. */
  lemma ChoiceSlots(selector: string, other: string, slot: Slot, otherSlot: Slot, s: Slot)
    requires slot != otherSlot
    ensures Shows(ChoiceItems(selector, other, slot, otherSlot), s) <==>
      if selector != "Other" then s == slot else s == otherSlot && other != "" && other != "NA"
  {
    if selector != "Other" {
      SelectorShown(selector, other, slot, otherSlot, s);
    } else if other != "" && other != "NA" {
      OtherTextShown(selector, other, slot, otherSlot, s);
    } else {
      NothingChosenShown(selector, other, slot, otherSlot, s);
    }
  }

  /** A value other than "Other" shows in the selector's own slot only. */
  lemma SelectorShown(selector: string, other: string, slot: Slot, otherSlot: Slot, s: Slot)
    requires selector != "Other"
    ensures Shows(ChoiceItems(selector, other, slot, otherSlot), s) <==> s == slot
  {
    ShowsSingle(FieldItem(slot, selector), s);
  }

  /** "Other" with a usable text shows that text in the text's slot only. */
  lemma OtherTextShown(selector: string, other: string, slot: Slot, otherSlot: Slot, s: Slot)
    requires selector == "Other" && other != "" && other != "NA"
    ensures Shows(ChoiceItems(selector, other, slot, otherSlot), s) <==> s == otherSlot
  {
    ShowsSingle(FieldItem(otherSlot, other), s);
  }

  /** "Other" with an empty or "NA" text shows nothing at all. */
  lemma NothingChosenShown(selector: string, other: string, slot: Slot, otherSlot: Slot, s: Slot)
    requires selector == "Other" && (other == "" || other == "NA")
    ensures !Shows(ChoiceItems(selector, other, slot, otherSlot), s)
  {
  }

  /** A flight card shows in its own slot, and only when a flight was found. */
  lemma CardSlots(slot: Slot, flight: Option<FlightDetails>, s: Slot)
    ensures Shows(CardItems(slot, flight), s) <==> s == slot && flight.Some?
  {
    if flight.Some? {
      ShowsSingle(CardItems(slot, flight)[0], s);
    }
  }

  /** The booking block shows only booking slots, and always the seat preference. */
  lemma BookingSlots(rec: Record, departure: Option<FlightDetails>, arrival: Option<FlightDetails>, s: Slot)
    ensures Shows(BookingItems(rec, departure, arrival), s) ==> IsBookingOnlySlot(s)
    ensures s == SeatPreferenceSlot ==> Shows(BookingItems(rec, departure, arrival), s)
  {
    var c1 := ChoiceItems(Value(rec, "Departure_City"), Value(rec, "Departure_City_Other"), DepartureCitySlot, DepartureCityOtherSlot);
    var d1 := CardItems(OnwardFlightSlot, departure);
    var c2 := ChoiceItems(Value(rec, "Arrival_City"), Value(rec, "Arrival_City_Other"), ArrivalCitySlot, ArrivalCityOtherSlot);
    var d2 := CardItems(ReturnFlightSlot, arrival);
    var seat := [FieldItem(SeatPreferenceSlot, Value(rec, "Seat_Preference"))];
    ChoiceSlots(Value(rec, "Departure_City"), Value(rec, "Departure_City_Other"), DepartureCitySlot, DepartureCityOtherSlot, s);
    ChoiceSlots(Value(rec, "Arrival_City"), Value(rec, "Arrival_City_Other"), ArrivalCitySlot, ArrivalCityOtherSlot, s);
    CardSlots(OnwardFlightSlot, departure, s);
    CardSlots(ReturnFlightSlot, arrival, s);
    ShowsSingle(seat[0], s);
    ShowsAppend(c1, d1, s);
    ShowsAppend(c1 + d1, c2, s);
    ShowsAppend(c1 + d1 + c2, d2, s);
    ShowsAppend(c1 + d1 + c2 + d2, seat, s);
  }

  /**
   * The flight section shows the booking answer; everything else in it (the
   * cities, their "Other" texts, the flight cards and the seat preference)
   * only for a "Yes" answer, and for that answer the seat preference always.
   */
  lemma FlightSlots(rec: Record, departure: Option<FlightDetails>, arrival: Option<FlightDetails>, s: Slot)
    ensures Shows(FlightItems(rec, departure, arrival), s) ==>
      s == FlightBookingSlot || (IsBookingOnlySlot(s) && Value(rec, "Flight_Booking") == "Yes")
    ensures s == SeatPreferenceSlot ==>
      (Shows(FlightItems(rec, departure, arrival), s) <==> Value(rec, "Flight_Booking") == "Yes")
  {
    var head := [FieldItem(FlightBookingSlot, Value(rec, "Flight_Booking"))];
    var rest: seq<Item> := if Value(rec, "Flight_Booking") == "Yes" then BookingItems(rec, departure, arrival) else [];
    assert FlightItems(rec, departure, arrival) == head + rest;
    ShowsSingle(head[0], s);
    ShowsAppend(head, rest, s);
    BookingSlots(rec, departure, arrival, s);
  }

  /**
   * The extras section shows the leisure activity and the allergies, and the
   * meal preference by the "Other" rule; the allergies read "None" for an
   * empty or "NA" value.
   */
  lemma ExtrasSlots(rec: Record)
    ensures forall s :: Shows(ExtrasItems(rec), s) ==>
      s == LeisureActivitySlot || s == MealPreferenceSlot || s == MealPreferenceOtherSlot || s == FoodAllergiesSlot
    ensures var meal, other := Value(rec, "Meal_Preference"), Value(rec, "Meal_Preference_Other");
      && (Shows(ExtrasItems(rec), MealPreferenceSlot) <==> meal != "Other")
      && (Shows(ExtrasItems(rec), MealPreferenceOtherSlot) <==> meal == "Other" && other != "" && other != "NA")
    ensures var v := Value(rec, "Food_Allergies");
      Field(FoodAllergiesSlot, if v == "" || v == "NA" then "None" else v) in ExtrasItems(rec)
  {
    var meal, other := Value(rec, "Meal_Preference"), Value(rec, "Meal_Preference_Other");
    var c := ChoiceItems(meal, other, MealPreferenceSlot, MealPreferenceOtherSlot);
    var lead := [FieldItem(LeisureActivitySlot, Value(rec, "Preference_Leisure_Activity"))];
    var tail := [FieldItem(FoodAllergiesSlot, AllergiesText(Value(rec, "Food_Allergies")))];
    assert ExtrasItems(rec) == lead + c + tail;
    OtherChoiceRule(meal, other, MealPreferenceSlot, MealPreferenceOtherSlot);
    assert lead[0].slot == LeisureActivitySlot && tail[0].slot == FoodAllergiesSlot;
    assert forall s :: Shows(lead, s) <==> s == LeisureActivitySlot;
    assert forall s :: Shows(tail, s) <==> s == FoodAllergiesSlot;
    forall s ensures Shows(ExtrasItems(rec), s) <==> Shows(lead, s) || Shows(c, s) || Shows(tail, s) {
      ShowsAppend(lead, c, s);
      ShowsAppend(lead + c, tail, s);
    }
    assert (lead + c + tail)[|lead + c|] == tail[0];
  }

  /** The submission time is the only thing its section can show. */
  lemma SubmittedOnSlots(rec: Record, formatDate: string -> string)
    ensures forall s :: Shows(SubmittedOnItems(rec, formatDate), s) ==> s == SubmittedOnSlot
  {
  }

  /** Over the whole body: the visa-assistance answer is shown exactly when the visa answer is "No", whatever answer is stored. */
  lemma VisaAssistanceVisibility(rec: Record, departure: Option<FlightDetails>, arrival: Option<FlightDetails>,
                                 formatDate: string -> string)
    ensures Shows(DetailItems(rec, departure, arrival, formatDate), ArrangingVisaSlot) <==> Value(rec, "Valid_Visa") == "No"
  {
    var s := ArrangingVisaSlot;
    assert !Shows(PersonalItems(rec), s) by { PersonalSlots(rec); }
    assert Shows(VisaItems(rec), s) <==> Value(rec, "Valid_Visa") == "No" by { VisaSlots(rec); }
    assert !Shows(FlightItems(rec, departure, arrival), s) by { FlightSlots(rec, departure, arrival, s); }
    assert !Shows(ExtrasItems(rec), s) by { ExtrasSlots(rec); }
    assert !Shows(SubmittedOnItems(rec, formatDate), s) by { SubmittedOnSlots(rec, formatDate); }
    ShowsDetail(rec, departure, arrival, formatDate, s);
  }

  /**
   * Over the whole body: the cities, their "Other" texts, the flight cards and
   * the seat preference are shown only for a "Yes" booking answer, and for
   * that answer the seat preference always is.
   */
  lemma BookingVisibility(rec: Record, departure: Option<FlightDetails>, arrival: Option<FlightDetails>,
                          formatDate: string -> string, s: Slot)
    requires IsBookingOnlySlot(s)
    ensures Shows(DetailItems(rec, departure, arrival, formatDate), s) ==> Value(rec, "Flight_Booking") == "Yes"
    ensures s == SeatPreferenceSlot ==>
      (Shows(DetailItems(rec, departure, arrival, formatDate), s) <==> Value(rec, "Flight_Booking") == "Yes")
  {
    FlightSlotInBody(rec, departure, arrival, formatDate, s);
    FlightSlots(rec, departure, arrival, s);
  }

  /** The booking slots appear in no section but the flights, so the body shows them exactly when that section does. */
  lemma FlightSlotInBody(rec: Record, departure: Option<FlightDetails>, arrival: Option<FlightDetails>,
                         formatDate: string -> string, s: Slot)
    requires IsBookingOnlySlot(s)
    ensures Shows(DetailItems(rec, departure, arrival, formatDate), s) <==> Shows(FlightItems(rec, departure, arrival), s)
  {
    PersonalSlots(rec);
    VisaSlots(rec);
    ExtrasSlots(rec);
    SubmittedOnSlots(rec, formatDate);
    ShowsDetail(rec, departure, arrival, formatDate, s);
  }

  /** Over the whole body: the meal preference follows the "Other" rule. */
  lemma MealVisibility(rec: Record, departure: Option<FlightDetails>, arrival: Option<FlightDetails>,
                       formatDate: string -> string)
    ensures var meal, other := Value(rec, "Meal_Preference"), Value(rec, "Meal_Preference_Other");
      && (Shows(DetailItems(rec, departure, arrival, formatDate), MealPreferenceSlot) <==> meal != "Other")
      && (Shows(DetailItems(rec, departure, arrival, formatDate), MealPreferenceOtherSlot) <==>
            meal == "Other" && other != "" && other != "NA")
  {
    ExtrasSlotInBody(rec, departure, arrival, formatDate, MealPreferenceSlot);
    ExtrasSlotInBody(rec, departure, arrival, formatDate, MealPreferenceOtherSlot);
    ExtrasSlots(rec);
  }

  /** The meal slots appear in no section but the extras, so the body shows them exactly when that section does. */
  lemma ExtrasSlotInBody(rec: Record, departure: Option<FlightDetails>, arrival: Option<FlightDetails>,
                         formatDate: string -> string, s: Slot)
    requires s == MealPreferenceSlot || s == MealPreferenceOtherSlot
    ensures Shows(DetailItems(rec, departure, arrival, formatDate), s) <==> Shows(ExtrasItems(rec), s)
  {
    PersonalSlots(rec);
    VisaSlots(rec);
    FlightSlots(rec, departure, arrival, s);
    SubmittedOnSlots(rec, formatDate);
    ShowsDetail(rec, departure, arrival, formatDate, s);
  }

  /** The allergies text in the whole body: "None" stands in for an empty or "NA" value. */
  lemma AllergiesShownAsNone(rec: Record, departure: Option<FlightDetails>, arrival: Option<FlightDetails>,
                             formatDate: string -> string)
    ensures var v := Value(rec, "Food_Allergies");
      Field(FoodAllergiesSlot, if v == "" || v == "NA" then "None" else v)
        in DetailItems(rec, departure, arrival, formatDate)
  {
    ExtrasSlots(rec);
  }
}
