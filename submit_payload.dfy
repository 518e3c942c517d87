/**
 * The multipart body that SubmitData builds from the draft before posting it:
 * one (backend field name, value) entry per append, in append order.
 */
module SubmitPayload {
  import opened Wrappers
  import opened DraftRules

  /** One `FormData.append(name, value)`. */
  type Entry = (string, string)

  /** The backend field names, in the order they are appended. */
  const PayloadKeys: seq<string> := [
    "Full_Name", "Email_ID", "Address", "Valid_Visa", "Arranging_Visa", "Flight_Booking",
    "Meal_Preference", "Meal_Preference_Other", "Food_Allergies",
    "Departure_City", "Departure_City_Other", "Arrival_City", "Arrival_City_Other",
    "Flight_Option_Departure", "Flight_Option_Arrival", "Preference_Leisure_Activity"]

  /** The draft field each entry is filled from, index by index; the two flight options have none. */
  const PayloadFields: seq<Option<Field>> := [
    Some(FullName), Some(Email), Some(Address), Some(HasVisa), Some(NeedsVisaAssistance), Some(NeedsFlightBooking),
    Some(MealPreference), Some(MealPreferenceOther), Some(FoodAllergies),
    Some(DepartureCity), Some(DepartureCityOther), Some(ArrivalCity), Some(ArrivalCityOther),
    None, None, Some(LeisureActivity)]

  /** The backend name a draft field is sent under; the seat preference has none. */
  function KeyOf(f: Field): Option<string>
  {
    match f
    case FullName => Some("Full_Name")
    case Email => Some("Email_ID")
    case Address => Some("Address")
    case HasVisa => Some("Valid_Visa")
    case NeedsVisaAssistance => Some("Arranging_Visa")
    case NeedsFlightBooking => Some("Flight_Booking")
    case DepartureCity => Some("Departure_City")
    case DepartureCityOther => Some("Departure_City_Other")
    case ArrivalCity => Some("Arrival_City")
    case ArrivalCityOther => Some("Arrival_City_Other")
    case SeatPreference => None
    case LeisureActivity => Some("Preference_Leisure_Activity")
    case MealPreference => Some("Meal_Preference")
    case MealPreferenceOther => Some("Meal_Preference_Other")
    case FoodAllergies => Some("Food_Allergies")
  }

  /**
   * `formData.x || ""`: a falsy draft value is sent as "". Draft values are
   * always strings, and the only falsy string is "", so the value goes out as it is.
   */
  function OrEmpty(v: string): (r: string)
    ensures r == v
  {
    if v == "" then "" else v
  }

  /**
   * Where a field's entry stands in the body; the two name maps are inverse
   * there, so each sent field is read back from the entry it was sent under.
   */
  function EntryIndex(f: Field): (k: nat)
    requires f != SeatPreference
    ensures k < |PayloadKeys| && KeyOf(f) == Some(PayloadKeys[k]) && PayloadFields[k] == Some(f)
  {
    match f
    case FullName => 0
    case Email => 1
    case Address => 2
    case HasVisa => 3
    case NeedsVisaAssistance => 4
    case NeedsFlightBooking => 5
    case MealPreference => 6
    case MealPreferenceOther => 7
    case FoodAllergies => 8
    case DepartureCity => 9
    case DepartureCityOther => 10
    case ArrivalCity => 11
    case ArrivalCityOther => 12
    case LeisureActivity => 15
  }

  /** The value sent for an entry: its draft field, or "" for the two flight options. */
  function SentValue(d: Draft, source: Option<Field>): string
  {
    match source
    case Some(f) => OrEmpty(d.Get(f))
    case None => ""
  }

  /** The body as a table: the i-th entry pairs the i-th backend name with the value of the i-th source field. */
  function Payload(d: Draft): (body: seq<Entry>)
    ensures |body| == |PayloadKeys|
    ensures forall i :: 0 <= i < |body| ==> body[i] == (PayloadKeys[i], SentValue(d, PayloadFields[i]))
  {
    seq(|PayloadKeys|, i requires 0 <= i < |PayloadKeys| => (PayloadKeys[i], SentValue(d, PayloadFields[i])))
  }

  /** `FormData.get(key)`: the value of the first entry under `key`. */
  function FormGet(body: seq<Entry>, key: string): (r: Option<string>)
    ensures r.None? <==> forall i :: 0 <= i < |body| ==> body[i].0 != key
    ensures r.Some? ==> exists i :: 0 <= i < |body| && body[i] == (key, r.value)
  {
    if body == [] then None
    else if body[0].0 == key then Some(body[0].1)
    else FormGet(body[1..], key)
  }

  /** Under distinct names, `FormData.get` finds the entry at the index where its name stands. */
  lemma {:induction false} FormGetAt(body: seq<Entry>, k: nat)
    requires k < |body|
    requires forall j :: 0 <= j < k ==> body[j].0 != body[k].0
    ensures FormGet(body, body[k].0) == Some(body[k].1)
  {
    if k > 0 {
      FormGetAt(body[1..], k - 1);
    }
  }

  /** SubmitData's body, built by appending one entry per backend field. */
  method BuildFormData(d: Draft) returns (body: seq<Entry>)
    ensures body == Payload(d)
  {
    body := [];
    body := body + [("Full_Name", OrEmpty(d.fullName))];
    body := body + [("Email_ID", OrEmpty(d.email))];
    body := body + [("Address", OrEmpty(d.address))];
    body := body + [("Valid_Visa", OrEmpty(d.hasVisa))];
    body := body + [("Arranging_Visa", OrEmpty(d.needsVisaAssistance))];
    body := body + [("Flight_Booking", OrEmpty(d.needsFlightBooking))];
    body := body + [("Meal_Preference", OrEmpty(d.mealPreference))];
    body := body + [("Meal_Preference_Other", OrEmpty(d.mealPreferenceOther))];
    body := body + [("Food_Allergies", OrEmpty(d.foodAllergies))];
    body := body + [("Departure_City", OrEmpty(d.departureCity))];
    body := body + [("Departure_City_Other", OrEmpty(d.departureCityOther))];
    body := body + [("Arrival_City", OrEmpty(d.arrivalCity))];
    body := body + [("Arrival_City_Other", OrEmpty(d.arrivalCityOther))];
    body := body + [("Flight_Option_Departure", "")];
    body := body + [("Flight_Option_Arrival", "")];
    body := body + [("Preference_Leisure_Activity", OrEmpty(d.leisureActivity))];
  }

  /**
   * The two tables line up: sixteen distinct names, none of them a seat
   * preference, and each field-filled entry under that field's own name.
   */
  lemma PayloadTable()
    ensures |PayloadKeys| == |PayloadFields| == 16
    ensures forall i, j :: 0 <= i < j < |PayloadKeys| ==> PayloadKeys[i] != PayloadKeys[j]
    ensures forall i :: 0 <= i < |PayloadKeys| ==> PayloadKeys[i] != "Seat_Preference"
    ensures forall i :: 0 <= i < |PayloadFields| && PayloadFields[i].Some? ==>
      KeyOf(PayloadFields[i].value) == Some(PayloadKeys[i])
    ensures forall i :: 0 <= i < |PayloadFields| ==> PayloadFields[i] != Some(SeatPreference)
  {
  }

  /**
   * The body has sixteen entries under sixteen distinct names, none of them a
   * seat preference, and each entry filled from a field goes under that field's name.
   */
  lemma PayloadShape(d: Draft)
    ensures |Payload(d)| == 16
    ensures forall i, j :: 0 <= i < j < |Payload(d)| ==> Payload(d)[i].0 != Payload(d)[j].0
    ensures forall i :: 0 <= i < |Payload(d)| ==> Payload(d)[i].0 != "Seat_Preference"
    ensures forall i :: 0 <= i < |Payload(d)| && PayloadFields[i].Some? ==>
      KeyOf(PayloadFields[i].value) == Some(Payload(d)[i].0)
  {
    PayloadTable();
  }

  /**
   * Every draft field except the seat preference is sent, verbatim, under its
   * backend name; in particular a selector left at "Other" goes out as "Other"
   * beside its text, and the assistance answer goes out whatever the visa answer.
   */
  lemma PayloadCarriesDraft(d: Draft, f: Field)
    requires f != SeatPreference
    ensures KeyOf(f).Some? && FormGet(Payload(d), KeyOf(f).value) == Some(d.Get(f))
  {
    var k := EntryIndex(f);
    PayloadShape(d);
    FormGetAt(Payload(d), k);
  }

  /** Both flight options are sent as "" whatever the draft holds. */
  lemma FlightOptionsAlwaysEmpty(d: Draft)
    ensures FormGet(Payload(d), "Flight_Option_Departure") == Some("")
    ensures FormGet(Payload(d), "Flight_Option_Arrival") == Some("")
  {
    var body := Payload(d);
    PayloadShape(d);
    assert body[13] == ("Flight_Option_Departure", "");
    FormGetAt(body, 13);
    assert body[14] == ("Flight_Option_Arrival", "");
    FormGetAt(body, 14);
  }

  /** The seat preference never reaches the body: changing it leaves the body as it was. */
  lemma SeatPreferenceNeverSent(d: Draft, seat: string)
    ensures Payload(d.With(SeatPreference, seat)) == Payload(d)
    ensures FormGet(Payload(d), "Seat_Preference") == None
  {
    var e := d.With(SeatPreference, seat);
    PayloadTable();
    PayloadShape(d);
    forall i | 0 <= i < |PayloadFields|
      ensures SentValue(e, PayloadFields[i]) == SentValue(d, PayloadFields[i])
    {
      if PayloadFields[i].Some? {
        assert e.Get(PayloadFields[i].value) == d.Get(PayloadFields[i].value);
      }
    }
    assert forall i :: 0 <= i < 16 ==> Payload(e)[i] == Payload(d)[i];
  }
}
