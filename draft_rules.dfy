/**
 * The registration draft of the main form page and the pure rules over it:
 * the per-field edit, the select edit that clears a stale "Other" text, and
 * the three page-validity predicates that gate the wizard's navigation.
 */
module DraftRules {
  import opened Wrappers
  import opened JsText

  /** The fifteen keys of the draft record. */
  datatype Field =
    | FullName | Email | Address
    | HasVisa | NeedsVisaAssistance
    | NeedsFlightBooking | DepartureCity | DepartureCityOther | ArrivalCity | ArrivalCityOther
    | SeatPreference
    | LeisureActivity | MealPreference | MealPreferenceOther | FoodAllergies

  /** The draft record; every field starts as "" and is only ever set to a string. */
  datatype Draft = Draft(
    fullName: string,
    email: string,
    address: string,
    hasVisa: string,
    needsVisaAssistance: string,
    needsFlightBooking: string,
    departureCity: string,
    departureCityOther: string,
    arrivalCity: string,
    arrivalCityOther: string,
    seatPreference: string,
    leisureActivity: string,
    mealPreference: string,
    mealPreferenceOther: string,
    foodAllergies: string)
  {
    /** `formData[field]`. */
    function Get(f: Field): string
    {
      match f
      case FullName => fullName
      case Email => email
      case Address => address
      case HasVisa => hasVisa
      case NeedsVisaAssistance => needsVisaAssistance
      case NeedsFlightBooking => needsFlightBooking
      case DepartureCity => departureCity
      case DepartureCityOther => departureCityOther
      case ArrivalCity => arrivalCity
      case ArrivalCityOther => arrivalCityOther
      case SeatPreference => seatPreference
      case LeisureActivity => leisureActivity
      case MealPreference => mealPreference
      case MealPreferenceOther => mealPreferenceOther
      case FoodAllergies => foodAllergies
    }

    /** `{ ...prev, [field]: value }`: the named field takes the value, every other field keeps its own. */
    function With(f: Field, v: string): (r: Draft)
      ensures r.Get(f) == v
      ensures forall g :: g != f ==> r.Get(g) == Get(g)
    {
      match f
      case FullName => this.(fullName := v)
      case Email => this.(email := v)
      case Address => this.(address := v)
      case HasVisa => this.(hasVisa := v)
      case NeedsVisaAssistance => this.(needsVisaAssistance := v)
      case NeedsFlightBooking => this.(needsFlightBooking := v)
      case DepartureCity => this.(departureCity := v)
      case DepartureCityOther => this.(departureCityOther := v)
      case ArrivalCity => this.(arrivalCity := v)
      case ArrivalCityOther => this.(arrivalCityOther := v)
      case SeatPreference => this.(seatPreference := v)
      case LeisureActivity => this.(leisureActivity := v)
      case MealPreference => this.(mealPreference := v)
      case MealPreferenceOther => this.(mealPreferenceOther := v)
      case FoodAllergies => this.(foodAllergies := v)
    }
  }

  /** The draft the page starts with: every field "". */
  const EmptyDraft: Draft := Draft("", "", "", "", "", "", "", "", "", "", "", "", "", "", "")

  /** The free-text field that goes with a selector offering "Other", if the field is such a selector. */
  function OtherText(f: Field): Option<Field>
  {
    match f
    case DepartureCity => Some(DepartureCityOther)
    case ArrivalCity => Some(ArrivalCityOther)
    case MealPreference => Some(MealPreferenceOther)
    case _ => None
  }

  /**
   * The state update of a select change. For the three selectors paired with
   * an "Other" text, the selector takes the value and its text is kept when the
   * value is "Other" and cleared otherwise; any other field is a plain input change.
   */
  function SelectChange(d: Draft, f: Field, v: string): (r: Draft)
    ensures r.Get(f) == v
    ensures OtherText(f).Some? ==>
      r.Get(OtherText(f).value) == (if v == "Other" then d.Get(OtherText(f).value) else "")
    ensures forall g :: g != f && OtherText(f) != Some(g) ==> r.Get(g) == d.Get(g)
  {
    match f
    case DepartureCity =>
      d.(departureCity := v, departureCityOther := if v == "Other" then d.departureCityOther else "")
    case ArrivalCity =>
      d.(arrivalCity := v, arrivalCityOther := if v == "Other" then d.arrivalCityOther else "")
    case MealPreference =>
      d.(mealPreference := v, mealPreferenceOther := if v == "Other" then d.mealPreferenceOther else "")
    case _ =>
      d.With(f, v)
  }

  /** Page 1 (personal details and visa). */
  predicate IsPage1Valid(d: Draft)
  {
    if d.fullName == "" || d.address == "" || d.hasVisa == "" then false
    else if d.hasVisa == "No" && d.needsVisaAssistance == "" then false
    else true
  }

  /** A selector value paired with an "Other" text counts as chosen, in the sense of page 2. */
  predicate HasCity(city: string, other: string)
  {
    city != "" && (city != "Other" || (city == "Other" && Trim(other) != ""))
  }

  /** Page 2 (flights). */
  predicate IsPage2Valid(d: Draft)
  {
    if d.needsFlightBooking == "" then false
    else if d.needsFlightBooking == "Yes"
      && (!HasCity(d.departureCity, d.departureCityOther) || !HasCity(d.arrivalCity, d.arrivalCityOther))
    then false
    else true
  }

  /** Page 3 (extras). */
  predicate IsPage3Valid(d: Draft)
  {
    if d.mealPreference == "Other" && Trim(d.mealPreferenceOther) == "" then false else true
  }

  /** Some character of `s` is not whitespace: the reference reading of "not blank". */
  predicate HasVisibleChar(s: string)
  {
    exists i :: 0 <= i < |s| && !IsWhitespace(s[i])
  }

  lemma NotBlankIffVisibleChar(s: string)
    ensures Trim(s) != "" <==> HasVisibleChar(s)
  {
    BlankIffAllWhitespace(s);
  }

  /**
   * Page 1 fails whenever the full name, the address or the visa answer is
   * missing; with those present it holds iff a "No" visa answer comes with an
   * assistance answer. The email is never consulted.
   */
  lemma Page1Rule(d: Draft, email: string)
    ensures d.fullName == "" || d.address == "" || d.hasVisa == "" ==> !IsPage1Valid(d)
    ensures d.fullName != "" && d.address != "" && d.hasVisa == "No" ==>
      (IsPage1Valid(d) <==> d.needsVisaAssistance != "")
    ensures d.fullName != "" && d.address != "" && d.hasVisa != "" && d.hasVisa != "No" ==> IsPage1Valid(d)
    ensures IsPage1Valid(d.With(Email, email)) == IsPage1Valid(d)
  {
  }

  /**
   * Page 2 fails without a booking answer and holds for any answer but "Yes"
   * whatever the cities hold; with "Yes" each city must be chosen and, when it
   * is "Other", its text must hold a non-whitespace character.
   */
  lemma Page2Rule(d: Draft)
    ensures d.needsFlightBooking == "" ==> !IsPage2Valid(d)
    ensures d.needsFlightBooking != "" && d.needsFlightBooking != "Yes" ==> IsPage2Valid(d)
    ensures d.needsFlightBooking == "Yes" ==>
      (IsPage2Valid(d) <==>
        && d.departureCity != "" && (d.departureCity == "Other" ==> HasVisibleChar(d.departureCityOther))
        && d.arrivalCity != "" && (d.arrivalCity == "Other" ==> HasVisibleChar(d.arrivalCityOther)))
  {
    NotBlankIffVisibleChar(d.departureCityOther);
    NotBlankIffVisibleChar(d.arrivalCityOther);
  }

  /**
   * Page 3 fails exactly when the meal choice is "Other" and its text is all
   * whitespace; the leisure activity is never consulted.
   */
  lemma Page3Rule(d: Draft, leisure: string)
    ensures !IsPage3Valid(d) <==>
      d.mealPreference == "Other" && forall i :: 0 <= i < |d.mealPreferenceOther| ==> IsWhitespace(d.mealPreferenceOther[i])
    ensures IsPage3Valid(d.With(LeisureActivity, leisure)) == IsPage3Valid(d)
  {
    BlankIffAllWhitespace(d.mealPreferenceOther);
  }

  /**
   * A plain input change touches only its field: answering "Yes" to the visa
   * question after "No" leaves the earlier assistance answer in the draft, and
   * page 1 then no longer looks at it.
   */
  lemma StaleVisaAssistance(d: Draft)
    ensures d.With(HasVisa, "Yes").needsVisaAssistance == d.needsVisaAssistance
    ensures IsPage1Valid(d.With(HasVisa, "Yes")) <==> d.fullName != "" && d.address != ""
  {
    assert d.With(HasVisa, "Yes").Get(NeedsVisaAssistance) == d.Get(NeedsVisaAssistance);
  }

  /**
   * Moving a paired selector off "Other" clears its text, so a stale text can
   * never make page 2 or page 3 fail afterwards: a city moved to another
   * non-empty value counts as chosen, and the meal selector makes page 3 hold.
   */
  lemma SelectOffOtherClearsText(d: Draft, f: Field, v: string)
    requires OtherText(f).Some? && v != "Other"
    ensures SelectChange(d, f, v).Get(OtherText(f).value) == ""
    ensures f == DepartureCity ==>
      (HasCity(SelectChange(d, f, v).departureCity, SelectChange(d, f, v).departureCityOther) <==> v != "")
    ensures f == ArrivalCity ==>
      (HasCity(SelectChange(d, f, v).arrivalCity, SelectChange(d, f, v).arrivalCityOther) <==> v != "")
    ensures f == MealPreference ==> IsPage3Valid(SelectChange(d, f, v))
  {
  }
}
