/** The data logic of the passenger form: the passenger schema as a
    predicate, the default values the form starts from, and the rule by
    which the birth-date picker disables dates. */
module PassengerForm {
  import opened Common

  const TITLES: seq<string> := ["Mr", "Mrs", "Ms", "Miss", "Dr"]

  /** The form's values; a date of birth not yet picked is `None`. */
  datatype PassengerFormData = PassengerFormData(
    title: string,
    firstName: string,
    lastName: string,
    dateOfBirth: Option<int>,
    passportNumber: Option<string>)

  /** `passengerSchema`: one of the five titles, both names at least two
      characters, a date of birth present, any passport number or none. */
  predicate PassengerSchemaAccepts(data: PassengerFormData)
  {
    && data.title in TITLES
    && |data.firstName| >= 2
    && |data.lastName| >= 2
    && data.dateOfBirth.Some?
  }

  /** What each schema rule rejects on its own, and that the passport
      number never decides. */
  lemma PassengerSchemaRules(data: PassengerFormData, passport: Option<string>)
    ensures data.title !in TITLES ==> !PassengerSchemaAccepts(data)
    ensures |data.firstName| < 2 || |data.lastName| < 2 ==> !PassengerSchemaAccepts(data)
    ensures data.dateOfBirth.None? ==> !PassengerSchemaAccepts(data)
    ensures PassengerSchemaAccepts(data.(passportNumber := passport)) == PassengerSchemaAccepts(data)
    ensures PassengerSchemaAccepts(data) <==>
      (data.title == "Mr" || data.title == "Mrs" || data.title == "Ms" || data.title == "Miss" || data.title == "Dr")
      && |data.firstName| >= 2 && |data.lastName| >= 2 && data.dateOfBirth.Some?
  {
  }

  /** Values the caller may pass in; any of them may be missing. */
  datatype SuppliedValues = SuppliedValues(
    title: Option<string>,
    firstName: Option<string>,
    lastName: Option<string>,
    dateOfBirth: Option<int>,
    passportNumber: Option<string>)

  /** JavaScript `x || fallback` on an optional string: a missing or empty
      value gives the fallback. */
  function OrElse(x: Option<string>, fallback: string): (r: string)
    ensures x.Some? && x.value != "" ==> r == x.value
    ensures x.None? || x.value == "" ==> r == fallback
  {
    if x.Some? && x.value != "" then x.value else fallback
  }

  /** The form's initial values. */
  function FormDefaults(supplied: Option<SuppliedValues>): PassengerFormData
  {
    match supplied
    case None => PassengerFormData("Mr", "", "", None, Some(""))
    case Some(v) =>
      PassengerFormData(OrElse(v.title, "Mr"), OrElse(v.firstName, ""), OrElse(v.lastName, ""),
                        v.dateOfBirth, Some(OrElse(v.passportNumber, "")))
  }

  /** Without supplied values the form starts as Mr with empty names, no
      date and an empty passport, which the schema rejects; the title
      default alone is valid. */
  lemma EmptyDefaultsAreRejected()
    ensures FormDefaults(None) == PassengerFormData("Mr", "", "", None, Some(""))
    ensures FormDefaults(None).title in TITLES
    ensures !PassengerSchemaAccepts(FormDefaults(None))
  {
  }

  /** Supplied non-empty values are kept, empty ones fall back like missing
      ones, and the form always starts with some passport string. */
  lemma SuppliedDefaults(v: SuppliedValues)
    ensures var d := FormDefaults(Some(v));
      && (v.firstName.Some? && v.firstName.value != "" ==> d.firstName == v.firstName.value)
      && (v.firstName.None? || v.firstName.value == "" ==> d.firstName == "")
      && (v.title.None? || v.title.value == "" ==> d.title == "Mr")
      && d.dateOfBirth == v.dateOfBirth
      && d.passportNumber.Some?
      && FormDefaults(Some(v.(title := Some(""), firstName := Some(""), lastName := Some(""), passportNumber := Some(""))))
         == FormDefaults(Some(v.(title := None, firstName := None, lastName := None, passportNumber := None)))
  {
  }

  /** `disabled={(date) => date > new Date()}`. */
  predicate DateDisabled(date: int, now: int) { date > now }

  /** A day the calendar lets the traveller pick: not rejected by the
      `disabled` rule, and inside the navigable range that `fromYear={1920}`
      and `toYear={new Date().getFullYear()}` set up. `first` is the first
      instant of 1 January 1920 and `last` the last instant of the current
      year; both come from the clock. */
  predicate PickerSelectable(date: int, now: int, first: int, last: int)
  {
    !DateDisabled(date, now) && first <= date <= last
  }

  /** The `disabled` rule rejects exactly the instants after now, and the
      instants it lets through are closed downwards. The calendar adds its
      range: nothing before 1920 is offered however far in the past, and
      since the current year ends no earlier than now, the offered dates are
      exactly those from 1920 up to now. */
  lemma PickerOffersOnlyThePast(date: int, earlier: int, now: int, first: int, last: int)
    ensures !DateDisabled(date, now) <==> date <= now
    ensures !DateDisabled(now, now) && DateDisabled(now + 1, now)
    ensures earlier <= date && !DateDisabled(date, now) ==> !DateDisabled(earlier, now)
    ensures date < first ==> !PickerSelectable(date, now, first, last)
    ensures now <= last ==> (PickerSelectable(date, now, first, last) <==> first <= date <= now)
  {
  }
}
