/**
 * The Tour aggregate of the Tours domain: a bike tour whose constructor
 * validates the name and description lengths and then stores its arguments.
 * A datatype value is immutable, as the get-only properties are.
 */
module Domain {
  import opened Wrappers
  import opened Ordinal

  /** A 128-bit identifier. */
  newtype Guid = x: int | 0 <= x < 0x1_0000_0000_0000_0000_0000_0000_0000_0000

  /** `DateOnly` as its day number: 0 is 0001-01-01 and 3652058 is 9999-12-31. */
  newtype DateOnly = d: int | 0 <= d <= 3652058

  const MinDate: DateOnly := 0
  const MaxDate: DateOnly := 3652058

  datatype Tour = Tour(
    id: Guid,
    name: string,
    description: string,
    price: real,
    startDate: DateOnly,
    endDate: DateOnly)

  /** An `ArgumentException` with its message and parameter name. */
  datatype ArgumentError = ArgumentError(message: string, paramName: string)

  const NameError := ArgumentError("Name length must be between 3 and 100 characters.", "name")
  const DescriptionError := ArgumentError("Description length must be between 10 and 500 characters.", "description")

  /** `new Tour(name, description, price, startDate, endDate)` with the time-based
      identifier `id` it would generate; `None` stands for a null string. The
      name is checked first; price and dates are not checked at all. */
  function NewTour(id: Guid, name: Option<string>, description: Option<string>,
                   price: real, startDate: DateOnly, endDate: DateOnly): (r: Result<Tour, ArgumentError>)
    ensures r.Success? <==>
      && name.Some? && 3 <= Length(name.value) <= 100
      && description.Some? && 10 <= Length(description.value) <= 500
    ensures r.Success? ==>
      r.value == Tour(id, name.value, description.value, price, startDate, endDate)
    ensures r.Failure? ==>
      r.error == if name.Some? && 3 <= Length(name.value) <= 100 then DescriptionError else NameError
  {
    if name.None? || Length(name.value) < 3 || Length(name.value) > 100 then
      Failure(NameError)
    else if description.None? || Length(description.value) < 10 || Length(description.value) > 500 then
      Failure(DescriptionError)
    else
      Success(Tour(id, name.value, description.value, price, startDate, endDate))
  }

  /** A string of `n` copies of 'a', as `new string('a', n)` builds. */
  function Repeat(n: nat): (s: string)
    ensures |s| == n && Length(s) == n
  {
    var s := seq(n, _ => 'a');
    BmpLength(s);
    s
  }

  /** An invalid name is reported even when the description is invalid too. */
  lemma NameCheckedFirst(id: Guid, name: Option<string>, description: Option<string>,
                         price: real, startDate: DateOnly, endDate: DateOnly)
    requires name.None? || Length(name.value) < 3 || Length(name.value) > 100
    ensures NewTour(id, name, description, price, startDate, endDate) == Failure(NameError)
  {
  }

  /** The name-length boundaries the domain tests pin, for any valid
      description such as the tests' "A valid description". */
  lemma NameLengthBoundaries(id: Guid, description: string, price: real, startDate: DateOnly, endDate: DateOnly)
    requires 10 <= Length(description) <= 500
    ensures forall n :: n in [0, 1, 2, 101, 102] ==>
      NewTour(id, Some(Repeat(n)), Some(description), price, startDate, endDate) == Failure(NameError)
    ensures forall n :: n in [3, 4, 99, 100] ==>
      NewTour(id, Some(Repeat(n)), Some(description), price, startDate, endDate).Success?
  {
  }

  /** Price and dates are never checked: with a valid name and description any
      price and any pair of dates are accepted, an end date before the start
      date and the whole `DateOnly` range included. */
  lemma PriceAndDatesUnchecked(id: Guid, name: string, description: string, price: real, startDate: DateOnly, endDate: DateOnly)
    requires 3 <= Length(name) <= 100 && 10 <= Length(description) <= 500
    ensures NewTour(id, Some(name), Some(description), price, startDate, endDate)
            == Success(Tour(id, name, description, price, startDate, endDate))
  {
  }

  /** The domain tests' `Can_Create_Tour` case. */
  lemma CanCreateTour(id: Guid)
    ensures NewTour(id, Some("Test Tour"), Some("This is a test tour"), 100.0, MinDate, MaxDate).Success?
  {
    TestStringLengths();
    PriceAndDatesUnchecked(id, "Test Tour", "This is a test tour", 100.0, MinDate, MaxDate);
  }

  lemma TestStringLengths()
    ensures Length("Test Tour") == 9 && Length("This is a test tour") == 19
  {
    var name, description := "Test Tour", "This is a test tour";
    assert forall k :: 0 <= k < |name| ==> name[k] as int < 0x1_0000;
    assert forall k :: 0 <= k < |description| ==> description[k] as int < 0x1_0000;
    BmpLength(name);
    BmpLength(description);
  }
}
