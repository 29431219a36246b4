/**
 * Field validators for player data. Each takes a dynamically typed value
 * (the `Any` of the dictionary it is applied to) and either returns the value
 * to store or fails with the message of the `ValidationError` it raises.
 */
module Validators {
  import opened Wrappers
  import opened Strings
  import opened Models

  /** A dictionary value as Python sees it. `Other` is any other (truthy) object. */
  datatype Value = NoneValue | IntValue(i: int) | StrValue(s: string) | DateValue(d: Date) | Other

  /** Python truthiness: `None`, `0` and `""` are false. */
  predicate Truthy(v: Value) {
    match v
    case NoneValue => false
    case IntValue(i) => i != 0
    case StrValue(s) => s != ""
    case DateValue(_) => true
    case Other => true
  }

  /** `validate_jersey_number`: None passes; otherwise an integer between 1 and 99, returned as given. */
  function ValidateJerseyNumber(jersey: Value): (r: Result<Value, string>)
    ensures r.Success? <==> jersey.NoneValue? || (jersey.IntValue? && MinJersey <= jersey.i <= MaxJersey)
    ensures r.Success? ==> r.value == jersey
  {
    if jersey.NoneValue? then Success(NoneValue)
    else if !jersey.IntValue? then Failure("Jersey number must be an integer")
    else if jersey.i < 1 || jersey.i > 99 then Failure("Jersey number must be between 1 and 99")
    else Success(jersey)
  }

  /** `validate_iso_date`, over an ISO parser whose calendar rules are not modelled. */
  function ValidateIsoDate(date: Value, parseIso: string -> Result<Date, string>): (r: Result<Value, string>)
    ensures !Truthy(date) ==> r == Success(NoneValue)
    ensures Truthy(date) ==> (r.Success? <==> date.StrValue? && parseIso(date.s).Success?)
    ensures r.Success? && Truthy(date) ==> r.value == DateValue(parseIso(date.s).value)
  {
    if !Truthy(date) then Success(NoneValue)
    else if !date.StrValue? then Failure("Date must be a string")
    else match parseIso(date.s)
      case Failure(e) => Failure("Invalid date format. Expected YYYY-MM-DD: " + e)
      case Success(d) => Success(DateValue(d))
  }

  /** `validate_birth_year`, with the current year given by the caller. */
  function ValidateBirthYear(birthYear: Value, currentYear: int): (r: Result<Value, string>)
    ensures r.Success? <==> birthYear.NoneValue? || (birthYear.IntValue? && 1900 <= birthYear.i <= currentYear)
    ensures r.Success? ==> r.value == birthYear
  {
    if birthYear.NoneValue? then Success(NoneValue)
    else if !birthYear.IntValue? then Failure("Birth year must be an integer")
    else if birthYear.i < 1900 || birthYear.i > currentYear then
      Failure("Birth year must be between 1900 and " + IntToString(currentYear))
    else Success(birthYear)
  }

  /**
   * The shape `validate_email_format` accepts: 5 to 255 characters, exactly one
   * `@` with something on either side, and a `.` after it.
   */
  predicate EmailShape(e: string) {
    var at := IndexOf(e, '@');
    && 5 <= |e| <= 255
    && multiset(e)['@'] == 1
    && 0 < at < |e| - 1
    && '.' in e[at + 1..]
  }

  /** With one `@`, splitting on it gives what lies before and after. */
  lemma SplitAtSingleSeparator(e: string, c: char)
    ensures multiset(e)[c] == 1 ==>
      IndexOf(e, c) < |e| && Split(e, c) == [e[..IndexOf(e, c)], e[IndexOf(e, c) + 1..]]
  {
    var k := IndexOf(e, c);
    if multiset(e)[c] != 1 {
      return;
    }
    assert e == e[..k] + [e[k]] + e[k + 1..];
    assert c !in multiset(e[..k]);
    assert multiset(e[k + 1..])[c] == 0;
    var rest := Split(e[k + 1..], c);
    assert |rest| == 1;
    assert rest[0] == e[k + 1..][..IndexOf(e[k + 1..], c)];
  }

  /** `validate_email_format`: a non-empty string of the right shape, returned as given; falsy gives None. */
  function ValidateEmailFormat(email: Value): (r: Result<Value, string>)
    ensures r.Success? <==> !Truthy(email) || (email.StrValue? && EmailShape(email.s))
    ensures r.Success? ==> r.value == if Truthy(email) then email else NoneValue
  {
    if !Truthy(email) then Success(NoneValue)
    else if !email.StrValue? then Failure("Email must be a string")
    else
      var e := email.s;
      SplitAtSingleSeparator(e, '@');
      if '@' !in e || |e| < 5 || |e| > 255 then Failure("Invalid email format")
      else
        var parts := Split(e, '@');
        if |parts| != 2 || parts[0] == "" || parts[1] == "" then Failure("Invalid email format")
        else if '.' !in parts[1] then Failure("Invalid email format")
        else Success(email)
  }

  /** `validate_phone_format`: 10 to 15 digit characters; the string is returned with its formatting. */
  function ValidatePhoneFormat(phone: Value): (r: Result<Value, string>)
    ensures r.Success? <==> !Truthy(phone) || (phone.StrValue? && 10 <= |Digits(phone.s)| <= 15)
    ensures r.Success? ==> r.value == if Truthy(phone) then phone else NoneValue
  {
    if !Truthy(phone) then Success(NoneValue)
    else if !phone.StrValue? then Failure("Phone must be a string")
    else
      var cleanPhone := Digits(phone.s);
      if |cleanPhone| < 10 || |cleanPhone| > 15 then Failure("Phone number must be 10-15 digits")
      else Success(phone)
  }

  /** The keys `validate_player_data` checks; every other key is copied as it is. */
  const ValidatedKeys: set<string> := {"jersey", "birthdate", "email", "phone"}

  predicate JerseyPasses(data: map<string, Value>) {
    "jersey" !in data || ValidateJerseyNumber(data["jersey"]).Success?
  }

  /** Only a string birthdate is parsed; a value of any other type is kept. */
  predicate BirthdatePasses(data: map<string, Value>, parseIso: string -> Result<Date, string>) {
    "birthdate" !in data || !data["birthdate"].StrValue? || ValidateIsoDate(data["birthdate"], parseIso).Success?
  }

  predicate EmailPasses(data: map<string, Value>) {
    "email" !in data || ValidateEmailFormat(data["email"]).Success?
  }

  predicate PhonePasses(data: map<string, Value>) {
    "phone" !in data || ValidatePhoneFormat(data["phone"]).Success?
  }

  /**
   * `validate_player_data`: copies the dictionary and replaces, field by field,
   * each present checked key with its validated value. The first failing field
   * stops it with that field's message, prefixed with the field's name.
   */
  method ValidatePlayerData(data: map<string, Value>, parseIso: string -> Result<Date, string>)
    returns (r: Result<map<string, Value>, string>)
    ensures r.Success? <==>
      JerseyPasses(data) && BirthdatePasses(data, parseIso) && EmailPasses(data) && PhonePasses(data)
    ensures r.Success? ==> r.value.Keys == data.Keys
    ensures r.Success? ==> forall k :: k in data && k !in ValidatedKeys ==> r.value[k] == data[k]
    ensures r.Success? && "jersey" in data ==> r.value["jersey"] == data["jersey"]
    ensures r.Success? && "birthdate" in data ==>
      r.value["birthdate"] == if data["birthdate"].StrValue? then ValidateIsoDate(data["birthdate"], parseIso).value
                              else data["birthdate"]
    ensures r.Success? && "email" in data ==> r.value["email"] == ValidateEmailFormat(data["email"]).value
    ensures r.Success? && "phone" in data ==> r.value["phone"] == ValidatePhoneFormat(data["phone"]).value
    ensures r.Failure? && !JerseyPasses(data) ==> StartsWith(r.error, "Jersey validation failed: ")
    ensures r.Failure? && JerseyPasses(data) && !BirthdatePasses(data, parseIso) ==>
      StartsWith(r.error, "Birthdate validation failed: ")
    ensures r.Failure? && JerseyPasses(data) && BirthdatePasses(data, parseIso) && !EmailPasses(data) ==>
      StartsWith(r.error, "Email validation failed: ")
    ensures r.Failure? && JerseyPasses(data) && BirthdatePasses(data, parseIso) && EmailPasses(data) ==>
      StartsWith(r.error, "Phone validation failed: ")
  {
    var cleaned := data;
    if "jersey" in cleaned {
      var v := ValidateJerseyNumber(cleaned["jersey"]);
      if v.Failure? {
        return Failure("Jersey validation failed: " + v.error);
      }
      cleaned := cleaned["jersey" := v.value];
    }
    if "birthdate" in cleaned && cleaned["birthdate"].StrValue? {
      var v := ValidateIsoDate(cleaned["birthdate"], parseIso);
      if v.Failure? {
        return Failure("Birthdate validation failed: " + v.error);
      }
      cleaned := cleaned["birthdate" := v.value];
    }
    if "email" in cleaned {
      var v := ValidateEmailFormat(cleaned["email"]);
      if v.Failure? {
        return Failure("Email validation failed: " + v.error);
      }
      cleaned := cleaned["email" := v.value];
    }
    if "phone" in cleaned {
      var v := ValidatePhoneFormat(cleaned["phone"]);
      if v.Failure? {
        return Failure("Phone validation failed: " + v.error);
      }
      cleaned := cleaned["phone" := v.value];
    }
    return Success(cleaned);
  }
}
