/**
 * `customer_submit_view` of the older `Spenta` copy of the application: the
 * required-field and pincode checks, the default `CIF-` form number built
 * from the current time, and the writes of an accepted lead.
 */
module SpentaViews {
  import opened Wrappers
  import opened Text
  import opened Submission
  import SpentaModels

  const RequiredFields: seq<string> := [
    "first_name", "last_name", "email", "date_of_birth",
    "residential_address", "city", "locality", "pincode",
    "nationality", "employment_type", "configuration",
    "budget", "construction_status", "purpose_of_buying"]

  datatype SubmitError = Missing(fields: seq<string>) | InvalidPincode | ServerError(cause: DbError)

  /** The pincode check: exactly six characters, all digits. */
  predicate GoodPincode(post: Post)
  {
    |GetOr(post, "pincode", "")| == 6 && IsDigitString(GetOr(post, "pincode", ""))
  }

  /** The view's checks: the missing required fields first, then a six-digit pincode. */
  function Validate(post: Post): (r: Result<string, SubmitError>)
    ensures r == Failure(Missing(MissingFields(RequiredFields, post))) <==> MissingFields(RequiredFields, post) != []
    ensures r == Failure(InvalidPincode) <==> MissingFields(RequiredFields, post) == [] && !GoodPincode(post)
    ensures r.Success? <==> MissingFields(RequiredFields, post) == [] && GoodPincode(post)
    ensures r.Success? ==> "pincode" in post && r.value == post["pincode"]
  {
    var missing := MissingFields(RequiredFields, post);
    if missing != [] then Failure(Missing(missing))
    else
      var pincode := GetOr(post, "pincode", "");
      if |pincode| != 6 || !IsDigitString(pincode) then Failure(InvalidPincode)
      else Success(pincode)
  }

  /** Unlike the newer view, this one rejects a form without a date of birth or an address. */
  lemma MissingBirthDateIsReported(post: Post)
    requires !Filled(post, "date_of_birth") || !Filled(post, "residential_address")
    ensures Validate(post).Failure? && Validate(post).error.Missing?
    ensures !Filled(post, "date_of_birth") ==> "date_of_birth" in Validate(post).error.fields
    ensures !Filled(post, "residential_address") ==> "residential_address" in Validate(post).error.fields
  {
    var missing := MissingFields(RequiredFields, post);
    assert RequiredFields[3] == "date_of_birth" && RequiredFields[4] == "residential_address";
    if !Filled(post, "date_of_birth") {
      assert "date_of_birth" in missing;
    } else {
      assert "residential_address" in missing;
    }
  }

  /** A local date and time, as `datetime.now()` gives it. */
  datatype DateTime = DateTime(year: nat, month: nat, day: nat, hour: nat, minute: nat, second: nat)
  {
    predicate Valid()
    {
      1000 <= year <= 9999 && 1 <= month <= 12 && 1 <= day <= 31 && hour < 24 && minute < 60 && second < 60
    }

    /** The number `%Y%m%d%H%M%S` reads as. */
    function Stamp(): nat
    {
      ((((year * 100 + month) * 100 + day) * 100 + hour) * 100 + minute) * 100 + second
    }
  }

  /** `n` printed in decimal and padded with zeros on the left to `w` characters. */
  function Pad(n: nat, w: nat): (r: string)
    requires w >= 1 && n < Pow10(w)
    ensures |r| == w && AllDigits(r) && DigitsValue(r) == n
  {
    var s := NatToString(n);
    NatToStringAtMost(n, w);
    NatToStringRoundTrip(n);
    var zeros := seq(w - |s|, _ => '0');
    ZerosValue(zeros);
    DigitsValueAppend(zeros, s);
    zeros + s
  }

  lemma {:induction false} ZerosValue(z: string)
    requires forall k :: 0 <= k < |z| ==> z[k] == '0'
    ensures AllDigits(z) && DigitsValue(z) == 0
    decreases |z|
  {
    if z != [] {
      ZerosValue(z[..|z| - 1]);
    }
  }

  /** `strftime("%Y%m%d%H%M%S")`. */
  function Timestamp(t: DateTime): string
    requires t.Valid()
  {
    assert Pow10(2) == 100 && Pow10(4) == 10000;
    Pad(t.year, 4) + Pad(t.month, 2) + Pad(t.day, 2) + Pad(t.hour, 2) + Pad(t.minute, 2) + Pad(t.second, 2)
  }

  /** The default form number for a submission at time `t`. */
  function DefaultFormNumber(t: DateTime): string
    requires t.Valid()
  {
    "CIF-" + Timestamp(t)
  }

  /**
   * The default form number is `CIF-` and fourteen digits that read as the
   * date and time, so it fits the twenty characters of the column.
   */
  lemma DefaultFormNumberLayout(t: DateTime)
    requires t.Valid()
    ensures var f := DefaultFormNumber(t);
            && |f| == 18 && f[..4] == "CIF-"
            && AllDigits(f[4..]) && DigitsValue(f[4..]) == t.Stamp()
  {
    assert Pow10(2) == 100 && Pow10(4) == 10000;
    var y, mo, d, h, mi, s := Pad(t.year, 4), Pad(t.month, 2), Pad(t.day, 2), Pad(t.hour, 2), Pad(t.minute, 2), Pad(t.second, 2);
    DigitsValueAppend(y, mo);
    DigitsValueAppend(y + mo, d);
    DigitsValueAppend(y + mo + d, h);
    DigitsValueAppend(y + mo + d + h, mi);
    DigitsValueAppend(y + mo + d + h + mi, s);
    var f := DefaultFormNumber(t);
    assert f[4..] == y + mo + d + h + mi + s;
  }

  /** Zero-padding to a fixed width loses nothing. */
  lemma PadInjective(a: nat, b: nat, w: nat)
    requires w >= 1 && a < Pow10(w) && b < Pow10(w)
    requires Pad(a, w) == Pad(b, w)
    ensures a == b
  {
  }

  /** Equal concatenations with equally long tails have equal heads and tails. */
  lemma ConcatCancel(a1: string, b1: string, a2: string, b2: string)
    requires |b1| == |b2| && a1 + b1 == a2 + b2
    ensures a1 == a2 && b1 == b2
  {
    assert a1 == (a1 + b1)[..|a1|] && a2 == (a2 + b2)[..|a2|];
    assert b1 == (a1 + b1)[|a1|..] && b2 == (a2 + b2)[|a2|..];
  }

  /**
   * Default form numbers differ exactly when the times differ: two
   * submissions within one second get the same number, and the unique
   * constraint rejects the second.
   */
  lemma DefaultFormNumberInjective(t1: DateTime, t2: DateTime)
    requires t1.Valid() && t2.Valid()
    ensures DefaultFormNumber(t1) == DefaultFormNumber(t2) <==> t1 == t2
  {
    if DefaultFormNumber(t1) == DefaultFormNumber(t2) {
      assert Pow10(2) == 100 && Pow10(4) == 10000;
      var y1, mo1, d1, h1, mi1, s1 := Pad(t1.year, 4), Pad(t1.month, 2), Pad(t1.day, 2), Pad(t1.hour, 2), Pad(t1.minute, 2), Pad(t1.second, 2);
      var y2, mo2, d2, h2, mi2, s2 := Pad(t2.year, 4), Pad(t2.month, 2), Pad(t2.day, 2), Pad(t2.hour, 2), Pad(t2.minute, 2), Pad(t2.second, 2);
      ConcatCancel("CIF-", Timestamp(t1), "CIF-", Timestamp(t2));
      ConcatCancel(y1 + mo1 + d1 + h1 + mi1, s1, y2 + mo2 + d2 + h2 + mi2, s2);
      ConcatCancel(y1 + mo1 + d1 + h1, mi1, y2 + mo2 + d2 + h2, mi2);
      ConcatCancel(y1 + mo1 + d1, h1, y2 + mo2 + d2, h2);
      ConcatCancel(y1 + mo1, d1, y2 + mo2, d2);
      ConcatCancel(y1, mo1, y2, mo2);
      PadInjective(t1.year, t2.year, 4);
      PadInjective(t1.month, t2.month, 2);
      PadInjective(t1.day, t2.day, 2);
      PadInjective(t1.hour, t2.hour, 2);
      PadInjective(t1.minute, t2.minute, 2);
      PadInjective(t1.second, t2.second, 2);
    }
  }

  /** `data.get('form_number', default)`: a posted value, even an empty one, wins over the default. */
  function FormNumberFor(post: Post, now: DateTime): (f: string)
    requires now.Valid()
    ensures "form_number" in post ==> f == post["form_number"]
    ensures "form_number" !in post ==> f == DefaultFormNumber(now)
  {
    GetOr(post, "form_number", DefaultFormNumber(now))
  }

  /** The customer row the view writes for an accepted form. */
  function NewCustomer(post: Post, formNumber: string): (c: SpentaModels.Customer)
    ensures c.formNumber == formNumber
    ensures c.firstName == GetOr(post, "first_name", "") && c.lastName == GetOr(post, "last_name", "")
    ensures c.pincode == GetOr(post, "pincode", "") && c.dateOfBirth == GetOr(post, "date_of_birth", "")
    ensures c.middleName == GetOr(post, "middle_name", "") && c.email == GetOr(post, "email", "")
    ensures c.residentialAddress == GetOr(post, "residential_address", "")
    ensures c.city == GetOr(post, "city", "") && c.locality == GetOr(post, "locality", "")
    ensures c.nationality == GetOr(post, "nationality", "") && c.employmentType == GetOr(post, "employment_type", "")
    ensures c.companyName == GetOr(post, "company_name", "") && c.designation == GetOr(post, "designation", "")
    ensures c.industry == GetOr(post, "industry", "") && c.configuration == GetOr(post, "configuration", "")
    ensures c.budget == GetOr(post, "budget", "")
    ensures c.constructionStatus == GetOr(post, "construction_status", "")
    ensures c.purposeOfBuying == GetOr(post, "purpose_of_buying", "")
    ensures c.sourceDetails == GetOr(post, "source_details", "")
  {
    SpentaModels.Customer(
      formNumber := formNumber,
      firstName := GetOr(post, "first_name", ""),
      middleName := GetOr(post, "middle_name", ""),
      lastName := GetOr(post, "last_name", ""),
      email := GetOr(post, "email", ""),
      dateOfBirth := GetOr(post, "date_of_birth", ""),
      residentialAddress := GetOr(post, "residential_address", ""),
      city := GetOr(post, "city", ""),
      locality := GetOr(post, "locality", ""),
      pincode := GetOr(post, "pincode", ""),
      nationality := GetOr(post, "nationality", ""),
      employmentType := GetOr(post, "employment_type", ""),
      companyName := GetOr(post, "company_name", ""),
      designation := GetOr(post, "designation", ""),
      industry := GetOr(post, "industry", ""),
      configuration := GetOr(post, "configuration", ""),
      budget := GetOr(post, "budget", ""),
      constructionStatus := GetOr(post, "construction_status", ""),
      purposeOfBuying := GetOr(post, "purpose_of_buying", ""),
      sourceDetails := GetOr(post, "source_details", ""))
  }

  /** An accepted form has every required field present and non-empty. */
  lemma AcceptedFormIsFilled(post: Post, i: nat)
    requires Validate(post).Success? && i < |RequiredFields|
    ensures Filled(post, RequiredFields[i])
  {
    assert RequiredFields[i] in RequiredFields;
  }

  /** `value` is the posted, non-empty value of `key`. */
  predicate PostedAs(post: Post, key: string, value: string)
  {
    Filled(post, key) && value == post[key]
  }

  /**
   * For an accepted form, every required column of the new customer holds
   * the posted, non-empty value of its field.
   */
  lemma AcceptedCustomerKeepsRequired(post: Post, formNumber: string)
    requires Validate(post).Success?
    ensures var c := NewCustomer(post, formNumber);
            && PostedAs(post, "first_name", c.firstName) && PostedAs(post, "last_name", c.lastName)
            && PostedAs(post, "email", c.email) && PostedAs(post, "date_of_birth", c.dateOfBirth)
            && PostedAs(post, "residential_address", c.residentialAddress)
            && PostedAs(post, "city", c.city) && PostedAs(post, "locality", c.locality)
            && PostedAs(post, "pincode", c.pincode) && PostedAs(post, "nationality", c.nationality)
            && PostedAs(post, "employment_type", c.employmentType)
            && PostedAs(post, "configuration", c.configuration) && PostedAs(post, "budget", c.budget)
            && PostedAs(post, "construction_status", c.constructionStatus)
            && PostedAs(post, "purpose_of_buying", c.purposeOfBuying)
  {
    var c := NewCustomer(post, formNumber);
    AcceptedFormIsFilled(post, 0); AcceptedFormIsFilled(post, 1); AcceptedFormIsFilled(post, 2);
    AcceptedFormIsFilled(post, 3); AcceptedFormIsFilled(post, 4); AcceptedFormIsFilled(post, 5);
    AcceptedFormIsFilled(post, 6); AcceptedFormIsFilled(post, 7); AcceptedFormIsFilled(post, 8);
    AcceptedFormIsFilled(post, 9); AcceptedFormIsFilled(post, 10); AcceptedFormIsFilled(post, 11);
    AcceptedFormIsFilled(post, 12); AcceptedFormIsFilled(post, 13);
  }

  /** The `customer_data` entry the view writes to the session for the thank-you page. */
  datatype Confirmation = Confirmation(formNumber: string, customerName: string, email: string, customerId: nat)

  /**
   * `customer_submit_view`: validate, take the posted or default form
   * number, and write the lead in one transaction.
   */
  method Submit(store: Store<SpentaModels.Customer>, post: Post, posted: seq<string>, now: DateTime)
    returns (r: Result<Confirmation, SubmitError>)
    requires store.Valid() && now.Valid()
    modifies store
    ensures store.Valid()
    ensures Validate(post).Failure? ==> r == Failure(Validate(post).error)
    ensures r.Failure? ==> store.forms == old(store.forms) && store.customers == old(store.customers)
                           && store.sources == old(store.sources) && store.partners == old(store.partners)
                           && store.referrals == old(store.referrals)
    ensures Validate(post).Success? ==>
              var form := FormNumberFor(post, now);
              var c := NewCustomer(post, form);
              && (r.Success? <==> form !in old(store.forms) && NoDuplicates(posted))
              && (form in old(store.forms) ==> r == Failure(ServerError(DuplicateFormNumber)))
              && (r.Success? ==>
                    && r.value == Confirmation(form, c.FullName(), c.email, |old(store.forms)|)
                    && store.forms == old(store.forms) + [form]
                    && store.customers == old(store.customers) + [c]
                    && store.sources == old(store.sources) + SourceRows(|old(store.forms)|, posted)
                    && store.partners == old(store.partners) + OptionToSeq(PartnerFor(|old(store.forms)|, post, posted))
                    && store.referrals == old(store.referrals) + OptionToSeq(ReferralFor(|old(store.forms)|, post, posted)))
  {
    var checked := Validate(post);
    if checked.Failure? {
      return Failure(checked.error);
    }
    var form := FormNumberFor(post, now);
    var customer := NewCustomer(post, form);
    var created := store.CreateLead(form, customer, post, posted);
    if created.Failure? {
      return Failure(ServerError(created.error));
    }
    r := Success(Confirmation(form, customer.FullName(), customer.email, created.value));
  }
}
