/**
 * `customer_submit_view` of the `customer_enquiry` application: the ordered
 * checks on a posted lead, the form number built from the property code and
 * the clock, and the writes of an accepted lead.
 */
module SubmitView {
  import opened Wrappers
  import opened Text
  import opened Submission
  import Models
  import Properties

  const RequiredFields: seq<string> := [
    "first_name", "last_name", "email",
    "city", "locality", "pincode",
    "nationality", "employment_type", "configuration",
    "budget", "construction_status", "purpose_of_buying",
    "sex", "marital_status"]

  const ValidSexChoices: seq<string> := ["male", "female", "other"]
  const ValidMaritalChoices: seq<string> := ["single", "married", "divorced", "widowed", "other"]

  /** Placeholder stored when no date of birth is posted. */
  const PlaceholderBirthDate: string := "1900-01-01"

  /** The view's pincode check: exactly six characters, all digits. */
  predicate PincodeAccepted(s: string) { |s| == 6 && IsDigitString(s) }

  /** The view's phone check on a non-empty phone: exactly ten characters, all digits. */
  predicate PhoneAccepted(s: string) { |s| == 10 && IsDigitString(s) }

  datatype SubmitError =
    | PropertyRequired
    | Missing(fields: seq<string>)
    | InvalidPincode
    | InvalidPhone
    | InvalidSex
    | InvalidMaritalStatus
    | ServerError(cause: DbError)

  /** What the checks extract from an accepted form. */
  datatype ValidLead = ValidLead(propertyCode: string, pincode: string, phone: Option<string>,
                                 sex: string, maritalStatus: string)

  /** The trimmed phone field, `data.get('phone_number', '').strip()`. */
  function TrimmedPhone(post: Post): string
  {
    Strip(GetOr(post, "phone_number", ""))
  }

  // The checks, in the order the view runs them.
  predicate HasProperty(post: Post) { Filled(post, "property_code") }
  predicate HasRequired(post: Post) { MissingFields(RequiredFields, post) == [] }
  predicate GoodPincode(post: Post) { PincodeAccepted(GetOr(post, "pincode", "")) }
  predicate GoodPhone(post: Post) { TrimmedPhone(post) == "" || PhoneAccepted(TrimmedPhone(post)) }
  predicate GoodSex(post: Post) { GetOr(post, "sex", "") in ValidSexChoices }
  predicate GoodMarital(post: Post) { GetOr(post, "marital_status", "") in ValidMaritalChoices }

  /**
   * The validation part of `customer_submit_view`. Each error is returned
   * exactly when every earlier check passes and its own check fails; a
   * missing property code is reported before anything else, and the missing
   * fields are listed in declaration order.
   */
  function Validate(post: Post): (r: Result<ValidLead, SubmitError>)
    ensures r == Failure(PropertyRequired) <==> !HasProperty(post)
    ensures r == Failure(Missing(MissingFields(RequiredFields, post))) <==>
              HasProperty(post) && !HasRequired(post)
    ensures r == Failure(InvalidPincode) <==> HasProperty(post) && HasRequired(post) && !GoodPincode(post)
    ensures r == Failure(InvalidPhone) <==>
              HasProperty(post) && HasRequired(post) && GoodPincode(post) && !GoodPhone(post)
    ensures r == Failure(InvalidSex) <==>
              HasProperty(post) && HasRequired(post) && GoodPincode(post) && GoodPhone(post) && !GoodSex(post)
    ensures r == Failure(InvalidMaritalStatus) <==>
              HasProperty(post) && HasRequired(post) && GoodPincode(post) && GoodPhone(post) && GoodSex(post)
              && !GoodMarital(post)
    ensures r.Success? <==>
              HasProperty(post) && HasRequired(post) && GoodPincode(post) && GoodPhone(post) && GoodSex(post)
              && GoodMarital(post)
    ensures r.Success? ==> r.value.propertyCode == post["property_code"] && r.value.pincode == post["pincode"]
    ensures r.Success? ==> (r.value.phone == None <==> TrimmedPhone(post) == "")
    ensures r.Success? && r.value.phone.Some? ==>
              r.value.phone.value == TrimmedPhone(post) && PhoneAccepted(r.value.phone.value)
  {
    if !Filled(post, "property_code") then Failure(PropertyRequired)
    else
      var missing := MissingFields(RequiredFields, post);
      if missing != [] then Failure(Missing(missing))
      else
        var pincode := GetOr(post, "pincode", "");
        if |pincode| != 6 || !IsDigitString(pincode) then Failure(InvalidPincode)
        else
          var phone := TrimmedPhone(post);
          if phone != "" && (|phone| != 10 || !IsDigitString(phone)) then Failure(InvalidPhone)
          else
            var sex := GetOr(post, "sex", "");
            var marital := GetOr(post, "marital_status", "");
            if sex !in ValidSexChoices then Failure(InvalidSex)
            else if marital !in ValidMaritalChoices then Failure(InvalidMaritalStatus)
            else Success(ValidLead(post["property_code"], pincode, if phone != "" then Some(phone) else None,
                                   sex, marital))
  }

  /** Every required field appears in an accepted form. */
  lemma AcceptedHasAllRequired(post: Post, f: string)
    requires Validate(post).Success? && f in RequiredFields
    ensures Filled(post, f)
  {
  }

  /** A phone field of white space only is accepted and stored as no phone. */
  lemma BlankPhoneIsNoPhone(post: Post)
    requires Validate(post).Success?
    requires forall k :: 0 <= k < |GetOr(post, "phone_number", "")| ==> IsSpace(GetOr(post, "phone_number", "")[k])
    ensures Validate(post).value.phone == None
  {
    StripEmptyIff(GetOr(post, "phone_number", ""));
  }

  /** The view's checks accept exactly what the model's validators and column lengths accept. */
  lemma ViewChecksMatchValidators(s: string)
    ensures PincodeAccepted(s) <==> Models.PincodeValidator(s) && |s| <= Models.PincodeMaxLength
    ensures PhoneAccepted(s) <==> Models.PhoneValidator(s) && |s| <= Models.PhoneMaxLength
  {
    Models.PincodeFieldAcceptsSixDigits(s);
    Models.PhoneFieldAcceptsTenDigits(s);
  }

  /** The choices the view accepts are the model's sex and marital status choices. */
  lemma ChoicesMatchModel()
    ensures ValidSexChoices == Models.SexChoices && ValidMaritalChoices == Models.MaritalStatusChoices
  {
  }

  /** `f"{property_code}-{str(int(time.time()))[-5:]}"`. */
  function FormNumber(propertyCode: string, timestamp: nat): string
  {
    propertyCode + "-" + TakeLast(NatToString(timestamp), 5)
  }

  /**
   * From 10000 seconds on, the form number is the code, a dash and five
   * digits reading as the timestamp modulo 100000.
   */
  lemma FormNumberLayout(propertyCode: string, timestamp: nat)
    requires timestamp >= 10000
    ensures var f := FormNumber(propertyCode, timestamp);
            && |f| == |propertyCode| + 6
            && f[..|propertyCode| + 1] == propertyCode + "-"
            && AllDigits(f[|propertyCode| + 1..])
            && DigitsValue(f[|propertyCode| + 1..]) == timestamp % 100000
  {
    var s := NatToString(timestamp);
    assert Pow10(4) == 10000 && Pow10(5) == 100000;
    NatToStringAtLeast(timestamp, 5);
    SuffixValue(s, 5);
    NatToStringRoundTrip(timestamp);
    var f := FormNumber(propertyCode, timestamp);
    assert f[|propertyCode| + 1..] == s[|s| - 5..];
  }

  /**
   * Two submissions for one property whose timestamps agree modulo 100000
   * (one day and about four hours apart) get the same form number.
   */
  lemma FormNumberRepeats(propertyCode: string, t1: nat, t2: nat)
    requires t1 >= 10000 && t2 >= 10000 && t1 % 100000 == t2 % 100000
    ensures FormNumber(propertyCode, t1) == FormNumber(propertyCode, t2)
  {
    FormNumberLayout(propertyCode, t1);
    FormNumberLayout(propertyCode, t2);
    var f1, f2 := FormNumber(propertyCode, t1), FormNumber(propertyCode, t2);
    var n := |propertyCode| + 1;
    DigitsValueInjective(f1[n..], f2[n..]);
    assert f1 == f1[..n] + f1[n..] && f2 == f2[..n] + f2[n..];
  }

  /** The customer row `Customer.objects.create(...)` writes for an accepted form. */
  function NewCustomer(post: Post, lead: ValidLead, formNumber: string): (c: Models.Customer)
    ensures c.formNumber == formNumber && c.phoneNumber == lead.phone && c.pincode == lead.pincode
    ensures c.dateOfBirth == (if Strip(GetOr(post, "date_of_birth", "")) == "" then PlaceholderBirthDate
                              else Strip(GetOr(post, "date_of_birth", "")))
  {
    var dob := Strip(GetOr(post, "date_of_birth", ""));
    Models.Customer(
      formNumber := formNumber,
      firstName := GetOr(post, "first_name", ""),
      middleName := GetOr(post, "middle_name", ""),
      lastName := GetOr(post, "last_name", ""),
      email := GetOr(post, "email", ""),
      phoneNumber := lead.phone,
      sex := lead.sex,
      maritalStatus := lead.maritalStatus,
      dateOfBirth := if dob == "" then PlaceholderBirthDate else dob,
      residentialAddress := GetOr(post, "residential_address", ""),
      city := GetOr(post, "city", ""),
      locality := GetOr(post, "locality", ""),
      pincode := lead.pincode,
      nationality := GetOr(post, "nationality", ""),
      employmentType := GetOr(post, "employment_type", ""),
      companyName := GetOr(post, "company_name", ""),
      designation := GetOr(post, "designation", ""),
      industry := GetOr(post, "industry", ""),
      configuration := GetOr(post, "configuration", ""),
      budget := GetOr(post, "budget", ""),
      constructionStatus := GetOr(post, "construction_status", ""),
      purposeOfBuying := GetOr(post, "purpose_of_buying", ""),
      sourceDetails := GetOr(post, "source_details", ""))
  }

  /** The `customer_data` entry the view writes to the session for the thank-you page. */
  datatype Confirmation = Confirmation(formNumber: string, customerName: string, email: string,
                                       customerId: nat, propertyName: string, propertyCode: string,
                                       phone: Option<string>)

  /**
   * `customer.phone_number or user_phone`, where `user_phone` is
   * `data.get('user_phone') or data.get('phone_number')`: the first truthy
   * value, else the raw phone field.
   */
  function ConfirmationPhone(post: Post, stored: Option<string>): (r: Option<string>)
    requires stored != Some("")
    ensures stored.Some? ==> r == stored
    ensures stored.None? && Filled(post, "user_phone") ==> r == Some(post["user_phone"])
    ensures stored.None? && !Filled(post, "user_phone") ==> r == Get(post, "phone_number")
  {
    if stored.Some? then stored
    else if Filled(post, "user_phone") then Some(post["user_phone"])
    else Get(post, "phone_number")
  }

  /**
   * `customer_submit_view`: validate, build the form number from the clock,
   * and write the lead in one transaction. A form number already in use
   * (or a repeated source) aborts, writes nothing and is answered with the error.
   */
  method Submit(store: Store<Models.Customer>, post: Post, posted: seq<string>, now: nat)
    returns (r: Result<Confirmation, SubmitError>)
    requires store.Valid()
    modifies store
    ensures store.Valid()
    ensures Validate(post).Failure? ==> r == Failure(Validate(post).error)
    ensures r.Failure? ==> store.forms == old(store.forms) && store.customers == old(store.customers)
                           && store.sources == old(store.sources) && store.partners == old(store.partners)
                           && store.referrals == old(store.referrals)
    ensures Validate(post).Success? ==>
              var lead := Validate(post).value;
              var form := FormNumber(lead.propertyCode, now);
              && (r.Success? <==> form !in old(store.forms) && NoDuplicates(posted))
              && (form in old(store.forms) ==> r == Failure(ServerError(DuplicateFormNumber)))
              && (r.Success? ==>
                    && r.value == Confirmation(form, NewCustomer(post, lead, form).FullName(), GetOr(post, "email", ""),
                                               |old(store.forms)|, Properties.PropertyName(lead.propertyCode),
                                               lead.propertyCode, ConfirmationPhone(post, lead.phone))
                    && store.forms == old(store.forms) + [form]
                    && store.customers == old(store.customers) + [NewCustomer(post, lead, form)]
                    && store.sources == old(store.sources) + SourceRows(|old(store.forms)|, posted)
                    && store.partners == old(store.partners) + OptionToSeq(PartnerFor(|old(store.forms)|, post, posted))
                    && store.referrals == old(store.referrals) + OptionToSeq(ReferralFor(|old(store.forms)|, post, posted)))
  {
    var checked := Validate(post);
    if checked.Failure? {
      return Failure(checked.error);
    }
    var lead := checked.value;
    var form := FormNumber(lead.propertyCode, now);
    var customer := NewCustomer(post, lead, form);
    var created := store.CreateLead(form, customer, post, posted);
    if created.Failure? {
      return Failure(ServerError(created.error));
    }
    r := Success(Confirmation(form, customer.FullName(), customer.email, created.value,
                              Properties.PropertyName(lead.propertyCode), lead.propertyCode,
                              ConfirmationPhone(post, lead.phone)));
  }
}
