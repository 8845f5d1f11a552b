/**
 * The `customer_enquiry` models: the customer (lead) record, the booking
 * applicant record, their choice lists, display helpers and the regular
 * expression validators on the phone and pincode columns.
 */
module Models {
  import opened Wrappers
  import opened Text
  import Formatting

  const NationalityChoices: seq<string> := ["indian", "nri", "pio", "oci"]
  const EmploymentChoices: seq<string> := ["salaried", "business", "professional", "retired", "homemaker", "other"]
  const SexChoices: seq<string> := ["male", "female", "other"]
  const MaritalStatusChoices: seq<string> := ["single", "married", "divorced", "widowed", "other"]

  /** `BookingApplicant` choice lists. */
  const TitleChoices: seq<string> := ["Mr", "Ms", "Mrs"]
  const ResidentialStatusChoices: seq<string> := ["indian", "nri", "pio", "oci"]
  const ApplicantEmploymentChoices: seq<string> := ["salaried", "self_employed"]

  /** Column lengths that bound the validated fields. */
  const PhoneMaxLength: nat := 10
  const PincodeMaxLength: nat := 6

  /** A lead as stored in the `customers` table (timestamps and form date left out). */
  datatype Customer = Customer(
    formNumber: string,
    firstName: string,
    middleName: string,
    lastName: string,
    email: string,
    phoneNumber: Option<string>,
    sex: string,
    maritalStatus: string,
    dateOfBirth: string,
    residentialAddress: string,
    city: string,
    locality: string,
    pincode: string,
    nationality: string,
    employmentType: string,
    companyName: string,
    designation: string,
    industry: string,
    configuration: string,
    budget: string,
    constructionStatus: string,
    purposeOfBuying: string,
    sourceDetails: string)
  {
    function FullName(): string
    {
      Formatting.FullName(firstName, middleName, lastName)
    }

    function CompleteAddress(): string
    {
      Formatting.CompleteAddress(residentialAddress, locality, city, pincode)
    }

    function DisplayPhone(): string
    {
      Formatting.DisplayPhone(phoneNumber)
    }

    function Label(): string
    {
      Formatting.Label(firstName, lastName, formNumber)
    }
  }

  /** One applicant of a booking application (contact and document columns kept as text). */
  datatype BookingApplicant = BookingApplicant(
    applicantOrder: int,
    title: string,
    firstName: string,
    middleName: Option<string>,
    lastName: string,
    dateOfBirth: Option<string>,
    maritalStatus: string,
    anniversaryDate: Option<string>,
    sex: string,
    panNo: string,
    aadharNo: string,
    residentialStatus: string,
    residentialAddress: string,
    city: string,
    pin: string,
    state: string,
    country: string,
    correspondenceAddress: string,
    contactResidence: string,
    contactOffice: string,
    mobile: string,
    email: string,
    employmentType: string,
    profession: string,
    companyName: string)
  {
    /** `BookingApplicant.get_full_name`: a null middle name counts as empty. */
    function FullName(): string
    {
      Formatting.FullName(firstName, middleName.GetOr(""), lastName)
    }
  }

  /**
   * An applicant's full name follows the customer's rule: with the same
   * names the two give the same text, and a null middle name reads like an
   * empty one.
   */
  lemma ApplicantFullNameFollowsCustomerRule(a: BookingApplicant, c: Customer)
    requires a.firstName == c.firstName && a.lastName == c.lastName
    requires a.middleName == Some(c.middleName) || (a.middleName == None && c.middleName == "")
    ensures a.FullName() == c.FullName()
    ensures a.middleName == None ==> a.FullName() == a.firstName + " " + a.lastName
  {
  }

  /** The phone column's `RegexValidator(r'^\d{10}$')`. */
  predicate PhoneValidator(s: string) { MatchesDigitsPattern(s, 10) }

  /** The pincode column's `RegexValidator(r'^\d{6}$')`. */
  predicate PincodeValidator(s: string) { MatchesDigitsPattern(s, 6) }

  /**
   * With the column's max_length check beside it, the phone validator
   * accepts exactly the ten-digit strings.
   */
  lemma PhoneFieldAcceptsTenDigits(s: string)
    ensures PhoneValidator(s) && |s| <= PhoneMaxLength <==> |s| == 10 && AllDigits(s)
  {
  }

  /**
   * With the column's max_length check beside it, the pincode validator
   * accepts exactly the six-digit strings.
   */
  lemma PincodeFieldAcceptsSixDigits(s: string)
    ensures PincodeValidator(s) && |s| <= PincodeMaxLength <==> |s| == 6 && AllDigits(s)
  {
  }

  /** On its own the phone regex also accepts any ten digits followed by a final newline. */
  lemma PhoneValidatorAcceptsFinalNewline(s: string)
    requires |s| == 10 && AllDigits(s)
    ensures PhoneValidator(s + "\n")
  {
    assert (s + "\n")[..10] == s;
  }
}
