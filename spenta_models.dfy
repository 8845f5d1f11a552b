/**
 * The older `Spenta/customer_enquiry` models: a customer record without
 * phone, sex or marital status, in which date of birth and residential
 * address are mandatory, with the same display helpers and pincode
 * validator.
 */
module SpentaModels {
  import opened Text
  import Formatting

  const PincodeMaxLength: nat := 6

  /** A lead as stored by the older application (timestamps and form date left out). */
  datatype Customer = Customer(
    formNumber: string,
    firstName: string,
    middleName: string,
    lastName: string,
    email: string,
    dateOfBirth: string,
    residentialAddress: string,
    city: string,
    locality: string,
    pincode: string,
    nationality: string,
    employmentType: string,
    companyName: string,
    designation: string,
    industry: string,
    configuration: string,
    budget: string,
    constructionStatus: string,
    purposeOfBuying: string,
    sourceDetails: string)
  {
    function FullName(): string
    {
      Formatting.FullName(firstName, middleName, lastName)
    }

    function CompleteAddress(): string
    {
      Formatting.CompleteAddress(residentialAddress, locality, city, pincode)
    }

    function Label(): string
    {
      Formatting.Label(firstName, lastName, formNumber)
    }
  }

  /**
   * For names without spaces, the middle name is one of the words of the
   * full name exactly when it is non-empty.
   */
  lemma FullNameShowsMiddleIffNonEmpty(c: Customer)
    requires ' ' !in c.firstName && ' ' !in c.middleName && ' ' !in c.lastName
    requires c.firstName != "" && c.lastName != ""
    ensures c.middleName in Split(c.FullName(), ' ') <==> c.middleName != ""
  {
    Formatting.FullNameWords(c.firstName, c.middleName, c.lastName);
  }

  /**
   * The complete address begins with the residential address up to the
   * first comma and ends with " - " and the pincode.
   */
  lemma CompleteAddressLayout(c: Customer)
    requires ',' !in c.residentialAddress && ',' !in c.locality && ',' !in c.city && ',' !in c.pincode
    ensures |Split(c.CompleteAddress(), ',')| == 3
    ensures Split(c.CompleteAddress(), ',')[0] == c.residentialAddress
    ensures Split(c.CompleteAddress(), ',')[1] == " " + c.locality
    ensures c.CompleteAddress()[|c.CompleteAddress()| - |c.pincode| - 3..] == " - " + c.pincode
  {
    Formatting.CompleteAddressParts(c.residentialAddress, c.locality, c.city, c.pincode);
  }

  /** `__str__` shows the first and last name and, after " - ", the form number. */
  lemma LabelShowsFormNumber(c: Customer)
    ensures c.Label() == Formatting.FullName(c.firstName, "", c.lastName) + " - " + c.formNumber
    ensures c.Label()[|c.Label()| - |c.formNumber|..] == c.formNumber
  {
    Formatting.LabelOmitsMiddleName(c.firstName, c.middleName, c.lastName, c.formNumber);
  }

  /** The pincode column's `RegexValidator(r'^\d{6}$')`. */
  predicate PincodeValidator(s: string) { MatchesDigitsPattern(s, 6) }

  /**
   * With the column's max_length check beside it, the pincode validator
   * accepts exactly the six-digit strings.
   */
  lemma PincodeFieldAcceptsSixDigits(s: string)
    ensures PincodeValidator(s) && |s| <= PincodeMaxLength <==> |s| == 6 && AllDigits(s)
  {
  }
}
