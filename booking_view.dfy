/**
 * The booking form of the `customer_enquiry` application: the helpers that
 * pre-fill a booking from an enquiry, and `create_applicants`, which turns
 * the four applicant slots of a posted booking form into applicant rows.
 */
module BookingView {
  import opened Wrappers
  import opened Text
  import opened Submission
  import Models

  /** First names the title guess treats as female besides those ending in `a`. */
  const FemaleNames: seq<string> := ["priya", "rani", "devi"]

  /** `get_title_from_customer`: a guess from the lower-cased first name. */
  function TitleFor(firstName: string): (r: string)
    ensures r in Models.TitleChoices
    ensures r == "Ms" <==>
              (|firstName| > 0 && LowerChar(firstName[|firstName| - 1]) == 'a') || Lower(firstName) in FemaleNames
    ensures r != "Ms" ==> r == "Mr"
  {
    var name := Lower(firstName);
    if (|name| > 0 && name[|name| - 1] == 'a') || name in FemaleNames then "Ms" else "Mr"
  }

  /** The guess ignores the case of the name. */
  lemma TitleIgnoresCase(firstName: string)
    ensures TitleFor(Upper(firstName)) == TitleFor(firstName)
  {
    LowerOfUpper(firstName);
  }

  /** `map_nationality_to_residential_status`. */
  function MapNationalityToResidentialStatus(nationality: string): (r: string)
    ensures r in Models.ResidentialStatusChoices
    ensures nationality in Models.ResidentialStatusChoices ==> r == nationality
    ensures nationality !in Models.ResidentialStatusChoices ==> r == "indian"
  {
    if nationality in ["indian", "nri", "pio", "oci"] then nationality else "indian"
  }

  /** Every nationality an enquiry can record carries over unchanged, and the mapping is idempotent. */
  lemma NationalityCarriesOver(nationality: string)
    ensures nationality in Models.NationalityChoices ==> MapNationalityToResidentialStatus(nationality) == nationality
    ensures MapNationalityToResidentialStatus(MapNationalityToResidentialStatus(nationality)) ==
            MapNationalityToResidentialStatus(nationality)
  {
  }

  /** `map_employment_type`: enquiry employment types onto the two booking ones. */
  function MapEmploymentType(employmentType: string): (r: string)
    ensures r in Models.ApplicantEmploymentChoices
    ensures r == "self_employed" <==> employmentType in ["business", "professional", "retired"]
  {
    var mapping := map["salaried" := "salaried", "business" := "self_employed", "professional" := "self_employed",
                       "retired" := "self_employed", "homemaker" := "salaried"];
    if employmentType in mapping then mapping[employmentType] else "salaried"
  }

  /** The enquiry's `other` employment falls back to `salaried`. */
  lemma OtherEmploymentIsSalaried()
    ensures "other" in Models.EmploymentChoices && MapEmploymentType("other") == "salaried"
  {
  }

  /** The cities `get_state_from_city` knows, keyed in lower case. */
  const CityStates: map<string, string> := map[
    "mumbai" := "Maharashtra", "delhi" := "Delhi", "bangalore" := "Karnataka",
    "chennai" := "Tamil Nadu", "hyderabad" := "Telangana", "pune" := "Maharashtra",
    "thane" := "Maharashtra", "kolkata" := "West Bengal"]

  const DefaultState: string := "Maharashtra"

  /** `get_state_from_city`. */
  function StateFromCity(city: string): (r: string)
    ensures Lower(city) in CityStates ==> r == CityStates[Lower(city)]
    ensures Lower(city) !in CityStates ==> r == DefaultState
    ensures r in CityStates.Values
  {
    assert CityStates["mumbai"] == DefaultState;
    if Lower(city) in CityStates then CityStates[Lower(city)] else DefaultState
  }

  /** The lookup ignores case: any two spellings that lower-case alike get one state. */
  lemma StateIgnoresCase(a: string, b: string)
    requires Lower(a) == Lower(b)
    ensures StateFromCity(a) == StateFromCity(b)
    ensures StateFromCity(Upper(a)) == StateFromCity(a)
  {
    LowerOfUpper(a);
  }

  /** The field-name prefixes of the four applicant slots. */
  const SlotPrefixes: seq<string> := ["applicant_1_", "applicant_2_", "applicant_3_", "applicant_4_"]

  /** The table is the f-string `f'applicant_{i}_'`. */
  lemma SlotPrefixesAreFormatted(i: nat)
    requires 1 <= i <= 4
    ensures SlotPrefixes[i - 1] == "applicant_" + NatToString(i) + "_"
  {
  }

  /** The posted name of a field of applicant slot i. */
  function Key(i: nat, field: string): string
    requires 1 <= i <= 4
  {
    SlotPrefixes[i - 1] + field
  }

  /** `prepare_prefilled_data`: the booking form values taken from an enquiry. */
  function PrefilledData(c: Models.Customer): Post
  {
    PrefilledMap(c, TitleFor(c.firstName), StateFromCity(c.city),
                 MapNationalityToResidentialStatus(c.nationality), MapEmploymentType(c.employmentType))
  }

  /** The dictionary `prepare_prefilled_data` returns, given its four looked-up values. */
  function PrefilledMap(c: Models.Customer, title: string, state: string, status: string, employment: string): Post
  {
    map[
      "project_name" := "Default Project Name",
      Key(1, "title") := title,
      Key(1, "first_name") := c.firstName,
      Key(1, "middle_name") := c.middleName,
      Key(1, "last_name") := c.lastName,
      Key(1, "email") := c.email,
      Key(1, "residential_address") := c.residentialAddress,
      Key(1, "city") := c.city,
      Key(1, "pin") := c.pincode,
      Key(1, "state") := state,
      Key(1, "country") := "India",
      Key(1, "residential_status") := status,
      Key(1, "employment_type") := employment,
      Key(1, "company_name") := c.companyName,
      Key(1, "profession") := c.designation]
  }

  /** The trimmed name fields of slot i decide whether it holds an applicant. */
  predicate SlotFilled(post: Post, i: nat)
    requires 1 <= i <= 4
  {
    Strip(GetOr(post, Key(i, "first_name"), "")) != "" || Strip(GetOr(post, Key(i, "last_name"), "")) != ""
  }

  /** `request.POST.get(key) or None`. */
  function GetOrNone(post: Post, key: string): (r: Option<string>)
    ensures r == None <==> !Filled(post, key)
    ensures r.Some? ==> r.value == post[key]
  {
    if Filled(post, key) then Some(post[key]) else None
  }

  /** The applicant row `create_applicants` writes for slot i. */
  function SlotApplicant(post: Post, i: nat): (a: Models.BookingApplicant)
    requires 1 <= i <= 4
    ensures a.applicantOrder == i
    ensures a.firstName == Strip(GetOr(post, Key(i, "first_name"), ""))
    ensures a.lastName == Strip(GetOr(post, Key(i, "last_name"), ""))
  {
    Models.BookingApplicant(
      applicantOrder := i,
      title := GetOr(post, Key(i, "title"), ""),
      firstName := Strip(GetOr(post, Key(i, "first_name"), "")),
      middleName := Some(GetOr(post, Key(i, "middle_name"), "")),
      lastName := Strip(GetOr(post, Key(i, "last_name"), "")),
      dateOfBirth := GetOrNone(post, Key(i, "date_of_birth")),
      maritalStatus := GetOr(post, Key(i, "marital_status"), ""),
      anniversaryDate := GetOrNone(post, Key(i, "anniversary")),
      sex := GetOr(post, Key(i, "sex"), ""),
      panNo := GetOr(post, Key(i, "pan_no"), ""),
      aadharNo := GetOr(post, Key(i, "aadhar_no"), ""),
      residentialStatus := GetOr(post, Key(i, "residential_status"), ""),
      residentialAddress := GetOr(post, Key(i, "residential_address"), ""),
      city := GetOr(post, Key(i, "city"), ""),
      pin := GetOr(post, Key(i, "pin"), ""),
      state := GetOr(post, Key(i, "state"), ""),
      country := GetOr(post, Key(i, "country"), "India"),
      correspondenceAddress := GetOr(post, Key(i, "correspondence_address"), ""),
      contactResidence := GetOr(post, Key(i, "contact_residence"), ""),
      contactOffice := GetOr(post, Key(i, "contact_office"), ""),
      mobile := GetOr(post, Key(i, "mobile"), ""),
      email := GetOr(post, Key(i, "email"), ""),
      employmentType := GetOr(post, Key(i, "employment_type"), ""),
      profession := GetOr(post, Key(i, "profession"), ""),
      companyName := GetOr(post, Key(i, "company_name"), ""))
  }

  /** Which of the four slots give an applicant row: filled and not refused by the database. */
  function Wanted(post: Post, rejected: set<nat>): (w: seq<bool>)
    ensures |w| == 4
    ensures forall s :: 1 <= s <= 4 ==> (w[s - 1] <==> SlotFilled(post, s) && s !in rejected)
  {
    seq(4, k requires 0 <= k < 4 => SlotFilled(post, k + 1) && k + 1 !in rejected)
  }

  /** The slot numbers among the first n that are wanted, in increasing order. */
  function Picked(wanted: seq<bool>, n: nat): seq<nat>
    requires n <= |wanted|
  {
    if n == 0 then [] else Picked(wanted, n - 1) + (if wanted[n - 1] then [n] else [])
  }

  /**
   * The picked slots are at most n, strictly increasing, between 1 and n,
   * and a slot is picked exactly when it is wanted.
   */
  lemma {:induction false} PickedSlots(wanted: seq<bool>, n: nat)
    requires n <= |wanted|
    ensures var o := Picked(wanted, n);
            && |o| <= n
            && (forall k :: 0 <= k < |o| ==> 1 <= o[k] <= n)
            && (forall j, k :: 0 <= j < k < |o| ==> o[j] < o[k])
            && (forall s :: 1 <= s <= n ==> (wanted[s - 1] <==> s in o))
  {
    if n > 0 {
      PickedSlots(wanted, n - 1);
    }
  }

  /** Slot numbers that name applicant slots. */
  predicate AllSlots(o: seq<nat>)
  {
    forall k :: 0 <= k < |o| ==> 1 <= o[k] <= 4
  }

  /** The applicant rows of the given slots, in that order. */
  function Rows(post: Post, o: seq<nat>): seq<Models.BookingApplicant>
    requires AllSlots(o)
  {
    seq(|o|, k requires 0 <= k < |o| => SlotApplicant(post, o[k]))
  }

  /** Adding a slot at the end adds its record at the end. */
  lemma RowsSnoc(post: Post, o: seq<nat>, i: nat)
    requires AllSlots(o) && 1 <= i <= 4
    ensures AllSlots(o + [i])
    ensures Rows(post, o + [i]) == Rows(post, o) + [SlotApplicant(post, i)]
  {
    assert (o + [i])[..|o|] == o;
  }

  /**
   * The rows of the wanted slots, in slot order: at most four, orders
   * between 1 and 4 and strictly increasing, a slot present exactly when it
   * is wanted, and each row the record of its own slot.
   */
  lemma ChosenRows(post: Post, rejected: set<nat>)
    ensures var o := Picked(Wanted(post, rejected), 4);
            && AllSlots(o)
            && var rows := Rows(post, o);
            && |rows| <= 4
            && (forall k :: 0 <= k < |rows| ==> 1 <= rows[k].applicantOrder <= 4)
            && (forall j, k :: 0 <= j < k < |rows| ==> rows[j].applicantOrder < rows[k].applicantOrder)
            && (forall i :: 1 <= i <= 4 ==>
                  (SlotFilled(post, i) && i !in rejected <==>
                   exists k :: 0 <= k < |rows| && rows[k].applicantOrder == i))
            && (forall k :: 0 <= k < |rows| ==> rows[k] == SlotApplicant(post, rows[k].applicantOrder))
  {
    var wanted := Wanted(post, rejected);
    var o := Picked(wanted, 4);
    PickedSlots(wanted, 4);
    var rows := Rows(post, o);
    forall s | 1 <= s <= 4
      ensures SlotFilled(post, s) && s !in rejected <==>
              exists k :: 0 <= k < |rows| && rows[k].applicantOrder == s
    {
      assert wanted[s - 1] <==> s in o;
      if s in o {
        var k :| 0 <= k < |o| && o[k] == s;
        assert rows[k].applicantOrder == s;
      }
    }
  }

  /**
   * `create_applicants`: slots 1 to 4 in order; a slot with a first or last
   * name gets an applicant row with that slot as its order. A row the
   * database refuses (the slots in `rejected`) is logged and skipped. The
   * orders are distinct, as the booking's unique (application, order)
   * constraint needs.
   */
  method CreateApplicants(post: Post, rejected: set<nat>) returns (applicants: seq<Models.BookingApplicant>)
    ensures |applicants| <= 4
    ensures forall k :: 0 <= k < |applicants| ==> 1 <= applicants[k].applicantOrder <= 4
    ensures forall j, k :: 0 <= j < k < |applicants| ==> applicants[j].applicantOrder < applicants[k].applicantOrder
    ensures forall i :: 1 <= i <= 4 ==>
              (SlotFilled(post, i) && i !in rejected <==>
               exists k :: 0 <= k < |applicants| && applicants[k].applicantOrder == i)
    ensures forall k :: 0 <= k < |applicants| ==> applicants[k] == SlotApplicant(post, applicants[k].applicantOrder)
  {
    ghost var wanted := Wanted(post, rejected);
    ghost var orders: seq<nat> := [];
    applicants := [];
    for i := 1 to 5
      invariant orders == Picked(wanted, i - 1)
      invariant forall k :: 0 <= k < |orders| ==> 1 <= orders[k] < i
      invariant applicants == Rows(post, orders)
    {
      if SlotFilled(post, i) && i !in rejected {
        RowsSnoc(post, orders, i);
        applicants := applicants + [SlotApplicant(post, i)];
        orders := orders + [i];
      }
    }
    ChosenRows(post, rejected);
  }

  /**
   * A booking pre-filled from an enquiry, posted back unchanged, gives the
   * first applicant the enquiry's trimmed names; that slot holds an
   * applicant when either name has a visible character.
   */
  lemma PrefilledFirstApplicantNames(c: Models.Customer)
    ensures SlotFilled(PrefilledData(c), 1) <==> Strip(c.firstName) != "" || Strip(c.lastName) != ""
    ensures SlotApplicant(PrefilledData(c), 1).firstName == Strip(c.firstName)
    ensures SlotApplicant(PrefilledData(c), 1).lastName == Strip(c.lastName)
  {
    var post := PrefilledData(c);
    // keys of equal length differ in their first field character
    assert Key(1, "first_name")[12] != Key(1, "profession")[12];
    assert post[Key(1, "first_name")] == c.firstName;
    assert post[Key(1, "last_name")] == c.lastName;
  }

  /**
   * The pre-filled first applicant carries a title the model allows and a
   * residential status and employment type from the booking choices.
   */
  lemma PrefilledFirstApplicantChoices(c: Models.Customer)
    ensures var a := SlotApplicant(PrefilledData(c), 1);
            && a.title in Models.TitleChoices
            && a.residentialStatus in Models.ResidentialStatusChoices
            && a.employmentType in Models.ApplicantEmploymentChoices
  {
    var post := PrefilledData(c);
    assert Key(1, "title")[12] != Key(1, "email")[12] && Key(1, "title")[12] != Key(1, "state")[12];
    assert post[Key(1, "title")] == TitleFor(c.firstName);
    assert post[Key(1, "residential_status")] == MapNationalityToResidentialStatus(c.nationality);
    assert post[Key(1, "employment_type")] == MapEmploymentType(c.employmentType);
  }

  /** The pre-filled first applicant's address comes from the enquiry, with the state guessed from the city. */
  lemma PrefilledFirstApplicantAddress(c: Models.Customer)
    ensures var a := SlotApplicant(PrefilledData(c), 1);
            && a.city == c.city && a.pin == c.pincode
            && a.state == StateFromCity(c.city) && a.country == "India"
  {
    var post := PrefilledData(c);
    assert post[Key(1, "city")] == c.city;
    assert post[Key(1, "pin")] == c.pincode;
    assert post[Key(1, "state")] == StateFromCity(c.city);
    assert post[Key(1, "country")] == "India";
  }

  /** A pre-filled booking names only the first applicant. */
  lemma PrefilledOtherSlotsEmpty(c: Models.Customer, i: nat)
    requires 2 <= i <= 4
    ensures !SlotFilled(PrefilledData(c), i)
  {
    MapOtherSlotsEmpty(c, TitleFor(c.firstName), StateFromCity(c.city),
                       MapNationalityToResidentialStatus(c.nationality), MapEmploymentType(c.employmentType), i);
  }

  /** The dictionary has keys for slot 1 only, whatever the looked-up values. */
  lemma MapOtherSlotsEmpty(c: Models.Customer, title: string, state: string, status: string, employment: string, i: nat)
    requires 2 <= i <= 4
    ensures !SlotFilled(PrefilledMap(c, title, state, status, employment), i)
  {
    var k1, k2 := Key(i, "first_name"), Key(i, "last_name");
    assert k1[10] != '1' && k2[10] != '1';
  }
}
