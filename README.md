# Spenta lead-capture CRM: a verified model of its rules

This project models the string handling and validation rules of a Django
lead-capture CRM for a real-estate developer. It has two applications: the
current `customer_enquiry` app and an older copy under `Spenta/`. Dafny proves
what each rule guarantees.

What is modelled:

- **Form-number migration** (`migrate_form_numbers`). A management command
  rewrites legacy form numbers into the `PREFIX-NNNNN` format. It extracts a
  project prefix and draws a fresh five-digit number that no other customer
  uses. It skips numbers already in the new format and prefixes of inactive
  projects. The customer table is an `array<string>` of form numbers, and the
  pass overwrites its entries in place.
- **Lead submission** (`customer_submit_view` in both apps). The view checks
  the property code first. It then checks the required fields, the pincode,
  the optional phone number, and the sex and marital-status choices. It builds
  the form number from the clock and writes the customer, its sources, an
  optional channel partner and an optional referral in one transaction. The
  tables are a `Store` class whose invariant is the models' unique
  constraints.
- **Export**. This covers how a form number resolves to a property code and
  name, and the column-width rule of the spreadsheet.
- **Booking pre-fill**. This covers the title, residential-status,
  employment-type and state mappings, the map of pre-filled fields, and which
  of the four applicant slots become `BookingApplicant` rows.
- **OTP login**. `send_otp_view` and `user_login_view` form a small state
  machine over the session dictionary. Their ordered checks and the session
  writes are modelled by the `Session` class.
- **Record formatting.** This covers `get_full_name`, `get_complete_address`,
  `get_display_phone` and `__str__`, plus the regex validators on the phone
  and pincode columns.

Python's string operations are written out in module `Text`: ASCII
`upper`/`lower`/`isdigit`, `strip` with Python's whitespace set, `split`,
slicing and `str(int)`. A Python `$` also matches just before a final
newline, and the validators model that too. The clock, the random draw and
the database are parameters, or a nondeterministic choice.

The export resolver compares prefixes case-sensitively (`Star`, `Ant`, …).
The migration emits upper-case prefixes (`STAR-12345`). A migrated number
therefore resolves to its first three characters (`STA`), not to a named
property. `ExportView.MigratedNumberResolvesToFirstThree` and
`ExportView.MigratedStarIsNotStar` state this.

## Model

| member | source | states |
|---|---|---|
| MigrateFormNumbers.ExtractPrefix | customer_enquiry/management/commands/migrate_form_numbers.py:74-92 | empty or missing gives "UNK"; the first known prefix (STAR, ANT, ORN, MED, ALT, in that order) that starts the upper-cased input wins; otherwise the upper-cased text before the first dash, or with no dash the first three characters upper-cased; the result is always its own upper-case |
| MigrateFormNumbers.GenerateNewFormNumber | customer_enquiry/management/commands/migrate_form_numbers.py:94-102 | a returned number is `prefix-n` with 10000 <= n <= 99999 and is not among the used numbers; no number is returned exactly when all 90000 candidates for the prefix are taken (where the source loops forever) |
| MigrateFormNumbers.GeneratedIsNewFormat | customer_enquiry/management/commands/migrate_form_numbers.py:97-98 | a number generated for a prefix of two to five upper-case letters matches the new-format pattern `^[A-Z]{2,5}-\d{5}$`, so a later run skips it |
| MigrateFormNumbers.ReplaceKeepsDistinct | customer_enquiry/management/commands/migrate_form_numbers.py:56-60 | overwriting one form number with one that no customer has keeps the numbers pairwise distinct |
| MigrateFormNumbers.Handle | customer_enquiry/management/commands/migrate_form_numbers.py:18-72 | a dry run changes no form number; new-format numbers and numbers whose prefix is not an active project keep their value, and every other number becomes a fresh candidate for its extracted prefix; updated + skipped equals the number of customers and skipped counts the skipped entries; distinct numbers stay distinct; with short upper-case project keys, a second pass would skip everything; it stops without completing only when some prefix has every number taken |
| MigrateFormNumbers.MigrateEntry | customer_enquiry/management/commands/migrate_form_numbers.py:35-63 | one customer of the loop: it reports exactly when the number is skipped; only that entry may change; on success the entry is migrated (kept when skipped or in a dry run, otherwise a fresh, different candidate for its extracted prefix); it fails only when every candidate of that prefix is taken, and then nothing changes; distinct numbers stay distinct |
| Text.StripIsSlice | customer_enquiry/views.py:159 | `strip()` returns a contiguous slice of its input with only whitespace removed on either side and no whitespace left at either end |
| Text.StripEmptyIff | customer_enquiry/views.py:159-160 | a stripped value is empty exactly when the input is all whitespace |
| MigrateFormNumbers.ExtractPrefixSplitsOnDash | customer_enquiry/management/commands/migrate_form_numbers.py:88-89 | with no known prefix and a dash present, the prefix is the upper-cased part before the first dash, which equals the part before the first dash of the upper-cased number |
| Text.SplitHeadUpper | customer_enquiry/management/commands/migrate_form_numbers.py:88-89 | the part before the first dash of an upper-cased string is the upper-case of the part before the first dash of the original |
| Formatting.FullName | customer_enquiry/models.py:189-193 | the full name starts with the first name and a space and ends with the last name; its length adds the middle name and one more space exactly when the middle name is non-empty |
| Formatting.FullNameWords | customer_enquiry/models.py:189-193 | for names without spaces, splitting the full name on spaces gives back first, middle and last when the middle name is non-empty, and first and last otherwise |
| Formatting.CompleteAddress | customer_enquiry/models.py:195-197 | the address starts with the street address and ", ", ends with " - " and the pincode, and is seven characters longer than its four parts |
| Formatting.CompleteAddressParts | customer_enquiry/models.py:195-197 | for parts without commas, splitting the address on commas gives the street address, " locality" and " city - pincode" |
| Formatting.DisplayPhone | customer_enquiry/models.py:199-206 | a ten-character phone is shown as XXX-XXX-XXXX; a missing or empty phone is shown as "Not Provided"; any other length is shown unchanged |
| Formatting.DisplayPhoneRoundTrip | customer_enquiry/models.py:201-205 | removing the dashes from the formatted ten-character phone (itself without dashes) gives back the original |
| Formatting.LabelOmitsMiddleName | customer_enquiry/models.py:186-187 | `__str__` is the middle-less full name, " - " and the form number; with a non-empty middle name it differs from the full name followed by the form number |
| Models.ApplicantFullNameFollowsCustomerRule | customer_enquiry/models.py:651-654 | a booking applicant's full name follows the customer's middle-name rule, and a null middle name reads as an empty one |
| Models.PhoneFieldAcceptsTenDigits | customer_enquiry/models.py:97-106 | the phone regex together with max_length 10 accepts exactly the strings of ten digits |
| Models.PincodeFieldAcceptsSixDigits | customer_enquiry/models.py:130-136 | the pincode regex together with max_length 6 accepts exactly the strings of six digits |
| Models.PhoneValidatorAcceptsFinalNewline | customer_enquiry/models.py:99-102 | on its own the phone regex also accepts any ten digits followed by a newline, because `$` matches before a final newline |
| SpentaModels.FullNameShowsMiddleIffNonEmpty | Spenta/customer_enquiry/models.py:135-139 | the middle name is one of the space-separated words of the older customer's full name exactly when it is non-empty |
| SpentaModels.CompleteAddressLayout | Spenta/customer_enquiry/models.py:141-143 | the older customer's address splits on commas into three parts, the street address, " locality" and the rest, and ends with " - " and the pincode |
| SpentaModels.LabelShowsFormNumber | Spenta/customer_enquiry/models.py:132-133 | the older customer's `__str__` is "first last - " followed by the form number, which it ends with |
| SpentaModels.PincodeFieldAcceptsSixDigits | Spenta/customer_enquiry/models.py:76-82 | the older pincode validator together with max_length 6 accepts exactly the six-digit strings |
| Submission.MissingFields | customer_enquiry/views.py:141 | the missing list holds exactly the required fields that are absent or empty, in declaration order |
| Submission.SourceRows | Spenta/customer_enquiry/views.py:89-94 | one source row per posted source, in order, each tied to the new customer |
| Submission.NewSourceRows | customer_enquiry/views.py:232-237 | creating one source row per posted source succeeds exactly when no source repeats, and then gives the rows of `SourceRows`; a repeat fails with that source's unique-constraint error |
| Submission.PartnerFor | Spenta/customer_enquiry/views.py:97-106 | a channel partner is created exactly when "channel_partner" is a source and all four partner fields are non-empty, and it carries those four values |
| Submission.ReferralFor | Spenta/customer_enquiry/views.py:109-116 | a referral is created exactly when "referral" is a source and both referral fields are non-empty, and it carries those values |
| Submission.Store.CreateLead | customer_enquiry/views.py:204-259 | keeps the unique constraints; succeeds exactly when the form number is new and no source repeats; on success it appends the customer, its source rows and the gated partner and referral; on failure nothing changes (the transaction rolls back) |
| Properties.ValidCodesAreNamed | customer_enquiry/views.py:1038 | every property code the login accepts has a display name in the property mapping |
| Properties.NameDiffersIffKnown | customer_enquiry/views.py:130 | the property name falls back to the code itself, and the two differ exactly when the code is a known property |
| Properties.PropertyName | customer_enquiry/views.py:130 | `property_mapping.get(code, code)`: a known code gives its mapped name, any other code is returned unchanged |
| SubmitView.Validate | customer_enquiry/views.py:113-186 | checks in the source's order: a missing property code is rejected first; then the missing required fields; then a pincode that is not six digits; then a non-empty trimmed phone that is not ten digits; then sex and marital status outside their choices; every error is reported exactly when the earlier checks pass and its own fails, and success exactly when all pass |
| SubmitView.AcceptedHasAllRequired | customer_enquiry/views.py:133-147 | an accepted submission has every required field present and non-empty |
| SubmitView.BlankPhoneIsNoPhone | customer_enquiry/views.py:159-165 | in an accepted submission, a phone field of whitespace only is stored as no phone |
| SubmitView.ViewChecksMatchValidators | customer_enquiry/views.py:150-165 | the view's pincode and phone checks accept exactly what the model validators with their max lengths accept |
| SubmitView.ChoicesMatchModel | customer_enquiry/views.py:168-169 | the view's sex and marital-status lists are the model's choice lists |
| SubmitView.FormNumberLayout | customer_enquiry/views.py:189-191 | from a five-digit-or-longer timestamp the form number is the code, a dash and five digits whose value is the timestamp modulo 100000 |
| SubmitView.FormNumberRepeats | customer_enquiry/views.py:189-191 | two timestamps equal modulo 100000 give the same form number for the same code, so submissions 100000 seconds apart collide |
| SubmitView.NewCustomer | customer_enquiry/views.py:204-229 | the created customer has the generated form number, the checked phone (trimmed, or none), the posted pincode, and the trimmed birth date or the 1900-01-01 placeholder when that is empty |
| SubmitView.ConfirmationPhone | customer_enquiry/views.py:269 | the session's phone is the stored phone when there is one, else a non-empty `user_phone`, else the raw posted phone field |
| SubmitView.Submit | customer_enquiry/views.py:102-276 | a validation error is returned unchanged and writes nothing; otherwise the lead is written exactly when the form number is new and no source repeats, a taken number or a repeated source is answered with the error (JSON over AJAX, status 500 otherwise), and the confirmation holds the form number, name, email, id, property and phone |
| ExportView.ExportCodeIsFirstMatch | customer_enquiry/views.py:410-422 | the export code is the first of Star, Ant, Orn, Med, Alt that starts the form number, compared case-sensitively, and otherwise its first three characters; an empty form number gives an empty code |
| ExportView.NoLowerResolvesToFirstThree | customer_enquiry/views.py:410-431 | a form number with no lower-case letter resolves to its first three characters |
| ExportView.MigratedNumberResolvesToFirstThree | customer_enquiry/views.py:412-431 | a migrated number (upper-case prefix, dash, five digits) resolves to a code that is its first three characters and names no property, so its display name is that code |
| ExportView.MigratedStarIsNotStar | customer_enquiry/management/commands/migrate_form_numbers.py:82-85 | a migrated STAR number is shown under "STA", not under the Star property |
| ExportView.ColumnWidth | customer_enquiry/views.py:484-494 | the width is `min(longest + 2, 50)`: between 2 and 50, at least `min(len + 2, 50)` for every cell, 2 for an empty column, and otherwise reached by some cell |
| BookingView.TitleFor | customer_enquiry/views.py:773-781 | the title is always a title choice; "Ms" exactly when the lower-cased first name ends in 'a' or is a listed female name, "Mr" otherwise |
| BookingView.TitleIgnoresCase | customer_enquiry/views.py:776-777 | the title does not depend on the case of the first name |
| BookingView.MapNationalityToResidentialStatus | customer_enquiry/views.py:783-793 | the status is always a residential-status choice; indian, nri, pio and oci map to themselves and anything else to indian |
| BookingView.NationalityCarriesOver | customer_enquiry/views.py:783-793 | every nationality choice of the customer model keeps its value as a residential status, and mapping twice is mapping once |
| BookingView.MapEmploymentType | customer_enquiry/views.py:795-806 | the result is always salaried or self_employed; self_employed exactly for business, professional and retired |
| BookingView.OtherEmploymentIsSalaried | customer_enquiry/views.py:795-806 | the customer model's "other" employment choice maps to salaried |
| BookingView.StateFromCity | customer_enquiry/views.py:808-824 | a city in the table gives its state and any other city gives Maharashtra, compared case-insensitively |
| BookingView.StateIgnoresCase | customer_enquiry/views.py:824 | the state does not depend on the case of the city |
| BookingView.SlotPrefixesAreFormatted | customer_enquiry/views.py:916-917 | slot i's field prefix is "applicant_" + i + "_" |
| BookingView.GetOrNone | customer_enquiry/views.py:934 | a missing or empty posted value is stored as null, and any other value as itself |
| BookingView.SlotApplicant | customer_enquiry/views.py:923-962 | the applicant built for slot i has order i and the slot's trimmed first and last names |
| BookingView.CreateApplicants | customer_enquiry/views.py:911-966 | at most four applicants with strictly increasing orders in 1..4; slot i gives an applicant exactly when its trimmed first or last name is non-empty and its insert is not rejected, and that applicant is the slot's record |
| BookingView.PickedSlots | customer_enquiry/views.py:916-923 | walking slots 1 to n in order picks at most n slots, each between 1 and n, in strictly increasing order, and picks a slot exactly when it is wanted |
| BookingView.ChosenRows | customer_enquiry/views.py:916-966 | the rows of the wanted slots are at most four, with strictly increasing orders in 1..4; a slot has a row exactly when its trimmed first or last name is non-empty and it is not rejected; each row is the record of its own slot |
| BookingView.PrefilledFirstApplicantNames | customer_enquiry/views.py:742-771 | posted back unchanged, the pre-fill gives slot 1 the customer's trimmed names, and slot 1 is filled exactly when either trimmed name is non-empty |
| BookingView.PrefilledFirstApplicantChoices | customer_enquiry/views.py:742-771 | slot 1's pre-filled title, residential status and employment type are valid booking choices |
| BookingView.PrefilledFirstApplicantAddress | customer_enquiry/views.py:742-771 | slot 1's pre-filled city and pin come from the customer, the state is looked up from the city, and the country is India |
| BookingView.PrefilledOtherSlotsEmpty | customer_enquiry/views.py:742-771 | the pre-fill writes nothing for slots 2 to 4 |
| OtpLogin.SendVerdict | customer_enquiry/views.py:1063-1072 | an OTP is accepted exactly when the body parses and its phone is a ten-digit string; a missing, empty, zero, false or otherwise falsy phone, and a string phone that is not ten digits, get the invalid-format reply; a body that is not a JSON object, or a truthy non-string phone, is answered with the send-failed reply (an ordinary JSON reply with `success` false) |
| OtpLogin.AfterSend | customer_enquiry/views.py:1075-1077 | sending stores the code, the phone and the timestamp, and leaves every other session key alone |
| OtpLogin.LoginVerdict | customer_enquiry/views.py:1019-1041 | checks in order: all three fields present; ten-digit phone; a stored code for this same phone; the entered code equals it; the property code is one of Alt, Orn, Med, Star, Ant; each rejection is reported exactly when the earlier checks pass and its own fails |
| OtpLogin.AfterLogin | customer_enquiry/views.py:1043-1050 | logging in removes the stored code and phone, sets the authenticated flag, phone and property, and keeps every other key |
| OtpLogin.Session.SendOtp | customer_enquiry/views.py:1058-1094 | returns the send verdict; the session changes only when the OTP is accepted |
| OtpLogin.Session.UserLogin | customer_enquiry/views.py:1001-1054 | returns the login verdict; the session changes only on a successful login |
| OtpLogin.SendThenLoginSucceeds | customer_enquiry/views.py:1075-1076 | after an accepted send, posting that phone, the sent code and a valid property logs in |
| OtpLogin.LoginIsSingleUse | customer_enquiry/views.py:1044-1045 | repeating a successful login on the resulting session is answered with "send OTP first" |
| OtpLogin.LoginNeedsStoredCode | customer_enquiry/views.py:1028-1035 | a successful login had a non-empty code stored for that same phone, equal to the posted code |
| OtpLogin.NumericCodeNeverLogsIn | customer_enquiry/views.py:1033-1035 | a code stored as a JSON number never equals the posted text, so no login with it succeeds |
| OtpLogin.CodeIsBoundToPhone | customer_enquiry/views.py:1029 | a code stored for one phone never logs in a different phone |
| SpentaViews.Validate | Spenta/customer_enquiry/views.py:35-61 | the missing required fields are reported first, then a pincode that is not six digits; success exactly when neither check fails |
| SpentaViews.MissingBirthDateIsReported | Spenta/customer_enquiry/views.py:35-42 | an absent or empty date of birth or residential address is reported as missing |
| SpentaViews.Pad | Spenta/customer_enquiry/views.py:65 | zero-padding gives exactly w digits whose value is the number |
| SpentaViews.DefaultFormNumberLayout | Spenta/customer_enquiry/views.py:65 | the default form number is "CIF-" followed by 14 digits whose value is the YYYYMMDDHHMMSS stamp |
| SpentaViews.DefaultFormNumberInjective | Spenta/customer_enquiry/views.py:65 | two valid moments give the same default form number exactly when they are the same second |
| SpentaViews.FormNumberFor | Spenta/customer_enquiry/views.py:65 | a posted form number, even an empty one, is used as given; the default applies only when none is posted |
| SpentaViews.NewCustomer | Spenta/customer_enquiry/views.py:64-86 | the created customer carries the chosen form number and, for each of the other nineteen columns, the posted value of its field (the empty string when absent) |
| SpentaViews.AcceptedCustomerKeepsRequired | Spenta/customer_enquiry/views.py:64-86 | for an accepted form, each of the fourteen required columns of the created customer holds the posted, non-empty value of its field |
| SpentaViews.Submit | Spenta/customer_enquiry/views.py:27-124 | a validation error is returned unchanged and writes nothing; otherwise the lead is written exactly when the form number is new and no source repeats, with one source row per posted source and the gated partner and referral |

## Left out

- Character classes are ASCII only. Python's `isdigit`, `\d`, `upper` and `lower` also act on non-ASCII characters; the model covers ASCII characters only, and treats every other character as neither a digit nor a cased letter.
- Session and JSON values are scalars only (string, integer, boolean, null). JSON arrays and objects in the OTP body are not modelled.
- Dates are text. The model does not parse or validate the date of birth, the anniversary date or the form date, and it leaves out `form_date`.
- ORM filtering and queries, the spreadsheet writing, template rendering, redirects, `JsonResponse`, `messages`, logging and authentication are not modelled. The only export rules kept are the code resolution and the width formula.
- The CustomerSource display names in the export are not modelled.
- GenerateNewFormNumber: `random.randint` repeats draws; the model draws without repetition from the untried numbers. Both return the same set of possible results, and the model returns `None` where the source would loop forever.
- The wall clock (`time.time`, `datetime.now`) is a parameter. `SpentaViews.DateTime.Valid` limits years to 1000..9999, where `strftime("%Y")` prints four digits.
- CreateApplicants: an exception in `BookingApplicant.objects.create` is stood in for by an arbitrary `rejected` set of slot numbers. The source logs it and moves on to the next slot, but all creates run inside `handle_booking_submission`'s `transaction.atomic()` block, so a caught database error leaves the transaction unusable: later slots fail as well and nothing is kept. The arbitrary set over-approximates that history and does not capture the rollback.
- SubmitView.Submit, SpentaViews.Submit: a posted date that Django cannot parse makes `Customer.objects.create` raise. The models keep dates as text, so their success conditions do not include this failure. `customer_enquiry/views.py` then answers with the error as JSON over AJAX and with status 500 otherwise. `Spenta/customer_enquiry/views.py` answers with the error as JSON over AJAX and otherwise flashes it and redirects to the index page.
- `handle_booking_submission`'s field-by-field copy into `BookingApplication` is not modelled, and neither is `create_channel_partner`.
- Handle: the command's stdout messages are not modelled. When it stops without completing, the returned array still holds the entries migrated before the exhausted prefix; the source never gets that far (it loops forever inside `transaction.atomic()`, so nothing is committed), and those partial writes stand for no saved state.
- `Project.objects.active_projects()` is a parameter: the list of active prefixes.
- No column's max_length is enforced by the store (for example form_number 20, first_name 100, a partner's mobile_number 10); only the phone and pincode fields have their max_length modelled, in the validator lemmas.
- The model validators are not run by `objects.create`. Only the view's own checks apply to a submission, and the model checks them.
- Models.Customer.FullName, Models.Customer.CompleteAddress, Models.Customer.DisplayPhone, Models.Customer.Label: no contract of their own; they delegate to the `Formatting` functions, whose contracts and lemmas state the properties.
- SpentaModels.Customer.FullName, SpentaModels.Customer.CompleteAddress, SpentaModels.Customer.Label: no contract of their own either; they delegate to the same `Formatting` functions, and the `SpentaModels` lemmas state their properties.
- ExportView.ExportPropertyCode, ExportView.ExportPropertyName, SubmitView.FormNumber, SpentaViews.Timestamp, SpentaViews.DefaultFormNumber, Formatting.Label, Text.Strip, BookingView.PrefilledData: no contract of their own; their properties are stated by the lemmas with rows above. These are ExportView.ExportCodeIsFirstMatch and ExportView.MigratedNumberResolvesToFirstThree; SubmitView.FormNumberLayout and SubmitView.FormNumberRepeats; SpentaViews.DefaultFormNumberLayout and SpentaViews.DefaultFormNumberInjective; Formatting.LabelOmitsMiddleName and SpentaModels.LabelShowsFormNumber; Text.StripIsSlice and Text.StripEmptyIff; and the BookingView.Prefilled lemmas.
- The thank-you and dashboard views are not modelled, and neither are the admin, URL, e-mail-test and logging-test modules.
