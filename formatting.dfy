/**
 * The display helpers shared by the `Customer` and `BookingApplicant`
 * models: full name, complete address, display phone and the `__str__`
 * label. Each is one f-string or conditional over fields.
 */
module Formatting {
  import opened Wrappers
  import opened Text

  /** `get_full_name`: the middle name is shown only when non-empty. */
  function FullName(first: string, middle: string, last: string): (r: string)
    ensures |r| == |first| + |last| + 1 + (if middle == "" then 0 else |middle| + 1)
    ensures StartsWith(r, first + " ") && r[|r| - |last|..] == last
  {
    if middle != "" then first + " " + middle + " " + last else first + " " + last
  }

  /**
   * When no part contains a space, splitting the full name at spaces gives
   * back the first name, the middle name if it is non-empty, and the last
   * name.
   */
  lemma FullNameWords(first: string, middle: string, last: string)
    requires ' ' !in first && ' ' !in middle && ' ' !in last
    ensures Split(FullName(first, middle, last), ' ') ==
              [first] + (if middle == "" then [] else [middle]) + [last]
  {
    SplitNoSeparator(last, ' ');
    if middle == "" {
      SplitJoin(first, last, ' ');
    } else {
      SplitJoin(middle, last, ' ');
      assert first + " " + middle + " " + last == first + [' '] + (middle + [' '] + last);
      SplitJoin(first, middle + [' '] + last, ' ');
    }
  }

  /** `get_complete_address`: "address, locality, city - pincode". */
  function CompleteAddress(address: string, locality: string, city: string, pincode: string): (r: string)
    ensures |r| == |address| + |locality| + |city| + |pincode| + 7
    ensures StartsWith(r, address + ", ") && r[|r| - |pincode| - 3..] == " - " + pincode
  {
    address + ", " + locality + ", " + city + " - " + pincode
  }

  /**
   * When no part contains a comma, the address splits at commas into the
   * address line, the locality and "city - pincode".
   */
  lemma CompleteAddressParts(address: string, locality: string, city: string, pincode: string)
    requires ',' !in address && ',' !in locality && ',' !in city && ',' !in pincode
    ensures Split(CompleteAddress(address, locality, city, pincode), ',') ==
              [address, " " + locality, " " + city + " - " + pincode]
  {
    var tail := " " + city + " - " + pincode;
    SplitNoSeparator(tail, ',');
    SplitJoin(" " + locality, tail, ',');
    assert CompleteAddress(address, locality, city, pincode) == address + [','] + ((" " + locality) + [','] + tail);
    SplitJoin(address, (" " + locality) + [','] + tail, ',');
  }

  /**
   * `get_display_phone`: a ten-character phone as XXX-XXX-XXXX, "Not
   * Provided" for a missing or empty phone, any other phone unchanged.
   */
  function DisplayPhone(phone: Option<string>): (r: string)
    ensures phone == None || phone == Some("") ==> r == "Not Provided"
    ensures phone.Some? && |phone.value| == 10 ==>
              |r| == 12 && r[3] == '-' && r[7] == '-' && r[..3] + r[4..7] + r[8..] == phone.value
    ensures phone.Some? && phone.value != "" && |phone.value| != 10 ==> r == phone.value
  {
    match phone
    case Some(p) =>
      if p != "" && |p| == 10 then
        var r := p[..3] + "-" + p[3..6] + "-" + p[6..];
        assert r[..3] + r[4..7] + r[8..] == p[..3] + p[3..6] + p[6..];
        assert p[..3] + p[3..6] + p[6..] == p;
        r
      else if p != "" then p
      else "Not Provided"
    case None => "Not Provided"
  }

  /** Deleting the dashes from the display form of a ten-digit phone gives the phone back. */
  lemma DisplayPhoneRoundTrip(phone: string)
    requires |phone| == 10 && '-' !in phone
    ensures Remove(DisplayPhone(Some(phone)), '-') == phone
  {
    var a, b, c := phone[..3], phone[3..6], phone[6..];
    assert '-' !in a && '-' !in b && '-' !in c;
    var d := "-";
    assert Remove(d, '-') == [];
    var x := a + d;
    var y := x + b;
    var z := y + d;
    assert DisplayPhone(Some(phone)) == z + c;
    RemoveAbsent(a, '-');
    RemoveAbsent(b, '-');
    RemoveAbsent(c, '-');
    RemoveAppend(a, d, '-');
    assert Remove(x, '-') == a;
    RemoveAppend(x, b, '-');
    assert Remove(y, '-') == a + b;
    RemoveAppend(y, d, '-');
    assert Remove(z, '-') == a + b;
    RemoveAppend(z, c, '-');
    assert Remove(z + c, '-') == a + b + c;
    assert a + b + c == phone;
  }

  /** `__str__`: "first last - form_number". */
  function Label(first: string, last: string, formNumber: string): string
  {
    first + " " + last + " - " + formNumber
  }

  /**
   * The label is the full name without its middle name, then " - " and the
   * form number: it never shows a middle name.
   */
  lemma LabelOmitsMiddleName(first: string, middle: string, last: string, formNumber: string)
    ensures Label(first, last, formNumber) == FullName(first, "", last) + " - " + formNumber
    ensures middle != "" ==> Label(first, last, formNumber) != FullName(first, middle, last) + " - " + formNumber
  {
    if middle != "" {
      assert |Label(first, last, formNumber)| < |FullName(first, middle, last) + " - " + formNumber|;
    }
  }
}
