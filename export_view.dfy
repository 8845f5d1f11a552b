/**
 * The pure parts of `export_leads`: resolving a stored form number to a
 * property code and display name, and the spreadsheet column width rule.
 */
module ExportView {
  import opened Wrappers
  import opened Text
  import Properties
  import MigrateFormNumbers

  /** The codes the export recognises, in the order it tests them (case-sensitive). */
  const ExportCodes: seq<string> := ["Star", "Ant", "Orn", "Med", "Alt"]

  /** The property code `export_leads` derives from a form number. */
  function ExportPropertyCode(formNumber: string): string
  {
    if StartsWith(formNumber, "Star") then "Star"
    else if StartsWith(formNumber, "Ant") then "Ant"
    else if StartsWith(formNumber, "Orn") then "Orn"
    else if StartsWith(formNumber, "Med") then "Med"
    else if StartsWith(formNumber, "Alt") then "Alt"
    else Take(formNumber, 3)
  }

  /**
   * The chain of tests is the first known code that prefixes the form
   * number, and otherwise its first three characters (empty for an empty
   * form number).
   */
  lemma ExportCodeIsFirstMatch(formNumber: string)
    ensures FirstPrefixIn(ExportCodes, formNumber).Some? ==>
              ExportPropertyCode(formNumber) == FirstPrefixIn(ExportCodes, formNumber).value
    ensures FirstPrefixIn(ExportCodes, formNumber).None? ==>
              ExportPropertyCode(formNumber) == Take(formNumber, 3)
    ensures formNumber == [] ==> ExportPropertyCode(formNumber) == []
  {
    var m := FirstPrefixIn(ExportCodes, formNumber);
    if m.None? {
      assert !StartsWith(formNumber, ExportCodes[0]);
      assert !StartsWith(formNumber, ExportCodes[1]);
      assert !StartsWith(formNumber, ExportCodes[2]);
      assert !StartsWith(formNumber, ExportCodes[3]);
      assert !StartsWith(formNumber, ExportCodes[4]);
    }
  }

  /** `property_names.get(property_code, property_code)`. */
  function ExportPropertyName(formNumber: string): string
  {
    Properties.PropertyName(ExportPropertyCode(formNumber))
  }

  /** A string with no lower-case letter. */
  predicate NoLowerLetter(s: string)
  {
    forall i :: 0 <= i < |s| ==> !IsLowerLetter(s[i])
  }

  /**
   * A form number without lower-case letters matches none of the
   * mixed-case codes, so it resolves to its first three characters, and
   * that code has no display name of its own.
   */
  lemma NoLowerResolvesToFirstThree(formNumber: string)
    requires NoLowerLetter(formNumber)
    ensures ExportPropertyCode(formNumber) == Take(formNumber, 3)
    ensures ExportPropertyCode(formNumber) !in Properties.PropertyNames
    ensures ExportPropertyName(formNumber) == Take(formNumber, 3)
  {
    // every known code has a lower-case letter in its second position
    if |formNumber| >= 2 {
      assert !IsLowerLetter(formNumber[1]);
      assert Take(formNumber, 3)[1] == formNumber[1];
    }
  }

  /**
   * A number the migration writes (`PREFIX-NNNNN` with an upper-case
   * prefix) does not resolve to a named property on export: its code is its
   * first three characters, shown as is.
   */
  lemma MigratedNumberResolvesToFirstThree(prefix: string, n: nat)
    requires Upper(prefix) == prefix
    requires MigrateFormNumbers.InNumberRange(n)
    ensures var f := MigrateFormNumbers.Candidate(prefix, n);
            && ExportPropertyCode(f) == Take(f, 3)
            && ExportPropertyCode(f) !in Properties.PropertyNames
            && ExportPropertyName(f) == Take(f, 3)
  {
    var f := MigrateFormNumbers.Candidate(prefix, n);
    var digits := NatToString(n);
    assert f == prefix + "-" + digits;
    forall i | 0 <= i < |f|
      ensures !IsLowerLetter(f[i])
    {
      if i < |prefix| {
        UpperKeeps(prefix, i);
        assert f[i] == Upper(prefix)[i];
      } else if i > |prefix| {
        assert f[i] == digits[i - |prefix| - 1];
      }
    }
    NoLowerResolvesToFirstThree(f);
  }

  /**
   * The migration's prefix of a known property is upper case (`STAR`), while
   * the export's code for it is mixed case (`Star`).
   */
  lemma MigratedStarIsNotStar(n: nat)
    requires MigrateFormNumbers.InNumberRange(n)
    ensures ExportPropertyName(MigrateFormNumbers.Candidate("STAR", n)) == "STA"
  {
    MigratedNumberResolvesToFirstThree("STAR", n);
  }

  /** The width `export_leads` gives a column: the longest cell text plus two, at most 50. */
  method ColumnWidth(cellLengths: seq<nat>) returns (width: nat)
    ensures 2 <= width <= 50
    ensures forall i :: 0 <= i < |cellLengths| ==> Min(cellLengths[i] + 2, 50) <= width
    ensures |cellLengths| == 0 ==> width == 2
    ensures |cellLengths| > 0 ==> exists i :: 0 <= i < |cellLengths| && width == Min(cellLengths[i] + 2, 50)
  {
    var maxLength := 0;
    var k := 0;
    while k < |cellLengths|
      invariant 0 <= k <= |cellLengths|
      invariant forall i :: 0 <= i < k ==> cellLengths[i] <= maxLength
      invariant k == 0 ==> maxLength == 0
      invariant k > 0 ==> exists i :: 0 <= i < k && maxLength == cellLengths[i]
    {
      if cellLengths[k] > maxLength {
        maxLength := cellLengths[k];
      }
      k := k + 1;
    }
    width := Min(maxLength + 2, 50);
  }
}
