/**
 * The `migrate_form_numbers` management command: one pass over every
 * customer that rewrites legacy form numbers into the `PREFIX-NNNNN` format,
 * where PREFIX is an active project's prefix and NNNNN a random number from
 * 10000 to 99999 that no customer uses yet.
 *
 * The customer table is an array of form numbers (customer i's number at
 * index i), the active projects are given as their prefixes, and the random
 * draw is a nondeterministic choice.
 */
module MigrateFormNumbers {
  import opened Wrappers
  import opened Text

  /** The project prefixes recognised at the start of a legacy number, in the order tried. */
  const KnownPrefixes: seq<string> := ["STAR", "ANT", "ORN", "MED", "ALT"]

  /** The range of `random.randint(10000, 99999)`. */
  const LowNumber: nat := 10000
  const HighNumber: nat := 99999

  predicate InNumberRange(n: nat) { LowNumber <= n <= HighNumber }

  /** The numbers lo..hi as a set. */
  function NumberRange(lo: nat, hi: nat): (r: set<nat>)
    ensures forall n :: n in r <==> lo <= n <= hi
    decreases hi + 1 - lo
  {
    if lo > hi then {} else {lo} + NumberRange(lo + 1, hi)
  }

  lemma UpperOfNonLower(s: string)
    requires forall i :: 0 <= i < |s| ==> !IsLowerLetter(s[i])
    ensures Upper(s) == s
  {
  }

  /**
   * `Command.extract_prefix`: the project prefix of a legacy form number.
   * The empty number gives "UNK"; a number whose upper-cased form starts with
   * a known prefix gives the first such prefix; otherwise the upper-cased text
   * before the first dash, or, without a dash, the upper-cased first three
   * characters.
   */
  function ExtractPrefix(formNumber: string): (r: string)
    ensures formNumber == "" ==> r == "UNK"
    ensures Upper(r) == r
    ensures formNumber != "" && FirstPrefixIn(KnownPrefixes, Upper(formNumber)).Some? ==>
              r == FirstPrefixIn(KnownPrefixes, Upper(formNumber)).value
    ensures formNumber != "" && FirstPrefixIn(KnownPrefixes, Upper(formNumber)).None? && '-' in formNumber ==>
              '-' !in r && StartsWith(Upper(formNumber), r + "-")
    ensures formNumber != "" && FirstPrefixIn(KnownPrefixes, Upper(formNumber)).None? && '-' !in formNumber ==>
              |r| == Min(3, |formNumber|) && StartsWith(Upper(formNumber), r)
  {
    if formNumber == "" then
      UpperOfNonLower("UNK");
      "UNK"
    else
      var upper := Upper(formNumber);
      match FirstPrefixIn(KnownPrefixes, upper)
      case Some(p) =>
        UpperOfNonLower(KnownPrefixes[0]);
        UpperOfNonLower(KnownPrefixes[1]);
        UpperOfNonLower(KnownPrefixes[2]);
        UpperOfNonLower(KnownPrefixes[3]);
        UpperOfNonLower(KnownPrefixes[4]);
        p
      case None =>
        if '-' in formNumber then
          var head := Split(formNumber, '-')[0];
          SplitHead(formNumber, '-');
          UpperIdempotent(head);
          assert Upper(head) + "-" == upper[..|head| + 1];
          Upper(head)
        else
          UpperIdempotent(Take(formNumber, 3));
          assert Upper(Take(formNumber, 3)) == upper[..Min(3, |formNumber|)];
          Upper(Take(formNumber, 3))
  }

  /**
   * The dash branch of `extract_prefix` is `form_number.split('-')[0].upper()`,
   * which is also the part before the first dash of the upper-cased number.
   */
  lemma ExtractPrefixSplitsOnDash(formNumber: string)
    requires formNumber != "" && FirstPrefixIn(KnownPrefixes, Upper(formNumber)).None? && '-' in formNumber
    ensures ExtractPrefix(formNumber) == Upper(Split(formNumber, '-')[0])
    ensures ExtractPrefix(formNumber) == Split(Upper(formNumber), '-')[0]
  {
    SplitHeadUpper(formNumber, '-');
  }

  /**
   * The body of the pattern `^[A-Z]{2,5}-\d{5}$`: two to five upper-case
   * letters, a dash and five digits.
   */
  predicate NewFormatBody(s: string)
  {
    8 <= |s| <= 11 && AllUpperLetters(s[..|s| - 6]) && s[|s| - 6] == '-' && AllDigits(s[|s| - 5..])
  }

  /**
   * `re.match(r'^[A-Z]{2,5}-\d{5}$', s)`. Python's `$` also matches just
   * before a final newline, so the body may be followed by one '\n'.
   */
  predicate IsNewFormat(s: string)
  {
    NewFormatBody(s) || (|s| >= 1 && s[|s| - 1] == '\n' && NewFormatBody(s[..|s| - 1]))
  }

  /** The keys of `{p.project_prefix.upper(): p for p in active_projects}`. */
  function ProjectKeys(activePrefixes: seq<string>): set<string>
  {
    set p | p in activePrefixes :: Upper(p)
  }

  /** A customer the pass leaves alone: already in the new format, or with no active project for its prefix. */
  predicate Skipped(formNumber: string, keys: set<string>)
  {
    IsNewFormat(formNumber) || ExtractPrefix(formNumber) !in keys
  }

  /** The candidate `f"{prefix}-{random_number}"`. */
  function Candidate(prefix: string, n: nat): string
  {
    prefix + "-" + NatToString(n)
  }

  /** `f` is a number the generator can produce for `prefix`. */
  ghost predicate IsCandidateFor(f: string, prefix: string)
  {
    exists n :: InNumberRange(n) && f == Candidate(prefix, n)
  }

  /** Every number of the range is already taken for `prefix`: the generator loops forever. */
  ghost predicate AllTaken(prefix: string, used: set<string>)
  {
    forall n :: InNumberRange(n) ==> Candidate(prefix, n) in used
  }

  /**
   * `Command.generate_new_form_number`: draw candidates until one is not
   * used. Draws are taken without repetition from the numbers not tried yet;
   * a repeated draw of a taken number changes nothing, so this yields the
   * same results. `None` is the case where the source loops forever.
   */
  method GenerateNewFormNumber(prefix: string, used: set<string>) returns (r: Option<string>)
    ensures r.Some? ==> r.value !in used && IsCandidateFor(r.value, prefix)
    ensures r.None? <==> AllTaken(prefix, used)
  {
    var untried := NumberRange(LowNumber, HighNumber);
    while untried != {}
      invariant forall n :: n in untried ==> InNumberRange(n)
      invariant forall n :: InNumberRange(n) && n !in untried ==> Candidate(prefix, n) in used
      decreases untried
    {
      var n :| n in untried;
      var candidate := Candidate(prefix, n);
      if candidate !in used {
        return Some(candidate);
      }
      untried := untried - {n};
    }
    return None;
  }

  /** How many entries of `forms` the pass skips. */
  function CountSkipped(forms: seq<string>, keys: set<string>): (k: nat)
    ensures k <= |forms|
  {
    if forms == [] then 0
    else CountSkipped(forms[..|forms| - 1], keys) + (if Skipped(forms[|forms| - 1], keys) then 1 else 0)
  }

  /** No form number appears twice (the column is unique). */
  predicate Distinct(forms: seq<string>)
  {
    forall i, j :: 0 <= i < j < |forms| ==> forms[i] != forms[j]
  }

  /** Overwriting one entry with a number not in the table keeps the table distinct. */
  lemma ReplaceKeepsDistinct(forms: seq<string>, i: int, f: string)
    requires Distinct(forms) && 0 <= i < |forms| && f !in forms
    ensures Distinct(forms[i := f])
  {
  }

  /** A number generated for a prefix of two to five upper-case letters is in the new format. */
  lemma GeneratedIsNewFormat(prefix: string, n: nat)
    requires 2 <= |prefix| <= 5 && AllUpperLetters(prefix) && InNumberRange(n)
    ensures NewFormatBody(Candidate(prefix, n)) && IsNewFormat(Candidate(prefix, n))
  {
    FiveDigits(n);
    var c := Candidate(prefix, n);
    assert c[..|c| - 6] == prefix;
    assert c[|c| - 5..] == NatToString(n);
  }

  /** Prefixes the new-format pattern accepts: two to five upper-case letters. */
  predicate IsShortUpperWord(p: string) { 2 <= |p| <= 5 && AllUpperLetters(p) }

  /** What the pass leaves in one entry: skipped entries and dry runs keep it, the rest get a fresh candidate. */
  ghost predicate EntryMigrated(original: string, current: string, keys: set<string>, dryRun: bool)
  {
    if Skipped(original, keys) || dryRun then current == original
    else IsCandidateFor(current, ExtractPrefix(original)) && current != original
  }

  /**
   * One customer of the pass: leave it (already in the new format, or no
   * active project for its prefix) or give it a fresh number for its
   * prefix, written back unless this is a dry run. `ok == false` is the
   * case where every number for the prefix is taken.
   */
  method MigrateEntry(forms: array<string>, i: nat, keys: set<string>, dryRun: bool)
    returns (ok: bool, skippedIt: bool)
    requires i < forms.Length
    modifies forms
    ensures skippedIt <==> Skipped(old(forms[i]), keys)
    ensures forall j :: 0 <= j < forms.Length && j != i ==> forms[j] == old(forms[j])
    ensures ok ==> EntryMigrated(old(forms[i]), forms[i], keys, dryRun)
    ensures !ok ==> !skippedIt && forms[..] == old(forms[..])
                    && AllTaken(ExtractPrefix(old(forms[i])), set f | f in old(forms[..]))
    ensures ok && !dryRun && Distinct(old(forms[..])) ==> Distinct(forms[..])
    ensures ok && !dryRun && (forall p :: p in keys ==> IsShortUpperWord(p)) ==> Skipped(forms[i], keys)
  {
    var old_form_number := forms[i];
    if IsNewFormat(old_form_number) {
      return true, true;
    }
    var prefix := ExtractPrefix(old_form_number);
    if prefix !in keys {
      return true, true;
    }
    var generated := GenerateNewFormNumber(prefix, set f | f in forms[..]);
    if generated.None? {
      return false, false;
    }
    var new_form_number := generated.value;
    assert forms[i] in forms[..];
    if !dryRun {
      ghost var before := forms[..];
      forms[i] := new_form_number;
      assert forms[..] == before[i := new_form_number];
      if Distinct(before) {
        ReplaceKeepsDistinct(before, i, new_form_number);
      }
      if forall p :: p in keys ==> IsShortUpperWord(p) {
        var n :| InNumberRange(n) && new_form_number == Candidate(prefix, n);
        GeneratedIsNewFormat(prefix, n);
      }
    }
    return true, false;
  }

  /**
   * `Command.handle`: the migration pass over all customers. It reports
   * `completed == false` when a customer's prefix has every number taken,
   * where the source loops forever without committing.
   */
  method Handle(forms: array<string>, activePrefixes: seq<string>, dryRun: bool)
    returns (completed: bool, updated: nat, skipped: nat)
    modifies forms
    ensures dryRun ==> forms[..] == old(forms[..])
    ensures completed ==> skipped == CountSkipped(old(forms[..]), ProjectKeys(activePrefixes))
    ensures completed ==> updated + skipped == forms.Length
    ensures completed ==> forall i :: 0 <= i < forms.Length ==>
              EntryMigrated(old(forms[i]), forms[i], ProjectKeys(activePrefixes), dryRun)
    ensures !completed ==> exists i :: 0 <= i < forms.Length && !Skipped(old(forms[i]), ProjectKeys(activePrefixes))
                                     && AllTaken(ExtractPrefix(old(forms[i])), set f | f in forms[..])
    ensures completed && !dryRun && Distinct(old(forms[..])) ==> Distinct(forms[..])
    ensures completed && !dryRun && (forall p :: p in ProjectKeys(activePrefixes) ==> IsShortUpperWord(p)) ==>
              forall i :: 0 <= i < forms.Length ==> Skipped(forms[i], ProjectKeys(activePrefixes))
  {
    var keys := ProjectKeys(activePrefixes);
    ghost var original := forms[..];
    ghost var shortKeys := forall p :: p in keys ==> IsShortUpperWord(p);
    updated, skipped := 0, 0;
    var i := 0;
    while i < forms.Length
      invariant 0 <= i <= forms.Length
      invariant skipped == CountSkipped(original[..i], keys)
      invariant updated + skipped == i
      invariant forall j :: i <= j < forms.Length ==> forms[j] == original[j]
      invariant forall j :: 0 <= j < i ==> EntryMigrated(original[j], forms[j], keys, dryRun)
      invariant dryRun ==> forms[..] == original
      invariant !dryRun && Distinct(original) ==> Distinct(forms[..])
      invariant !dryRun && shortKeys ==> forall j :: 0 <= j < i ==> Skipped(forms[j], keys)
    {
      assert original[..i + 1][..i] == original[..i];
      var ok, skippedIt := MigrateEntry(forms, i, keys, dryRun);
      if !ok {
        completed := false;
        return;
      }
      if skippedIt {
        skipped := skipped + 1;
      } else {
        updated := updated + 1;
      }
      i := i + 1;
    }
    assert original[..i] == original;
    completed := true;
  }
}
