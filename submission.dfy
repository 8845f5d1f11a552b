/**
 * What both applications' `customer_submit_view` share: the posted form, the
 * required-field check, and the records a submission writes (the customer
 * row, one source row per posted source, an optional channel partner and an
 * optional referral). The store keeps the database constraints of the
 * models: form numbers are unique, a customer has each source type at most
 * once, and at most one partner and one referral.
 */
module Submission {
  import opened Wrappers
  import opened Text

  /** A posted form: `request.POST.get(key)` is the value for the key, `None` when absent. */
  type Post = map<string, string>

  function Get(post: Post, key: string): Option<string>
  {
    if key in post then Some(post[key]) else None
  }

  /** `data.get(key, default)`. */
  function GetOr(post: Post, key: string, default: string): string
  {
    if key in post then post[key] else default
  }

  /** `data.get(key)` is truthy: present and not empty. */
  predicate Filled(post: Post, key: string)
  {
    key in post && post[key] != ""
  }

  /** `a` is `b` with some elements left out, order kept. */
  predicate IsSubsequence(a: seq<string>, b: seq<string>)
    decreases |b|
  {
    if a == [] then true
    else if b == [] then false
    else if a[0] == b[0] then IsSubsequence(a[1..], b[1..])
    else IsSubsequence(a, b[1..])
  }

  /**
   * `[field for field in required if not data.get(field)]`: exactly the
   * required fields that are absent or empty, in the order they are listed.
   */
  function MissingFields(required: seq<string>, post: Post): (r: seq<string>)
    ensures forall f :: f in r <==> f in required && !Filled(post, f)
    ensures IsSubsequence(r, required)
  {
    if required == [] then []
    else
      var rest := MissingFields(required[1..], post);
      assert forall f :: f in required <==> f == required[0] || f in required[1..];
      if !Filled(post, required[0]) then [required[0]] + rest
      else rest
  }

  datatype SourceRow = SourceRow(customerId: nat, sourceType: string)
  datatype PartnerRow = PartnerRow(customerId: nat, companyName: string, partnerName: string,
                                   mobileNumber: string, reraNumber: string)
  datatype ReferralRow = ReferralRow(customerId: nat, referralName: string, projectName: string)

  /** The integrity errors that abort the submission's transaction. */
  datatype DbError = DuplicateFormNumber | DuplicateSource(sourceType: string)

  /** The rows `CustomerSource.objects.create` adds for `sources`, in order. */
  function SourceRows(customerId: nat, sources: seq<string>): (r: seq<SourceRow>)
    ensures |r| == |sources|
    ensures forall i :: 0 <= i < |sources| ==> r[i] == SourceRow(customerId, sources[i])
  {
    seq(|sources|, i requires 0 <= i < |sources| => SourceRow(customerId, sources[i]))
  }

  predicate NoDuplicates(s: seq<string>)
  {
    forall i, j :: 0 <= i < j < |s| ==> s[i] != s[j]
  }

  /**
   * The source rows of one submission, created one at a time: a source posted
   * twice violates the unique (customer, source type) constraint.
   */
  method NewSourceRows(id: nat, posted: seq<string>) returns (r: Result<seq<SourceRow>, DbError>)
    ensures r.Success? <==> NoDuplicates(posted)
    ensures r.Success? ==> r.value == SourceRows(id, posted)
    ensures r.Failure? ==> r.error.DuplicateSource? && r.error.sourceType in posted
  {
    var rows: seq<SourceRow> := [];
    var i := 0;
    while i < |posted|
      invariant 0 <= i <= |posted|
      invariant rows == SourceRows(id, posted[..i])
      invariant NoDuplicates(posted[..i])
    {
      var row := SourceRow(id, posted[i]);
      if row in rows {
        var k :| 0 <= k < |rows| && rows[k] == row;
        assert posted[k] == posted[i];
        return Failure(DuplicateSource(posted[i]));
      }
      rows := rows + [row];
      i := i + 1;
      assert posted[..i] == posted[..i - 1] + [posted[i - 1]];
    }
    assert posted[..i] == posted;
    return Success(rows);
  }

  /**
   * The channel partner a submission creates: only when "channel_partner"
   * is among the sources and all four partner fields are non-empty.
   */
  function PartnerFor(customerId: nat, post: Post, sources: seq<string>): (r: Option<PartnerRow>)
    ensures r.Some? <==> "channel_partner" in sources
                         && Filled(post, "partner_company_name") && Filled(post, "partner_name")
                         && Filled(post, "partner_mobile") && Filled(post, "partner_rera")
    ensures r.Some? ==> r.value.customerId == customerId && r.value.companyName == post["partner_company_name"]
                        && r.value.partnerName == post["partner_name"] && r.value.mobileNumber == post["partner_mobile"]
                        && r.value.reraNumber == post["partner_rera"]
  {
    if "channel_partner" in sources
       && Filled(post, "partner_company_name") && Filled(post, "partner_name")
       && Filled(post, "partner_mobile") && Filled(post, "partner_rera")
    then Some(PartnerRow(customerId, post["partner_company_name"], post["partner_name"],
                         post["partner_mobile"], post["partner_rera"]))
    else None
  }

  /**
   * The referral a submission creates: only when "referral" is among the
   * sources and both referral fields are non-empty.
   */
  function ReferralFor(customerId: nat, post: Post, sources: seq<string>): (r: Option<ReferralRow>)
    ensures r.Some? <==> "referral" in sources && Filled(post, "referral_name") && Filled(post, "referral_project")
    ensures r.Some? ==> r.value == ReferralRow(customerId, post["referral_name"], post["referral_project"])
  {
    if "referral" in sources && Filled(post, "referral_name") && Filled(post, "referral_project")
    then Some(ReferralRow(customerId, post["referral_name"], post["referral_project"]))
    else None
  }

  /** Source rows belong to the first n customers, and no row is stored twice. */
  ghost predicate SourcesFit(sources: seq<SourceRow>, n: nat)
  {
    && (forall i :: 0 <= i < |sources| ==> sources[i].customerId < n)
    && (forall i, j :: 0 <= i < j < |sources| ==> sources[i] != sources[j])
  }

  /** Partner rows belong to the first n customers, at most one per customer. */
  ghost predicate PartnersFit(partners: seq<PartnerRow>, n: nat)
  {
    && (forall i :: 0 <= i < |partners| ==> partners[i].customerId < n)
    && (forall i, j :: 0 <= i < j < |partners| ==> partners[i].customerId != partners[j].customerId)
  }

  /** Referral rows belong to the first n customers, at most one per customer. */
  ghost predicate ReferralsFit(referrals: seq<ReferralRow>, n: nat)
  {
    && (forall i :: 0 <= i < |referrals| ==> referrals[i].customerId < n)
    && (forall i, j :: 0 <= i < j < |referrals| ==> referrals[i].customerId != referrals[j].customerId)
  }

  /** The distinct source rows of a new customer n keep the source table unique. */
  lemma SourcesGrow(sources: seq<SourceRow>, n: nat, posted: seq<string>)
    requires SourcesFit(sources, n) && NoDuplicates(posted)
    ensures SourcesFit(sources + SourceRows(n, posted), n + 1)
  {
    var all := sources + SourceRows(n, posted);
    forall i, j | 0 <= i < j < |all|
      ensures all[i] != all[j]
    {
      if i >= |sources| {
        assert all[i].sourceType == posted[i - |sources|] && all[j].sourceType == posted[j - |sources|];
      }
    }
  }

  /** At most one partner row, for a new customer n, keeps one partner per customer. */
  lemma PartnersGrow(partners: seq<PartnerRow>, n: nat, p: Option<PartnerRow>)
    requires PartnersFit(partners, n) && (p.Some? ==> p.value.customerId == n)
    ensures PartnersFit(partners + OptionToSeq(p), n + 1)
  {
  }

  /** At most one referral row, for a new customer n, keeps one referral per customer. */
  lemma ReferralsGrow(referrals: seq<ReferralRow>, n: nat, r: Option<ReferralRow>)
    requires ReferralsFit(referrals, n) && (r.Some? ==> r.value.customerId == n)
    ensures ReferralsFit(referrals + OptionToSeq(r), n + 1)
  {
  }

  /** The lead tables. Customer i has form number forms[i] and record customers[i]. */
  class Store<C> {
    var forms: seq<string>
    var customers: seq<C>
    var sources: seq<SourceRow>
    var partners: seq<PartnerRow>
    var referrals: seq<ReferralRow>

    /** The database constraints the models declare. */
    ghost predicate Valid()
      reads this
    {
      && |forms| == |customers|
      && (forall i, j :: 0 <= i < j < |forms| ==> forms[i] != forms[j])
      && SourcesFit(sources, |forms|)
      && PartnersFit(partners, |forms|)
      && ReferralsFit(referrals, |forms|)
    }

    constructor ()
      ensures Valid()
      ensures forms == [] && customers == [] && sources == [] && partners == [] && referrals == []
    {
      forms, customers, sources, partners, referrals := [], [], [], [], [];
    }

    /**
     * The writes of one submission inside `transaction.atomic()`: create the
     * customer, then one source row per posted source, then the partner and
     * the referral. A taken form number or a repeated source violates a
     * unique constraint, and the whole submission is rolled back.
     */
    method CreateLead(form: string, record: C, post: Post, posted: seq<string>) returns (r: Result<nat, DbError>)
      requires Valid()
      modifies this
      ensures Valid()
      ensures r.Success? <==> form !in old(forms) && NoDuplicates(posted)
      ensures form in old(forms) ==> r == Failure(DuplicateFormNumber)
      ensures r.Failure? ==> forms == old(forms) && customers == old(customers) && sources == old(sources)
                             && partners == old(partners) && referrals == old(referrals)
      ensures r.Success? ==>
                && r.value == |old(forms)|
                && forms == old(forms) + [form]
                && customers == old(customers) + [record]
                && sources == old(sources) + SourceRows(r.value, posted)
                && partners == old(partners) + OptionToSeq(PartnerFor(r.value, post, posted))
                && referrals == old(referrals) + OptionToSeq(ReferralFor(r.value, post, posted))
    {
      if form in forms {
        return Failure(DuplicateFormNumber);
      }
      var id := |forms|;
      var built := NewSourceRows(id, posted);
      if built.Failure? {
        return Failure(built.error);
      }
      var rows := built.value;
      SourcesGrow(sources, id, posted);
      PartnersGrow(partners, id, PartnerFor(id, post, posted));
      ReferralsGrow(referrals, id, ReferralFor(id, post, posted));
      forms := forms + [form];
      customers := customers + [record];
      sources := sources + rows;
      partners := partners + OptionToSeq(PartnerFor(id, post, posted));
      referrals := referrals + OptionToSeq(ReferralFor(id, post, posted));
      return Success(id);
    }
  }
}
