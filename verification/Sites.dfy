/** Delivery sites: what a submission must look like, and how it replaces what was stored. */
module Sites {
  import opened Wrappers
  import opened Requirements

  const MAX_SITES := 25

  /** An address after whitespace has been cleaned. */
  datatype Address = Address(line1: string, line2: Option<string>, city: string, state: string, pincode: string)

  datatype SiteSubmission = SiteSubmission(name: string, address: Address, contactName: Option<string>,
                                           contactMobile: Option<string>, isPrimary: bool)

  datatype Site = Site(name: string, address: Address, contactName: Option<string>, contactMobile: Option<string>,
                       isPrimary: bool)

  predicate IsName(text: string) {
    2 <= |text| <= 160
  }

  predicate IsPincode(text: string) {
    |text| == 6 && '1' <= text[0] <= '9' && forall i :: 1 <= i < 6 ==> '0' <= text[i] <= '9'
  }

  predicate IsAddress(a: Address) {
    a.line1 != "" && a.city != "" && a.state != "" && IsPincode(a.pincode)
  }

  /** Case folding and mobile normalisation are library functions; they are parameters here. */
  type Fold = string -> string
  type Normalise = string -> Option<string>

  predicate HasMobile(s: SiteSubmission) {
    s.contactMobile.Some? && s.contactMobile.value != ""
  }

  predicate IsGood(s: SiteSubmission, normalise: Normalise) {
    IsName(s.name) && IsAddress(s.address) && (HasMobile(s) ==> normalise(s.contactMobile.value).Some?)
  }

  function Fingerprint(s: SiteSubmission, fold: Fold): (string, string, string) {
    (fold(s.name), fold(s.address.line1), s.address.pincode)
  }

  function SiteOf(s: SiteSubmission, normalise: Normalise): Site {
    Site(s.name, s.address, if s.contactName == Some("") then None else s.contactName,
         if HasMobile(s) then normalise(s.contactMobile.value) else None, s.isPrimary)
  }

  function Marked(sites: seq<Site>): nat {
    if sites == [] then 0 else (if sites[|sites| - 1].isPrimary then 1 else 0) + Marked(sites[..|sites| - 1])
  }

  function SitesOf(submissions: seq<SiteSubmission>, normalise: Normalise): (sites: seq<Site>)
    ensures |sites| == |submissions|
  {
    seq(|submissions|, i requires 0 <= i < |submissions| => SiteOf(submissions[i], normalise))
  }

  /** The first site stands in as primary when none is marked. */
  function Promoted(sites: seq<Site>): (after: seq<Site>)
    requires sites != []
    ensures |after| == |sites|
  {
    if Marked(sites) == 0 then sites[0 := sites[0].(isPrimary := true)] else sites
  }

  ghost predicate OnlyPrimary(sites: seq<Site>, p: nat) {
    p < |sites| && sites[p].isPrimary && forall i :: 0 <= i < |sites| && i != p ==> !sites[i].isPrimary
  }

  predicate AllGood(submissions: seq<SiteSubmission>, n: nat, normalise: Normalise)
    requires n <= |submissions|
  {
    forall i :: 0 <= i < n ==> IsGood(submissions[i], normalise)
  }

  /** No two of the first `n` sites are the same place under the same name. */
  ghost predicate Distinct(submissions: seq<SiteSubmission>, n: nat, fold: Fold)
    requires n <= |submissions|
  {
    forall i, j :: 0 <= i < j < n ==> Fingerprint(submissions[i], fold) != Fingerprint(submissions[j], fold)
  }

  function Fingerprints(submissions: seq<SiteSubmission>, n: nat, fold: Fold): set<(string, string, string)>
    requires n <= |submissions|
  {
    set i | 0 <= i < n :: Fingerprint(submissions[i], fold)
  }

  lemma OneMoreFingerprint(submissions: seq<SiteSubmission>, n: nat, fold: Fold)
    requires n < |submissions|
    ensures var fingerprint := Fingerprint(submissions[n], fold);
            && Fingerprints(submissions, n + 1, fold) == Fingerprints(submissions, n, fold) + {fingerprint}
            && (Distinct(submissions, n + 1, fold) <==>
                Distinct(submissions, n, fold) && fingerprint !in Fingerprints(submissions, n, fold))
  {
  }

  /** What the rules ask of a list of sites, said about the submission alone. */
  ghost predicate AcceptableSites(submissions: seq<SiteSubmission>, wanted: bool, pincode: string, fold: Fold,
                                  normalise: Normalise) {
    if !wanted then submissions == []
    else
      && 1 <= |submissions| <= MAX_SITES
      && AllGood(submissions, |submissions|, normalise)
      && Distinct(submissions, |submissions|, fold)
      && exists p: nat ::
           OnlyPrimary(Promoted(SitesOf(submissions, normalise)), p) && submissions[p].address.pincode == pincode
  }

  // --- counting primaries ---------------------------------------------------------------

  lemma {:induction false} NoneMarked(sites: seq<Site>)
    ensures Marked(sites) == 0 <==> forall i :: 0 <= i < |sites| ==> !sites[i].isPrimary
  {
    if sites != [] {
      var shorter := sites[..|sites| - 1];
      NoneMarked(shorter);
      assert forall i :: 0 <= i < |shorter| ==> sites[i] == shorter[i];
    }
  }

  lemma {:induction false} OneMarked(sites: seq<Site>)
    ensures Marked(sites) == 1 <==> exists p :: OnlyPrimary(sites, p)
  {
    if sites != [] {
      var n := |sites| - 1;
      var shorter := sites[..n];
      assert forall i :: 0 <= i < n ==> sites[i] == shorter[i];
      if sites[n].isPrimary {
        NoneMarked(shorter);
        if Marked(shorter) == 0 {
          assert OnlyPrimary(sites, n);
        }
      } else {
        OneMarked(shorter);
        if p :| OnlyPrimary(shorter, p) {
          assert OnlyPrimary(sites, p);
        }
        if p :| OnlyPrimary(sites, p) {
          assert OnlyPrimary(shorter, p);
        }
      }
    }
  }

  lemma PromotionMarksOne(sites: seq<Site>)
    requires sites != [] && Marked(sites) <= 1
    ensures Marked(Promoted(sites)) == 1
  {
    if Marked(sites) == 0 {
      NoneMarked(sites);
      assert OnlyPrimary(Promoted(sites), 0);
    }
    OneMarked(Promoted(sites));
  }

  // --- validation -----------------------------------------------------------------------

  /** What is wrong with the fields of one site. */
  method FieldErrors(s: SiteSubmission, normalise: Normalise) returns (errors: seq<FieldError>)
    ensures errors == [] <==> IsGood(s, normalise)
  {
    errors := [];
    if !IsName(s.name) {
      errors := errors + [FieldError("sites.name", "invalid")];
    }
    if !IsAddress(s.address) {
      errors := errors + [FieldError("sites.address", "invalid")];
    }
    if HasMobile(s) && normalise(s.contactMobile.value).None? {
      errors := errors + [FieldError("sites.contactMobile", "invalid")];
    }
  }

  /** The per-site loop: errors for bad fields and duplicates, and the sites kept. */
  method CheckEach(submissions: seq<SiteSubmission>, fold: Fold, normalise: Normalise)
    returns (errors: seq<FieldError>, sites: seq<Site>)
    ensures errors == [] <==>
              AllGood(submissions, |submissions|, normalise) && Distinct(submissions, |submissions|, fold)
    ensures errors == [] ==> sites == SitesOf(submissions, normalise)
    ensures submissions != [] ==> sites != []
  {
    errors, sites := [], [];
    var seen: set<(string, string, string)> := {};
    for n := 0 to |submissions|
      invariant seen == Fingerprints(submissions, n, fold)
      invariant errors == [] <==> AllGood(submissions, n, normalise) && Distinct(submissions, n, fold)
      invariant errors == [] ==> sites == SitesOf(submissions[..n], normalise)
      invariant n > 0 ==> sites != []
    {
      OneMoreFingerprint(submissions, n, fold);
      var s := submissions[n];
      var wrong := FieldErrors(s, normalise);
      errors := errors + wrong;
      var fingerprint := Fingerprint(s, fold);
      if fingerprint in seen {
        errors := errors + [FieldError("sites.name", "duplicate")];
      } else {
        sites := sites + [SiteOf(s, normalise)];
      }
      seen := seen + {fingerprint};
      assert errors == [] ==> sites == SitesOf(submissions[..n + 1], normalise);
    }
    assert submissions[..|submissions|] == submissions;
  }

  method ValidateSites(submissions: seq<SiteSubmission>, wanted: bool, pincode: string, fold: Fold,
                       normalise: Normalise)
    returns (errors: seq<FieldError>, sites: seq<Site>)
    ensures errors == [] <==> AcceptableSites(submissions, wanted, pincode, fold, normalise)
    ensures errors == [] ==> sites == if wanted then Promoted(SitesOf(submissions, normalise)) else []
    ensures errors == [] && wanted ==> Marked(sites) == 1
  {
    if !wanted {
      return if submissions != [] then [FieldError("sites", "not_applicable")] else [], [];
    }
    if submissions == [] {
      return [FieldError("sites", "required")], [];
    }
    if |submissions| > MAX_SITES {
      return [FieldError("sites", "too_many")], [];
    }
    errors, sites := CheckEach(submissions, fold, normalise);
    ghost var clean := errors == [];
    ghost var kept := sites;
    var marked := Marked(sites);
    if marked == 0 {
      sites := sites[0 := sites[0].(isPrimary := true)];
    } else if marked > 1 {
      errors := errors + [FieldError("sites", "multiple_primary")];
    }
    assert sites == Promoted(kept);
    if marked <= 1 {
      PromotionMarksOne(kept);
    }
    OneMarked(sites);
    var p := FirstMarked(sites);
    if sites[p].address.pincode != pincode {
      errors := errors + [FieldError("sites.0.address.pincode", "primary_mismatch")];
    }
    if clean {
      assert forall q :: OnlyPrimary(sites, q) ==> q == p;
      assert marked <= 1 ==> OnlyPrimary(sites, p);
    }
  }

  method FirstMarked(sites: seq<Site>) returns (p: nat)
    requires Marked(sites) > 0
    ensures p < |sites| && sites[p].isPrimary && forall i :: 0 <= i < p ==> !sites[i].isPrimary
  {
    NoneMarked(sites);
    p := 0;
    while !sites[p].isPrimary
      invariant p < |sites| && forall i :: 0 <= i < p ==> !sites[i].isPrimary
      decreases |sites| - p
    {
      p := p + 1;
    }
  }

  // --- storage --------------------------------------------------------------------------

  datatype SiteRow = SiteRow(customer: string, site: Site, isActive: bool)

  function Deactivated(rows: seq<SiteRow>, customer: string): (after: seq<SiteRow>)
    ensures |after| == |rows|
  {
    seq(|rows|, i requires 0 <= i < |rows| =>
      if rows[i].customer == customer then rows[i].(isActive := false, site := rows[i].site.(isPrimary := false))
      else rows[i])
  }

  function Added(customer: string, sites: seq<Site>): (rows: seq<SiteRow>)
    ensures |rows| == |sites|
  {
    seq(|sites|, i requires 0 <= i < |sites| => SiteRow(customer, sites[i], true))
  }

  /** Set a customer's sites to exactly what was submitted; the old ones stay, inactive. */
  function Replaced(rows: seq<SiteRow>, customer: string, sites: seq<Site>): seq<SiteRow> {
    Deactivated(rows, customer) + Added(customer, sites)
  }

  function ActiveSites(rows: seq<SiteRow>, customer: string): seq<Site> {
    if rows == [] then []
    else
      var last := rows[|rows| - 1];
      ActiveSites(rows[..|rows| - 1], customer) + if last.customer == customer && last.isActive then [last.site] else []
  }

  method ReplaceSites(rows: seq<SiteRow>, customer: string, sites: seq<Site>) returns (after: seq<SiteRow>)
    ensures after == Replaced(rows, customer, sites)
  {
    after := rows;
    for i := 0 to |rows|
      invariant |after| == |rows|
      invariant forall j :: 0 <= j < i ==> after[j] == Replaced(rows, customer, sites)[j]
      invariant forall j :: i <= j < |rows| ==> after[j] == rows[j]
    {
      if after[i].customer == customer {
        after := after[i := after[i].(isActive := false, site := after[i].site.(isPrimary := false))];
      }
    }
    for i := 0 to |sites|
      invariant |after| == |rows| + i
      invariant forall j :: 0 <= j < |after| ==> after[j] == Replaced(rows, customer, sites)[j]
    {
      after := after + [SiteRow(customer, sites[i], true)];
    }
  }

  lemma {:induction false} ActiveSitesAppend(a: seq<SiteRow>, b: seq<SiteRow>, customer: string)
    ensures ActiveSites(a + b, customer) == ActiveSites(a, customer) + ActiveSites(b, customer)
  {
    if b == [] {
      assert a + b == a;
    } else {
      var n := |b| - 1;
      assert (a + b)[..|a| + n] == a + b[..n];
      ActiveSitesAppend(a, b[..n], customer);
    }
  }

  lemma {:induction false} DeactivatedSites(rows: seq<SiteRow>, other: string, customer: string)
    ensures ActiveSites(Deactivated(rows, customer), other) ==
              if other == customer then [] else ActiveSites(rows, other)
  {
    if rows != [] {
      var shorter := rows[..|rows| - 1];
      DeactivatedSites(shorter, other, customer);
      assert Deactivated(rows, customer)[..|rows| - 1] == Deactivated(shorter, customer);
    }
  }

  lemma {:induction false} AddedSites(sites: seq<Site>, other: string, customer: string)
    ensures ActiveSites(Added(customer, sites), other) == if other == customer then sites else []
  {
    if sites != [] {
      var shorter := sites[..|sites| - 1];
      AddedSites(shorter, other, customer);
      assert Added(customer, sites)[..|sites| - 1] == Added(customer, shorter);
      assert sites == shorter + [sites[|sites| - 1]];
    }
  }

  /** After a replacement the customer's active sites are the submitted ones, in order, and every other
      customer's are what they were. */
  lemma ReplacingSetsActiveSites(rows: seq<SiteRow>, customer: string, sites: seq<Site>, other: string)
    ensures ActiveSites(Replaced(rows, customer, sites), other) ==
              if other == customer then sites else ActiveSites(rows, other)
  {
    ActiveSitesAppend(Deactivated(rows, customer), Added(customer, sites), other);
    DeactivatedSites(rows, other, customer);
    AddedSites(sites, other, customer);
  }
}
