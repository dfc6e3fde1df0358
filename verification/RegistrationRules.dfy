/** The rules of a registration, read off the fields they are about. */
module RegistrationRules {
  import opened Clock
  import opened Wrappers
  import opened Documents
  import opened Requirements
  import opened Sites
  import opened Registration

  // --- documents ------------------------------------------------------------------------

  /** A number is taken when a document of another of the merchant's customers that has not been replaced carries
      it. */
  lemma NumberTakenIff(rows: seq<Upload>, profile: Profile, number: string)
    ensures NumberTaken(rows, profile, number) <==>
      exists i :: 0 <= i < |rows| && rows[i].merchant == profile.merchant && rows[i].customer.Some?
                  && rows[i].customer.value != profile.id && rows[i].supersededAt.None?
                  && rows[i].number == Some(number)
  {
    if u :| u in rows && Clashes(u, profile, number) {
      var i :| 0 <= i < |rows| && rows[i] == u;
      assert rows[i].number == Some(number);
    }
    if i :| 0 <= i < |rows| && Clashes(rows[i], profile, number) {
      assert rows[i] in rows;
    }
  }

  /** A submission stands for a document exactly when its number passes the check and its file is an upload of this
      type that is still staged and that the actor may use: a customer their own, staff one of their merchant. */
  lemma ResolveIff(rows: seq<Upload>, actor: Actor, check: NumberCheck, s: Submission, d: Document)
    requires DistinctFiles(rows)
    ensures Resolve(rows, actor, check, s) == Some(d) <==>
      && d.kind == s.kind && check(s.kind, s.number) == Some(d.number) && s.uploadId == Some(d.fileId) && d.fileId != ""
      && exists u :: u in rows && u.fileId == d.fileId && u.kind == d.kind && u.finalizedAt.None?
                     && (if actor.Customer? then u.owner == actor.userId
                         else actor.merchant.Some? && u.merchant == actor.merchant)
  {
    if s.uploadId.Some? {
      AttachableIff(rows, actor, s.uploadId.value, s.kind);
    }
  }

  /** Of several submissions of one type the last counts. */
  lemma {:induction false} LastSubmissionCounts(submissions: seq<Submission>, i: nat)
    requires i < |submissions|
    requires forall j :: i < j < |submissions| ==> submissions[j].kind != submissions[i].kind
    ensures submissions[i].kind in Supplied(submissions) && Supplied(submissions)[submissions[i].kind] == submissions[i]
  {
    if i < |submissions| - 1 {
      LastSubmissionCounts(submissions[..|submissions| - 1], i);
    }
  }

  /** Linking a document makes its file the customer's newest of that type, one version above the newest so far,
      replaces the ones that were current, and leaves everything else alone. */
  lemma LinkedByRow(rows: seq<Upload>, profile: Profile, d: Document, now: Micros, i: nat)
    requires i < |rows|
    ensures
      var before, after := rows[i], Linked(rows, profile, d, now)[i];
      if before.fileId == d.fileId then
        after == before.(customer := Some(profile.id), merchant := profile.merchant, number := Some(d.number),
                         finalizedAt := Some(now), version := after.version)
      else if before.customer == Some(profile.id) && before.finalizedAt.Some? && before.supersededAt.None?
              && before.kind == d.kind then
        after == before.(supersededAt := Some(now), supersededBy := Some(d.fileId))
      else after == before
  {
  }

  lemma {:induction false} HighestIsReached(rows: seq<Upload>, c: string, kind: string, file: FileId)
    ensures var highest := HighestPrevious(rows, c, kind, file);
            && (forall j :: 0 <= j < |rows| && IsPrevious(rows[j], c, kind, file) ==>
                  Max(rows[j].version, 1) <= highest)
            && (highest > 0 ==>
                  exists j :: 0 <= j < |rows| && IsPrevious(rows[j], c, kind, file)
                              && Max(rows[j].version, 1) == highest)
  {
    if rows != [] {
      var n := |rows| - 1;
      assert forall j :: 0 <= j < n ==> rows[j] == rows[..n][j];
      HighestIsReached(rows[..n], c, kind, file);
    }
  }

  lemma LinkedVersion(rows: seq<Upload>, profile: Profile, d: Document, now: Micros, i: nat)
    requires i < |rows| && rows[i].fileId == d.fileId
    ensures
      var previous := set j | 0 <= j < |rows| && rows[j].customer == Some(profile.id) && rows[j].finalizedAt.Some?
                              && rows[j].supersededAt.None? && rows[j].kind == d.kind && rows[j].fileId != d.fileId;
      var version := Linked(rows, profile, d, now)[i].version;
      if previous == {} then version == rows[i].version
      else && (forall j :: j in previous ==> version > Max(rows[j].version, 1))
           && (exists j :: j in previous && version == Max(rows[j].version, 1) + 1)
  {
    HighestIsReached(rows, profile.id, d.kind, d.fileId);
    var previous := set j | 0 <= j < |rows| && rows[j].customer == Some(profile.id) && rows[j].finalizedAt.Some?
                            && rows[j].supersededAt.None? && rows[j].kind == d.kind && rows[j].fileId != d.fileId;
    assert forall j :: 0 <= j < |rows| ==> (j in previous <==> IsPrevious(rows[j], profile.id, d.kind, d.fileId));
    if previous != {} {
      var j :| j in previous;
      assert Max(rows[j].version, 1) <= HighestPrevious(rows, profile.id, d.kind, d.fileId);
    }
  }

  // --- the catalogue's rules ------------------------------------------------------------

  predicate Blank(group: Option<string>) {
    group.None? || group.value == ""
  }

  /** Rules without a group form the group DEFAULT. */
  predicate SameGroup(q: Rule, r: Rule) {
    if Blank(q.group) then Blank(r.group) || r.group.value == "DEFAULT"
    else if Blank(r.group) then q.group.value == "DEFAULT"
    else q.group.value == r.group.value
  }

  /** The types at hand that count for the group of a rule. */
  function InGroup(rules: seq<Rule>, r: Rule, have: set<string>): set<string> {
    set q | q in rules && q.mode == "ANY_OF" && SameGroup(q, r) && q.code in have :: q.code
  }

  /** The rules are met exactly when every required type is there, and every rule of a group finds as many types of
      its group as it asks for, which is one when it asks for none. */
  lemma MeetsIff(rules: seq<Rule>, have: set<string>)
    ensures Meets(rules, have) <==>
      && (forall r :: r in rules && r.mode == "REQUIRED" ==> r.code in have)
      && (forall r :: r in rules && r.mode == "ANY_OF" ==>
            |InGroup(rules, r, have)| >= if r.minRequired == 0 then 1 else r.minRequired)
  {
    forall r | r in rules
      ensures InGroup(rules, r, have) == GroupCodes(rules, GroupOf(r)) * have
    {
      GroupIsItsRules(rules, r, have);
    }
    RequiredIff(rules, have);
  }

  lemma GroupIsItsRules(rules: seq<Rule>, r: Rule, have: set<string>)
    ensures InGroup(rules, r, have) == GroupCodes(rules, GroupOf(r)) * have
  {
    assert forall q :: SameGroup(q, r) <==> GroupOf(q) == GroupOf(r);
  }

  lemma RequiredIff(rules: seq<Rule>, have: set<string>)
    ensures Required(rules) <= have <==> forall r :: r in rules && r.mode == "REQUIRED" ==> r.code in have
  {
    if Required(rules) <= have {
      forall r | r in rules && r.mode == "REQUIRED"
        ensures r.code in have
      {
        assert r.code in Required(rules);
      }
    }
  }

  lemma NothingIsMissingIff(p: CustomerProfile)
    ensures MissingFields(p) == [] <==>
      && p.name != "" && p.customerType != "" && p.merchantCode != ""
      && (|| (p.ownerName == "" && p.address.line1 == "")
          || (&& p.ownerName != "" && p.address.line1 != "" && p.address.city != "" && p.address.state != ""
              && p.address.pincode != ""))
  {
    if MissingFields(p) != [] {
      assert MissingFields(p)[0] in MissingFields(p);
    }
    if p.name == "" {
      assert "businessName" in MissingFields(p);
    } else if p.customerType == "" {
      assert "customerType" in MissingFields(p);
    } else if p.merchantCode == "" {
      assert "merchantCode" in MissingFields(p);
    } else if OnFullContract(p) {
      FullContractIff(p);
    }
  }

  lemma FullContractIff(p: CustomerProfile)
    requires OnFullContract(p) && p.name != "" && p.customerType != "" && p.merchantCode != ""
    ensures MissingFields(p) == [] <==>
      && p.ownerName != "" && p.address.line1 != "" && p.address.city != "" && p.address.state != ""
      && p.address.pincode != ""
  {
    if p.ownerName == "" {
      assert "ownerName" in MissingFields(p);
    } else if p.address.line1 == "" {
      assert "deliveryAddress.line1" in MissingFields(p);
    } else if p.address.city == "" {
      assert "deliveryAddress.city" in MissingFields(p);
    } else if p.address.state == "" {
      assert "deliveryAddress.state" in MissingFields(p);
    } else if p.address.pincode == "" {
      assert "deliveryAddress.pincode" in MissingFields(p);
    }
  }

  lemma OnePrimaryIff(sites: seq<Site>)
    ensures Marked(sites) == 1 <==>
      exists i :: 0 <= i < |sites| && sites[i].isPrimary
                  && forall j :: 0 <= j < |sites| && j != i ==> !sites[j].isPrimary
  {
    OneMarked(sites);
    if i: nat :| OnlyPrimary(sites, i) {
      assert sites[i].isPrimary;
    }
    if i :| 0 <= i < |sites| && sites[i].isPrimary && forall j :: 0 <= j < |sites| && j != i ==> !sites[j].isPrimary {
      assert OnlyPrimary(sites, i);
    }
  }

  /** A stored registration may go to review exactly when name, type and merchant code are filled in, the type is
      active, and, as soon as there is an owner's name or an address, those are complete, the type's documents are
      there, and exactly one site is primary if the type needs sites. */
  lemma SubmittableIff(p: CustomerProfile, kinds: set<string>, sites: seq<Site>, catalogue: Catalogue)
    ensures Submittable(p, kinds, sites, catalogue) <==>
      && p.name != "" && p.customerType != "" && p.merchantCode != ""
      && p.customerType in catalogue && catalogue[p.customerType].isActive
      && (|| (p.ownerName == "" && p.address.line1 == "")
          || (&& p.ownerName != "" && p.address.line1 != "" && p.address.city != "" && p.address.state != ""
              && p.address.pincode != "" && Meets(catalogue[p.customerType].rules, kinds)
              && (catalogue[p.customerType].requiresSites ==>
                    exists i :: 0 <= i < |sites| && sites[i].isPrimary
                                && forall j :: 0 <= j < |sites| && j != i ==> !sites[j].isPrimary)))
  {
    NothingIsMissingIff(p);
    OnePrimaryIff(sites);
  }

  /** The account workflow, as pairs. */
  lemma WorkflowIsThesePairs(from: Status, to: Status)
    ensures CanMove(from, to) <==>
      (from, to) in {(PROFILE_INCOMPLETE, UNDER_REVIEW), (DOCUMENTS_PENDING, UNDER_REVIEW), (REJECTED, UNDER_REVIEW),
                     (UNDER_REVIEW, APPROVED), (UNDER_REVIEW, Status.REJECTED), (APPROVED, SUSPENDED),
                     (SUSPENDED, APPROVED)}
  {
  }

  // --- delivery sites -------------------------------------------------------------------

  /** A pincode of six digits, the first not zero, and no empty line. */
  predicate IsCompleteAddress(a: Address) {
    && a.line1 != "" && a.city != "" && a.state != "" && |a.pincode| == 6 && a.pincode[0] != '0'
    && forall i :: 0 <= i < 6 ==> '0' <= a.pincode[i] <= '9'
  }

  /** A name of 2 to 160 characters, a complete address, and a mobile that can be read, if there is one. */
  predicate IsCompleteSite(s: SiteSubmission, normalise: Normalise) {
    && 2 <= |s.name| <= 160 && IsCompleteAddress(s.address)
    && (s.contactMobile.None? || s.contactMobile.value == "" || normalise(s.contactMobile.value).Some?)
  }

  /** The site orders go to by default: the one that is marked, or the first when none is. */
  predicate IsMain(submissions: seq<SiteSubmission>, p: nat) {
    && p < |submissions|
    && (submissions[p].isPrimary || p == 0)
    && forall i :: 0 <= i < |submissions| && i != p ==> !submissions[i].isPrimary
  }

  /** Sites are acceptable exactly when there are none where none are wanted; or else 1 to 25 of them, each complete, no
      two with the same name at the same place, at most one marked as primary, and the primary one, or the first when
      none is marked, where the customer is. */
  lemma SitesAreAcceptableIff(submissions: seq<SiteSubmission>, wanted: bool, pincode: string, fold: Fold,
                              normalise: Normalise)
    ensures AcceptableSites(submissions, wanted, pincode, fold, normalise) <==>
      if !wanted then submissions == []
      else
        && 1 <= |submissions| <= 25
        && (forall i :: 0 <= i < |submissions| ==> IsCompleteSite(submissions[i], normalise))
        && (forall i, j :: 0 <= i < j < |submissions| ==>
              || fold(submissions[i].name) != fold(submissions[j].name)
              || fold(submissions[i].address.line1) != fold(submissions[j].address.line1)
              || submissions[i].address.pincode != submissions[j].address.pincode)
        && (exists p: nat :: IsMain(submissions, p) && submissions[p].address.pincode == pincode)
  {
    if submissions != [] {
      forall p: nat
        ensures IsMain(submissions, p) <==> OnlyPrimary(Promoted(SitesOf(submissions, normalise)), p)
      {
        MainIsPrimary(submissions, normalise, p);
      }
    }
    assert forall s :: IsGood(s, normalise) <==> IsCompleteSite(s, normalise);
    DistinctIff(submissions, fold);
  }

  lemma DistinctIff(submissions: seq<SiteSubmission>, fold: Fold)
    ensures Distinct(submissions, |submissions|, fold) <==>
      forall i, j :: 0 <= i < j < |submissions| ==>
        || fold(submissions[i].name) != fold(submissions[j].name)
        || fold(submissions[i].address.line1) != fold(submissions[j].address.line1)
        || submissions[i].address.pincode != submissions[j].address.pincode
  {
  }

  lemma MainIsPrimary(submissions: seq<SiteSubmission>, normalise: Normalise, p: nat)
    requires submissions != []
    ensures IsMain(submissions, p) <==> OnlyPrimary(Promoted(SitesOf(submissions, normalise)), p)
  {
    var sites := SitesOf(submissions, normalise);
    NoneMarked(sites);
    assert forall i :: 0 <= i < |sites| ==> sites[i].isPrimary == submissions[i].isPrimary;
    if IsMain(submissions, p) && !submissions[p].isPrimary {
      assert Marked(sites) == 0;
    }
  }

  /** What is stored of a submitted site: its name and address, its contact where one is given, and whether it is the
      main one. */
  lemma StoredSiteByField(submissions: seq<SiteSubmission>, normalise: Normalise, i: nat)
    requires i < |submissions|
    ensures var s, site := submissions[i], Promoted(SitesOf(submissions, normalise))[i];
            && site.name == s.name && site.address == s.address
            && site.contactName == (if s.contactName == Some("") then None else s.contactName)
            && site.contactMobile == (if s.contactMobile.Some? && s.contactMobile.value != ""
                                      then normalise(s.contactMobile.value) else None)
            && (site.isPrimary <==> s.isPrimary || (i == 0 && forall j :: 0 <= j < |submissions| ==>
                                                              !submissions[j].isPrimary))
  {
    var sites := SitesOf(submissions, normalise);
    NoneMarked(sites);
    assert forall j :: 0 <= j < |sites| ==> sites[j].isPrimary == submissions[j].isPrimary;
  }

  /** A replacement keeps a customer's earlier sites as inactive rows that are no longer primary, leaves the other
      customers' rows alone, and adds the new sites as active ones. */
  lemma ReplacedByRow(rows: seq<SiteRow>, customer: string, sites: seq<Site>, i: nat)
    requires i < |rows| + |sites|
    ensures var after := Replaced(rows, customer, sites);
            && |after| == |rows| + |sites|
            && (i < |rows| && rows[i].customer != customer ==> after[i] == rows[i])
            && (i < |rows| && rows[i].customer == customer ==>
                  && after[i].customer == customer && !after[i].isActive && !after[i].site.isPrimary
                  && after[i].site.name == rows[i].site.name && after[i].site.address == rows[i].site.address)
            && (i >= |rows| ==>
                  after[i].customer == customer && after[i].isActive && after[i].site == sites[i - |rows|])
  {
  }

  // --- applications ---------------------------------------------------------------------

  /** Sending to review finds the customer's pending application, or opens one under the new id in the name of whoever
      submits. */
  lemma ApplicationIsFoundOrOpened(applications: seq<Application>, c: CustomerId, newId: string, submittedBy: string)
    ensures var after := WithPending(applications, c, newId, submittedBy);
            if exists i :: 0 <= i < |applications| && applications[i].customer == c && applications[i].pending
            then after == applications
            else
              && |after| == |applications| + 1 && after[..|applications|] == applications
              && after[|applications|].id == newId && after[|applications|].customer == c
              && after[|applications|].pending && after[|applications|].submittedBy == submittedBy
  {
    if i :| 0 <= i < |applications| && applications[i].customer == c && applications[i].pending {
      assert applications[i] in applications;
    }
  }

  // --- the request as a whole -----------------------------------------------------------

  lemma AddressIsCompleteIff(a: Address)
    ensures IsAddress(a) <==> IsCompleteAddress(a)
  {
  }

  /** The rules know every type that was supplied. */
  ghost predicate AllKnown(rules: seq<Rule>, supplied: map<string, Submission>) {
    forall kind :: kind in supplied ==> exists rule :: rule in rules && rule.code == kind
  }

  lemma KnownIff(rules: seq<Rule>, supplied: map<string, Submission>)
    ensures supplied.Keys <= Codes(rules) <==> AllKnown(rules, supplied)
  {
    if AllKnown(rules, supplied) {
      forall kind | kind in supplied
        ensures kind in Codes(rules)
      {
        var rule :| rule in rules && rule.code == kind;
      }
    }
  }

  /** Documents are acceptable exactly when the rules know every type supplied, each stands for a document, and, if they
      must be, the rules are met. */
  lemma DocumentsAreAcceptableIff(rules: seq<Rule>, submissions: seq<Submission>, rows: seq<Upload>, actor: Actor,
                                  check: NumberCheck, require: bool)
    ensures var supplied := Supplied(submissions);
            Acceptable(rules, submissions, rows, actor, check, require) <==>
              && AllKnown(rules, supplied)
              && (forall kind :: kind in supplied ==> Resolve(rows, actor, check, supplied[kind]).Some?)
              && (require ==> Meets(rules, supplied.Keys))
  {
    KnownIff(rules, Supplied(submissions));
  }

  /** A request is good exactly when its type is active, the business and the owner have names of 2 to 160 characters,
      the address is complete, and its documents and sites are acceptable under the rules of its type. */
  lemma RequestIsGoodIff(r: Request, catalogue: Catalogue, rows: seq<Upload>, actor: Actor, lib: Library,
                         requireDocuments: bool)
    ensures GoodRequest(r, catalogue, rows, actor, lib, requireDocuments) <==>
      && r.customerType in catalogue && catalogue[r.customerType].isActive
      && 2 <= |r.businessName| <= 160 && 2 <= |r.ownerName| <= 160 && IsCompleteAddress(r.address)
      && Acceptable(catalogue[r.customerType].rules, r.documents, rows, actor, lib.checkNumber, requireDocuments)
      && AcceptableSites(r.sites, catalogue[r.customerType].requiresSites, r.address.pincode, lib.fold, lib.normalise)
  {
    AddressIsCompleteIff(r.address);
  }
}
