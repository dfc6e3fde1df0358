/** Registering a customer: by staff in one go, or by the customer through saves and a submit.

    Ids are drawn at random and codes allocated elsewhere; both are inputs. A request that fails is
    rolled back as a whole. */
module Registration {
  import opened Clock
  import opened Wrappers
  import opened Documents
  import opened DocumentHistory
  import opened Requirements
  import opened Sites

  datatype Status = PROFILE_INCOMPLETE | DOCUMENTS_PENDING | UNDER_REVIEW | APPROVED | REJECTED | SUSPENDED

  predicate Editable(status: Status) {
    status in {PROFILE_INCOMPLETE, DOCUMENTS_PENDING, REJECTED}
  }

  /** The moves the account workflow allows. */
  predicate CanMove(from: Status, to: Status) {
    match from
    case PROFILE_INCOMPLETE => to == UNDER_REVIEW
    case DOCUMENTS_PENDING => to == UNDER_REVIEW
    case UNDER_REVIEW => to == APPROVED || to == REJECTED
    case REJECTED => to == UNDER_REVIEW
    case APPROVED => to == SUSPENDED
    case SUSPENDED => to == APPROVED
  }

  datatype CustomerProfile = CustomerProfile(
    merchantId: Option<string>, merchantCode: string, mobile: string,
    customerType: string, name: string, ownerName: string, address: Address, status: Status, code: Option<string>)

  datatype TypeDefinition = TypeDefinition(isActive: bool, requiresSites: bool, rules: seq<Rule>)

  type Catalogue = map<string, TypeDefinition>

  datatype Request = Request(customerType: string, businessName: string, ownerName: string, address: Address,
                             documents: seq<Submission>, sites: seq<SiteSubmission>, mobile: Option<string>)

  datatype Application = Application(id: string, customer: CustomerId, pending: bool, submittedBy: string)

  datatype Outcome =
    | Done(application: Application)
    | Saved
    | Rejected(code: string)

  /** The library functions validation relies on. */
  datatype Library = Library(checkNumber: NumberCheck, fold: Fold, normalise: Normalise)

  /** Codes are non-empty and a type has at most one rule per document, as the catalogue's schema and
      unique constraint demand. */
  ghost predicate SoundCatalogue(catalogue: Catalogue) {
    "" !in catalogue && forall kind :: kind in catalogue ==> DistinctCodes(catalogue[kind].rules)
  }

  // --- the stored check -----------------------------------------------------------------

  /** Only an owner's name or an address could have come through the full contract. */
  predicate OnFullContract(p: CustomerProfile) {
    p.ownerName != "" || p.address.line1 != ""
  }

  function MissingFields(p: CustomerProfile): seq<string> {
    var named := (if p.name == "" then ["businessName"] else [])
               + (if p.customerType == "" then ["customerType"] else [])
               + (if p.merchantCode == "" then ["merchantCode"] else []);
    if !OnFullContract(p) then named
    else named + (if p.ownerName == "" then ["ownerName"] else [])
               + (if p.address.line1 == "" then ["deliveryAddress.line1"] else [])
               + (if p.address.city == "" then ["deliveryAddress.city"] else [])
               + (if p.address.state == "" then ["deliveryAddress.state"] else [])
               + (if p.address.pincode == "" then ["deliveryAddress.pincode"] else [])
  }

  /** A stored registration that may go to review. */
  ghost predicate Submittable(p: CustomerProfile, kinds: set<string>, sites: seq<Site>, catalogue: Catalogue) {
    && MissingFields(p) == []
    && p.customerType in catalogue && catalogue[p.customerType].isActive
    && (OnFullContract(p) ==> Meets(catalogue[p.customerType].rules, kinds))
    && (catalogue[p.customerType].requiresSites && OnFullContract(p) ==> Marked(sites) == 1)
  }

  method RequireSubmittable(p: CustomerProfile, kinds: set<string>, sites: seq<Site>, catalogue: Catalogue)
    returns (error: Option<string>)
    ensures error.None? <==> Submittable(p, kinds, sites, catalogue)
  {
    var missing := MissingFields(p);
    if OnFullContract(p) && p.customerType != "" {
      if p.customerType !in catalogue {
        return Some("CUSTOMER_TYPE_NOT_FOUND");
      }
      if !catalogue[p.customerType].isActive {
        return Some("CUSTOMER_TYPE_INACTIVE");
      }
      var documents, groups := MissingDocuments(catalogue[p.customerType].rules, kinds);
      if documents != {} || groups != {} {
        return Some("REGISTRATION_INCOMPLETE");
      }
    }
    if missing != [] {
      return Some("REGISTRATION_INCOMPLETE");
    }
    if p.customerType !in catalogue {
      return Some("CUSTOMER_TYPE_NOT_FOUND");
    }
    if !catalogue[p.customerType].isActive {
      return Some("CUSTOMER_TYPE_INACTIVE");
    }
    if catalogue[p.customerType].requiresSites && OnFullContract(p) && Marked(sites) != 1 {
      return Some("REGISTRATION_INCOMPLETE");
    }
    return None;
  }

  // --- applications ---------------------------------------------------------------------

  ghost predicate OnePendingEach(applications: seq<Application>) {
    forall i, j :: 0 <= i < j < |applications| && applications[i].customer == applications[j].customer ==>
      !applications[i].pending || !applications[j].pending
  }

  ghost predicate HasPending(applications: seq<Application>, c: CustomerId) {
    exists a :: a in applications && a.customer == c && a.pending
  }

  /** The applications with a pending one for this customer: the one that is open, or else a new one. */
  ghost function WithPending(applications: seq<Application>, c: CustomerId, newId: string, submittedBy: string)
    : seq<Application>
  {
    if HasPending(applications, c) then applications else applications + [Application(newId, c, true, submittedBy)]
  }

  /** The customer's pending application, or a new one when none is open. */
  method OpenApplication(applications: seq<Application>, c: CustomerId, submittedBy: string, newId: string)
    returns (after: seq<Application>, application: Application)
    requires OnePendingEach(applications)
    ensures OnePendingEach(after)
    ensures application in after && application.customer == c && application.pending
    ensures after == WithPending(applications, c, newId, submittedBy)
    ensures forall a :: a in after && a.customer == c && a.pending ==> a == application
  {
    for i := 0 to |applications|
      invariant forall j :: 0 <= j < i ==> !(applications[j].customer == c && applications[j].pending)
    {
      if applications[i].customer == c && applications[i].pending {
        assert applications[i] in applications;
        return applications, applications[i];
      }
    }
    application := Application(newId, c, true, submittedBy);
    after := applications + [application];
    assert after[|applications|] == application;
  }

  // --- validation -----------------------------------------------------------------------

  /** What a request must be to register a customer of an active type. */
  ghost predicate GoodRequest(r: Request, catalogue: Catalogue, rows: seq<Upload>, actor: Actor, lib: Library,
                              requireDocuments: bool) {
    && r.customerType in catalogue && catalogue[r.customerType].isActive
    && IsName(r.businessName) && IsName(r.ownerName) && IsAddress(r.address)
    && Acceptable(catalogue[r.customerType].rules, r.documents, rows, actor, lib.checkNumber, requireDocuments)
    && AcceptableSites(r.sites, catalogue[r.customerType].requiresSites, r.address.pincode, lib.fold, lib.normalise)
  }

  /** The mobile a request names, if it names one that can be read. */
  function MobileOf(r: Request, lib: Library): Option<string> {
    if r.mobile.None? || r.mobile.value == "" then None else lib.normalise(r.mobile.value)
  }

  /** The codes a merchant can be created with. */
  predicate IsMerchantCode(code: string) {
    2 <= |code| <= 80
  }

  /** The sites a good request leaves behind. */
  function StoredSites(r: Request, catalogue: Catalogue, lib: Library): seq<Site>
    requires r.customerType in catalogue && (catalogue[r.customerType].requiresSites ==> r.sites != [])
  {
    if catalogue[r.customerType].requiresSites then Promoted(SitesOf(r.sites, lib.normalise)) else []
  }

  /** No submitted number is already registered with another of the merchant's customers. */
  ghost predicate NumbersAreFree(r: Request, rows: seq<Upload>, actor: Actor, lib: Library, profile: Profile) {
    forall kind :: kind in Supplied(r.documents) ==>
      var d := Resolve(rows, actor, lib.checkNumber, Supplied(r.documents)[kind]);
      d.Some? ==> !NumberTaken(rows, profile, d.value.number)
  }

  lemma FreeMeansUnique(r: Request, rules: seq<Rule>, rows: seq<Upload>, actor: Actor, lib: Library, profile: Profile,
                        documents: seq<Document>)
    requires ResolvedFrom(rules, Supplied(r.documents), rows, actor, lib.checkNumber, documents)
    requires Kinds(documents) == Supplied(r.documents).Keys
    ensures NumbersAreFree(r, rows, actor, lib, profile) <==> NumbersAreUnique(rows, profile, documents)
  {
    if NumbersAreUnique(rows, profile, documents) {
      forall kind | kind in Supplied(r.documents)
        ensures var d := Resolve(rows, actor, lib.checkNumber, Supplied(r.documents)[kind]);
                d.Some? ==> !NumberTaken(rows, profile, d.value.number)
      {
        assert kind in Kinds(documents);
        var d :| d in documents && d.kind == kind;
      }
    }
  }

  method Validate(r: Request, catalogue: Catalogue, rows: seq<Upload>, actor: Actor, lib: Library,
                  requireDocuments: bool)
    returns (error: Option<string>, documents: seq<Document>, sites: seq<Site>)
    requires SoundCatalogue(catalogue)
    ensures error.None? <==> GoodRequest(r, catalogue, rows, actor, lib, requireDocuments)
    ensures error.None? ==> Attached(rows, documents) && Kinds(documents) == Supplied(r.documents).Keys
    ensures error.None? ==> ResolvedFrom(catalogue[r.customerType].rules, Supplied(r.documents), rows, actor,
                                         lib.checkNumber, documents)
    ensures error.None? ==> sites == StoredSites(r, catalogue, lib)
    ensures error.None? && catalogue[r.customerType].requiresSites ==> Marked(sites) == 1
  {
    documents, sites := [], [];
    if r.customerType !in catalogue {
      return Some("CUSTOMER_TYPE_NOT_FOUND"), [], [];
    }
    var definition := catalogue[r.customerType];
    if !definition.isActive {
      return Some("CUSTOMER_TYPE_INACTIVE"), [], [];
    }
    var errors := [];
    if !IsName(r.businessName) {
      errors := errors + [FieldError("businessName", "invalid")];
    }
    if !IsName(r.ownerName) {
      errors := errors + [FieldError("ownerName", "invalid")];
    }
    if !IsAddress(r.address) {
      errors := errors + [FieldError("deliveryAddress", "invalid")];
    }
    var wrong;
    wrong, documents := ValidateDocuments(definition.rules, r.documents, rows, actor, lib.checkNumber,
                                          requireDocuments);
    errors := errors + wrong;
    if wrong == [] {
      ResolvedIsAttached(definition.rules, Supplied(r.documents), rows, actor, lib.checkNumber, documents);
    }
    wrong, sites := ValidateSites(r.sites, definition.requiresSites, r.address.pincode, lib.fold, lib.normalise);
    errors := errors + wrong;
    error := if errors == [] then None else Some("VALIDATION_ERROR");
  }

  /** One step of the document history: an attached, unclaimed list of documents is linked. */
  ghost predicate IsSave(before: seq<Upload>, after: seq<Upload>, profile: Profile, documents: seq<Document>,
                         now: Micros) {
    && Attached(before, documents) && NumbersAreUnique(before, profile, documents)
    && after == LinkedAll(before, profile, documents, now)
  }

  /** What the service writes is a step of a legal run of the document history, so all that is proved of those
      runs holds of the service. */
  lemma SaveIsOneStep(before: seq<Upload>, after: seq<Upload>, profile: Profile, documents: seq<Document>, now: Micros)
    requires IsSave(before, after, profile, documents, now)
    ensures LegalRun(before, [Save(profile, documents, now)])
    ensures Run(before, [Save(profile, documents, now)]) == after
  {
    assert [Save(profile, documents, now)][1..] == [];
  }

  // --- the service ----------------------------------------------------------------------

  class RegistrationService {
    const ledger: DocumentLedger
    const catalogue: Catalogue
    const library: Library
    var profiles: map<CustomerId, CustomerProfile>
    var siteRows: seq<SiteRow>
    var applications: seq<Application>

    constructor (catalogue: Catalogue, library: Library, ledger: DocumentLedger)
      requires SoundCatalogue(catalogue) && Inv(ledger.rows)
      requires forall u :: u in ledger.rows ==> u.customer.None?
      ensures Valid() && profiles == map[] && this.ledger == ledger
    {
      this.catalogue, this.library, this.ledger := catalogue, library, ledger;
      profiles, siteRows, applications := map[], [], [];
    }

    ghost predicate Valid()
      reads this, ledger
    {
      && SoundCatalogue(catalogue) && Inv(ledger.rows) && OnePendingEach(applications)
      && (forall u :: u in ledger.rows && u.customer.Some? ==> u.customer.value in profiles)
    }

    /** Whether the stored registration of a customer may go to review. */
    ghost predicate Ready(c: CustomerId)
      requires c in profiles
      reads this, ledger
    {
      Submittable(profiles[c], CurrentKinds(ledger.rows, c), ActiveSites(siteRows, c), catalogue)
    }

    /** The documents of a good request have been resolved and linked, and nothing else has happened to the
        uploads. */
    ghost predicate SavesRequest(r: Request, actor: Actor, before: seq<Upload>, after: seq<Upload>, profile: Profile,
                                 now: Micros)
      requires r.customerType in catalogue
    {
      exists documents ::
        && ResolvedFrom(catalogue[r.customerType].rules, Supplied(r.documents), before, actor, library.checkNumber,
                        documents)
        && Kinds(documents) == Supplied(r.documents).Keys
        && IsSave(before, after, profile, documents, now)
    }

    /** Link documents and replace sites, unless a number is taken. */
    method WriteDocumentsAndSites(c: CustomerId, documents: seq<Document>, sites: seq<Site>, now: Micros)
      returns (clash: bool)
      requires Valid() && c in profiles && Attached(ledger.rows, documents)
      modifies this`siteRows, ledger
      ensures Valid()
      ensures clash <==> !NumbersAreUnique(old(ledger.rows), Profile(c, profiles[c].merchantId), documents)
      ensures clash ==> ledger.rows == old(ledger.rows) && siteRows == old(siteRows)
      ensures !clash ==>
        && ledger.rows == LinkedAll(old(ledger.rows), Profile(c, profiles[c].merchantId), documents, now)
        && siteRows == Replaced(old(siteRows), c, sites)
        && Continues(old(ledger.rows), ledger.rows)
        && CurrentKinds(ledger.rows, c) == old(CurrentKinds(ledger.rows, c)) + Kinds(documents)
        && ActiveSites(siteRows, c) == sites
        && forall other :: other != c ==>
             && CurrentKinds(ledger.rows, other) == old(CurrentKinds(ledger.rows, other))
             && ActiveSites(siteRows, other) == old(ActiveSites(siteRows, other))
    {
      var profile := Profile(c, profiles[c].merchantId);
      var clashes := ledger.EnsureNumbersAreUnique(profile, documents);
      if clashes != [] {
        return true;
      }
      ghost var before := ledger.rows;
      ghost var sitesBefore := siteRows;
      SaveKeepsInv(before, profile, documents, now, |documents|);
      assert documents[..|documents|] == documents;
      ledger.LinkDocuments(profile, documents, now);
      forall other
        ensures CurrentKinds(ledger.rows, other) ==
                  CurrentKinds(before, other) + if other == c then Kinds(documents) else {}
      {
        SavedKinds(before, profile, documents, now, other, |documents|);
      }
      LinkedCustomers(before, profile, documents, now);
      siteRows := ReplaceSites(siteRows, c, sites);
      forall other
        ensures ActiveSites(siteRows, other) == if other == c then sites else ActiveSites(sitesBefore, other)
      {
        ReplacingSetsActiveSites(sitesBefore, c, sites, other);
      }
      return false;
    }

    /** Set the review status and open an application. */
    method SendToReview(c: CustomerId, applicationId: string, submittedBy: string) returns (application: Application)
      requires Valid() && c in profiles && CanMove(profiles[c].status, UNDER_REVIEW)
      modifies this`profiles, this`applications
      ensures Valid()
      ensures profiles == old(profiles)[c := old(profiles)[c].(status := UNDER_REVIEW)]
      ensures applications == WithPending(old(applications), c, applicationId, submittedBy)
      ensures application in applications && application.customer == c && application.pending
    {
      profiles := profiles[c := profiles[c].(status := UNDER_REVIEW)];
      applications, application := OpenApplication(applications, c, submittedBy, applicationId);
    }

    /** Write a validated new profile with its documents and sites, or nothing when a number is taken. */
    method AddProfile(p: CustomerProfile, documents: seq<Document>, sites: seq<Site>, newId: CustomerId, now: Micros)
      returns (clash: bool)
      requires Valid() && newId !in profiles && Attached(ledger.rows, documents)
      modifies this`profiles, this`siteRows, ledger
      ensures Valid()
      ensures clash <==> !NumbersAreUnique(old(ledger.rows), Profile(newId, p.merchantId), documents)
      ensures clash ==> profiles == old(profiles) && siteRows == old(siteRows) && ledger.rows == old(ledger.rows)
      ensures !clash ==>
        && profiles == old(profiles)[newId := p]
        && ledger.rows == LinkedAll(old(ledger.rows), Profile(newId, p.merchantId), documents, now)
        && CurrentKinds(ledger.rows, newId) == Kinds(documents)
        && ActiveSites(siteRows, newId) == sites
        && forall other :: other != newId ==>
             && CurrentKinds(ledger.rows, other) == old(CurrentKinds(ledger.rows, other))
             && ActiveSites(siteRows, other) == old(ActiveSites(siteRows, other))
    {
      NobodyHasNothing(ledger.rows, newId, profiles.Keys);
      var saved := profiles;
      profiles := profiles[newId := p];
      clash := WriteDocumentsAndSites(newId, documents, sites, now);
      if clash {
        profiles := saved;
      }
    }

    /** Write a validated new customer: profile, documents, sites, review status and application. */
    method StoreCustomer(p: CustomerProfile, documents: seq<Document>, sites: seq<Site>, newId: CustomerId,
                         applicationId: string, submittedBy: string, now: Micros)
      returns (outcome: Outcome)
      requires Valid() && newId !in profiles && Attached(ledger.rows, documents) && p.status == PROFILE_INCOMPLETE
      modifies this`profiles, this`siteRows, this`applications, ledger
      ensures Valid()
      ensures outcome.Done? <==> NumbersAreUnique(old(ledger.rows), Profile(newId, p.merchantId), documents)
      ensures !outcome.Done? ==> outcome.Rejected? && profiles == old(profiles) && siteRows == old(siteRows)
                                 && applications == old(applications) && ledger.rows == old(ledger.rows)
      ensures outcome.Done? ==>
        && profiles == old(profiles)[newId := p.(status := UNDER_REVIEW)]
        && applications == WithPending(old(applications), newId, applicationId, submittedBy)
        && outcome.application in applications && outcome.application.customer == newId && outcome.application.pending
        && ledger.rows == LinkedAll(old(ledger.rows), Profile(newId, p.merchantId), documents, now)
        && CurrentKinds(ledger.rows, newId) == Kinds(documents)
        && ActiveSites(siteRows, newId) == sites
        && forall other :: other != newId ==>
             && CurrentKinds(ledger.rows, other) == old(CurrentKinds(ledger.rows, other))
             && ActiveSites(siteRows, other) == old(ActiveSites(siteRows, other))
    {
      var clash := AddProfile(p, documents, sites, newId, now);
      if clash {
        return Rejected("VALIDATION_ERROR");
      }
      var application := SendToReview(newId, applicationId, submittedBy);
      return Done(application);
    }

    /** Staff create a customer, its documents and sites, and a pending application, in one transaction.
        What is stored passes the submit check: every merchant has a code. */
    method CreateCustomerByMerchant(r: Request, actor: Actor, merchantId: string, merchantCode: string,
                                    newId: CustomerId,
                                    code: string, applicationId: string, submittedBy: string, now: Micros)
      returns (outcome: Outcome)
      requires Valid() && newId !in profiles
      modifies this`profiles, this`siteRows, this`applications, ledger
      ensures Valid()
      ensures !outcome.Done? ==> outcome.Rejected? && profiles == old(profiles) && siteRows == old(siteRows)
                                 && applications == old(applications) && ledger.rows == old(ledger.rows)
      ensures outcome.Done? <==>
        && r.mobile.Some? && r.mobile.value != "" && library.normalise(r.mobile.value).Some?
        && (forall c :: c in old(profiles) ==> old(profiles)[c].mobile != library.normalise(r.mobile.value).value)
        && GoodRequest(r, catalogue, old(ledger.rows), actor, library, true)
        && NumbersAreFree(r, old(ledger.rows), actor, library, Profile(newId, Some(merchantId)))
      ensures outcome.Done? ==>
        && profiles == old(profiles)[newId :=
             CustomerProfile(Some(merchantId), merchantCode, library.normalise(r.mobile.value).value, r.customerType,
                             r.businessName, r.ownerName, r.address, UNDER_REVIEW, Some(code))]
        && ActiveSites(siteRows, newId) == StoredSites(r, catalogue, library)
        && applications == WithPending(old(applications), newId, applicationId, submittedBy)
        && outcome.application in applications && outcome.application.customer == newId && outcome.application.pending
        && CurrentKinds(ledger.rows, newId) == Supplied(r.documents).Keys
        && (Ready(newId) <==> merchantCode != "")
        && (IsMerchantCode(merchantCode) ==> Ready(newId))
        && SavesRequest(r, actor, old(ledger.rows), ledger.rows, Profile(newId, Some(merchantId)), now)
        && forall other :: other != newId ==>
             && CurrentKinds(ledger.rows, other) == old(CurrentKinds(ledger.rows, other))
             && ActiveSites(siteRows, other) == old(ActiveSites(siteRows, other))
    {
      if MobileOf(r, library).None? {
        return Rejected("VALIDATION_ERROR");
      }
      var mobile := MobileOf(r, library).value;
      if exists c :: c in profiles && profiles[c].mobile == mobile {
        return Rejected("REGISTRATION_PROFILE_EXISTS");
      }
      var error, documents, sites := Validate(r, catalogue, ledger.rows, actor, library, true);
      if error.Some? {
        return Rejected(error.value);
      }
      FreeMeansUnique(r, catalogue[r.customerType].rules, ledger.rows, actor, library,
                      Profile(newId, Some(merchantId)), documents);
      var p := CustomerProfile(Some(merchantId), merchantCode, mobile, r.customerType, r.businessName, r.ownerName,
                               r.address, PROFILE_INCOMPLETE, Some(code));
      outcome := StoreCustomer(p, documents, sites, newId, applicationId, submittedBy, now);
      StoredRequestIsSubmittable(r, catalogue, p.(status := UNDER_REVIEW), sites);
    }

    /** Overwrite a profile with a validated request, or change nothing when a number is taken. */
    method OverwriteProfile(c: CustomerId, r: Request, documents: seq<Document>, sites: seq<Site>, now: Micros)
      returns (clash: bool)
      requires Valid() && c in profiles && Attached(ledger.rows, documents)
      modifies this`profiles, this`siteRows, ledger
      ensures Valid()
      ensures clash <==> !NumbersAreUnique(old(ledger.rows), Profile(c, old(profiles)[c].merchantId), documents)
      ensures clash ==> profiles == old(profiles) && siteRows == old(siteRows) && ledger.rows == old(ledger.rows)
      ensures !clash ==>
        && profiles == old(profiles)[c := old(profiles)[c].(customerType := r.customerType, name := r.businessName,
                                                            ownerName := r.ownerName, address := r.address)]
        && ledger.rows == LinkedAll(old(ledger.rows), Profile(c, old(profiles)[c].merchantId), documents, now)
        && CurrentKinds(ledger.rows, c) == old(CurrentKinds(ledger.rows, c)) + Kinds(documents)
        && ActiveSites(siteRows, c) == sites
        && forall other :: other != c ==>
             && CurrentKinds(ledger.rows, other) == old(CurrentKinds(ledger.rows, other))
             && ActiveSites(siteRows, other) == old(ActiveSites(siteRows, other))
    {
      var saved := profiles;
      profiles := profiles[c := profiles[c].(customerType := r.customerType, name := r.businessName,
                                             ownerName := r.ownerName, address := r.address)];
      clash := WriteDocumentsAndSites(c, documents, sites, now);
      if clash {
        profiles := saved;
      }
    }

    /** A customer saves their own registration while it is still editable. */
    method SaveSelfProfile(c: CustomerId, r: Request, actor: Actor, verified: string, now: Micros)
      returns (outcome: Outcome)
      requires Valid() && c in profiles
      modifies this`profiles, this`siteRows, ledger
      ensures Valid() && profiles.Keys == old(profiles).Keys
      ensures outcome.Rejected? ==>
        profiles == old(profiles) && siteRows == old(siteRows) && ledger.rows == old(ledger.rows)
      ensures !outcome.Done?
      ensures outcome.Saved? <==>
        && (r.mobile.None? || r.mobile.value == "" || library.normalise(r.mobile.value) == Some(verified))
        && old(profiles)[c].status in {PROFILE_INCOMPLETE, DOCUMENTS_PENDING, REJECTED}
        && GoodRequest(r, catalogue, old(ledger.rows), actor, library, false)
        && NumbersAreFree(r, old(ledger.rows), actor, library, Profile(c, old(profiles)[c].merchantId))
      ensures outcome.Saved? ==>
        && profiles == old(profiles)[c := old(profiles)[c].(customerType := r.customerType, name := r.businessName,
                                                            ownerName := r.ownerName, address := r.address)]
        && SavesRequest(r, actor, old(ledger.rows), ledger.rows, Profile(c, old(profiles)[c].merchantId), now)
        && CurrentKinds(ledger.rows, c) == old(CurrentKinds(ledger.rows, c)) + Supplied(r.documents).Keys
        && ActiveSites(siteRows, c) == StoredSites(r, catalogue, library)
        && forall other :: other != c ==>
             && CurrentKinds(ledger.rows, other) == old(CurrentKinds(ledger.rows, other))
             && ActiveSites(siteRows, other) == old(ActiveSites(siteRows, other))
    {
      if r.mobile.Some? && r.mobile.value != "" {
        var supplied := library.normalise(r.mobile.value);
        if supplied.None? {
          return Rejected("VALIDATION_ERROR");
        }
        if supplied.value != verified {
          return Rejected("PERMISSION_DENIED");
        }
      }
      if !Editable(profiles[c].status) {
        return Rejected("REGISTRATION_NOT_EDITABLE");
      }
      var error, documents, sites := Validate(r, catalogue, ledger.rows, actor, library, false);
      if error.Some? {
        return Rejected(error.value);
      }
      FreeMeansUnique(r, catalogue[r.customerType].rules, ledger.rows, actor, library,
                      Profile(c, profiles[c].merchantId), documents);
      var clash := OverwriteProfile(c, r, documents, sites, now);
      return if clash then Rejected("VALIDATION_ERROR") else Saved;
    }

    /** Submit the stored registration. Repeating it finds the pending application again. */
    method SubmitSelfRegistration(c: CustomerId, code: string, applicationId: string, submittedBy: string)
      returns (outcome: Outcome)
      requires Valid() && c in profiles
      modifies this`profiles, this`applications
      ensures Valid()
      ensures outcome.Done? <==>
        || old(profiles)[c].status == UNDER_REVIEW
        || (old(profiles)[c].status in {PROFILE_INCOMPLETE, DOCUMENTS_PENDING, REJECTED} && old(Ready(c)))
      ensures outcome.Done? ==>
        && applications == WithPending(old(applications), c, applicationId, submittedBy)
        && outcome.application in applications && outcome.application.customer == c && outcome.application.pending
      ensures outcome.Done? ==>
        var p := old(profiles)[c];
        profiles == if p.status == UNDER_REVIEW then old(profiles)
                    else old(profiles)[c := p.(status := UNDER_REVIEW, code := Some(p.code.GetOr(code)))]
      ensures old(profiles)[c].status == UNDER_REVIEW && HasPending(old(applications), c) ==>
          profiles == old(profiles) && applications == old(applications)
      ensures !outcome.Done? ==> profiles == old(profiles) && applications == old(applications)
    {
      var application;
      if profiles[c].status == UNDER_REVIEW {
        applications, application := OpenApplication(applications, c, submittedBy, applicationId);
        return Done(application);
      }
      if !Editable(profiles[c].status) {
        return Rejected("INVALID_STATUS_TRANSITION");
      }
      var error := RequireSubmittable(profiles[c], CurrentKinds(ledger.rows, c), ActiveSites(siteRows, c), catalogue);
      if error.Some? {
        return Rejected(error.value);
      }
      if profiles[c].code.None? {
        profiles := profiles[c := profiles[c].(code := Some(code))];
      }
      application := SendToReview(c, applicationId, submittedBy);
      return Done(application);
    }
  }

  /** The stored check accepts what the request-time check let through, if only the merchant has a code. */
  lemma StoredRequestIsSubmittable(r: Request, catalogue: Catalogue, p: CustomerProfile, sites: seq<Site>)
    requires r.customerType in catalogue && catalogue[r.customerType].isActive && SoundCatalogue(catalogue)
    requires IsName(r.businessName) && IsName(r.ownerName) && IsAddress(r.address)
    requires Meets(catalogue[r.customerType].rules, Supplied(r.documents).Keys)
    requires catalogue[r.customerType].requiresSites ==> Marked(sites) == 1
    requires p.customerType == r.customerType && p.name == r.businessName && p.ownerName == r.ownerName
        && p.address == r.address
    ensures Submittable(p, Supplied(r.documents).Keys, sites, catalogue) <==> p.merchantCode != ""
  {
  }

  lemma NobodyHasNothing(rows: seq<Upload>, c: CustomerId, known: set<CustomerId>)
    requires c !in known && forall u :: u in rows && u.customer.Some? ==> u.customer.value in known
    ensures CurrentKinds(rows, c) == {}
  {
    forall i | 0 <= i < |rows|
      ensures !rows[i].CurrentFor(c)
    {
      assert rows[i] in rows;
    }
  }

  /** A document requirement that a stored customer meets stays met, whatever is uploaded or saved later
      by anyone, as long as the rules stay the same. */
  lemma LaterSavesKeepRequirements(rows: seq<Upload>, later: seq<DocumentHistory.Event>, c: CustomerId,
                                   rules: seq<Rule>)
    requires Inv(rows) && LegalRun(rows, later)
    requires Meets(rules, CurrentKinds(rows, c))
    ensures Meets(rules, CurrentKinds(Run(rows, later), c))
  {
    KindsOnlyGrow(rows, later, c);
    MeetsIsMonotone(rules, CurrentKinds(rows, c), CurrentKinds(Run(rows, later), c));
  }

  /** Linking gives files to this customer only. */
  lemma {:induction false} LinkedCustomers(rows: seq<Upload>, profile: Profile, documents: seq<Document>, now: Micros)
    ensures forall i :: 0 <= i < |rows| ==>
      LinkedAll(rows, profile, documents, now)[i].customer in {rows[i].customer, Some(profile.id)}
  {
    if documents != [] {
      LinkedCustomers(rows, profile, documents[..|documents| - 1], now);
    }
  }
}
