/** What any sequence of uploads and saves keeps of the document trail. */
module DocumentHistory {
  import opened Clock
  import opened Wrappers
  import opened Documents

  // --- events ---------------------------------------------------------------------------

  /** A save writes nothing when a number is already registered with another customer. */
  datatype Event =
    | StageUpload(fileId: FileId, owner: string, merchant: Option<string>, kind: string)
    | Save(profile: Profile, documents: seq<Document>, now: Micros)

  /** What validation has established about the documents of a save: every file is staged in the slot it
      is offered for, and no slot is filled twice. */
  ghost predicate Attached(rows: seq<Upload>, documents: seq<Document>) {
    && (forall d :: d in documents ==>
          var i := Find(rows, d.fileId);
          i.Some? && rows[i.value].Staged() && rows[i.value].kind == d.kind)
    && (forall j, k :: 0 <= j < k < |documents| ==> documents[j].kind != documents[k].kind)
  }

  ghost predicate Legal(rows: seq<Upload>, e: Event) {
    match e
    case StageUpload(fileId, _, _, _) => Find(rows, fileId).None?
    case Save(_, documents, _) => Attached(rows, documents)
  }

  ghost function Next(rows: seq<Upload>, e: Event): seq<Upload> {
    match e
    case StageUpload(fileId, owner, merchant, kind) =>
        rows + [Upload(fileId, None, owner, merchant, kind, None, None, 1, None, None)]
    case Save(profile, documents, now) =>
      if NumbersAreUnique(rows, profile, documents) then LinkedAll(rows, profile, documents, now) else rows
  }

  // --- the invariant --------------------------------------------------------------------

  ghost predicate Sound(rows: seq<Upload>) {
    && (forall i, j :: 0 <= i < j < |rows| ==> rows[i].fileId != rows[j].fileId)
    && (forall i :: 0 <= i < |rows| ==>
          if rows[i].Staged()
          then rows[i].customer.None? && rows[i].number.None? && rows[i].version == 1 && rows[i].supersededAt.None?
              && rows[i].supersededBy.None?
          else rows[i].customer.Some? && rows[i].number.Some?)
  }

  predicate Holds(u: Upload, c: CustomerId, kind: string) {
    u.customer == Some(c) && u.kind == kind && !u.Staged()
  }

  /** `h` lists the customer's finalized uploads of one type, oldest first: versions 1 to n, each replaced
      by the next, and only the last one current. */
  ghost predicate Chain(rows: seq<Upload>, c: CustomerId, kind: string, h: seq<nat>) {
    && (forall k :: 0 <= k < |h| ==> h[k] < |rows| && Holds(rows[h[k]], c, kind) && rows[h[k]].version == k + 1)
    && (forall i :: 0 <= i < |rows| && Holds(rows[i], c, kind) ==> i in h)
    && (forall k :: 0 <= k < |h| - 1 ==>
          rows[h[k]].supersededAt.Some? && rows[h[k]].supersededBy == Some(rows[h[k + 1]].fileId))
    && (h != [] ==> rows[h[|h| - 1]].supersededAt.None? && rows[h[|h| - 1]].supersededBy.None?)
  }

  ghost predicate HasChain(rows: seq<Upload>, c: CustomerId, kind: string) {
    exists h :: Chain(rows, c, kind, h)
  }

  /** Two current documents of one merchant with the same number belong to the same customer. */
  ghost predicate NumbersIdentify(rows: seq<Upload>) {
    forall i, j :: 0 <= i < |rows| && 0 <= j < |rows|
      && !rows[i].Staged() && !rows[j].Staged() && rows[i].supersededAt.None? && rows[j].supersededAt.None?
      && rows[i].merchant == rows[j].merchant && rows[i].number == rows[j].number
      ==> rows[i].customer == rows[j].customer
  }

  ghost predicate Inv(rows: seq<Upload>) {
    && Sound(rows) && NumbersIdentify(rows)
    && forall c, kind :: HasChain(rows, c, kind)
  }

  /** A finalized upload never changes hands, type, number or version, and is superseded at most once. */
  ghost predicate Continues(a: seq<Upload>, b: seq<Upload>) {
    |a| <= |b| && forall i :: 0 <= i < |a| ==>
      && b[i].fileId == a[i].fileId && b[i].kind == a[i].kind && b[i].owner == a[i].owner
      && (!a[i].Staged() ==>
            && b[i].customer == a[i].customer && b[i].merchant == a[i].merchant && b[i].number == a[i].number
            && b[i].finalizedAt == a[i].finalizedAt && b[i].version == a[i].version
            && (a[i].supersededAt.Some? ==>
                  b[i].supersededAt == a[i].supersededAt && b[i].supersededBy == a[i].supersededBy))
  }

  // --- linking one document -------------------------------------------------------------

  lemma {:induction false} NothingPrevious(rows: seq<Upload>, c: CustomerId, kind: string, file: FileId)
    requires forall i :: 0 <= i < |rows| ==> !IsPrevious(rows[i], c, kind, file)
    ensures HighestPrevious(rows, c, kind, file) == 0
  {
    if rows != [] {
      NothingPrevious(rows[..|rows| - 1], c, kind, file);
    }
  }

  lemma {:induction false} OnePrevious(rows: seq<Upload>, c: CustomerId, kind: string, file: FileId, p: nat)
    requires p < |rows| && IsPrevious(rows[p], c, kind, file) && rows[p].version > 0
    requires forall i :: 0 <= i < |rows| && i != p ==> !IsPrevious(rows[i], c, kind, file)
    ensures HighestPrevious(rows, c, kind, file) == rows[p].version
  {
    var shorter := rows[..|rows| - 1];
    if p == |rows| - 1 {
      NothingPrevious(shorter, c, kind, file);
    } else {
      OnePrevious(shorter, c, kind, file, p);
    }
  }

  /** With a chain in place the replacement gets the next version number. */
  lemma HighestIsChainLength(rows: seq<Upload>, c: CustomerId, kind: string, file: FileId, h: seq<nat>)
    requires Sound(rows) && Chain(rows, c, kind, h)
    requires var i := Find(rows, file); i.Some? && rows[i.value].Staged()
    ensures HighestPrevious(rows, c, kind, file) == |h|
  {
    if h == [] {
      NothingPrevious(rows, c, kind, file);
    } else {
      var last := h[|h| - 1];
      assert IsPrevious(rows[last], c, kind, file);
      forall i | 0 <= i < |rows| && i != last
        ensures !IsPrevious(rows[i], c, kind, file)
      {
        if Holds(rows[i], c, kind) {
          var k :| 0 <= k < |h| && h[k] == i;
          assert rows[h[k]].supersededAt.Some?;
        }
      }
      OnePrevious(rows, c, kind, file, last);
    }
  }

  ghost predicate Linkable(rows: seq<Upload>, d: Document) {
    var i := Find(rows, d.fileId);
    i.Some? && rows[i.value].Staged() && rows[i.value].kind == d.kind
  }

  /** The tail of the chain is retired in favour of the new file; the rows before it stay. */
  lemma LinkingRetiresTheTail(rows: seq<Upload>, profile: Profile, d: Document, now: Micros, h: seq<nat>, k: nat)
    requires Sound(rows) && Linkable(rows, d) && Chain(rows, profile.id, d.kind, h) && k < |h|
    ensures var after := Linked(rows, profile, d, now);
            after[h[k]] == if k < |h| - 1 then rows[h[k]] else Retired(rows[h[k]], d.fileId, now)
  {
    assert rows[h[k]].fileId != d.fileId;
    if k < |h| - 1 {
      assert rows[h[k]].supersededAt.Some?;
    }
  }

  lemma LinkingAddsOneMember(rows: seq<Upload>, profile: Profile, d: Document, now: Micros, h: seq<nat>, j: nat)
    requires Sound(rows) && Linkable(rows, d) && Chain(rows, profile.id, d.kind, h)
    requires j < |rows| && Holds(Linked(rows, profile, d, now)[j], profile.id, d.kind)
    ensures j in h || j == Find(rows, d.fileId).value
  {
    if j != Find(rows, d.fileId).value {
      assert Holds(rows[j], profile.id, d.kind);
    }
  }

  lemma LinkingExtendsChain(rows: seq<Upload>, profile: Profile, d: Document, now: Micros, h: seq<nat>)
    requires Sound(rows) && Linkable(rows, d) && Chain(rows, profile.id, d.kind, h)
    ensures Chain(Linked(rows, profile, d, now), profile.id, d.kind, h + [Find(rows, d.fileId).value])
  {
    var after := Linked(rows, profile, d, now);
    var i := Find(rows, d.fileId).value;
    HighestIsChainLength(rows, profile.id, d.kind, d.fileId, h);
    var g := h + [i];
    assert after[i].version == |h| + 1 && Holds(after[i], profile.id, d.kind);
    forall k | 0 <= k < |g|
      ensures g[k] < |after| && Holds(after[g[k]], profile.id, d.kind) && after[g[k]].version == k + 1
    {
      if k < |h| {
        LinkingRetiresTheTail(rows, profile, d, now, h, k);
      }
    }
    forall j | 0 <= j < |after| && Holds(after[j], profile.id, d.kind)
      ensures j in g
    {
      LinkingAddsOneMember(rows, profile, d, now, h, j);
      assert g[|h|] == i;
    }
    forall k | 0 <= k < |g| - 1
      ensures after[g[k]].supersededAt.Some? && after[g[k]].supersededBy == Some(after[g[k + 1]].fileId)
    {
      LinkingRetiresTheTail(rows, profile, d, now, h, k);
      if k < |h| - 1 {
        assert after[h[k + 1]].fileId == rows[h[k + 1]].fileId;
      }
    }
  }

  lemma LinkingKeepsOtherChains(rows: seq<Upload>, profile: Profile, d: Document, now: Micros, c: CustomerId,
                                kind: string, h: seq<nat>)
    requires Sound(rows) && Linkable(rows, d) && Chain(rows, c, kind, h)
    requires c != profile.id || kind != d.kind
    ensures Chain(Linked(rows, profile, d, now), c, kind, h)
  {
    var after := Linked(rows, profile, d, now);
    forall j | 0 <= j < |after| && Holds(after[j], c, kind)
      ensures j in h
    {
      assert rows[j].fileId != d.fileId;
      assert Holds(rows[j], c, kind);
    }
    forall k | 0 <= k < |h|
      ensures after[h[k]] == rows[h[k]]
    {
      assert rows[h[k]].fileId != d.fileId;
    }
  }

  lemma LinkingKeepsNumbers(rows: seq<Upload>, profile: Profile, d: Document, now: Micros)
    requires Sound(rows) && Linkable(rows, d) && NumbersIdentify(rows) && !NumberTaken(rows, profile, d.number)
    ensures NumbersIdentify(Linked(rows, profile, d, now))
  {
    var after := Linked(rows, profile, d, now);
    forall i, j | 0 <= i < |rows| && 0 <= j < |rows|
      && !after[i].Staged() && !after[j].Staged() && after[i].supersededAt.None? && after[j].supersededAt.None?
      && after[i].merchant == after[j].merchant && after[i].number == after[j].number
      ensures after[i].customer == after[j].customer
    {
      if rows[i].fileId == d.fileId && rows[j].fileId != d.fileId {
        assert rows[j] in rows && !Clashes(rows[j], profile, d.number);
      } else if rows[j].fileId == d.fileId && rows[i].fileId != d.fileId {
        assert rows[i] in rows && !Clashes(rows[i], profile, d.number);
      }
    }
  }

  /** Linking keeps every number with one customer exactly when the number is free at that moment. Having
      been free when it was checked earlier is not enough, so a check and a write that are not one step can
      give one number to two customers. */
  lemma LinkingKeepsNumbersIff(rows: seq<Upload>, profile: Profile, d: Document, now: Micros)
    requires Sound(rows) && Linkable(rows, d) && NumbersIdentify(rows)
    ensures NumbersIdentify(Linked(rows, profile, d, now)) <==> !NumberTaken(rows, profile, d.number)
  {
    if NumberTaken(rows, profile, d.number) {
      var after := Linked(rows, profile, d, now);
      var u :| u in rows && Clashes(u, profile, d.number);
      var i :| 0 <= i < |rows| && rows[i] == u;
      var f := Find(rows, d.fileId).value;
      assert after[i] == rows[i] && after[i].customer != after[f].customer;
      assert !after[i].Staged() && !after[f].Staged();
    } else {
      LinkingKeepsNumbers(rows, profile, d, now);
    }
  }

  /** Two customers of one merchant whose checks both pass before either writes. */
  lemma RacingSavesShareANumber(merchant: Option<string>, number: string, now: Micros)
    ensures
      var rows := [Upload("f", None, "x", merchant, "PAN", None, None, 1, None, None),
                   Upload("g", None, "y", merchant, "PAN", None, None, 1, None, None)];
      var first, second := Profile("a", merchant), Profile("b", merchant);
      var d, e := Document("PAN", number, "f"), Document("PAN", number, "g");
      && NumbersAreUnique(rows, first, [d]) && NumbersAreUnique(rows, second, [e])
      && !NumbersIdentify(Linked(Linked(rows, first, d, now), second, e, now))
  {
    var rows := [Upload("f", None, "x", merchant, "PAN", None, None, 1, None, None),
                 Upload("g", None, "y", merchant, "PAN", None, None, 1, None, None)];
    var first, second := Profile("a", merchant), Profile("b", merchant);
    var d, e := Document("PAN", number, "f"), Document("PAN", number, "g");
    var after := Linked(rows, first, d, now);
    assert HighestPrevious(rows, "a", "PAN", "f") == 0 by {
      NothingPrevious(rows, "a", "PAN", "f");
    }
    assert after[0] == Upload("f", Some("a"), "x", merchant, "PAN", Some(number), Some(now), 1, None, None);
    assert after[1] == rows[1];
    var last := Linked(after, second, e, now);
    assert last[0] == after[0];
    assert last[1].customer == Some("b") && last[1].number == Some(number) && last[1].supersededAt.None?;
  }

  lemma LinkingContinues(rows: seq<Upload>, profile: Profile, d: Document, now: Micros)
    requires Sound(rows) && Linkable(rows, d)
    ensures Continues(rows, Linked(rows, profile, d, now))
  {
  }

  lemma LinkingKeepsInv(rows: seq<Upload>, profile: Profile, d: Document, now: Micros)
    requires Inv(rows) && Linkable(rows, d) && !NumberTaken(rows, profile, d.number)
    ensures Inv(Linked(rows, profile, d, now)) && Continues(rows, Linked(rows, profile, d, now))
  {
    var after := Linked(rows, profile, d, now);
    LinkingKeepsNumbers(rows, profile, d, now);
    LinkingContinues(rows, profile, d, now);
    forall c, kind
      ensures HasChain(after, c, kind)
    {
      assert HasChain(rows, c, kind);
      var h :| Chain(rows, c, kind, h);
      if c == profile.id && kind == d.kind {
        LinkingExtendsChain(rows, profile, d, now, h);
      } else {
        LinkingKeepsOtherChains(rows, profile, d, now, c, kind, h);
      }
    }
  }

  /** Linking a customer's document takes no number from the customer's point of view, and uses no file
      but its own. */
  lemma LinkingLeavesTheRest(rows: seq<Upload>, profile: Profile, d: Document, now: Micros, other: Document)
    requires Sound(rows) && Linkable(rows, d) && Linkable(rows, other) && other.kind != d.kind
    requires !NumberTaken(rows, profile, other.number)
    ensures Linkable(Linked(rows, profile, d, now), other)
    ensures !NumberTaken(Linked(rows, profile, d, now), profile, other.number)
  {
    var after := Linked(rows, profile, d, now);
    var i := Find(rows, other.fileId).value;
    assert after[i] == rows[i];
    SameFilesFound(rows, after, other.fileId);
    assert Find(after, other.fileId).value == i;
    forall u | u in after
      ensures !Clashes(u, profile, other.number)
    {
      var j :| 0 <= j < |after| && after[j] == u;
      assert rows[j] in rows && !Clashes(rows[j], profile, other.number);
    }
  }

  // --- a whole save ---------------------------------------------------------------------

  lemma ContinuesTransitively(a: seq<Upload>, b: seq<Upload>, c: seq<Upload>)
    requires Continues(a, b) && Continues(b, c)
    ensures Continues(a, c)
  {
  }

  /** After linking the first `n` documents the trail is intact and the rest can still be linked. */
  lemma {:induction false} SaveKeepsInv(rows: seq<Upload>, profile: Profile, documents: seq<Document>, now: Micros,
                                        n: nat)
    requires Inv(rows) && Attached(rows, documents) && NumbersAreUnique(rows, profile, documents)
    requires n <= |documents|
    ensures var after := LinkedAll(rows, profile, documents[..n], now);
            && Inv(after) && Continues(rows, after)
            && forall k :: n <= k < |documents| ==>
                Linkable(after, documents[k]) && !NumberTaken(after, profile, documents[k].number)
  {
    if n == 0 {
      assert forall k :: 0 <= k < |documents| ==> documents[k] in documents;
    } else {
      SaveKeepsInv(rows, profile, documents, now, n - 1);
      var before := LinkedAll(rows, profile, documents[..n - 1], now);
      var d := documents[n - 1];
      assert documents[..n][..n - 1] == documents[..n - 1];
      LinkingKeepsInv(before, profile, d, now);
      ContinuesTransitively(rows, before, Linked(before, profile, d, now));
      forall k | n <= k < |documents|
        ensures Linkable(Linked(before, profile, d, now), documents[k])
        ensures !NumberTaken(Linked(before, profile, d, now), profile, documents[k].number)
      {
        LinkingLeavesTheRest(before, profile, d, now, documents[k]);
      }
    }
  }

  lemma StagingKeepsChain(rows: seq<Upload>, e: Event, c: CustomerId, kind: string, h: seq<nat>)
    requires Sound(rows) && Legal(rows, e) && e.StageUpload? && Chain(rows, c, kind, h)
    ensures Chain(Next(rows, e), c, kind, h)
  {
    var after := Next(rows, e);
    assert forall i :: 0 <= i < |rows| ==> after[i] == rows[i];
    forall i | 0 <= i < |after| && Holds(after[i], c, kind)
      ensures i in h
    {
      assert i < |rows| && Holds(rows[i], c, kind);
    }
  }

  lemma StagingKeepsInv(rows: seq<Upload>, e: Event)
    requires Inv(rows) && Legal(rows, e) && e.StageUpload?
    ensures Inv(Next(rows, e)) && Continues(rows, Next(rows, e))
  {
    var after := Next(rows, e);
    forall c, kind
      ensures HasChain(after, c, kind)
    {
      assert HasChain(rows, c, kind);
      var h :| Chain(rows, c, kind, h);
      StagingKeepsChain(rows, e, c, kind, h);
    }
  }

  lemma NextKeepsInv(rows: seq<Upload>, e: Event)
    requires Inv(rows) && Legal(rows, e)
    ensures Inv(Next(rows, e)) && Continues(rows, Next(rows, e))
  {
    if e.StageUpload? {
      StagingKeepsInv(rows, e);
    } else if NumbersAreUnique(rows, e.profile, e.documents) {
      SaveKeepsInv(rows, e.profile, e.documents, e.now, |e.documents|);
      assert e.documents[..|e.documents|] == e.documents;
    }
  }

  // --- runs -----------------------------------------------------------------------------

  ghost predicate LegalRun(rows: seq<Upload>, events: seq<Event>)
    decreases |events|
  {
    events != [] ==> Legal(rows, events[0]) && LegalRun(Next(rows, events[0]), events[1..])
  }

  ghost function Run(rows: seq<Upload>, events: seq<Event>): seq<Upload>
    decreases |events|
  {
    if events == [] then rows else Run(Next(rows, events[0]), events[1..])
  }

  lemma {:induction false} RunKeepsInv(rows: seq<Upload>, events: seq<Event>)
    requires Inv(rows) && LegalRun(rows, events)
    ensures Inv(Run(rows, events)) && Continues(rows, Run(rows, events))
    decreases |events|
  {
    if events != [] {
      NextKeepsInv(rows, events[0]);
      RunKeepsInv(Next(rows, events[0]), events[1..]);
      ContinuesTransitively(rows, Next(rows, events[0]), Run(rows, events));
    }
  }

  lemma EmptyIsSound()
    ensures Inv([])
  {
    forall c, kind
      ensures HasChain([], c, kind)
    {
      assert Chain([], c, kind, []);
    }
  }

  /** Over any sequence of uploads and saves, a customer's finalized uploads of one type carry the
      versions 1 to n, form one chain through their replacements, and only version n is current. */
  lemma VersionsFormOneChain(events: seq<Event>, c: CustomerId, kind: string)
    requires LegalRun([], events)
    ensures HasChain(Run([], events), c, kind)
  {
    EmptyIsSound();
    RunKeepsInv([], events);
  }

  /** In a chain a version number names one upload, and exactly the last is current. */
  lemma ChainIsLinear(rows: seq<Upload>, c: CustomerId, kind: string, h: seq<nat>, i: nat, j: nat)
    requires Chain(rows, c, kind, h) && i < |rows| && j < |rows| && Holds(rows[i], c, kind) && Holds(rows[j], c, kind)
    ensures rows[i].version == rows[j].version <==> i == j
    ensures 1 <= rows[i].version <= |h|
    ensures rows[i].CurrentFor(c) <==> rows[i].version == |h|
  {
    var a :| 0 <= a < |h| && h[a] == i;
    var b :| 0 <= b < |h| && h[b] == j;
  }

  /** A finalized file stays with its customer, in its slot, with its number, for the rest of the run. */
  lemma FinalizedFileNeverMoves(events: seq<Event>, later: seq<Event>, i: nat)
    requires LegalRun([], events) && LegalRun(Run([], events), later)
    requires i < |Run([], events)| && !Run([], events)[i].Staged()
    ensures var before, after := Run([], events), Run(Run([], events), later);
            && i < |after| && after[i].fileId == before[i].fileId
            && after[i].customer == before[i].customer && after[i].kind == before[i].kind
            && after[i].number == before[i].number && after[i].version == before[i].version
  {
    EmptyIsSound();
    RunKeepsInv([], events);
    RunKeepsInv(Run([], events), later);
  }

  /** Within one merchant no two customers ever hold current documents with the same number. */
  lemma NumberBelongsToOneCustomer(events: seq<Event>, i: nat, j: nat)
    requires LegalRun([], events)
    requires var rows := Run([], events);
             && i < |rows| && j < |rows| && rows[i].customer.Some? && rows[j].customer.Some?
             && rows[i].supersededAt.None? && rows[j].supersededAt.None?
             && rows[i].merchant == rows[j].merchant && rows[i].number == rows[j].number
    ensures Run([], events)[i].customer == Run([], events)[j].customer
  {
    EmptyIsSound();
    RunKeepsInv([], events);
  }

  // --- what a customer has --------------------------------------------------------------

  /** The types a stored registration can show: finalized and not replaced. */
  function CurrentKinds(rows: seq<Upload>, c: CustomerId): set<string> {
    set i | 0 <= i < |rows| && rows[i].CurrentFor(c) :: rows[i].kind
  }

  lemma LinkedKinds(rows: seq<Upload>, profile: Profile, d: Document, now: Micros, c: CustomerId)
    requires Sound(rows) && Linkable(rows, d)
    ensures CurrentKinds(Linked(rows, profile, d, now), c) ==
              CurrentKinds(rows, c) + if c == profile.id then {d.kind} else {}
  {
    var after := Linked(rows, profile, d, now);
    var f := Find(rows, d.fileId).value;
    forall kind | kind in CurrentKinds(rows, c)
      ensures kind in CurrentKinds(after, c)
    {
      var i :| 0 <= i < |rows| && rows[i].CurrentFor(c) && rows[i].kind == kind;
      assert i != f;
      if IsPrevious(rows[i], profile.id, d.kind, d.fileId) {
        assert after[f].CurrentFor(c) && after[f].kind == kind;
      } else {
        assert after[i].CurrentFor(c) && after[i].kind == kind;
      }
    }
    forall kind | kind in CurrentKinds(after, c)
      ensures kind in CurrentKinds(rows, c) || (c == profile.id && kind == d.kind)
    {
      var i :| 0 <= i < |after| && after[i].CurrentFor(c) && after[i].kind == kind;
      if i != f {
        assert rows[i].CurrentFor(c) && rows[i].kind == kind;
      }
    }
    if c == profile.id {
      assert after[f].CurrentFor(c) && after[f].kind == d.kind;
    }
  }

  function Kinds(documents: seq<Document>): set<string> {
    set d | d in documents :: d.kind
  }

  lemma LinkingOneMore(rows: seq<Upload>, profile: Profile, documents: seq<Document>, now: Micros, n: nat)
    requires 0 < n <= |documents|
    ensures LinkedAll(rows, profile, documents[..n], now) ==
              Linked(LinkedAll(rows, profile, documents[..n - 1], now), profile, documents[n - 1], now)
  {
    assert documents[..n][..n - 1] == documents[..n - 1];
  }

  lemma KindsOfPrefix(documents: seq<Document>, n: nat)
    requires 0 < n <= |documents|
    ensures Kinds(documents[..n]) == Kinds(documents[..n - 1]) + {documents[n - 1].kind}
  {
    assert documents[..n] == documents[..n - 1] + [documents[n - 1]];
  }

  lemma OneMoreKind(rows: seq<Upload>, profile: Profile, documents: seq<Document>, now: Micros, c: CustomerId, n: nat)
    requires Inv(rows) && Attached(rows, documents) && NumbersAreUnique(rows, profile, documents)
        && 0 < n <= |documents|
    ensures CurrentKinds(LinkedAll(rows, profile, documents[..n], now), c)
         == CurrentKinds(LinkedAll(rows, profile, documents[..n - 1], now), c)
            + if c == profile.id then {documents[n - 1].kind} else {}
  {
    SaveKeepsInv(rows, profile, documents, now, n - 1);
    LinkingOneMore(rows, profile, documents, now, n);
    LinkedKinds(LinkedAll(rows, profile, documents[..n - 1], now), profile, documents[n - 1], now, c);
  }

  /** A save adds exactly its own types to what its customer has, and changes nobody else's. */
  lemma {:induction false} SavedKinds(rows: seq<Upload>, profile: Profile, documents: seq<Document>, now: Micros,
                                      c: CustomerId, n: nat)
    requires Inv(rows) && Attached(rows, documents) && NumbersAreUnique(rows, profile, documents) && n <= |documents|
    ensures CurrentKinds(LinkedAll(rows, profile, documents[..n], now), c)
         == CurrentKinds(rows, c) + if c == profile.id then Kinds(documents[..n]) else {}
  {
    if n > 0 {
      SavedKinds(rows, profile, documents, now, c, n - 1);
      KindsOfPrefix(documents, n);
      OneMoreKind(rows, profile, documents, now, c, n);
    }
  }

  /** No event of a run takes a document type away from any customer. */
  lemma {:induction false} KindsOnlyGrow(rows: seq<Upload>, events: seq<Event>, c: CustomerId)
    requires Inv(rows) && LegalRun(rows, events)
    ensures CurrentKinds(rows, c) <= CurrentKinds(Run(rows, events), c)
    decreases |events|
  {
    if events != [] {
      var next := Next(rows, events[0]);
      NextKeepsInv(rows, events[0]);
      if events[0].Save? && NumbersAreUnique(rows, events[0].profile, events[0].documents) {
        SavedKinds(rows, events[0].profile, events[0].documents, events[0].now, c, |events[0].documents|);
        assert events[0].documents[..|events[0].documents|] == events[0].documents;
      } else {
        forall kind | kind in CurrentKinds(rows, c)
          ensures kind in CurrentKinds(next, c)
        {
          var i :| 0 <= i < |rows| && rows[i].CurrentFor(c) && rows[i].kind == kind;
          assert next[i] == rows[i];
        }
      }
      KindsOnlyGrow(next, events[1..], c);
    }
  }
}
