/** KYC uploads: which may be attached, and how a registration finalizes them.

    The identifier of a document is stored only as a keyed hash; the hash is injective, so a row holds
    the number itself. */
module Documents {
  import opened Clock
  import opened Wrappers

  type FileId = string
  type CustomerId = string

  datatype Upload = Upload(
    fileId: FileId,
    customer: Option<CustomerId>,
    owner: string,
    merchant: Option<string>,
    kind: string,
    number: Option<string>,
    finalizedAt: Option<Micros>,
    version: nat,
    supersededAt: Option<Micros>,
    supersededBy: Option<FileId>)
  {
    predicate Staged() {
      finalizedAt.None?
    }

    /** Attached to this customer and not replaced. */
    predicate CurrentFor(c: CustomerId) {
      customer == Some(c) && finalizedAt.Some? && supersededAt.None?
    }
  }

  datatype Actor = Customer(userId: string) | Staff(userId: string, merchant: Option<string>)

  datatype Profile = Profile(id: CustomerId, merchant: Option<string>)

  /** A document that passed validation: its type, its number and the upload that carries it. */
  datatype Document = Document(kind: string, number: string, fileId: FileId)

  // --- queries --------------------------------------------------------------------------

  function FileIds(rows: seq<Upload>): (ids: seq<FileId>)
    ensures |ids| == |rows|
  {
    seq(|rows|, i requires 0 <= i < |rows| => rows[i].fileId)
  }

  function Find(rows: seq<Upload>, fileId: FileId): (index: Option<nat>)
    ensures index.Some? ==> index.value < |rows| && rows[index.value].fileId == fileId
    ensures index.None? ==> forall i :: 0 <= i < |rows| ==> rows[i].fileId != fileId
  {
    var ids := FileIds(rows);
    assert forall i :: 0 <= i < |rows| ==> ids[i] == rows[i].fileId;
    IndexOf(ids, fileId)
  }

  ghost predicate DistinctFiles(rows: seq<Upload>) {
    forall i, j :: 0 <= i < j < |rows| ==> rows[i].fileId != rows[j].fileId
  }

  datatype Attachment = Ok(index: nat) | Refused(code: string)

  /** A customer uses their own uploads, staff those of their merchant. */
  predicate MayUse(actor: Actor, u: Upload) {
    match actor
    case Customer(userId) => u.owner == userId
    case Staff(_, merchant) => u.merchant.Some? && u.merchant == merchant
  }

  /** `attachable`: a file may be used once, in its own slot, by whoever uploaded it. A foreign file is
      reported exactly like a missing one. */
  function Attachable(rows: seq<Upload>, actor: Actor, fileId: FileId, kind: string): (a: Attachment)
    ensures a.Ok? ==>
      && a.index < |rows| && rows[a.index].fileId == fileId && rows[a.index].kind == kind
      && rows[a.index].Staged() && MayUse(actor, rows[a.index])
  {
    match Find(rows, fileId)
    case None => Refused("not_found")
    case Some(i) =>
      if rows[i].kind != kind then Refused("type_mismatch")
      else if !rows[i].Staged() then Refused("already_used")
      else if actor.Customer? && rows[i].owner != actor.userId then Refused("not_found")
      else if actor.Staff? && (rows[i].merchant.None? || rows[i].merchant != actor.merchant) then Refused("not_found")
      else Ok(i)
  }

  /** A file can be attached exactly when some upload has this id and type, is still staged and is the
      actor's to use: a customer's own upload, or for staff one of their merchant. */
  lemma AttachableIff(rows: seq<Upload>, actor: Actor, fileId: FileId, kind: string)
    requires DistinctFiles(rows)
    ensures Attachable(rows, actor, fileId, kind).Ok? <==>
      exists u :: u in rows && u.fileId == fileId && u.kind == kind && u.finalizedAt.None?
                  && (if actor.Customer? then u.owner == actor.userId
                      else actor.merchant.Some? && u.merchant == actor.merchant)
  {
    if u :| u in rows && u.fileId == fileId && u.kind == kind && u.Staged() && MayUse(actor, u) {
      var i :| 0 <= i < |rows| && rows[i] == u;
      assert Find(rows, fileId) == Some(i);
    }
  }

  predicate IsPrevious(u: Upload, customer: CustomerId, kind: string, replacement: FileId) {
    u.CurrentFor(customer) && u.kind == kind && u.fileId != replacement
  }

  function Retired(u: Upload, replacement: FileId, now: Micros): Upload {
    u.(supersededAt := Some(now), supersededBy := Some(replacement))
  }

  function HighestPrevious(rows: seq<Upload>, customer: CustomerId, kind: string, replacement: FileId): nat {
    if rows == [] then 0
    else
      var rest := HighestPrevious(rows[..|rows| - 1], customer, kind, replacement);
      var last := rows[|rows| - 1];
      if IsPrevious(last, customer, kind, replacement) then Max(rest, if last.version == 0 then 1 else last.version)
      else rest
  }

  /** The table after a document has been linked to a customer. */
  function Linked(rows: seq<Upload>, profile: Profile, d: Document, now: Micros): (after: seq<Upload>)
    ensures |after| == |rows|
  {
    var highest := HighestPrevious(rows, profile.id, d.kind, d.fileId);
    seq(|rows|, i requires 0 <= i < |rows| =>
      if rows[i].fileId == d.fileId then
        rows[i].(customer := Some(profile.id), merchant := profile.merchant, number := Some(d.number),
                 finalizedAt := Some(now), version := if highest > 0 then highest + 1 else rows[i].version)
      else if IsPrevious(rows[i], profile.id, d.kind, d.fileId) then Retired(rows[i], d.fileId, now)
      else rows[i])
  }

  function LinkedAll(rows: seq<Upload>, profile: Profile, documents: seq<Document>, now: Micros): (after: seq<Upload>)
    ensures |after| == |rows|
  {
    if documents == [] then rows
    else
      var last := |documents| - 1;
      Linked(LinkedAll(rows, profile, documents[..last], now), profile, documents[last], now)
  }

  /** A current document of another of the merchant's customers carries this number. */
  predicate Clashes(u: Upload, profile: Profile, number: string) {
    && u.merchant == profile.merchant && u.customer.Some? && u.customer != Some(profile.id)
    && u.supersededAt.None? && u.number == Some(number)
  }

  predicate NumberTaken(rows: seq<Upload>, profile: Profile, number: string) {
    exists u :: u in rows && Clashes(u, profile, number)
  }

  predicate NumbersAreUnique(rows: seq<Upload>, profile: Profile, documents: seq<Document>) {
    forall d :: d in documents ==> !NumberTaken(rows, profile, d.number)
  }

  // --- the ledger -----------------------------------------------------------------------

  class DocumentLedger {
    var rows: seq<Upload>

    constructor ()
      ensures rows == []
    {
      rows := [];
    }

    /** Stage an upload; its id is new and it belongs to nobody's registration yet. */
    method Stage(fileId: FileId, owner: string, merchant: Option<string>, kind: string)
      modifies this
      ensures rows == old(rows) + [Upload(fileId, None, owner, merchant, kind, None, None, 1, None, None)]
    {
      rows := rows + [Upload(fileId, None, owner, merchant, kind, None, None, 1, None, None)];
    }

    method EnsureNumbersAreUnique(profile: Profile, documents: seq<Document>) returns (clashes: seq<string>)
      ensures clashes == [] <==> NumbersAreUnique(rows, profile, documents)
      ensures forall kind :: kind in clashes ==>
          exists d :: d in documents && d.kind == kind && NumberTaken(rows, profile, d.number)
    {
      clashes := [];
      var byNumber: map<string, string> := map[];
      for k := 0 to |documents|
        invariant byNumber.Keys == set d | d in documents[..k] :: d.number
        invariant forall n :: n in byNumber ==> exists d :: d in documents && d.number == n && d.kind == byNumber[n]
      {
        byNumber := byNumber[documents[k].number := documents[k].kind];
        assert documents[..k + 1] == documents[..k] + [documents[k]];
        assert documents[k] in documents;
      }
      assert documents[..|documents|] == documents;
      for i := 0 to |rows|
        invariant clashes == [] <==>
          forall j :: 0 <= j < i ==> forall n :: n in byNumber ==> !Clashes(rows[j], profile, n)
        invariant forall kind :: kind in clashes ==>
            exists d :: d in documents && d.kind == kind && NumberTaken(rows, profile, d.number)
      {
        var number := rows[i].number;
        if number.Some? && number.value in byNumber && Clashes(rows[i], profile, number.value) {
          if byNumber[number.value] !in clashes {
            clashes := clashes + [byNumber[number.value]];
          }
          assert rows[i] in rows;
        }
      }
      if clashes == [] {
        forall d | d in documents
          ensures !NumberTaken(rows, profile, d.number)
        {
          assert d.number in byNumber;
        }
      } else {
        assert clashes[0] in clashes;
      }
    }

    method SupersedePrevious(profile: Profile, kind: string, replacement: nat, now: Micros)
      requires replacement < |rows|
      requires forall j :: 0 <= j < |rows| && rows[j].fileId == rows[replacement].fileId ==> j == replacement
      modifies this
      ensures |rows| == |old(rows)|
      ensures forall i :: 0 <= i < |rows| && i != replacement ==>
                rows[i] == if IsPrevious(old(rows[i]), profile.id, kind, old(rows[replacement].fileId))
                           then Retired(old(rows[i]), old(rows[replacement].fileId), now) else old(rows[i])
      ensures var highest := HighestPrevious(old(rows), profile.id, kind, old(rows[replacement].fileId));
              rows[replacement] ==
                old(rows[replacement]).(version := if highest > 0 then highest + 1 else old(rows[replacement].version))
    {
      var file := rows[replacement].fileId;
      ghost var before := rows;
      var highest := 0;
      for i := 0 to |rows|
        invariant |rows| == |before|
        invariant forall j :: 0 <= j < i ==>
                    rows[j] == if IsPrevious(before[j], profile.id, kind, file) then Retired(before[j], file, now)
                               else before[j]
        invariant forall j :: i <= j < |rows| ==> rows[j] == before[j]
        invariant highest == HighestPrevious(before[..i], profile.id, kind, file)
      {
        assert before[..i + 1][..i] == before[..i];
        if IsPrevious(rows[i], profile.id, kind, file) {
          highest := Max(highest, if rows[i].version == 0 then 1 else rows[i].version);
          rows := rows[i := rows[i].(supersededAt := Some(now), supersededBy := Some(file))];
        }
      }
      assert before[..|before|] == before;
      if highest > 0 {
        rows := rows[replacement := rows[replacement].(version := highest + 1)];
      }
    }

    method LinkDocument(profile: Profile, d: Document, now: Micros)
      requires DistinctFiles(rows)
      requires Find(rows, d.fileId).Some?
      modifies this
      ensures rows == Linked(old(rows), profile, d, now)
    {
      ghost var before := rows;
      var i := Find(rows, d.fileId).value;
      SupersedePrevious(profile, d.kind, i, now);
      var upload := rows[i].(customer := Some(profile.id), merchant := profile.merchant);
      upload := upload.(number := Some(d.number), finalizedAt := Some(now));
      rows := rows[i := upload];
      assert forall j :: 0 <= j < |rows| ==> rows[j] == Linked(before, profile, d, now)[j];
    }

    method LinkDocuments(profile: Profile, documents: seq<Document>, now: Micros)
      requires DistinctFiles(rows)
      requires forall d :: d in documents ==> Find(rows, d.fileId).Some?
      modifies this
      ensures rows == LinkedAll(old(rows), profile, documents, now)
    {
      ghost var before := rows;
      for k := 0 to |documents|
        invariant rows == LinkedAll(before, profile, documents[..k], now)
        invariant |rows| == |before| && forall i :: 0 <= i < |rows| ==> rows[i].fileId == before[i].fileId
      {
        assert documents[k] in documents;
        SameFilesFound(before, rows, documents[k].fileId);
        LinkingKeepsFiles(rows, profile, documents[k], now);
        LinkDocument(profile, documents[k], now);
        assert documents[..k + 1][..k] == documents[..k];
      }
      assert documents[..|documents|] == documents;
    }
  }

  lemma LinkingKeepsFiles(rows: seq<Upload>, profile: Profile, d: Document, now: Micros)
    ensures forall i :: 0 <= i < |rows| ==> Linked(rows, profile, d, now)[i].fileId == rows[i].fileId
  {
  }

  lemma SameFilesFound(a: seq<Upload>, b: seq<Upload>, fileId: FileId)
    requires |a| == |b| && forall i :: 0 <= i < |a| ==> b[i].fileId == a[i].fileId
    requires Find(a, fileId).Some?
    ensures Find(b, fileId).Some?
  {
    assert b[Find(a, fileId).value].fileId == fileId;
  }
}
