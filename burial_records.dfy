/** Burial records awaiting or past review: what a record holds, and the
    operations on the record list as functions of the old list. */
module BurialRegister {
  import opened Collections

  datatype RecordStatus = Pending | Approved | Rejected

  datatype Gender = Male | Female

  datatype BurialRecord = BurialRecord(
    id: string,
    name: string,
    fatherName: string,
    dateOfDeath: string,
    gender: Gender,
    age: int,
    religion: string,
    plotId: string,
    graveId: string,
    status: RecordStatus,
    createdAt: int,
    approvedBy: Option<string>,
    approvedAt: Option<int>,
    notes: Option<string>)

  /** What addRecord is given: a record without id and creation time. */
  datatype RecordFields = RecordFields(
    name: string,
    fatherName: string,
    dateOfDeath: string,
    gender: Gender,
    age: int,
    religion: string,
    plotId: string,
    graveId: string,
    status: RecordStatus,
    approvedBy: Option<string>,
    approvedAt: Option<int>,
    notes: Option<string>)

  /** `Partial<BurialRecord>`; for an optional field, `Some(None)` is the key
      set to `undefined`. */
  datatype RecordPatch = RecordPatch(
    id: Option<string>,
    name: Option<string>,
    fatherName: Option<string>,
    dateOfDeath: Option<string>,
    gender: Option<Gender>,
    age: Option<int>,
    religion: Option<string>,
    plotId: Option<string>,
    graveId: Option<string>,
    status: Option<RecordStatus>,
    createdAt: Option<int>,
    approvedBy: Option<Option<string>>,
    approvedAt: Option<Option<int>>,
    notes: Option<Option<string>>)

  function RecordKey(r: BurialRecord): string { r.id }
  function RecordIsNot(id: string): BurialRecord -> bool { (r: BurialRecord) => r.id != id }

  /** The caller-supplied part of a record: everything but id and createdAt. */
  function FieldsOf(r: BurialRecord): RecordFields
  {
    RecordFields(r.name, r.fatherName, r.dateOfDeath, r.gender, r.age, r.religion, r.plotId, r.graveId,
                 r.status, r.approvedBy, r.approvedAt, r.notes)
  }

  /** The deceased and the grave a record is about, and where it came from:
      the fields review never touches. */
  predicate SameSubject(a: BurialRecord, b: BurialRecord)
  {
    a.id == b.id && a.name == b.name && a.fatherName == b.fatherName && a.dateOfDeath == b.dateOfDeath
    && a.gender == b.gender && a.age == b.age && a.religion == b.religion
    && a.plotId == b.plotId && a.graveId == b.graveId && a.createdAt == b.createdAt
  }

  function NewRecord(fields: RecordFields, id: string, now: int): BurialRecord
  {
    BurialRecord(id, fields.name, fields.fatherName, fields.dateOfDeath, fields.gender, fields.age,
                 fields.religion, fields.plotId, fields.graveId, fields.status, now,
                 fields.approvedBy, fields.approvedAt, fields.notes)
  }

  /** `{ ...r, ...u }` */
  function MergeRecord(r: BurialRecord, u: RecordPatch): BurialRecord
  {
    BurialRecord(Pick(u.id, r.id), Pick(u.name, r.name), Pick(u.fatherName, r.fatherName),
                 Pick(u.dateOfDeath, r.dateOfDeath), Pick(u.gender, r.gender), Pick(u.age, r.age),
                 Pick(u.religion, r.religion), Pick(u.plotId, r.plotId), Pick(u.graveId, r.graveId),
                 Pick(u.status, r.status), Pick(u.createdAt, r.createdAt), Pick(u.approvedBy, r.approvedBy),
                 Pick(u.approvedAt, r.approvedAt), Pick(u.notes, r.notes))
  }

  /** The patch approveRecord hands to updateRecord. */
  function ApprovalPatch(approvedBy: string, now: int): RecordPatch
  {
    RecordPatch(None, None, None, None, None, None, None, None, None, Some(Approved), None,
                Some(Some(approvedBy)), Some(Some(now)), None)
  }

  /** The patch rejectRecord hands to updateRecord. */
  function RejectionPatch(notes: string): RecordPatch
  {
    RecordPatch(None, None, None, None, None, None, None, None, None, Some(Rejected), None,
                None, None, Some(Some(notes)))
  }

  /** addRecord: the new record goes first and carries exactly what the caller
      gave, status included. */
  function AddRecord(rs: seq<BurialRecord>, fields: RecordFields, id: string, now: int): (r: seq<BurialRecord>)
    ensures |r| == |rs| + 1 && r[1..] == rs
    ensures r[0].id == id && r[0].createdAt == now
    ensures FieldsOf(r[0]) == fields
  {
    [NewRecord(fields, id, now)] + rs
  }

  /** updateRecord: merge u into the record(s) with that id. */
  function UpdateRecord(rs: seq<BurialRecord>, id: string, u: RecordPatch): (r: seq<BurialRecord>)
    ensures |r| == |rs|
    ensures forall i :: 0 <= i < |rs| && rs[i].id != id ==> r[i] == rs[i]
    ensures forall i :: 0 <= i < |rs| && rs[i].id == id ==> r[i] == MergeRecord(rs[i], u)
    ensures (forall x :: x in rs ==> x.id != id) ==> r == rs
  {
    seq(|rs|, i requires 0 <= i < |rs| => if rs[i].id == id then MergeRecord(rs[i], u) else rs[i])
  }

  /** deleteRecord: drop every record with that id. */
  function DeleteRecord(rs: seq<BurialRecord>, id: string): (r: seq<BurialRecord>)
    ensures forall x :: x in r <==> x in rs && x.id != id
  {
    Filter(rs, RecordIsNot(id))
  }

  /** approveRecord: whatever the record's status was, it becomes approved,
      with the approver and the time; the subject of the record and its notes
      stay as they were. */
  function ApproveRecord(rs: seq<BurialRecord>, id: string, approvedBy: string, now: int): (r: seq<BurialRecord>)
    ensures |r| == |rs|
    ensures forall i :: 0 <= i < |rs| && rs[i].id != id ==> r[i] == rs[i]
    ensures forall i :: 0 <= i < |rs| && rs[i].id == id ==>
              r[i].status == Approved && r[i].approvedBy == Some(approvedBy) && r[i].approvedAt == Some(now)
              && SameSubject(r[i], rs[i]) && r[i].notes == rs[i].notes
  {
    UpdateRecord(rs, id, ApprovalPatch(approvedBy, now))
  }

  /** rejectRecord: whatever the record's status was, it becomes rejected with
      the given notes; an earlier approver and approval time are kept. */
  function RejectRecord(rs: seq<BurialRecord>, id: string, notes: string): (r: seq<BurialRecord>)
    ensures |r| == |rs|
    ensures forall i :: 0 <= i < |rs| && rs[i].id != id ==> r[i] == rs[i]
    ensures forall i :: 0 <= i < |rs| && rs[i].id == id ==>
              r[i].status == Rejected && r[i].notes == Some(notes)
              && r[i].approvedBy == rs[i].approvedBy && r[i].approvedAt == rs[i].approvedAt
              && SameSubject(r[i], rs[i])
  {
    UpdateRecord(rs, id, RejectionPatch(notes))
  }

  /** Deleting works element by element, so the records that stay keep their
      relative order. */
  lemma DeleteKeepsOrder(a: seq<BurialRecord>, b: seq<BurialRecord>, id: string)
    ensures DeleteRecord(a + b, id) == DeleteRecord(a, id) + DeleteRecord(b, id)
  {
    FilterAppend(a, b, RecordIsNot(id));
  }

  /** With unique ids, deleting a present record removes exactly one record. */
  lemma {:induction false} DeleteRemovesOne(rs: seq<BurialRecord>, k: nat)
    requires UniqueBy(rs, RecordKey) && k < |rs|
    ensures |DeleteRecord(rs, rs[k].id)| == |rs| - 1
  {
    UniqueTail(rs, RecordKey);
    if k == 0 {
      assert Filter(rs[1..], RecordIsNot(rs[0].id)) == rs[1..];
    } else {
      assert rs[k] == rs[1..][k - 1];
      assert RecordKey(rs[0]) != RecordKey(rs[k]);
      DeleteRemovesOne(rs[1..], k - 1);
    }
  }

  /** A record approved and later rejected ends rejected, still naming who
      approved it and when. */
  lemma ApproveThenReject(rs: seq<BurialRecord>, id: string, approvedBy: string, now: int, notes: string, i: nat)
    requires i < |rs| && rs[i].id == id
    ensures var r := RejectRecord(ApproveRecord(rs, id, approvedBy, now), id, notes);
            r[i].status == Rejected && r[i].approvedBy == Some(approvedBy) && r[i].approvedAt == Some(now)
            && r[i].notes == Some(notes) && SameSubject(r[i], rs[i])
  {
  }

  /** Review keeps ids, so it keeps them unique. */
  lemma UpdateKeepsIdsUnique(rs: seq<BurialRecord>, id: string, u: RecordPatch)
    requires UniqueBy(rs, RecordKey) && u.id.None?
    ensures UniqueBy(UpdateRecord(rs, id, u), RecordKey)
  {
    UniqueAlong(rs, RecordKey, UpdateRecord(rs, id, u), RecordKey);
  }

  /** The two records the register starts with, both already approved. */
  const SampleRecords: seq<BurialRecord> := [
    BurialRecord("1", "John Smith", "Thomas Smith", "2024-10-15", Male, 78, "Christianity", "1", "1",
                 Approved, 1729036800000, Some("admin"), Some(1729036800000), None),
    BurialRecord("2", "Mary Johnson", "Robert Johnson", "2024-10-20", Female, 65, "Christianity", "1", "2",
                 Approved, 1729468800000, Some("admin"), Some(1729468800000), None)
  ]
}

/** The burial-record provider: the record list is a field each operation
    replaces; approval and rejection go through the generic update. */
module BurialRecordContext {
  import opened Collections
  import opened BurialRegister

  class BurialRecordStore {
    var records: seq<BurialRecord>

    constructor ()
      ensures records == SampleRecords
      ensures UniqueBy(records, RecordKey)
    {
      records := SampleRecords;
    }

    method AddRecord(fields: RecordFields, id: string, now: int)
      modifies this
      ensures records == BurialRegister.AddRecord(old(records), fields, id, now)
      ensures old(UniqueBy(records, RecordKey)) && (forall x :: x in old(records) ==> x.id != id)
              ==> UniqueBy(records, RecordKey)
    {
      records := [NewRecord(fields, id, now)] + records;
    }

    method UpdateRecord(id: string, u: RecordPatch)
      modifies this
      ensures records == BurialRegister.UpdateRecord(old(records), id, u)
      ensures old(UniqueBy(records, RecordKey)) && u.id.None? ==> UniqueBy(records, RecordKey)
    {
      ghost var before := records;
      records := seq(|records|, i requires 0 <= i < |records| reads this =>
                       if records[i].id == id then MergeRecord(records[i], u) else records[i]);
      if UniqueBy(before, RecordKey) && u.id.None? {
        UpdateKeepsIdsUnique(before, id, u);
      }
    }

    method DeleteRecord(id: string)
      modifies this
      ensures records == BurialRegister.DeleteRecord(old(records), id)
      ensures old(UniqueBy(records, RecordKey)) ==> UniqueBy(records, RecordKey)
    {
      ghost var before := records;
      records := Filter(records, RecordIsNot(id));
      if UniqueBy(before, RecordKey) {
        FilterUnique(before, RecordIsNot(id), RecordKey);
      }
    }

    method ApproveRecord(id: string, approvedBy: string, now: int)
      modifies this
      ensures records == BurialRegister.ApproveRecord(old(records), id, approvedBy, now)
      ensures old(UniqueBy(records, RecordKey)) ==> UniqueBy(records, RecordKey)
    {
      UpdateRecord(id, ApprovalPatch(approvedBy, now));
    }

    method RejectRecord(id: string, notes: string)
      modifies this
      ensures records == BurialRegister.RejectRecord(old(records), id, notes)
      ensures old(UniqueBy(records, RecordKey)) ==> UniqueBy(records, RecordKey)
    {
      UpdateRecord(id, RejectionPatch(notes));
    }
  }
}
