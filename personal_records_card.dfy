/**
 * The personal-records card: records with any positive field are listed, each
 * typed by its first positive field.
 *
 * `getPersonalRecords` and `formatDate` are not part of this model: the records
 * are the input and the card keeps the record's date as a flag.
 */
module PersonalRecordsCard {
  import opened Common
  import opened Seqs

  datatype PersonalRecord = PersonalRecord(weight: real, reps: real, volume: real, date: Option<int>)

  datatype RecordKind = WeightRecord | RepsRecord | VolumeRecord

  /** `record.weight > 0 || record.reps > 0 || record.volume > 0`. */
  predicate IsValid(r: PersonalRecord)
  {
    r.weight > 0.0 || r.reps > 0.0 || r.volume > 0.0
  }

  /** The type of a record, none when no field is positive (`recordType` stays ""). */
  function KindOf(r: PersonalRecord): Option<RecordKind>
  {
    if r.weight > 0.0 then Some(WeightRecord)
    else if r.reps > 0.0 then Some(RepsRecord)
    else if r.volume > 0.0 then Some(VolumeRecord)
    else None
  }

  /** A record is typed by its first positive field: weight, then reps, then volume. */
  lemma KindOfSpec(r: PersonalRecord)
    ensures KindOf(r) == Some(WeightRecord) <==> r.weight > 0.0
    ensures KindOf(r) == Some(RepsRecord) <==> r.weight <= 0.0 && r.reps > 0.0
    ensures KindOf(r) == Some(VolumeRecord) <==> r.weight <= 0.0 && r.reps <= 0.0 && r.volume > 0.0
    ensures KindOf(r).None? <==> !IsValid(r)
  {
  }

  /** A listed record: its type, its shown value and whether a date is shown. */
  datatype RecordRow = RecordRow(kind: RecordKind, value: real, showsDate: bool)

  /** The row of a record, or `null` when it has no type. */
  function RowOf(r: PersonalRecord): Option<RecordRow>
  {
    match KindOf(r)
    case None => None
    case Some(WeightRecord) => Some(RecordRow(WeightRecord, r.weight, r.date.Some?))
    case Some(RepsRecord) => Some(RecordRow(RepsRecord, r.reps, r.date.Some?))
    case Some(VolumeRecord) => Some(RecordRow(VolumeRecord, r.volume, r.date.Some?))
  }

  /** The rows the list renders: `null` rows render nothing. */
  function Rows(records: seq<PersonalRecord>): seq<RecordRow>
  {
    if records == [] then []
    else
      var rest := Rows(records[..|records| - 1]);
      var row := RowOf(records[|records| - 1]);
      if row.Some? then rest + [row.value] else rest
  }

  datatype Rendered = Nothing | Card(rows: seq<RecordRow>)

  function Render(records: seq<PersonalRecord>): Rendered
  {
    var valid := Filter(records, IsValid);
    if |valid| == 0 then Nothing else Card(Rows(valid))
  }

  /**
   * Every valid record yields a row, in order: the guard against an empty type
   * never drops one, and a row shows the record's first positive field and its
   * date exactly when the record has one.
   */
  lemma {:induction false} RowsOfValid(records: seq<PersonalRecord>)
    requires forall i :: 0 <= i < |records| ==> IsValid(records[i])
    ensures |Rows(records)| == |records|
    ensures forall i :: 0 <= i < |records| ==>
      && Some(Rows(records)[i].kind) == KindOf(records[i])
      && Rows(records)[i].showsDate == records[i].date.Some?
      && Rows(records)[i].value > 0.0
    ensures forall i :: 0 <= i < |records| ==>
      Rows(records)[i].value ==
        (if records[i].weight > 0.0 then records[i].weight
         else if records[i].reps > 0.0 then records[i].reps
         else records[i].volume)
  {
    if records != [] {
      RowsOfValid(records[..|records| - 1]);
    }
  }

  /**
   * Nothing is rendered exactly when no record is valid; otherwise one row per
   * valid record, in input order.
   */
  lemma RenderSpec(records: seq<PersonalRecord>)
    ensures Render(records).Nothing? <==> forall i :: 0 <= i < |records| ==> !IsValid(records[i])
    ensures Render(records).Card? ==> |Render(records).rows| == |Filter(records, IsValid)|
  {
    var valid := Filter(records, IsValid);
    RowsOfValid(valid);
    if exists i :: 0 <= i < |records| && IsValid(records[i]) {
      var i :| 0 <= i < |records| && IsValid(records[i]);
      FilterMember(records, IsValid, records[i]);
    }
  }
}
