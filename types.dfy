/** The record shape shared by the store and the intake form. */
module Types {
  import opened Constants

  datatype Option<T> = None | Some(value: T)

  /** Needle count per body region; a complete record has an entry for each region. */
  type NeedleCounts = map<BodyPart, nat>

  predicate Complete(counts: NeedleCounts)
  {
    forall p: BodyPart :: p in counts
  }

  /** One treatment episode. Timestamps are ISO-8601 strings, treated as opaque. */
  datatype AcupunctureRecord = AcupunctureRecord(
    patientId: string,
    bedId: string,
    counts: NeedleCounts,
    total: nat,
    scanTimestamp: string,
    acupunctureTimestamp: Option<string>,
    removalTimestamp: Option<string>,
    moxibustionCount: nat,
    cupping: bool,
    electroacupuncturePairs: nat,
    remarks: string)

  /** What a caller hands to the store: a record without `bedId`,
      `acupunctureTimestamp` and `removalTimestamp`, which the store fills in. */
  datatype RecordInput = RecordInput(
    patientId: string,
    counts: NeedleCounts,
    total: nat,
    scanTimestamp: string,
    moxibustionCount: nat,
    cupping: bool,
    electroacupuncturePairs: nat,
    remarks: string)

  /** The caller-supplied part of a record. */
  function InputOf(r: AcupunctureRecord): RecordInput
  {
    RecordInput(r.patientId, r.counts, r.total, r.scanTimestamp,
                r.moxibustionCount, r.cupping, r.electroacupuncturePairs, r.remarks)
  }
}
