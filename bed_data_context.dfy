/** The bed data store: which record is active on each bed, and the
    newest-first history of every record ever saved. */
module BedDataContext {
  import opened Types

  /** Bed id to active record; `None` (or no key) means the bed is empty. */
  type BedData = map<string, Option<AcupunctureRecord>>

  /** The full record `updateBedData` files: the input, plus the bed, with the
      needling time set to the scan time and no removal time yet. */
  function NewRecord(bedId: string, input: RecordInput): (r: AcupunctureRecord)
    ensures InputOf(r) == input
    ensures r.bedId == bedId
    ensures r.acupunctureTimestamp == Some(input.scanTimestamp)
    ensures r.removalTimestamp == None
  {
    AcupunctureRecord(input.patientId, bedId, input.counts, input.total, input.scanTimestamp,
                      Some(input.scanTimestamp), None,
                      input.moxibustionCount, input.cupping, input.electroacupuncturePairs,
                      input.remarks)
  }

  /** The composite key by which `clearBedData` finds history entries: scan
      time and patient. Bed, counts and removal time play no part. */
  predicate SameEpisode(a: AcupunctureRecord, b: AcupunctureRecord)
  {
    a.scanTimestamp == b.scanTimestamp && a.patientId == b.patientId
  }

  /** The active record with its removal time set; nothing else differs. */
  function WithRemoval(active: AcupunctureRecord, removalTime: string): (r: AcupunctureRecord)
    ensures r.removalTimestamp == Some(removalTime)
    ensures r.(removalTimestamp := active.removalTimestamp) == active
    ensures SameEpisode(r, active)
  {
    active.(removalTimestamp := Some(removalTime))
  }

  /** The history after clearing the bed whose active record is `active`:
      every entry of the same episode becomes `WithRemoval(active, removalTime)`. */
  function MarkRemoved(history: seq<AcupunctureRecord>, active: AcupunctureRecord,
                       removalTime: string): (r: seq<AcupunctureRecord>)
    ensures |r| == |history|
  {
    if history == [] then []
    else
      var head := if SameEpisode(history[0], active) then WithRemoval(active, removalTime)
                  else history[0];
      [head] + MarkRemoved(history[1..], active, removalTime)
  }

  /** Entry by entry: matching entries are replaced, all of them and not only
      the first, and every other entry stays where and what it was. */
  lemma {:induction false} MarkRemovedAt(history: seq<AcupunctureRecord>, active: AcupunctureRecord,
                                         removalTime: string, i: nat)
    requires i < |history|
    ensures MarkRemoved(history, active, removalTime)[i] ==
            if SameEpisode(history[i], active) then WithRemoval(active, removalTime)
            else history[i]
  {
    if i > 0 {
      MarkRemovedAt(history[1..], active, removalTime, i - 1);
    }
  }

  /** Composite-key collision: an entry of another bed that shares the active
      record's scan time and patient is overwritten with the active record,
      so it loses its own bed, counts and remarks. */
  lemma CollidingEntryTakesActiveRecord(history: seq<AcupunctureRecord>, active: AcupunctureRecord,
                                        removalTime: string, i: nat)
    requires i < |history| && SameEpisode(history[i], active)
    requires history[i].bedId != active.bedId
    ensures MarkRemoved(history, active, removalTime)[i].bedId == active.bedId
    ensures MarkRemoved(history, active, removalTime)[i].counts == active.counts
    ensures MarkRemoved(history, active, removalTime)[i].removalTimestamp == Some(removalTime)
  {
    MarkRemovedAt(history, active, removalTime, i);
  }

  /** No two history entries share a (scanTimestamp, patientId) key. */
  ghost predicate DistinctEpisodes(history: seq<AcupunctureRecord>)
  {
    forall i, j | 0 <= i < j < |history| :: !SameEpisode(history[i], history[j])
  }

  /** When keys are distinct, clearing amends exactly the one matching entry. */
  lemma ClearAmendsOnlyItsEpisode(history: seq<AcupunctureRecord>, active: AcupunctureRecord,
                                  removalTime: string, k: nat)
    requires DistinctEpisodes(history)
    requires k < |history| && SameEpisode(history[k], active)
    ensures MarkRemoved(history, active, removalTime)[k] == WithRemoval(active, removalTime)
    ensures forall j | 0 <= j < |history| && j != k ::
              MarkRemoved(history, active, removalTime)[j] == history[j]
  {
    MarkRemovedAt(history, active, removalTime, k);
    forall j | 0 <= j < |history| && j != k
      ensures MarkRemoved(history, active, removalTime)[j] == history[j]
    {
      MarkRemovedAt(history, active, removalTime, j);
      if j < k {
        assert !SameEpisode(history[j], history[k]);
      } else {
        assert !SameEpisode(history[k], history[j]);
      }
    }
  }

  /** An algebraic fact about the rewrite itself, not a reachable sequence of
      store operations (after one clear the bed is empty and a second clear
      does nothing): the amended record still matches its episode, so
      rewriting again with the same record and time leaves the history as it is. */
  lemma {:induction false} MarkRemovedIdempotent(history: seq<AcupunctureRecord>, active: AcupunctureRecord,
                              removalTime: string)
    ensures MarkRemoved(MarkRemoved(history, active, removalTime), active, removalTime)
            == MarkRemoved(history, active, removalTime)
  {
    var once := MarkRemoved(history, active, removalTime);
    var twice := MarkRemoved(once, active, removalTime);
    forall i | 0 <= i < |history| ensures twice[i] == once[i] {
      MarkRemovedAt(history, active, removalTime, i);
      MarkRemovedAt(once, active, removalTime, i);
    }
  }

  /** A record as `updateBedData` files it: needling starts at the scan time. */
  predicate Filed(r: AcupunctureRecord)
  {
    r.acupunctureTimestamp == Some(r.scanTimestamp)
  }

  /** The store invariant: every history entry was filed by `updateBedData`;
      the record active on bed b is filed under b, is not yet removed, and its
      episode is in the history. */
  ghost predicate WellFormed(beds: BedData, history: seq<AcupunctureRecord>)
  {
    && (forall i | 0 <= i < |history| :: Filed(history[i]))
    && (forall b | b in beds && beds[b].Some? ::
          && beds[b].value.bedId == b
          && Filed(beds[b].value)
          && beds[b].value.removalTimestamp == None
          && exists i | 0 <= i < |history| :: SameEpisode(history[i], beds[b].value))
  }

  lemma UpdatePreservesWellFormed(beds: BedData, history: seq<AcupunctureRecord>,
                                  bedId: string, input: RecordInput)
    requires WellFormed(beds, history)
    ensures WellFormed(beds[bedId := Some(NewRecord(bedId, input))],
                       [NewRecord(bedId, input)] + history)
  {
    var r := NewRecord(bedId, input);
    var beds', history' := beds[bedId := Some(r)], [r] + history;
    forall b | b in beds' && beds'[b].Some?
      ensures exists i | 0 <= i < |history'| :: SameEpisode(history'[i], beds'[b].value)
    {
      if b == bedId {
        assert SameEpisode(history'[0], r);
      } else {
        var i :| 0 <= i < |history| && SameEpisode(history[i], beds[b].value);
        assert history'[i + 1] == history[i];
      }
    }
  }

  lemma ClearPreservesWellFormed(beds: BedData, history: seq<AcupunctureRecord>,
                                 bedId: string, removalTime: string)
    requires WellFormed(beds, history)
    requires bedId in beds && beds[bedId].Some?
    ensures WellFormed(beds[bedId := None],
                       MarkRemoved(history, beds[bedId].value, removalTime))
  {
    var active := beds[bedId].value;
    var beds', history' := beds[bedId := None], MarkRemoved(history, active, removalTime);
    forall i | 0 <= i < |history'| ensures Filed(history'[i]) {
      MarkRemovedAt(history, active, removalTime, i);
    }
    forall b | b in beds' && beds'[b].Some?
      ensures exists i | 0 <= i < |history'| :: SameEpisode(history'[i], beds'[b].value)
    {
      var i :| 0 <= i < |history| && SameEpisode(history[i], beds[b].value);
      MarkRemovedAt(history, active, removalTime, i);
      assert SameEpisode(history'[i], beds'[b].value);
    }
  }

  /** In a well-formed store, clearing an occupied bed does stamp the history:
      some entry becomes the active record with the removal time. */
  lemma ClearStampsActiveEpisode(beds: BedData, history: seq<AcupunctureRecord>,
                                 bedId: string, removalTime: string)
    requires WellFormed(beds, history)
    requires bedId in beds && beds[bedId].Some?
    ensures exists i | 0 <= i < |history| ::
              MarkRemoved(history, beds[bedId].value, removalTime)[i]
              == WithRemoval(beds[bedId].value, removalTime)
  {
    var active := beds[bedId].value;
    var i :| 0 <= i < |history| && SameEpisode(history[i], active);
    MarkRemovedAt(history, active, removalTime, i);
  }

  /** The provider's state: the two values it keeps in local storage. */
  class BedDataStore {
    var beds: BedData
    var history: seq<AcupunctureRecord>

    ghost predicate Valid()
      reads this
    {
      WellFormed(beds, history)
    }

    /** The defaults used when nothing is stored yet. */
    constructor ()
      ensures beds == map[] && history == []
      ensures Valid()
    {
      beds := map[];
      history := [];
    }

    /** Files `record` on `bedId`, replacing whatever was active there without
        any check, and puts the new record at the front of the history. */
    method UpdateBedData(bedId: string, record: RecordInput)
      modifies this
      ensures beds == old(beds)[bedId := Some(NewRecord(bedId, record))]
      ensures history == [NewRecord(bedId, record)] + old(history)
      ensures |history| == |old(history)| + 1 && history[1..] == old(history)
      ensures old(Valid()) ==> Valid()
    {
      ghost var wasValid := Valid();
      ghost var beds0, history0 := beds, history;
      var newRecord := NewRecord(bedId, record);
      beds := beds[bedId := Some(newRecord)];
      history := [newRecord] + history;
      if wasValid {
        UpdatePreservesWellFormed(beds0, history0, bedId, record);
      }
    }

    /** Empties `bedId`, stamping its episode in the history with
        `removalTime` (the clock reading); does nothing on an empty bed. */
    method ClearBedData(bedId: string, removalTime: string)
      modifies this
      ensures old(bedId !in beds || beds[bedId].None?) ==>
                beds == old(beds) && history == old(history)
      ensures old(bedId in beds && beds[bedId].Some?) ==>
                && beds == old(beds)[bedId := None]
                && history == MarkRemoved(old(history), old(beds[bedId].value), removalTime)
      ensures |history| == |old(history)|
      ensures old(Valid()) ==> Valid()
    {
      if bedId !in beds || beds[bedId].None? {
        return;
      }
      ghost var wasValid := Valid();
      ghost var beds0, history0 := beds, history;
      var activeRecord := beds[bedId].value;
      history := MarkRemoved(history, activeRecord, removalTime);
      beds := beds[bedId := None];
      if wasValid {
        ClearPreservesWellFormed(beds0, history0, bedId, removalTime);
      }
    }
  }
}
