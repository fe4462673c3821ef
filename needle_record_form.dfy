/** The intake form: needle counts per body region, the extras, the chosen
    bed, and the record it hands to the store on submission. */
module NeedleRecordForm {
  import opened Constants
  import opened Types
  import BedDataContext

  /** Each region's count is picked from 0..30. */
  const MaxNeedlesPerPart: nat := 30
  /** Moxibustion count and electroacupuncture pairs are picked from 0..10. */
  const MaxExtraCount: nat := 10

  /** The counts map built by folding over `parts`, each region set to 0. */
  function ZeroCounts(parts: seq<BodyPart>): (c: NeedleCounts)
    ensures forall p :: p in c <==> p in parts
    ensures forall p | p in c :: c[p] == 0
  {
    if parts == [] then map[]
    else
      var last := |parts| - 1;
      assert parts == parts[..last] + [parts[last]];
      ZeroCounts(parts[..last])[parts[last] := 0]
  }

  /** The counts a fresh form starts with: every region present, every count 0. */
  function InitialCounts(): (c: NeedleCounts)
    ensures Complete(c)
    ensures forall p :: c[p] == 0
  {
    BodyPartsComplete();
    ZeroCounts(BodyParts)
  }

  lemma BodyPartsComplete()
    ensures forall p: BodyPart :: p in BodyParts
  {
    forall p: BodyPart ensures p in BodyParts {
      BodyPartsListEachOnce(p);
    }
  }

  /** Sum of the counts of `parts`, accumulated front to back from 0. */
  function SumOver(parts: seq<BodyPart>, counts: NeedleCounts): nat
    requires forall p | p in parts :: p in counts
  {
    if parts == [] then 0 else counts[parts[0]] + SumOver(parts[1..], counts)
  }

  /** The `total` saved with a record: the sum over all seven regions. It
      accounts for every region's count, and is 0 exactly when no needle was
      counted anywhere. */
  function Total(counts: NeedleCounts): (r: nat)
    requires Complete(counts)
    ensures forall p: BodyPart :: counts[p] <= r
    ensures r == 0 <==> forall p: BodyPart :: counts[p] == 0
  {
    SumOverCoversEachPart(BodyParts, counts);
    SumOverZeroIff(BodyParts, counts);
    BodyPartsComplete();
    SumOver(BodyParts, counts)
  }

  /** The sum is 0 exactly when every listed region's count is 0. */
  lemma SumOverZeroIff(parts: seq<BodyPart>, counts: NeedleCounts)
    requires forall p | p in parts :: p in counts
    ensures SumOver(parts, counts) == 0 <==> forall p | p in parts :: counts[p] == 0
  {
    SumOverCoversEachPart(parts, counts);
    if forall p | p in parts :: counts[p] == 0 {
      SumOverZero(parts, counts);
    }
  }

  /** Each listed region's count is part of the sum. */
  lemma SumOverCoversEachPart(parts: seq<BodyPart>, counts: NeedleCounts)
    requires forall p | p in parts :: p in counts
    ensures forall p | p in parts :: counts[p] <= SumOver(parts, counts)
  {
    forall p | p in parts ensures counts[p] <= SumOver(parts, counts) {
      var k :| 0 <= k < |parts| && parts[k] == p;
      SumOverRemove(parts, k, counts);
    }
  }

  lemma {:induction false} SumOverRemove(parts: seq<BodyPart>, k: nat, counts: NeedleCounts)
    requires k < |parts|
    requires forall p | p in parts :: p in counts
    ensures SumOver(parts, counts) == counts[parts[k]] + SumOver(parts[..k] + parts[k + 1..], counts)
  {
    if k == 0 {
      assert parts[..0] + parts[1..] == parts[1..];
    } else {
      var tail := parts[1..];
      SumOverRemove(tail, k - 1, counts);
      assert parts[..k] + parts[k + 1..] == [parts[0]] + (tail[..k - 1] + tail[k..]);
    }
  }

  /** The sum does not depend on the order the regions are enumerated in, so
      summing the values of the counts object in key order gives `Total`. */
  lemma {:induction false} SumOverPermutation(a: seq<BodyPart>, b: seq<BodyPart>, counts: NeedleCounts)
    requires multiset(a) == multiset(b)
    requires forall p | p in a :: p in counts
    ensures forall p | p in b :: p in counts
    ensures SumOver(a, counts) == SumOver(b, counts)
  {
    forall p | p in b ensures p in counts {
      assert p in multiset(b);
    }
    if a == [] {
      assert |b| == |multiset(b)| == 0;
    } else {
      var x := a[0];
      assert x in multiset(b);
      var k :| 0 <= k < |b| && b[k] == x;
      var rest := b[..k] + b[k + 1..];
      SumOverRemove(b, k, counts);
      assert b == b[..k] + [b[k]] + b[k + 1..];
      assert multiset(b) == multiset(b[..k]) + multiset{x} + multiset(b[k + 1..]);
      assert a == [x] + a[1..];
      assert multiset(a) == multiset{x} + multiset(a[1..]);
      assert multiset(rest) == multiset(b[..k]) + multiset(b[k + 1..]);
      assert multiset(a[1..]) == multiset(a) - multiset{x};
      assert multiset(rest) == multiset(b) - multiset{x};
      SumOverPermutation(a[1..], rest, counts);
    }
  }

  lemma TotalIndependentOfOrder(order: seq<BodyPart>, counts: NeedleCounts)
    requires Complete(counts)
    requires multiset(order) == multiset(BodyParts)
    ensures forall p | p in order :: p in counts
    ensures SumOver(order, counts) == Total(counts)
  {
    SumOverPermutation(BodyParts, order, counts);
  }

  lemma {:induction false} SumOverBound(parts: seq<BodyPart>, counts: NeedleCounts, m: nat)
    requires forall p | p in parts :: p in counts && counts[p] <= m
    ensures SumOver(parts, counts) <= |parts| * m
  {
    if parts != [] {
      SumOverBound(parts[1..], counts, m);
      assert |parts| * m == (|parts| - 1) * m + m;
    }
  }

  /** Every region within 0..30. */
  predicate CountsInRange(counts: NeedleCounts)
  {
    forall p: BodyPart :: p in counts && counts[p] <= MaxNeedlesPerPart
  }

  /** With each count picked from 0..30, the total lies in 0..210. */
  lemma TotalAtMost(counts: NeedleCounts)
    requires CountsInRange(counts)
    ensures Total(counts) <= 210
  {
    SumOverBound(BodyParts, counts, MaxNeedlesPerPart);
  }

  lemma {:induction false} SumOverUpdate(parts: seq<BodyPart>, counts: NeedleCounts, part: BodyPart, value: nat)
    requires part in counts
    requires forall p | p in parts :: p in counts
    requires multiset(parts)[part] <= 1
    ensures SumOver(parts, counts[part := value]) ==
            if part in parts then SumOver(parts, counts) - counts[part] + value
            else SumOver(parts, counts)
  {
    if parts != [] {
      assert parts == [parts[0]] + parts[1..];
      assert multiset(parts) == multiset{parts[0]} + multiset(parts[1..]);
      SumOverUpdate(parts[1..], counts, part, value);
      if parts[0] == part {
        assert part !in multiset(parts[1..]);
      }
    }
  }

  /** Changing one region's count moves the total by exactly the difference. */
  lemma TotalAfterCountChange(counts: NeedleCounts, part: BodyPart, value: nat)
    requires Complete(counts)
    ensures Complete(counts[part := value])
    ensures Total(counts[part := value]) == Total(counts) - counts[part] + value
  {
    SumOverUpdate(BodyParts, counts, part, value);
    BodyPartsListEachOnce(part);
  }

  lemma {:induction false} SumOverZero(parts: seq<BodyPart>, counts: NeedleCounts)
    requires forall p | p in parts :: p in counts && counts[p] == 0
    ensures SumOver(parts, counts) == 0
  {
    if parts != [] {
      SumOverZero(parts[1..], counts);
    }
  }

  /** A fresh form totals 0. */
  lemma TotalOfInitialCounts()
    ensures Total(InitialCounts()) == 0
  {
    SumOverZero(BodyParts, InitialCounts());
  }

  function Digit(d: nat): char
    requires d < 10
  {
    (('0' as int) + d) as char
  }

  /** The decimal numeral of `n`, as the bed option values render it. */
  function DecimalString(n: nat): (s: string)
    ensures |s| >= 1
    ensures n >= 10 ==> |s| >= 2
  {
    if n < 10 then [Digit(n)] else DecimalString(n / 10) + [Digit(n % 10)]
  }

  /** Distinct bed numbers render as distinct strings. */
  lemma {:induction false} DecimalStringInjective(m: nat, n: nat)
    requires DecimalString(m) == DecimalString(n)
    ensures m == n
  {
    var s := DecimalString(m);
    if m >= 10 && n >= 10 {
      assert s[..|s| - 1] == DecimalString(m / 10) == DecimalString(n / 10);
      DecimalStringInjective(m / 10, n / 10);
      assert s[|s| - 1] == Digit(m % 10) == Digit(n % 10);
    }
  }

  /** The values of the bed selector: "1" up to "20". */
  function BedOptions(): (options: seq<string>)
    ensures |options| == BedCount
  {
    seq(BedCount, i requires 0 <= i < BedCount => DecimalString(i + 1))
  }

  /** The bed options name distinct beds, and the default "1" is the first. */
  lemma BedOptionsDistinct()
    ensures BedOptions()[0] == "1"
    ensures forall i, j | 0 <= i < j < BedCount :: BedOptions()[i] != BedOptions()[j]
  {
    forall i, j | 0 <= i < j < BedCount ensures BedOptions()[i] != BedOptions()[j] {
      if BedOptions()[i] == BedOptions()[j] {
        DecimalStringInjective(i + 1, j + 1);
      }
    }
  }

  /** The form component's state for one scanned patient. */
  class Form {
    const patientId: string
    var counts: NeedleCounts
    var selectedBed: string
    var moxibustionCount: nat
    var cupping: bool
    var electroacupuncturePairs: nat
    var remarks: string
    var submitted: bool

    /** Every field holds a value its widget offers. */
    ghost predicate Valid()
      reads this
    {
      && CountsInRange(counts)
      && selectedBed in BedOptions()
      && moxibustionCount <= MaxExtraCount
      && electroacupuncturePairs <= MaxExtraCount
    }

    constructor (patientId: string)
      ensures this.patientId == patientId
      ensures counts == InitialCounts() && selectedBed == "1"
      ensures moxibustionCount == 0 && !cupping && electroacupuncturePairs == 0
      ensures remarks == "" && !submitted
      ensures Valid()
    {
      this.patientId := patientId;
      counts := InitialCounts();
      selectedBed := "1";
      moxibustionCount := 0;
      cupping := false;
      electroacupuncturePairs := 0;
      remarks := "";
      submitted := false;
      BedOptionsDistinct();
    }

    /** A region's selector changed to `value` (one of its options 0..30). */
    method HandleCountChange(part: BodyPart, value: nat)
      requires Valid() && value <= MaxNeedlesPerPart
      modifies this`counts
      ensures counts == old(counts)[part := value]
      ensures Total(counts) == old(Total(counts)) - old(counts[part]) + value
      ensures Valid()
    {
      TotalAfterCountChange(counts, part, value);
      counts := counts[part := value];
    }

    method SelectBed(bed: string)
      requires Valid() && bed in BedOptions()
      modifies this`selectedBed
      ensures selectedBed == bed && Valid()
    {
      selectedBed := bed;
    }

    method SetMoxibustionCount(n: nat)
      requires Valid() && n <= MaxExtraCount
      modifies this`moxibustionCount
      ensures moxibustionCount == n && Valid()
    {
      moxibustionCount := n;
    }

    method SetCupping(checked: bool)
      requires Valid()
      modifies this`cupping
      ensures cupping == checked && Valid()
    {
      cupping := checked;
    }

    method SetElectroacupuncturePairs(n: nat)
      requires Valid() && n <= MaxExtraCount
      modifies this`electroacupuncturePairs
      ensures electroacupuncturePairs == n && Valid()
    {
      electroacupuncturePairs := n;
    }

    method SetRemarks(text: string)
      requires Valid()
      modifies this`remarks
      ensures remarks == text && Valid()
    {
      remarks := text;
    }

    /** The record handed to the store: the form's fields passed through
        unchanged, with the total of the counts and the scan time. */
    function Payload(scanTimestamp: string): (r: RecordInput)
      reads this
      requires CountsInRange(counts)
      ensures r.patientId == patientId && r.counts == counts && r.scanTimestamp == scanTimestamp
      ensures r.moxibustionCount == moxibustionCount && r.cupping == cupping
      ensures r.electroacupuncturePairs == electroacupuncturePairs && r.remarks == remarks
      ensures r.total == Total(r.counts) && r.total <= 210
    {
      TotalAtMost(counts);
      RecordInput(patientId, counts, Total(counts), scanTimestamp,
                  moxibustionCount, cupping, electroacupuncturePairs, remarks)
    }

    /** Saves the payload on the selected bed; `scanTimestamp` is the clock
        reading at submission. */
    method HandleSubmit(store: BedDataContext.BedDataStore, scanTimestamp: string)
      requires Valid()
      modifies this`submitted, store
      ensures submitted
      ensures store.beds ==
              old(store.beds)[selectedBed := Some(BedDataContext.NewRecord(selectedBed, Payload(scanTimestamp)))]
      ensures store.history ==
              [BedDataContext.NewRecord(selectedBed, Payload(scanTimestamp))] + old(store.history)
      ensures old(store.Valid()) ==> store.Valid()
      ensures Valid()
    {
      store.UpdateBedData(selectedBed, Payload(scanTimestamp));
      submitted := true;
    }
  }
}
