/** The per-day sentiment log kept in the browser's local storage
    (`updateProgress` in GenAi/src/components/chat.tsx). */
module Progress {
  import opened Types

  /** Index of the first record keyed by `today`, or -1: `records.findIndex(r => r.date === today)`. */
  function IndexOfDate(records: seq<ProgressRecord>, today: string): (i: int)
    ensures -1 <= i < |records|
    ensures i == -1 <==> !HasDate(records, today)
    ensures 0 <= i ==> records[i].date == today && forall k :: 0 <= k < i ==> records[k].date != today
  {
    if records == [] then -1
    else if records[0].date == today then 0
    else
      var j := IndexOfDate(records[1..], today);
      if j == -1 then -1 else j + 1
  }

  predicate HasDate(records: seq<ProgressRecord>, today: string)
  {
    exists k :: 0 <= k < |records| && records[k].date == today
  }

  /** No two records share a date key. */
  predicate UniqueDates(records: seq<ProgressRecord>)
  {
    forall i, j :: 0 <= i < j < |records| ==> records[i].date != records[j].date
  }

  /** A record after one more sample: the incremental mean, one more count. */
  function Bump(r: ProgressRecord, score: real): ProgressRecord
  {
    r.(sentiment := (r.sentiment * r.count as real + score) / (r.count + 1) as real, count := r.count + 1)
  }

  /** `Bump` is the two field updates `updateProgress` makes on the record it found. */
  lemma BumpIsInPlaceUpdate(r: ProgressRecord, score: real, mean: real)
    requires mean == (r.sentiment * r.count as real + score) / (r.count + 1) as real
    ensures Bump(r, score) == r.(sentiment := mean).(count := r.count + 1)
  {
  }

  /** The stored collection after recording `score` on day `today`. */
  function Upsert(records: seq<ProgressRecord>, today: string, score: real): seq<ProgressRecord>
  {
    var i := IndexOfDate(records, today);
    if i > -1 then records[i := Bump(records[i], score)]
    else records + [ProgressRecord(today, score, 1)]
  }

  /** When today's record exists, only it changes: its count grows by one and its sentiment
      becomes the incremental mean; the length and every other record stay as they were. */
  lemma UpsertExisting(records: seq<ProgressRecord>, today: string, score: real)
    requires HasDate(records, today)
    ensures 0 <= IndexOfDate(records, today)
    ensures |Upsert(records, today, score)| == |records|
    ensures var i := IndexOfDate(records, today); var prev := records[i];
      Upsert(records, today, score)[i] ==
        ProgressRecord(today, (prev.sentiment * prev.count as real + score) / (prev.count + 1) as real, prev.count + 1)
    ensures var i := IndexOfDate(records, today);
      forall k :: 0 <= k < |records| && k != i ==> Upsert(records, today, score)[k] == records[k]
  {
  }

  /** Without a record for today, exactly one fresh record is appended at the end. */
  lemma UpsertNew(records: seq<ProgressRecord>, today: string, score: real)
    requires !HasDate(records, today)
    ensures Upsert(records, today, score) == records + [ProgressRecord(today, score, 1)]
  {
  }

  /** Date keys that were unique stay unique, and today now has its record. */
  lemma UpsertKeepsDatesUnique(records: seq<ProgressRecord>, today: string, score: real)
    requires UniqueDates(records)
    ensures UniqueDates(Upsert(records, today, score))
    ensures HasDate(Upsert(records, today, score), today)
  {
    var r := Upsert(records, today, score);
    var i := IndexOfDate(records, today);
    if i > -1 {
      assert r[i].date == today;
    } else {
      assert r[|records|].date == today;
    }
  }

  function Sum(xs: seq<real>): real
  {
    if xs == [] then 0.0 else Sum(xs[..|xs| - 1]) + xs[|xs| - 1]
  }

  /** The collection after recording every score of `scores`, in order, on day `today`. */
  function UpsertAll(records: seq<ProgressRecord>, today: string, scores: seq<real>): seq<ProgressRecord>
  {
    if scores == [] then records
    else Upsert(UpsertAll(records, today, scores[..|scores| - 1]), today, scores[|scores| - 1])
  }

  /** Starting from no record for today, n updates leave one new record at the end whose count
      is n and whose sentiment is the arithmetic mean of the n scores. */
  lemma {:induction false} DailyMean(records: seq<ProgressRecord>, today: string, scores: seq<real>)
    requires !HasDate(records, today)
    requires scores != []
    ensures var r := UpsertAll(records, today, scores);
      |r| == |records| + 1 && r[..|records|] == records &&
      r[|records|] == ProgressRecord(today, Sum(scores) / |scores| as real, |scores|)
  {
    var n := |scores|;
    var init, x := scores[..n - 1], scores[n - 1];
    var m := |records|;
    if n == 1 {
      assert init == [];
      assert Sum(scores) == x;
    } else {
      DailyMean(records, today, init);
      var before := UpsertAll(records, today, init);
      forall k | 0 <= k < m ensures before[k].date != today {
        assert before[k] == before[..m][k];
      }
      assert IndexOfDate(before, today) == m;
      assert Sum(scores) == Sum(init) + x;
      MeanStep(today, Sum(init), n - 1, x);
      assert UpsertAll(records, today, scores) == before[m := Bump(before[m], x)];
    }
  }

  /** One more sample on a record that holds the mean of `c` samples summing to `total`. */
  lemma MeanStep(today: string, total: real, c: nat, x: real)
    requires c > 0
    ensures Bump(ProgressRecord(today, total / c as real, c), x) == ProgressRecord(today, (total + x) / (c + 1) as real, c + 1)
  {
    assert total / c as real * c as real == total;
  }

  /** The stored progress collection. Reading, parsing and writing local storage are not
      modelled; `storageOk` says whether all three succeeded. */
  class ProgressStore {
    var records: seq<ProgressRecord>

    constructor (stored: seq<ProgressRecord>)
      ensures records == stored
    {
      records := stored;
    }

    /** Record one sentiment score for `today`; a storage or parse failure leaves the
        stored collection as it was. */
    method UpdateProgress(score: real, today: string, storageOk: bool)
      modifies this
      ensures records == if storageOk then Upsert(old(records), today, score) else old(records)
    {
      if !storageOk {
        return;
      }
      var i := IndexOfDate(records, today);
      if i > -1 {
        var record := records[i];
        ghost var original := record;
        var mean := (record.sentiment * record.count as real + score) / (record.count + 1) as real;
        record := record.(sentiment := mean);
        record := record.(count := record.count + 1);
        BumpIsInPlaceUpdate(original, score, mean);
        assert record == ProgressRecord(original.date, mean, original.count + 1);
        records := records[i := record];
      } else {
        records := records + [ProgressRecord(today, score, 1)];
      }
    }
  }
}
