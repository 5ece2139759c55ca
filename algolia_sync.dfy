/** The Algolia sync script (scripts/sync-algolia.ts): the paged read of the
    active jobs, the records with their `objectID`, and the upload in
    chunks. The active rows of the `jobs` table are the input `table`, each
    `range(from, to)` query answers with the rows `from..to` of it, and
    `failing(k)` says whether the `k`-th query (from 0) reports an error. The
    index settings and the final statistics search are not part of this
    model. */
module AlgoliaSync {
  import opened Util
  import Rows

  const BatchSize := 1000
  const ChunkSize := 1000

  // ---------------------------------------------------------------------------
  // Reading the table

  /** `.range(from, to)`: the rows `from` to `to`, both included, as far as
      the table goes. */
  function Range(table: seq<Rows.Job>, from: nat, to: nat): (r: seq<Rows.Job>)
    requires from <= to + 1
    ensures from < |table| ==> r == table[from..if to + 1 < |table| then to + 1 else |table|]
    ensures from >= |table| ==> r == []
  {
    if from >= |table| then []
    else if to + 1 < |table| then table[from..to + 1]
    else table[from..]
  }

  /** The number of queries the loop makes on a table of `n` rows. */
  function Queries(n: nat): nat {
    n / BatchSize + 1
  }

  /** The `while (hasMore)` loop: every active row, in table order, after
      `Queries(|table|)` queries; or nothing, when one of those queries fails,
      after that query. */
  method FetchAll(table: seq<Rows.Job>, failing: nat -> bool) returns (jobs: Option<seq<Rows.Job>>, calls: nat)
    ensures jobs.Some? ==> jobs.value == table && calls == Queries(|table|)
    ensures jobs.Some? <==> forall k :: 0 <= k < Queries(|table|) ==> !failing(k)
    ensures jobs.None? ==> 0 < calls <= Queries(|table|) && failing(calls - 1)
    ensures jobs.None? ==> forall k :: 0 <= k < calls - 1 ==> !failing(k)
  {
    var allJobs: seq<Rows.Job> := [];
    var from: nat := 0;
    var hasMore := true;
    calls := 0;
    while hasMore
      invariant hasMore ==> from == BatchSize * calls && from <= |table| && allJobs == table[..from]
      invariant !hasMore ==> allJobs == table && calls == Queries(|table|)
      invariant calls <= Queries(|table|)
      invariant forall k :: 0 <= k < calls ==> !failing(k)
      decreases |table| - from + (if hasMore then 1 else 0), hasMore
    {
      if failing(calls) {
        return None, calls + 1;
      }
      var data := Range(table, from, from + BatchSize - 1);
      calls := calls + 1;
      if |data| > 0 {
        allJobs := allJobs + data;
        assert allJobs == table[..from + |data|];
        from := from + BatchSize;
        if |data| < BatchSize {
          hasMore := false;
        }
      } else {
        hasMore := false;
      }
    }
    jobs := Some(allJobs);
  }

  // ---------------------------------------------------------------------------
  // Records and chunks

  /** A job with `objectID: job.id` added. */
  datatype Record = Record(job: Rows.Job, objectID: string)

  function Records(jobs: seq<Rows.Job>): (r: seq<Record>)
    ensures |r| == |jobs|
    ensures forall i :: 0 <= i < |jobs| ==> r[i].job == jobs[i] && r[i].objectID == jobs[i].id
  {
    seq(|jobs|, i requires 0 <= i < |jobs| => Record(jobs[i], jobs[i].id))
  }

  /** `Math.ceil(n / size)`. */
  function ChunkCount(n: nat): nat {
    (n + ChunkSize - 1) / ChunkSize
  }

  /** Each chunk holds one to 1000 records and is the slice of the records
      at its position, 1000 times its index. */
  ghost predicate Slices<T>(chunks: seq<seq<T>>, records: seq<T>) {
    forall k :: 0 <= k < |chunks| ==>
      && 0 < |chunks[k]| <= ChunkSize
      && k * ChunkSize + |chunks[k]| <= |records|
      && chunks[k] == records[k * ChunkSize..k * ChunkSize + |chunks[k]|]
  }

  /** The next slice, pushed after the chunks so far, keeps them slices of
      the records. */
  lemma PushSlice<T>(chunks: seq<seq<T>>, records: seq<T>, i: nat, end: int)
    requires i == |chunks| * ChunkSize
    requires i < end <= |records| && end <= i + ChunkSize
    requires Slices(chunks, records)
    ensures Slices(chunks + [records[i..end]], records)
  {
    var next := chunks + [records[i..end]];
    forall k | 0 <= k < |next|
      ensures 0 < |next[k]| <= ChunkSize
      ensures k * ChunkSize + |next[k]| <= |records|
      ensures next[k] == records[k * ChunkSize..k * ChunkSize + |next[k]|]
    {
      if k < |chunks| {
        assert next[k] == chunks[k];
      } else {
        assert k == |chunks| && |next[k]| == end - i;
      }
    }
  }

  /** One more chunk at the end puts its records at the end. */
  lemma {:induction false} ConcatSnoc<T>(chunks: seq<seq<T>>, c: seq<T>)
    ensures Concat(chunks + [c]) == Concat(chunks) + c
  {
    if chunks == [] {
      assert chunks + [c] == [c];
      assert Concat([c]) == c + Concat([c][1..]);
    } else {
      assert (chunks + [c])[1..] == chunks[1..] + [c];
      ConcatSnoc(chunks[1..], c);
    }
  }

  /** The next slice, pushed after the chunks so far, extends their
      concatenation to its end. */
  lemma ConcatPush<T>(chunks: seq<seq<T>>, records: seq<T>, i: nat, end: int)
    requires i < end <= |records|
    requires Concat(chunks) == records[..i]
    ensures Concat(chunks + [records[i..end]]) == records[..end]
  {
    ConcatSnoc(chunks, records[i..end]);
    assert records[..end] == records[..i] + records[i..end];
  }

  /** The `for` loop pushing `records.slice(i, i + chunkSize)`: consecutive
      chunks of at most 1000 records, none empty, `ceil(n / 1000)` of them,
      which put back together are the records. */
  method Chunk<T>(records: seq<T>) returns (chunks: seq<seq<T>>)
    ensures |chunks| == ChunkCount(|records|)
    ensures Concat(chunks) == records
    ensures forall k :: 0 <= k < |chunks| ==> 0 < |chunks[k]| <= ChunkSize
    ensures forall k :: 0 <= k < |chunks| ==>
      k * ChunkSize + |chunks[k]| <= |records| && chunks[k] == records[k * ChunkSize..k * ChunkSize + |chunks[k]|]
  {
    chunks := [];
    var i := 0;
    while i < |records|
      invariant i == |chunks| * ChunkSize
      invariant |chunks| > 0 ==> i - ChunkSize < |records|
      invariant i < |records| ==> Concat(chunks) == records[..i]
      invariant i >= |records| ==> Concat(chunks) == records
      invariant Slices(chunks, records)
      decreases |records| - i
    {
      var end := if i + ChunkSize < |records| then i + ChunkSize else |records|;
      PushSlice(chunks, records, i, end);
      ConcatPush(chunks, records, i, end);
      chunks := chunks + [records[i..end]];
      if end == |records| {
        assert records[..end] == records;
      }
      i := i + ChunkSize;
    }
  }

  // ---------------------------------------------------------------------------
  // The sync

  /** `syncToAlgolia` after the settings: `None` when a query fails (the
      script exits), otherwise the batches handed to `saveObjects`, in call
      order. With no active job nothing is uploaded; otherwise the batches
      are the table's records, with their ids as `objectID`, in consecutive
      runs of at most 1000. */
  method Sync(table: seq<Rows.Job>, failing: nat -> bool) returns (uploads: Option<seq<seq<Record>>>)
    ensures uploads.Some? <==> forall k :: 0 <= k < Queries(|table|) ==> !failing(k)
    ensures uploads.Some? ==>
      && Concat(uploads.value) == Records(table)
      && |uploads.value| == ChunkCount(|table|)
      && (|table| == 0 <==> uploads.value == [])
      && forall k :: 0 <= k < |uploads.value| ==> 0 < |uploads.value[k]| <= ChunkSize
  {
    var jobs, _ := FetchAll(table, failing);
    if jobs.None? {
      return None;
    }
    if |jobs.value| == 0 {
      return Some([]);
    }
    var records := Records(jobs.value);
    var chunks := Chunk(records);
    // One `saveObjects` call per chunk, awaited in index order; the
    // index itself is not modelled, so `uploaded` records what was sent.
    var uploaded: seq<seq<Record>> := [];
    for i := 0 to |chunks|
      invariant uploaded == chunks[..i]
    {
      uploaded := uploaded + [chunks[i]];
    }
    assert uploaded == chunks;
    uploads := Some(uploaded);
  }
}
