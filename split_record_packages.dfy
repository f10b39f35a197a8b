/** Slicing a sequence into consecutive chunks, as the loop
    `for i in range(0, len(records), size): records[i:i + size]` of
    `split-record-packages` does. */
module Chunking {
  /** The consecutive slices `records[i:i + size]` for `i` in
      `range(0, len(records), size)`. */
  function Chunks<T>(records: seq<T>, size: nat): seq<seq<T>>
    requires size > 0
    decreases |records|
  {
    if records == [] then []
    else if |records| <= size then [records]
    else [records[..size]] + Chunks(records[size..], size)
  }

  /** Concatenation of a list of lists. */
  function Concat<T>(chunks: seq<seq<T>>): seq<T> {
    if chunks == [] then [] else chunks[0] + Concat(chunks[1..])
  }

  /** The emitted records, read in order, are the package's records. */
  lemma {:induction false} ChunksConcat<T>(records: seq<T>, size: nat)
    requires size > 0
    ensures Concat(Chunks(records, size)) == records
    decreases |records|
  {
    if |records| > size {
      ChunksConcat(records[size..], size);
      assert records == records[..size] + records[size..];
    } else if records != [] {
      assert Concat([records]) == records + Concat([]);
    }
  }

  /** Every chunk is non-empty and holds at most `size` records; all but
      the last hold exactly `size`. */
  lemma {:induction false} ChunksSizes<T>(records: seq<T>, size: nat)
    requires size > 0
    ensures forall k :: 0 <= k < |Chunks(records, size)| ==>
              0 < |Chunks(records, size)[k]| <= size &&
              (k < |Chunks(records, size)| - 1 ==> |Chunks(records, size)[k]| == size)
    decreases |records|
  {
    var chunks := Chunks(records, size);
    if |records| > size {
      var rest := records[size..];
      ChunksSizes(rest, size);
      assert chunks == [records[..size]] + Chunks(rest, size);
      forall k | 0 < k < |chunks|
        ensures 0 < |chunks[k]| <= size && (k < |chunks| - 1 ==> |chunks[k]| == size)
      {
        assert chunks[k] == Chunks(rest, size)[k - 1];
      }
    }
  }

  /** The number of chunks is len(records) / size rounded up: `size` times
      one chunk fewer falls short of the records, `size` times as many
      covers them. */
  lemma {:induction false} ChunksCount<T>(records: seq<T>, size: nat)
    requires size > 0
    ensures (|Chunks(records, size)| - 1) * size < |records| <= |Chunks(records, size)| * size
    decreases |records|
  {
    if |records| > size {
      var rest := records[size..];
      ChunksCount(rest, size);
      var m := |Chunks(rest, size)|;
      assert |Chunks(records, size)| == m + 1;
      assert (m + 1) * size == m * size + size;
    }
  }

  function Tail<T>(records: seq<T>, i: nat): seq<T> {
    if i <= |records| then records[i..] else []
  }

  /** One iteration of the slicing loop takes the next chunk off the rest. */
  lemma ChunksStep<T>(records: seq<T>, i: nat, size: nat)
    requires i < |records| && size > 0
    ensures var end := if i + size <= |records| then i + size else |records|;
            Chunks(Tail(records, i), size) == [records[i..end]] + Chunks(Tail(records, i + size), size)
  {
    var end := if i + size <= |records| then i + size else |records|;
    var chunk := records[i..end];
    assert Tail(records, i) == records[i..];
    if i + size < |records| {
      assert Tail(records, i)[size..] == Tail(records, i + size);
      assert Tail(records, i)[..size] == chunk;
    } else {
      assert chunk == records[i..];
      assert Chunks(Tail(records, i), size) == [chunk];
      assert Chunks(Tail(records, i + size), size) == [];
    }
  }

  /** The loop `for i in range(0, len(records), size)` for a positive
      `size`: it takes the slice `records[i:i + size]` each time round, and
      the slices it takes are the chunks. */
  method SliceLoop<T>(records: seq<T>, size: nat) returns (slices: seq<seq<T>>)
    requires size > 0
    ensures slices == Chunks(records, size)
  {
    slices := [];
    var i := 0;
    while i < |records|
      invariant slices + Chunks(Tail(records, i), size) == Chunks(records, size)
      decreases |records| - i
    {
      var end := if i + size <= |records| then i + size else |records|;
      var slice := records[i..end];
      ghost var rest := Chunks(Tail(records, i + size), size);
      assert (slices + [slice]) + rest == Chunks(records, size) by {
        ChunksStep(records, i, size);
        assert (slices + [slice]) + rest == slices + ([slice] + rest);
      }
      slices := slices + [slice];
      i := i + size;
    }
    assert Chunks(Tail(records, i), size) == [];
    assert slices + [] == slices;
  }
}

/** The `split-record-packages` command on one record package: the package's
    records are emitted in consecutive packages of at most `size` records. */
module SplitRecordPackages {
  import opened Outcomes
  import opened JsonValues
  import opened Chunking

  datatype SplitError =
    /** `package['records']` on a value that is not a dict. */
    | NotAPackage
    /** `package['records']` on a dict without that key. */
    | MissingRecords
    /** `len(records)` raises `TypeError`: the records are not a list, a
        string or a dict. */
    | RecordsWithoutLength
    /** `range(0, len(records), 0)` raises `ValueError`. */
    | ZeroSize
    /** `records[i:i + size]` on a non-empty dict raises `TypeError`. */
    | RecordsNotSliceable

  /** `Command.handle` for one package. Every emitted package is the input
      package without its `packages` key and with `records` set to the next
      slice of its records; nothing else differs between them. A string is
      sliced into substrings; a dict has a length but cannot be sliced, so
      only an empty dict (no slices) gets through. */
  method SplitPackage(package: Json, size: int) returns (r: Result<seq<map<string, Json>>, SplitError>)
    ensures !package.Obj? ==> r == Err(NotAPackage)
    ensures package.Obj? && "records" !in package.fields ==> r == Err(MissingRecords)
    ensures package.Obj? && "records" in package.fields && !Iterable(package.fields["records"]) ==>
              r == Err(RecordsWithoutLength)
    ensures package.Obj? && "records" in package.fields && Iterable(package.fields["records"]) ==>
              (size == 0 <==> r == Err(ZeroSize)) &&
              (size < 0 ==> r == Ok([]))
    ensures package.Obj? && "records" in package.fields && package.fields["records"].Obj? && size > 0 ==>
              r == if package.fields["records"].fields == map[] then Ok([]) else Err(RecordsNotSliceable)
    ensures package.Obj? && "records" in package.fields && package.fields["records"].Arr? && size > 0 ==>
              var records := package.fields["records"].items;
              var base := package.fields - {"packages"};
              r.Ok? && |r.value| == |Chunks(records, size)| &&
              forall k :: 0 <= k < |r.value| ==>
                r.value[k] == base["records" := Arr(Chunks(records, size)[k])]
    ensures package.Obj? && "records" in package.fields && package.fields["records"].Str? && size > 0 ==>
              var records := package.fields["records"].s;
              var base := package.fields - {"packages"};
              r.Ok? && |r.value| == |Chunks(records, size)| &&
              forall k :: 0 <= k < |r.value| ==>
                r.value[k] == base["records" := Str(Chunks(records, size)[k])]
  {
    if !package.Obj? {
      return Err(NotAPackage);
    }
    if "records" !in package.fields {
      return Err(MissingRecords);
    }
    var records := package.fields["records"];
    var current := package.fields;
    if "packages" in current {
      current := current - {"packages"};
    }
    assert current == package.fields - {"packages"};
    if !Iterable(records) {
      return Err(RecordsWithoutLength);
    }
    if size == 0 {
      return Err(ZeroSize);
    }
    if size < 0 {
      return Ok([]);
    }
    // Each time round, `package.update(records=...)` and the package is
    // printed: the emitted packages differ only in `records`.
    if records.Arr? {
      var slices := SliceLoop(records.items, size);
      return Ok(seq(|slices|, k requires 0 <= k < |slices| => current["records" := Arr(slices[k])]));
    } else if records.Str? {
      var slices := SliceLoop(records.s, size);
      return Ok(seq(|slices|, k requires 0 <= k < |slices| => current["records" := Str(slices[k])]));
    } else if records.fields == map[] {
      return Ok([]);
    } else {
      return Err(RecordsNotSliceable);
    }
  }
}
