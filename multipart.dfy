/**
 * Multipart uploads to the S3-compatible blob store, as both uploaders and
 * both `calculate_etag_multipart` functions compute them: how many parts a
 * byte string is cut into, which bytes each part holds, how the part
 * uploads are submitted and their results collected, and the form of the
 * multipart etag.
 *
 * The S3 client is a collaborator: `Client` gives the answer of each of its
 * calls, and the uploaders return the calls they make, in order. The md5
 * digest and its hex rendering are parameters.
 */
module Multipart {
  import opened Wrappers
  import opened PyStr

  type Bytes = seq<bv8>

  // ---------------------------------------------------------------- part arithmetic

  /**
   * `num_parts = len // chunk_size`, plus one when there is a remainder or
   * no whole chunk at all; a zero chunk size fails the division.
   */
  function NumParts(len: nat, chunk: nat): (r: Result<nat>)
    ensures r.Err? <==> chunk == 0
    ensures r.Err? ==> r.exc == ZeroDivisionError
  {
    if chunk == 0 then Err(ZeroDivisionError)
    else
      var n := len / chunk;
      Ok(if len % chunk != 0 || n == 0 then n + 1 else n)
  }

  /** The part count is the ceiling of `len / chunk`, and 1 for an empty input. */
  lemma PartCount(len: nat, chunk: nat)
    requires chunk > 0
    ensures var n := NumParts(len, chunk).value;
      n >= 1 && (len == 0 ==> n == 1) && (len > 0 ==> (n - 1) * chunk < len <= n * chunk)
  {
    var q, r := len / chunk, len % chunk;
    assert len == q * chunk + r && 0 <= r < chunk;
    var n := NumParts(len, chunk).value;
    if r != 0 {
      assert n == q + 1;
      assert (n - 1) * chunk == q * chunk;
      assert n * chunk == q * chunk + chunk;
    } else if q == 0 {
      assert len == 0;
    } else {
      assert n == q;
      assert (n - 1) * chunk == q * chunk - chunk;
    }
  }

  /** Python's `b[start:end]` for non-negative bounds: both ends are clamped to the length. */
  function Slice(b: Bytes, start: nat, end: nat): (r: Bytes)
    ensures start <= end <= |b| ==> r == b[start..end]
    ensures |b| <= start ==> r == []
  {
    var lo := if start < |b| then start else |b|;
    var hi := if end < lo then lo else if end < |b| then end else |b|;
    b[lo..hi]
  }

  /** Part `i` (uploaded as part number `i + 1`): `b[i * chunk : i * chunk + chunk]`. */
  function Part(b: Bytes, chunk: nat, i: nat): Bytes
  {
    Slice(b, i * chunk, i * chunk + chunk)
  }

  /** The concatenation of a list of byte strings. */
  function Concat(ps: seq<Bytes>): Bytes
  {
    if ps == [] then [] else Concat(ps[..|ps| - 1]) + ps[|ps| - 1]
  }

  /** The first `k` parts. */
  function Parts(b: Bytes, chunk: nat, k: nat): (ps: seq<Bytes>)
    ensures |ps| == k && forall i :: 0 <= i < k ==> ps[i] == Part(b, chunk, i)
  {
    seq(k, i requires 0 <= i < k => Part(b, chunk, i))
  }

  /** `end` is the offset right after part `k - 1`, so part `k - 1` starts `chunk` bytes before it. */
  lemma PreviousOffset(k: nat, chunk: nat, end: nat)
    requires k > 0 && end == k * chunk
    ensures end >= chunk && end - chunk == (k - 1) * chunk
  {
  }

  /** The first `k` parts are contiguous: together they are the first `k * chunk` bytes (or all of them). */
  lemma {:induction false} PartsPrefix(b: Bytes, chunk: nat, k: nat, end: nat)
    requires end == k * chunk
    ensures Concat(Parts(b, chunk, k)) == b[..if end < |b| then end else |b|]
  {
    if k > 0 {
      PreviousOffset(k, chunk, end);
      var lo := end - chunk;
      var ps := Parts(b, chunk, k);
      assert ps[..k - 1] == Parts(b, chunk, k - 1);
      PartsPrefix(b, chunk, k - 1, lo);
      var a := if lo < |b| then lo else |b|;
      var c := if end < |b| then end else |b|;
      assert Part(b, chunk, k - 1) == Slice(b, lo, lo + chunk) == b[a..c];
      assert b[..a] + b[a..c] == b[..c];
    }
  }

  /** Part `i` has `chunk` bytes when it ends within the input. */
  lemma FullPart(b: Bytes, chunk: nat, i: nat, n: nat)
    requires i < n - 1 && (n - 1) * chunk < |b|
    ensures |Part(b, chunk, i)| == chunk
  {
    assert (i + 1) * chunk <= (n - 1) * chunk;
    assert i * chunk + chunk == (i + 1) * chunk;
  }

  /** The last part is not empty when it starts within the input. */
  lemma LastPartNonEmpty(b: Bytes, chunk: nat, n: nat)
    requires chunk > 0 && n > 0 && (n - 1) * chunk < |b|
    ensures |Part(b, chunk, n - 1)| > 0
  {
    var lo := (n - 1) * chunk;
    assert Part(b, chunk, n - 1) == Slice(b, lo, lo + chunk);
  }

  /**
   * The parts of a non-zero chunk size cover the input exactly: their
   * concatenation is the input, every part but the last has `chunk` bytes,
   * and the last one is not empty unless the input is.
   */
  lemma PartsCover(b: Bytes, chunk: nat)
    requires chunk > 0
    ensures var n := NumParts(|b|, chunk).value;
      Concat(Parts(b, chunk, n)) == b
      && (forall i :: 0 <= i < n - 1 ==> |Part(b, chunk, i)| == chunk)
      && (|b| > 0 ==> |Part(b, chunk, n - 1)| > 0)
  {
    var n := NumParts(|b|, chunk).value;
    PartCount(|b|, chunk);
    var end := n * chunk;
    PartsPrefix(b, chunk, n, end);
    assert b[..|b|] == b;
    if |b| > 0 {
      forall i | 0 <= i < n - 1 ensures |Part(b, chunk, i)| == chunk {
        FullPart(b, chunk, i, n);
      }
      LastPartNonEmpty(b, chunk, n);
    }
  }

  // ---------------------------------------------------------------- the S3 client

  /** One entry of the `Parts` list given to `complete_multipart_upload`. */
  datatype PartRecord = PartRecord(number: nat, etag: string)

  /** The client calls an uploader makes. */
  datatype Call =
    | CreateUpload(bucket: string, key: string)
    | UploadPart(bucket: string, key: string, number: nat, body: Bytes, uploadId: string)
    | CompleteUpload(bucket: string, key: string, parts: seq<PartRecord>, uploadId: string)
    | AbortUpload(bucket: string, key: string, uploadId: string)

  /**
   * How the client answers: the upload id or an error for
   * `create_multipart_upload`, the etag or an error for each part upload
   * (by part number and body), and the outcome of the completion.
   */
  datatype Client = Client(create: Result<string>, uploadPart: (nat, Bytes) -> Result<string>, complete: Option<Exc>)

  /** The part uploads submitted to the thread pool, in submission order. */
  function Submitted(b: Bytes, key: string, bucket: string, chunk: nat, n: nat, id: string): (cs: seq<Call>)
    ensures |cs| == n
  {
    seq(n, i requires 0 <= i < n => UploadPart(bucket, key, i + 1, Part(b, chunk, i), id))
  }

  /**
   * `[f.result() for f in futures]` over the first `k` futures: the first
   * failed part upload, in submission order, raises its error; otherwise
   * one record per part with its number and etag.
   */
  function Collected(c: Client, b: Bytes, chunk: nat, k: nat): Result<seq<PartRecord>>
  {
    if k == 0 then Ok([])
    else
      var ps :- Collected(c, b, chunk, k - 1);
      var etag :- c.uploadPart(k, Part(b, chunk, k - 1));
      Ok(ps + [PartRecord(k, etag)])
  }

  /**
   * The collection succeeds iff every part upload succeeds; it then numbers
   * the parts 1 to `k` in order with the etags the client returned, and
   * otherwise raises the error of the first failed part.
   */
  lemma {:induction false} CollectedSpec(c: Client, b: Bytes, chunk: nat, k: nat)
    ensures Collected(c, b, chunk, k).Ok? <==> forall i :: 0 <= i < k ==> c.uploadPart(i + 1, Part(b, chunk, i)).Ok?
    ensures Collected(c, b, chunk, k).Ok? ==>
      var ps := Collected(c, b, chunk, k).value;
      |ps| == k && forall i :: 0 <= i < k ==> ps[i] == PartRecord(i + 1, c.uploadPart(i + 1, Part(b, chunk, i)).value)
    ensures Collected(c, b, chunk, k).Err? ==>
      exists i :: 0 <= i < k && c.uploadPart(i + 1, Part(b, chunk, i)) == Err(Collected(c, b, chunk, k).exc)
        && forall j :: 0 <= j < i ==> c.uploadPart(j + 1, Part(b, chunk, j)).Ok?
  {
    if k > 0 {
      CollectedSpec(c, b, chunk, k - 1);
    }
  }

  /** The submissions: one part upload per part, in part order, each future holding what the client answers. */
  method SubmitAll(b: Bytes, key: string, bucket: string, chunk: nat, n: nat, id: string, c: Client)
    returns (calls: seq<Call>, futures: seq<Result<string>>)
    ensures calls == Submitted(b, key, bucket, chunk, n, id)
    ensures |futures| == n && forall j :: 0 <= j < n ==> futures[j] == c.uploadPart(j + 1, Part(b, chunk, j))
  {
    calls := [];
    futures := [];
    var i := 0;
    while i < n
      invariant 0 <= i <= n && |calls| == i && |futures| == i
      invariant forall j :: 0 <= j < i ==> calls[j] == UploadPart(bucket, key, j + 1, Part(b, chunk, j), id)
      invariant forall j :: 0 <= j < i ==> futures[j] == c.uploadPart(j + 1, Part(b, chunk, j))
    {
      var part := Part(b, chunk, i);
      calls := calls + [UploadPart(bucket, key, i + 1, part, id)];
      futures := futures + [c.uploadPart(i + 1, part)];
      i := i + 1;
    }
  }

  /**
   * The thread-pool loop: one part upload is submitted per part, then the
   * futures are waited on in submission order.
   */
  method SubmitParts(b: Bytes, key: string, bucket: string, chunk: nat, n: nat, id: string, c: Client)
    returns (calls: seq<Call>, parts: Result<seq<PartRecord>>)
    ensures calls == Submitted(b, key, bucket, chunk, n, id)
    ensures parts == Collected(c, b, chunk, n)
  {
    var futures;
    calls, futures := SubmitAll(b, key, bucket, chunk, n, id, c);
    var i := 0;
    var records: seq<PartRecord> := [];
    while i < n
      invariant 0 <= i <= n
      invariant Collected(c, b, chunk, i) == Ok(records)
    {
      CollectedNext(c, b, chunk, i, records);
      if futures[i].Err? {
        CollectedFailurePersists(c, b, chunk, i + 1, n, futures[i].exc);
        return calls, Err(futures[i].exc);
      }
      records := records + [PartRecord(i + 1, futures[i].value)];
      i := i + 1;
    }
    parts := Ok(records);
  }

  /** One more future: its error is raised, or its record is appended. */
  lemma CollectedNext(c: Client, b: Bytes, chunk: nat, i: nat, records: seq<PartRecord>)
    requires Collected(c, b, chunk, i) == Ok(records)
    ensures var f := c.uploadPart(i + 1, Part(b, chunk, i));
      Collected(c, b, chunk, i + 1) == if f.Err? then Err(f.exc) else Ok(records + [PartRecord(i + 1, f.value)])
  {
    assert (i + 1) - 1 == i;
  }

  /** Once a prefix of the futures has raised, the whole collection raises the same error. */
  lemma {:induction false} CollectedFailurePersists(c: Client, b: Bytes, chunk: nat, k: nat, n: nat, e: Exc)
    requires k <= n && Collected(c, b, chunk, k) == Err(e)
    ensures Collected(c, b, chunk, n) == Err(e)
    decreases n - k
  {
    if k < n {
      CollectedFailurePersists(c, b, chunk, k + 1, n, e);
    }
  }

  // ---------------------------------------------------------------- sorting the parts

  /** Inserts `x` before the first record whose number is not smaller (ties keep their order). */
  function Insert(x: PartRecord, s: seq<PartRecord>): (r: seq<PartRecord>)
    ensures multiset(r) == multiset(s) + multiset{x}
  {
    if s == [] || x.number <= s[0].number then [x] + s
    else
      assert s == [s[0]] + s[1..];
      [s[0]] + Insert(x, s[1..])
  }

  /** `sorted(parts, key=lambda p: p["PartNumber"])`, a stable sort. */
  function SortByNumber(s: seq<PartRecord>): (r: seq<PartRecord>)
    ensures multiset(r) == multiset(s)
  {
    if s == [] then []
    else
      assert s == [s[0]] + s[1..];
      Insert(s[0], SortByNumber(s[1..]))
  }

  predicate Ascending(s: seq<PartRecord>)
  {
    forall i, j :: 0 <= i < j < |s| ==> s[i].number <= s[j].number
  }

  lemma {:induction false} InsertAscending(x: PartRecord, s: seq<PartRecord>)
    requires Ascending(s)
    ensures Ascending(Insert(x, s))
  {
    if s != [] && x.number > s[0].number {
      InsertAscending(x, s[1..]);
      var r := Insert(x, s[1..]);
      forall k | 0 <= k < |r| ensures s[0].number <= r[k].number {
        assert r[k] in multiset(s[1..]) + multiset{x};
        if r[k] != x {
          assert r[k] in s[1..];
        }
      }
    }
  }

  /** Sorting gives the records in ascending number order, and a permutation of them. */
  lemma {:induction false} SortByNumberSorts(s: seq<PartRecord>)
    ensures Ascending(SortByNumber(s)) && multiset(SortByNumber(s)) == multiset(s)
  {
    if s != [] {
      SortByNumberSorts(s[1..]);
      InsertAscending(s[0], SortByNumber(s[1..]));
    }
  }

  /** Records already in ascending order come out of the sort unchanged. */
  lemma {:induction false} SortAscendingUnchanged(s: seq<PartRecord>)
    requires Ascending(s)
    ensures SortByNumber(s) == s
  {
    if s != [] {
      SortAscendingUnchanged(s[1..]);
      assert s == [s[0]] + s[1..];
    }
  }

  // ---------------------------------------------------------------- multipart etag

  /**
   * `calculate_etag_multipart`: the md5 of the concatenated part digests in
   * hex, a dash and the part count, in double quotes.
   */
  function EtagMultipart(b: Bytes, chunk: nat, md5: Bytes -> Bytes, hexdigest: Bytes -> string): Result<string>
  {
    var n :- NumParts(|b|, chunk);
    var digests := seq(n, i requires 0 <= i < n => md5(Part(b, chunk, i)));
    Ok("\"" + hexdigest(md5(Concat(digests))) + "-" + NatToString(n) + "\"")
  }

  /**
   * The loops of `calculate_etag_multipart`: one md5 per part, then one md5
   * fed every part digest in order (feeding bytes piecewise hashes their
   * concatenation).
   */
  method CalculateEtagMultipart(b: Bytes, chunk: nat, md5: Bytes -> Bytes, hexdigest: Bytes -> string)
    returns (r: Result<string>)
    ensures r == EtagMultipart(b, chunk, md5, hexdigest)
  {
    var count := NumParts(|b|, chunk);
    if count.Err? {
      return Err(count.exc);
    }
    var n := count.value;
    var md5s: seq<Bytes> := [];
    var i := 0;
    while i < n
      invariant 0 <= i <= n && |md5s| == i
      invariant forall j :: 0 <= j < i ==> md5s[j] == md5(Part(b, chunk, j))
    {
      var start := i * chunk;
      md5s := md5s + [md5(Slice(b, start, start + chunk))];
      i := i + 1;
    }
    var fed: Bytes := [];
    i := 0;
    while i < n
      invariant 0 <= i <= n
      invariant fed == Concat(md5s[..i])
    {
      assert md5s[..i + 1][..i] == md5s[..i];
      fed := fed + md5s[i];
      i := i + 1;
    }
    assert md5s[..n] == md5s;
    assert md5s == seq(n, j requires 0 <= j < n => md5(Part(b, chunk, j)));
    return Ok("\"" + hexdigest(md5(fed)) + "-" + NatToString(n) + "\"");
  }

  /**
   * The etag is a quoted text that splits at its one dash into the hex
   * digest and the part count in decimal, and that count is the ceiling of
   * the length over the chunk size (1 for an empty input).
   */
  lemma EtagForm(b: Bytes, chunk: nat, md5: Bytes -> Bytes, hexdigest: Bytes -> string)
    requires chunk > 0
    requires forall d :: '-' !in hexdigest(d)
    ensures EtagMultipart(b, chunk, md5, hexdigest).Ok?
    ensures var e := EtagMultipart(b, chunk, md5, hexdigest).value;
      var inner := e[1..|e| - 1];
      var n := NumParts(|b|, chunk).value;
      |e| >= 2 && e[0] == '"' && e[|e| - 1] == '"'
      && |Split(inner, '-')| == 2
      && ParseInt(Split(inner, '-')[1]) == Ok(n)
      && (|b| == 0 ==> n == 1) && (|b| > 0 ==> (n - 1) * chunk < |b| <= n * chunk)
  {
    var n := NumParts(|b|, chunk).value;
    var e := EtagMultipart(b, chunk, md5, hexdigest).value;
    var digests := seq(n, i requires 0 <= i < n => md5(Part(b, chunk, i)));
    var h := hexdigest(md5(Concat(digests)));
    var digits := NatToString(n);
    assert '-' !in digits by {
      assert forall i :: 0 <= i < |digits| ==> IsDigitChar(digits[i]);
    }
    assert e == "\"" + (h + "-" + digits) + "\"";
    assert e[1..|e| - 1] == h + "-" + digits;
    SplitJoin([h, digits], '-');
    assert Join([h, digits], "-") == h + "-" + digits by {
      assert Join([digits], "-") == digits;
    }
    ParseIntOfNat(n);
    PartCount(|b|, chunk);
  }
}
