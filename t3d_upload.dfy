/**
 * The t3d_server `S3FileUploader.upload_file_multipart`: a single attempt
 * without retries and without cleanup. The creation, the part count, a
 * failed part upload and the completion all raise straight to the caller;
 * the completion lists the parts numbered by their submission position.
 */
module T3dUpload {
  import opened Wrappers
  import opened Multipart
  import CompoxUpload

  /** `[{"PartNumber": i + 1, "ETag": ...} for i, part in enumerate(futures)]`. */
  function Renumbered(ps: seq<PartRecord>): (r: seq<PartRecord>)
    ensures |r| == |ps|
  {
    seq(|ps|, i requires 0 <= i < |ps| => PartRecord(i + 1, ps[i].etag))
  }

  /** The calls made and the error raised, if any. */
  function Upload(b: Bytes, key: string, bucket: string, chunk: nat, c: Client): (seq<Call>, Option<Exc>)
  {
    var created := [CreateUpload(bucket, key)];
    if c.create.Err? then (created, Some(c.create.exc))
    else
      var id := c.create.value;
      match NumParts(|b|, chunk)
      case Err(e) => (created, Some(e))
      case Ok(n) =>
        var submitted := created + Submitted(b, key, bucket, chunk, n, id);
        match Collected(c, b, chunk, n)
        case Err(e) => (submitted, Some(e))
        case Ok(ps) => (submitted + [CompleteUpload(bucket, key, Renumbered(ps), id)], c.complete)
  }

  /** `upload_file_multipart`, with the loop that renumbers the collected parts. */
  method UploadFileMultipart(b: Bytes, key: string, bucket: string, chunk: nat, c: Client)
    returns (calls: seq<Call>, err: Option<Exc>)
    ensures (calls, err) == Upload(b, key, bucket, chunk, c)
  {
    calls := [CreateUpload(bucket, key)];
    if c.create.Err? {
      return calls, Some(c.create.exc);
    }
    var uploadId := c.create.value;
    var count := NumParts(|b|, chunk);
    if count.Err? {
      return calls, Some(count.exc);
    }
    var submitted, results := SubmitParts(b, key, bucket, chunk, count.value, uploadId, c);
    calls := calls + submitted;
    if results.Err? {
      return calls, Some(results.exc);
    }
    var futures := results.value;
    var parts: seq<PartRecord> := [];
    var i := 0;
    while i < |futures|
      invariant 0 <= i <= |futures| && |parts| == i
      invariant forall j :: 0 <= j < i ==> parts[j] == PartRecord(j + 1, futures[j].etag)
    {
      parts := parts + [PartRecord(i + 1, futures[i].etag)];
      i := i + 1;
    }
    assert parts == Renumbered(futures);
    calls := calls + [CompleteUpload(bucket, key, parts, uploadId)];
    err := c.complete;
  }

  /** No call of this uploader is ever an abort, whatever fails. */
  lemma NeverAborts(b: Bytes, key: string, bucket: string, chunk: nat, c: Client)
    ensures forall call :: call in Upload(b, key, bucket, chunk, c).0 ==> !call.AbortUpload?
  {
  }

  /**
   * When every call succeeds, the completion lists part numbers 1 to n in
   * submission order, each with the etag of that part's upload, and the
   * uploaded bodies concatenate to the input; this is exactly what one
   * successful attempt of the compox uploader does.
   */
  lemma UploadSuccess(b: Bytes, key: string, bucket: string, chunk: nat, c: Client)
    requires Upload(b, key, bucket, chunk, c).1.None?
    ensures chunk > 0 && c.create.Ok?
    ensures var calls := Upload(b, key, bucket, chunk, c).0;
      var n := NumParts(|b|, chunk).value;
      |calls| == n + 2 && calls[n + 1].CompleteUpload?
      && |calls[n + 1].parts| == n
      && (forall i :: 0 <= i < n ==>
            c.uploadPart(i + 1, Part(b, chunk, i)).Ok?
            && calls[n + 1].parts[i] == PartRecord(i + 1, c.uploadPart(i + 1, Part(b, chunk, i)).value))
      && Concat(Parts(b, chunk, n)) == b
    ensures Upload(b, key, bucket, chunk, c) == CompoxUpload.Step(b, key, bucket, chunk, c)
  {
    var n := NumParts(|b|, chunk).value;
    CollectedSpec(c, b, chunk, n);
    CompoxUpload.CompletedParts(c, b, chunk, n);
    var ps := Collected(c, b, chunk, n).value;
    assert Renumbered(ps) == SortByNumber(ps);
    PartsCover(b, chunk);
  }

  /** A failure after creation is re-raised as it is, with no call made after the failing one. */
  lemma UploadFailure(b: Bytes, key: string, bucket: string, chunk: nat, c: Client)
    requires c.create.Ok? && Upload(b, key, bucket, chunk, c).1.Some?
    ensures var (calls, err) := Upload(b, key, bucket, chunk, c);
      (chunk == 0 && calls == [CreateUpload(bucket, key)] && err == Some(ZeroDivisionError))
      || (chunk > 0 && Collected(c, b, chunk, NumParts(|b|, chunk).value).Err?
          && calls == [CreateUpload(bucket, key)] + Submitted(b, key, bucket, chunk, NumParts(|b|, chunk).value, c.create.value)
          && err == Some(Collected(c, b, chunk, NumParts(|b|, chunk).value).exc))
      || (chunk > 0 && calls[|calls| - 1].CompleteUpload? && err == c.complete)
  {
  }
}
