/**
 * The two record-scanning loops of the algorithms router: `get_algorithm`
 * picks, among the stored records whose name and major version match the
 * request ignoring case, the one with the greatest integer minor version;
 * `list_model_files` keeps, in store order, the records that pass the tag,
 * type and device filters and validate as a response.
 *
 * The store is an object store (module ObjectStore) listed in key order;
 * decoding a stored JSON is a parameter, and so is the response model's
 * validation. Any exception inside either handler becomes a 500 response.
 */
module AlgorithmsController {
  import opened Wrappers
  import opened PyStr
  import opened ObjectStore

  const AlgorithmStore: string := "algorithm-store"

  /** The keys of a stored algorithm JSON the router reads; a missing one is a decoding error. */
  datatype Rec = Rec(
    algorithmId: string, name: string, major: string, minor: string, algorithmType: string,
    tags: seq<string>, description: string, supportedDevices: seq<string>, defaultDevice: string)

  datatype Response =
    | Registered(rec: Rec)
    | FailedRegistered(name: string, major: string)
    | Listed(recs: seq<Rec>)
    | Status(code: int, detail: string)

  const EmptyStoreMessage: string := "No algorithms found in the algorithm store"
  const NotFoundMessage: string := "Model with the requested name and major version not found in the model store"
  const GetFailedMessage: string := "Failed to get algorithm due to an internal server error."
  const ListFailedPrefix: string := "Failed to list algorithms due to an internal server error: "

  /** `json.loads(get_objects("algorithm-store", [key])[0])` for every listed key, in order. */
  function Decoded(s: Store, decode: Blob -> Result<Rec>): (os: seq<Result<Rec>>)
    requires StoreValid(s)
    ensures |os| == |CollectionOf(s, AlgorithmStore).keys|
  {
    var col := CollectionOf(s, AlgorithmStore);
    seq(|col.keys|, i requires 0 <= i < |col.keys| => decode(col.m[col.keys[i]]))
  }

  // ---------------------------------------------------------------- get_algorithm

  /** Name and major version equal ignoring case. */
  predicate Requested(r: Rec, name: string, major: string)
  {
    Lower(r.name) == Lower(name) && Lower(r.major) == Lower(major)
  }

  /** The best record so far and its integer minor version. */
  datatype Best = Best(minor: int, rec: Rec)

  /** `minor_version`: -1 until a record is found. */
  function Current(b: Option<Best>): int
  {
    if b.Some? then b.value.minor else -1
  }

  /** One iteration of the selection loop. */
  function Update(b: Option<Best>, o: Result<Rec>, name: string, major: string): Result<Option<Best>>
  {
    var r :- o;
    if !Requested(r, name, major) then Ok(b)
    else
      var m :- ParseInt(r.minor);
      Ok(if m > Current(b) then Some(Best(m, r)) else b)
  }

  /** The selection loop over the decoded records, as a left fold. */
  function Scan(os: seq<Result<Rec>>, name: string, major: string): Result<Option<Best>>
  {
    if os == [] then Ok(None)
    else
      var b :- Scan(os[..|os| - 1], name, major);
      Update(b, os[|os| - 1], name, major)
  }

  /** `get_algorithm` without its HTTP wrapping. */
  function GetAlgorithm(s: Store, name: string, major: string, decode: Blob -> Result<Rec>, validates: Rec -> bool): Response
    requires StoreValid(s)
  {
    var os := Decoded(s, decode);
    if |os| == 0 then Status(404, EmptyStoreMessage)
    else
      match Scan(os, name, major)
      case Err(_) => Status(500, GetFailedMessage)
      case Ok(None) => Status(404, NotFoundMessage)
      case Ok(Some(b)) => if validates(b.rec) then Registered(b.rec) else FailedRegistered(b.rec.name, b.rec.major)
  }

  /** The loop of `get_algorithm` keeping `minor_version` and `found_algorithm`. */
  method GetAlgorithmLoop(s: Store, name: string, major: string, decode: Blob -> Result<Rec>, validates: Rec -> bool)
    returns (resp: Response)
    requires StoreValid(s)
    ensures resp == GetAlgorithm(s, name, major, decode, validates)
  {
    var col := CollectionOf(s, AlgorithmStore);
    var keys := col.keys;
    ghost var os := Decoded(s, decode);
    if |keys| == 0 {
      return Status(404, EmptyStoreMessage);
    }
    var minorVersion := -1;
    var found := Rec("", "", "", "", "", [], "", [], "");
    ghost var best: Option<Best> := None;
    var i := 0;
    while i < |keys|
      invariant 0 <= i <= |keys|
      invariant Scan(os[..i], name, major) == Ok(best)
      invariant minorVersion == Current(best)
      invariant best.Some? ==> found == best.value.rec
    {
      ScanStep(os, i, name, major, best);
      var r := decode(col.m[keys[i]]);
      assert r == os[i];
      if r.Err? {
        ScanErrorPersists(os, i + 1, name, major);
        return Status(500, GetFailedMessage);
      }
      if Requested(r.value, name, major) {
        var m := ParseInt(r.value.minor);
        if m.Err? {
          ScanErrorPersists(os, i + 1, name, major);
          return Status(500, GetFailedMessage);
        }
        if m.value > minorVersion {
          minorVersion := m.value;
          found := r.value;
          best := Some(Best(m.value, r.value));
        }
      }
      i := i + 1;
    }
    assert os[..i] == os;
    if minorVersion != -1 {
      if validates(found) {
        return Registered(found);
      }
      return FailedRegistered(found.name, found.major);
    }
    BestIsNatural(os, name, major);
    return Status(404, NotFoundMessage);
  }

  /** One more record extends the scan by one update. */
  lemma ScanStep(os: seq<Result<Rec>>, i: nat, name: string, major: string, b: Option<Best>)
    requires i < |os| && Scan(os[..i], name, major) == Ok(b)
    ensures Scan(os[..i + 1], name, major) == Update(b, os[i], name, major)
  {
    assert os[..i + 1][..i] == os[..i];
  }

  /** A failure in the first `k` records is the outcome of the whole scan. */
  lemma {:induction false} ScanErrorPersists(os: seq<Result<Rec>>, k: nat, name: string, major: string)
    requires k <= |os| && Scan(os[..k], name, major).Err?
    ensures Scan(os, name, major).Err?
    decreases |os| - k
  {
    if k < |os| {
      assert os[..k + 1][..k] == os[..k];
      ScanErrorPersists(os, k + 1, name, major);
    } else {
      assert os[..k] == os;
    }
  }

  /** A record the scan selects has a minor version of at least 0. */
  lemma {:induction false} BestIsNatural(os: seq<Result<Rec>>, name: string, major: string)
    ensures Scan(os, name, major).Ok? && Scan(os, name, major).value.Some? ==> Scan(os, name, major).value.value.minor >= 0
  {
    if os != [] {
      BestIsNatural(os[..|os| - 1], name, major);
    }
  }

  // ---------------------------------------------------------------- selection properties

  /** The record at `i` is requested and its minor version reads as `m`. */
  predicate MinorAt(os: seq<Result<Rec>>, i: int, name: string, major: string, m: int)
    requires 0 <= i < |os|
  {
    os[i].Ok? && Requested(os[i].value, name, major) && ParseInt(os[i].value.minor) == Ok(m)
  }

  /** Whether the scan can run to the end: every record decodes and every requested one has an integer minor version. */
  predicate Scannable(os: seq<Result<Rec>>, name: string, major: string)
  {
    forall i :: 0 <= i < |os| ==> os[i].Ok? && (Requested(os[i].value, name, major) ==> ParseInt(os[i].value.minor).Ok?)
  }

  /**
   * The scan completes iff every record decodes and every requested record
   * has an integer minor version. It then selects nothing iff no requested
   * record has a minor version of 0 or more; otherwise it selects a
   * requested record whose minor version is the greatest, and no earlier
   * requested record has that version (the first of a tie wins).
   */
  lemma {:induction false} ScanSpec(os: seq<Result<Rec>>, name: string, major: string)
    ensures Scan(os, name, major).Ok? <==> Scannable(os, name, major)
    ensures Scan(os, name, major).Ok? ==>
      var b := Scan(os, name, major).value;
      (b.None? <==> forall i, m :: 0 <= i < |os| && MinorAt(os, i, name, major, m) ==> m < 0)
      && (b.Some? ==>
            b.value.minor >= 0
            && (exists i :: 0 <= i < |os| && MinorAt(os, i, name, major, b.value.minor) && os[i].value == b.value.rec
                 && forall j :: 0 <= j < i && MinorAt(os, j, name, major, b.value.minor) ==> false)
            && forall i, m :: 0 <= i < |os| && MinorAt(os, i, name, major, m) ==> m <= b.value.minor)
  {
    if os != [] {
      var n := |os| - 1;
      var init := os[..n];
      ScanSpec(init, name, major);
      assert forall i :: 0 <= i < n ==> init[i] == os[i];
      assert forall i, m :: 0 <= i < n ==> (MinorAt(init, i, name, major, m) <==> MinorAt(os, i, name, major, m));
      assert Scannable(os, name, major) <==> Scannable(init, name, major) && os[n].Ok? && (Requested(os[n].value, name, major) ==> ParseInt(os[n].value.minor).Ok?);
      var s0 := Scan(init, name, major);
      if s0.Ok? && os[n].Ok? && Requested(os[n].value, name, major) && ParseInt(os[n].value.minor).Ok? {
        var m := ParseInt(os[n].value.minor).value;
        assert MinorAt(os, n, name, major, m);
        if m > Current(s0.value) {
          assert forall j, k :: 0 <= j < n && MinorAt(os, j, name, major, k) ==> k < m;
        }
      }
    }
  }

  /**
   * The record at `i` is the one `get_algorithm` picks: a requested record
   * with minor version `m` of 0 or more, no requested record has a greater
   * one, and no earlier requested record has the same one.
   */
  ghost predicate FirstGreatest(os: seq<Result<Rec>>, i: int, name: string, major: string, m: int)
    requires 0 <= i < |os|
  {
    MinorAt(os, i, name, major, m) && m >= 0
    && (forall j, k :: 0 <= j < |os| && MinorAt(os, j, name, major, k) ==> k <= m)
    && (forall j :: 0 <= j < i ==> !MinorAt(os, j, name, major, m))
  }

  /**
   * `get_algorithm` answers 404 for an empty store and for a store without
   * a requested record of minor version 0 or more, 500 when a record cannot
   * be read or a requested one has a non-integer minor version, and
   * otherwise the first requested record of greatest minor version, or the
   * failure response naming it when it does not validate.
   */
  lemma GetSpec(s: Store, name: string, major: string, decode: Blob -> Result<Rec>, validates: Rec -> bool)
    requires StoreValid(s)
    ensures var os := Decoded(s, decode); var resp := GetAlgorithm(s, name, major, decode, validates);
      (|os| == 0 ==> resp == Status(404, EmptyStoreMessage))
      && (|os| > 0 && !Scannable(os, name, major) ==> resp == Status(500, GetFailedMessage))
      && ((|os| > 0 && Scannable(os, name, major) && (forall i, m :: 0 <= i < |os| && MinorAt(os, i, name, major, m) ==> m < 0))
            ==> resp == Status(404, NotFoundMessage))
      && ((|os| > 0 && Scannable(os, name, major) && (exists i, m :: 0 <= i < |os| && MinorAt(os, i, name, major, m) && m >= 0))
            ==> exists i, m :: 0 <= i < |os| && FirstGreatest(os, i, name, major, m)
                  && resp == (if validates(os[i].value) then Registered(os[i].value) else FailedRegistered(os[i].value.name, os[i].value.major)))
      && (resp.Registered? ==> validates(resp.rec) && exists i :: 0 <= i < |os| && os[i] == Ok(resp.rec) && Requested(resp.rec, name, major))
  {
    var os := Decoded(s, decode);
    ScanSpec(os, name, major);
    if |os| > 0 && Scannable(os, name, major) && (exists i, m :: 0 <= i < |os| && MinorAt(os, i, name, major, m) && m >= 0) {
      var b := Scan(os, name, major).value.value;
      var i :| 0 <= i < |os| && MinorAt(os, i, name, major, b.minor) && os[i].value == b.rec
               && forall j :: 0 <= j < i && MinorAt(os, j, name, major, b.minor) ==> false;
      assert FirstGreatest(os, i, name, major, b.minor);
    }
  }

  // ---------------------------------------------------------------- list_model_files

  /** The four `continue` tests of the loop; an empty tag or device list skips its test. */
  predicate Passes(r: Rec, positive: seq<string>, negative: seq<string>, algorithmType: Option<string>, devices: seq<string>)
  {
    (positive != [] ==> HasAllTags(r, positive))
    && (negative != [] ==> !HasAnyTag(r, negative))
    && (algorithmType.Some? ==> Lower(r.algorithmType) == Lower(algorithmType.value))
    && (devices != [] ==> SharesDevice(r, devices))
  }

  predicate HasAllTags(r: Rec, tags: seq<string>)
  {
    forall t :: t in tags ==> t in r.tags
  }

  predicate HasAnyTag(r: Rec, tags: seq<string>)
  {
    exists t :: t in tags && t in r.tags
  }

  /** Some requested device is among the supported ones, ignoring case. */
  predicate SharesDevice(r: Rec, devices: seq<string>)
  {
    exists d :: d in devices && Lower(d) in LowerAll(r.supportedDevices)
  }

  /** The kept records of the first records, as the loop builds them. */
  function Kept(os: seq<Result<Rec>>, positive: seq<string>, negative: seq<string>, algorithmType: Option<string>,
                devices: seq<string>, validates: Rec -> bool): Result<seq<Rec>>
  {
    if os == [] then Ok([])
    else
      var kept :- Kept(os[..|os| - 1], positive, negative, algorithmType, devices, validates);
      var r :- os[|os| - 1];
      Ok(if Passes(r, positive, negative, algorithmType, devices) && validates(r) then kept + [r] else kept)
  }

  /** `list_model_files` without its HTTP wrapping. */
  function ListModelFiles(s: Store, positive: seq<string>, negative: seq<string>, algorithmType: Option<string>,
                          devices: seq<string>, decode: Blob -> Result<Rec>, validates: Rec -> bool): Response
    requires StoreValid(s)
  {
    var os := Decoded(s, decode);
    if |os| == 0 then Status(404, EmptyStoreMessage)
    else
      match Kept(os, positive, negative, algorithmType, devices, validates)
      case Err(e) => Status(500, ListFailedPrefix + Str(e))
      case Ok(rs) => Listed(rs)
  }

  /** The filter loop of `list_model_files`, appending to `algorithms`. */
  method ListModelFilesLoop(s: Store, positive: seq<string>, negative: seq<string>, algorithmType: Option<string>,
                            devices: seq<string>, decode: Blob -> Result<Rec>, validates: Rec -> bool)
    returns (resp: Response)
    requires StoreValid(s)
    ensures resp == ListModelFiles(s, positive, negative, algorithmType, devices, decode, validates)
  {
    var col := CollectionOf(s, AlgorithmStore);
    var keys := col.keys;
    ghost var os := Decoded(s, decode);
    if |keys| == 0 {
      return Status(404, EmptyStoreMessage);
    }
    var algorithms: seq<Rec> := [];
    var i := 0;
    while i < |keys|
      invariant 0 <= i <= |keys|
      invariant Kept(os[..i], positive, negative, algorithmType, devices, validates) == Ok(algorithms)
    {
      var r := decode(col.m[keys[i]]);
      assert r == os[i];
      if r.Err? {
        assert os[..i + 1][..i] == os[..i];
        KeptErrorPersists(os, i + 1, positive, negative, algorithmType, devices, validates, r.exc);
        return Status(500, ListFailedPrefix + Str(r.exc));
      }
      var rec := r.value;
      KeptStep(os, i, positive, negative, algorithmType, devices, validates, algorithms);
      i := i + 1;
      var keep := Filters(rec, positive, negative, algorithmType, devices, validates);
      if keep {
        algorithms := algorithms + [rec];
      }
    }
    assert os[..i] == os;
    return Listed(algorithms);
  }

  /** The checks of one loop iteration, each `continue` an early `false`. */
  method Filters(rec: Rec, positive: seq<string>, negative: seq<string>, algorithmType: Option<string>,
                  devices: seq<string>, validates: Rec -> bool) returns (keep: bool)
    ensures keep <==> Passes(rec, positive, negative, algorithmType, devices) && validates(rec)
  {
    if positive != [] && !HasAllTags(rec, positive) {
      return false;
    }
    if negative != [] && HasAnyTag(rec, negative) {
      return false;
    }
    if algorithmType.Some? && Lower(rec.algorithmType) != Lower(algorithmType.value) {
      return false;
    }
    if devices != [] && !SharesDevice(rec, devices) {
      return false;
    }
    return validates(rec);
  }

  /** One more decoded record is kept or skipped as the filters and the validation say. */
  lemma KeptStep(os: seq<Result<Rec>>, i: nat, positive: seq<string>, negative: seq<string>, algorithmType: Option<string>,
                 devices: seq<string>, validates: Rec -> bool, kept: seq<Rec>)
    requires i < |os| && os[i].Ok? && Kept(os[..i], positive, negative, algorithmType, devices, validates) == Ok(kept)
    ensures var r := os[i].value;
      Kept(os[..i + 1], positive, negative, algorithmType, devices, validates)
        == Ok(if Passes(r, positive, negative, algorithmType, devices) && validates(r) then kept + [r] else kept)
  {
    assert os[..i + 1][..i] == os[..i];
  }

  /** The first decoding failure is the outcome of the whole loop. */
  lemma {:induction false} KeptErrorPersists(os: seq<Result<Rec>>, k: nat, positive: seq<string>, negative: seq<string>,
                                             algorithmType: Option<string>, devices: seq<string>, validates: Rec -> bool, e: Exc)
    requires k <= |os| && Kept(os[..k], positive, negative, algorithmType, devices, validates) == Err(e)
    ensures Kept(os, positive, negative, algorithmType, devices, validates) == Err(e)
    decreases |os| - k
  {
    if k < |os| {
      assert os[..k + 1][..k] == os[..k];
      KeptErrorPersists(os, k + 1, positive, negative, algorithmType, devices, validates, e);
    } else {
      assert os[..k] == os;
    }
  }

  /** The single-pass reading: `[r for r in rs if r passes and validates]`. */
  function Selected(rs: seq<Rec>, positive: seq<string>, negative: seq<string>, algorithmType: Option<string>,
                    devices: seq<string>, validates: Rec -> bool): (out: seq<Rec>)
    ensures forall x :: x in out <==> x in rs && Passes(x, positive, negative, algorithmType, devices) && validates(x)
  {
    if rs == [] then []
    else
      var rest := Selected(rs[..|rs| - 1], positive, negative, algorithmType, devices, validates);
      var r := rs[|rs| - 1];
      assert rs == rs[..|rs| - 1] + [r];
      if Passes(r, positive, negative, algorithmType, devices) && validates(r) then rest + [r] else rest
  }

  /** Every record decoded successfully. */
  predicate AllDecoded(os: seq<Result<Rec>>)
  {
    forall i :: 0 <= i < |os| ==> os[i].Ok?
  }

  function Values(os: seq<Result<Rec>>): (rs: seq<Rec>)
    requires AllDecoded(os)
    ensures |rs| == |os| && forall i :: 0 <= i < |os| ==> rs[i] == os[i].value
  {
    seq(|os|, i requires 0 <= i < |os| => os[i].value)
  }

  /**
   * The loop fails iff some record does not decode, and otherwise keeps,
   * in store order, exactly the records that pass every filter and
   * validate; a record failing validation is skipped, not reported.
   */
  lemma {:induction false} KeptSpec(os: seq<Result<Rec>>, positive: seq<string>, negative: seq<string>,
                                    algorithmType: Option<string>, devices: seq<string>, validates: Rec -> bool)
    ensures Kept(os, positive, negative, algorithmType, devices, validates).Ok? <==> AllDecoded(os)
    ensures AllDecoded(os) ==>
      Kept(os, positive, negative, algorithmType, devices, validates) == Ok(Selected(Values(os), positive, negative, algorithmType, devices, validates))
  {
    if os != [] {
      var init := os[..|os| - 1];
      KeptSpec(init, positive, negative, algorithmType, devices, validates);
      assert forall i :: 0 <= i < |init| ==> init[i] == os[i];
      if AllDecoded(os) {
        assert Values(os)[..|os| - 1] == Values(init);
      }
    }
  }

  /** With no filter given every record passes; an empty device list accepts every record. */
  lemma NoFilters(r: Rec)
    ensures Passes(r, [], [], None, [])
  {
  }

  /** A device matches ignoring case, in either direction. */
  lemma DeviceIgnoresCase(r: Rec, d: string)
    requires d in r.supportedDevices
    ensures Passes(r, [], [], None, [Lower(d)]) && Passes(r, [], [], None, [d])
  {
    LowerIdempotent(d);
    var i :| 0 <= i < |r.supportedDevices| && r.supportedDevices[i] == d;
    assert LowerAll(r.supportedDevices)[i] == Lower(d);
  }

  /** A tag both required and excluded removes every record. */
  lemma ContradictoryTags(r: Rec, t: string)
    ensures !Passes(r, [t], [t], None, [])
  {
    assert t in [t];
  }
}
