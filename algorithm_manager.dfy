/**
 * `AlgorithmManager`: listing the stored algorithm records, filtered by
 * name and versions, and deleting an algorithm together with its module
 * and assets. The connection is an object store (module ObjectStore); the
 * records are the JSON texts the deployer stores, read through a decoder
 * that is a parameter of the model.
 *
 * As written, `delete_algorithms` deletes the module id from the asset
 * collection, where the module never is, and a record without "assets"
 * makes it call `.items()` on a list. `DeleteAlgorithmsAsWritten` keeps
 * both, and the loop method `DeleteAlgorithmsLoop` runs it;
 * `DeleteAlgorithms` deletes the module from the module collection and
 * reads a missing "assets" as no assets.
 */
module AlgorithmManager {
  import opened Wrappers
  import opened ObjectStore
  import OrderedMap

  /** The three collection names of a manager. */
  datatype Manager = Manager(algorithms: string, modules: string, assets: string)

  const DefaultManager: Manager := Manager("algorithm-store", "module-store", "asset-store")

  /**
   * The keys of a stored algorithm JSON the manager reads. The optional
   * "module_id" and "assets" keys are None when the JSON lacks them; a
   * missing mandatory key is a decoding error.
   */
  datatype Listing = Listing(
    algorithmId: string, name: string, major: string, minor: string,
    moduleId: Option<string>, assets: Option<seq<(string, string)>>)

  /** A filter argument that is truthy: given and not the empty string. */
  predicate Given(f: Option<string>)
  {
    f.Some? && f.value != ""
  }

  datatype Field = NameField | MajorField | MinorField

  function FieldOf(r: Listing, f: Field): string
  {
    match f
    case NameField => r.name
    case MajorField => r.major
    case MinorField => r.minor
  }

  // ---------------------------------------------------------------- list_algorithms

  /** `json.loads(get_objects(collection, [key])[0])` for each key in order; the first failure propagates. */
  function DecodeAll(col: Collection, keys: seq<string>, decode: Blob -> Result<Listing>): Result<seq<Listing>>
    requires forall k :: k in keys ==> k in col.m
  {
    if keys == [] then Ok([])
    else
      var r :- decode(col.m[keys[0]]);
      var rest :- DecodeAll(col, keys[1..], decode);
      Ok([r] + rest)
  }

  /** `[a for a in rs if v == a[field]]`. */
  function Where(rs: seq<Listing>, f: Field, v: string): seq<Listing>
  {
    if rs == [] then []
    else if v == FieldOf(rs[0], f) then [rs[0]] + Where(rs[1..], f, v)
    else Where(rs[1..], f, v)
  }

  /** The three filters in turn, each applied only when its argument is truthy. */
  function Filter(rs: seq<Listing>, name: Option<string>, major: Option<string>, minor: Option<string>): seq<Listing>
  {
    var a := if Given(name) then Where(rs, NameField, name.value) else rs;
    var b := if Given(major) then Where(a, MajorField, major.value) else a;
    if Given(minor) then Where(b, MinorField, minor.value) else b
  }

  /** `list_algorithms`: the decoded records of the algorithm collection, filtered. */
  function ListAlgorithms(s: Store, mgr: Manager, name: Option<string>, major: Option<string>, minor: Option<string>,
                          decode: Blob -> Result<Listing>): Result<seq<Listing>>
    requires StoreValid(s)
  {
    var col := CollectionOf(s, mgr.algorithms);
    if col.keys == [] then Ok([])
    else
      var all :- DecodeAll(col, col.keys, decode);
      Ok(Filter(all, name, major, minor))
  }

  /** `items` followed by the outcome `r` of the remaining keys. */
  function Then(items: seq<Listing>, r: Result<seq<Listing>>): Result<seq<Listing>>
  {
    match r
    case Ok(rest) => Ok(items + rest)
    case Err(e) => Err(e)
  }

  /** The loop of `list_algorithms` that fetches and decodes each listed key. */
  method ListAlgorithmsLoop(s: Store, mgr: Manager, name: Option<string>, major: Option<string>, minor: Option<string>,
                            decode: Blob -> Result<Listing>) returns (r: Result<seq<Listing>>)
    requires StoreValid(s)
    ensures r == ListAlgorithms(s, mgr, name, major, minor, decode)
  {
    var col := CollectionOf(s, mgr.algorithms);
    var keys := col.keys;
    if |keys| == 0 {
      return Ok([]);
    }
    var jsons: seq<Listing> := [];
    var i := 0;
    match DecodeAll(col, keys, decode) {
      case Ok(all) => assert [] + all == all;
      case Err(_) =>
    }
    while i < |keys|
      invariant 0 <= i <= |keys|
      invariant DecodeAll(col, keys, decode) == Then(jsons, DecodeAll(col, keys[i..], decode))
    {
      assert keys[i..][1..] == keys[i + 1..];
      var d := decode(col.m[keys[i]]);
      if d.Err? {
        return Err(d.exc);
      }
      match DecodeAll(col, keys[i + 1..], decode) {
        case Ok(rest) => assert jsons + ([d.value] + rest) == (jsons + [d.value]) + rest;
        case Err(_) =>
      }
      jsons := jsons + [d.value];
      i := i + 1;
    }
    assert keys[i..] == [];
    assert jsons + [] == jsons;
    return Ok(Filter(jsons, name, major, minor));
  }

  // ---------------------------------------------------------------- listing properties

  /** Whether a record passes every truthy filter. */
  predicate Matches(r: Listing, name: Option<string>, major: Option<string>, minor: Option<string>)
  {
    (Given(name) ==> r.name == name.value)
    && (Given(major) ==> r.major == major.value)
    && (Given(minor) ==> r.minor == minor.value)
  }

  /** The single-pass reading of the filters: `[a for a in rs if a matches every truthy filter]`. */
  function Select(rs: seq<Listing>, name: Option<string>, major: Option<string>, minor: Option<string>): (r: seq<Listing>)
    ensures forall x :: x in r <==> x in rs && Matches(x, name, major, minor)
    ensures |r| <= |rs|
  {
    if rs == [] then []
    else if Matches(rs[0], name, major, minor) then [rs[0]] + Select(rs[1..], name, major, minor)
    else Select(rs[1..], name, major, minor)
  }

  /** `Where` keeps exactly the records whose field holds the value. */
  lemma {:induction false} WhereSpec(rs: seq<Listing>, f: Field, v: string)
    ensures forall x :: x in Where(rs, f, v) <==> x in rs && FieldOf(x, f) == v
  {
    if rs != [] {
      WhereSpec(rs[1..], f, v);
      assert forall x :: x in rs <==> x == rs[0] || x in rs[1..];
    }
  }

  /** One filter after the single-pass one selects the record matching both. */
  lemma {:induction false} WhereSelect(rs: seq<Listing>, f: Field, v: string, name: Option<string>, major: Option<string>, minor: Option<string>)
    requires v != ""
    requires f == NameField ==> !Given(name)
    requires f == MajorField ==> !Given(major)
    requires f == MinorField ==> !Given(minor)
    ensures Where(Select(rs, name, major, minor), f, v) ==
      Select(rs, if f == NameField then Some(v) else name, if f == MajorField then Some(v) else major, if f == MinorField then Some(v) else minor)
  {
    if rs != [] {
      WhereSelect(rs[1..], f, v, name, major, minor);
    }
  }

  lemma {:induction false} SelectNone(rs: seq<Listing>)
    ensures Select(rs, None, None, None) == rs
  {
    if rs != [] {
      SelectNone(rs[1..]);
    }
  }

  /** An argument that is not truthy filters nothing. */
  lemma {:induction false} SelectIgnores(rs: seq<Listing>, name: Option<string>, major: Option<string>, minor: Option<string>)
    ensures Select(rs, name, major, minor) ==
      Select(rs, if Given(name) then name else None, if Given(major) then major else None, if Given(minor) then minor else None)
  {
    if rs != [] {
      SelectIgnores(rs[1..], name, major, minor);
    }
  }

  /**
   * The three successive filters keep, in their original order, exactly
   * the records matching every truthy argument.
   */
  lemma FilterIsSelect(rs: seq<Listing>, name: Option<string>, major: Option<string>, minor: Option<string>)
    ensures Filter(rs, name, major, minor) == Select(rs, name, major, minor)
  {
    SelectNone(rs);
    var n := if Given(name) then name else None;
    var ma := if Given(major) then major else None;
    var mi := if Given(minor) then minor else None;
    if Given(name) {
      WhereSelect(rs, NameField, name.value, None, None, None);
    }
    if Given(major) {
      WhereSelect(rs, MajorField, major.value, n, None, None);
    }
    if Given(minor) {
      WhereSelect(rs, MinorField, minor.value, n, ma, None);
    }
    SelectIgnores(rs, name, major, minor);
  }

  /** Decoding succeeds iff every record decodes, and yields them in key order. */
  lemma {:induction false} DecodeAllSpec(col: Collection, keys: seq<string>, decode: Blob -> Result<Listing>)
    requires forall k :: k in keys ==> k in col.m
    ensures DecodeAll(col, keys, decode).Ok? <==> forall i :: 0 <= i < |keys| ==> decode(col.m[keys[i]]).Ok?
    ensures DecodeAll(col, keys, decode).Ok? ==>
      var v := DecodeAll(col, keys, decode).value;
      |v| == |keys| && forall i :: 0 <= i < |keys| ==> v[i] == decode(col.m[keys[i]]).value
  {
    if keys != [] {
      DecodeAllSpec(col, keys[1..], decode);
      assert forall i :: 1 <= i < |keys| ==> keys[1..][i - 1] == keys[i];
    }
  }

  /**
   * `list_algorithms` fails iff some stored record does not decode;
   * otherwise it returns, in store order, exactly the decoded records that
   * match every truthy filter. A `None` or empty filter is ignored.
   */
  lemma ListSpec(s: Store, mgr: Manager, name: Option<string>, major: Option<string>, minor: Option<string>,
                 decode: Blob -> Result<Listing>)
    requires StoreValid(s)
    ensures var col := CollectionOf(s, mgr.algorithms);
      var r := ListAlgorithms(s, mgr, name, major, minor, decode);
      (r.Ok? <==> forall i :: 0 <= i < |col.keys| ==> decode(col.m[col.keys[i]]).Ok?)
      && (r.Ok? ==> r.value == Select(DecodeAll(col, col.keys, decode).value, name, major, minor))
  {
    var col := CollectionOf(s, mgr.algorithms);
    DecodeAllSpec(col, col.keys, decode);
    if DecodeAll(col, col.keys, decode).Ok? {
      FilterIsSelect(DecodeAll(col, col.keys, decode).value, name, major, minor);
    }
  }

  // ---------------------------------------------------------------- delete_algorithms

  const DeleteMessage: string := "You must specify the name, major_version and minor_version of the algorithm to delete."
  const ItemsMessage: string := "'list' object has no attribute 'items'"

  /** `f"{algorithm_id}~{algorithm_name}~{major}~{minor}"`. */
  function KeyOf(r: Listing): string
  {
    r.algorithmId + "~" + r.name + "~" + r.major + "~" + r.minor
  }

  function Values(ps: seq<(string, string)>): (vs: seq<string>)
    ensures |vs| == |ps| && forall i :: 0 <= i < |ps| ==> vs[i] == ps[i].1
  {
    seq(|ps|, i requires 0 <= i < |ps| => ps[i].1)
  }

  /** One `delete_objects(c, [name])` call per name. */
  function DeleteEach(s: Store, c: string, names: seq<string>): (r: Store)
    requires StoreValid(s)
    ensures StoreValid(r)
    decreases |names|
  {
    if names == [] then s else DeleteEach(DeleteObjectsIn(s, c, [names[0]]), c, names[1..])
  }

  /** The deletions for one record, as written: assets, then the module from the asset collection, then the key. */
  function DeleteOneAsWritten(s: Store, mgr: Manager, r: Listing): Result<Store>
    requires StoreValid(s)
    ensures DeleteOneAsWritten(s, mgr, r).Ok? ==> StoreValid(DeleteOneAsWritten(s, mgr, r).value)
  {
    if r.assets.None? then Err(AttributeError(ItemsMessage))
    else
      var s1 := DeleteEach(s, mgr.assets, Values(r.assets.value));
      var s2 := if Given(r.moduleId) then DeleteObjectsIn(s1, mgr.assets, [r.moduleId.value]) else s1;
      Ok(DeleteObjectsIn(s2, mgr.algorithms, [KeyOf(r)]))
  }

  /** The loop over the listed records; a raise keeps the deletions made before it. */
  function DeleteFromAsWritten(s: Store, mgr: Manager, rs: seq<Listing>): (Store, Option<Exc>)
    requires StoreValid(s)
    ensures StoreValid(DeleteFromAsWritten(s, mgr, rs).0)
    decreases |rs|
  {
    if rs == [] then (s, None)
    else
      match DeleteOneAsWritten(s, mgr, rs[0])
      case Err(e) => (s, Some(e))
      case Ok(s1) => DeleteFromAsWritten(s1, mgr, rs[1..])
  }

  /** `delete_algorithms` as written: the new store and the exception raised, if any. */
  function DeleteAlgorithmsAsWritten(s: Store, mgr: Manager, name: Option<string>, major: Option<string>, minor: Option<string>,
                                     decode: Blob -> Result<Listing>): (Store, Option<Exc>)
    requires StoreValid(s)
  {
    if !Given(name) || !Given(major) || !Given(minor) then (s, Some(ValueError(DeleteMessage)))
    else
      match ListAlgorithms(s, mgr, name, major, minor, decode)
      case Err(e) => (s, Some(e))
      case Ok(rs) => DeleteFromAsWritten(s, mgr, rs)
  }

  /** The deletions for one record, corrected: a missing "assets" is no assets, the module goes from the module collection. */
  function DeleteOne(s: Store, mgr: Manager, r: Listing): (t: Store)
    requires StoreValid(s)
    ensures StoreValid(t)
  {
    var s1 := DeleteEach(s, mgr.assets, Values(AssetsOf(r)));
    var s2 := if Given(r.moduleId) then DeleteObjectsIn(s1, mgr.modules, [r.moduleId.value]) else s1;
    DeleteObjectsIn(s2, mgr.algorithms, [KeyOf(r)])
  }

  function AssetsOf(r: Listing): seq<(string, string)>
  {
    if r.assets.Some? then r.assets.value else []
  }

  function DeleteFrom(s: Store, mgr: Manager, rs: seq<Listing>): (t: Store)
    requires StoreValid(s)
    ensures StoreValid(t)
    decreases |rs|
  {
    if rs == [] then s else DeleteFrom(DeleteOne(s, mgr, rs[0]), mgr, rs[1..])
  }

  /** `delete_algorithms`, corrected: the new store and the exception raised, if any. */
  function DeleteAlgorithms(s: Store, mgr: Manager, name: Option<string>, major: Option<string>, minor: Option<string>,
                            decode: Blob -> Result<Listing>): (Store, Option<Exc>)
    requires StoreValid(s)
  {
    if !Given(name) || !Given(major) || !Given(minor) then (s, Some(ValueError(DeleteMessage)))
    else
      match ListAlgorithms(s, mgr, name, major, minor, decode)
      case Err(e) => (s, Some(e))
      case Ok(rs) => (DeleteFrom(s, mgr, rs), None)
  }

  /**
   * The loop of `delete_algorithms` as written, one record at a time: its
   * assets, its module (sent to the asset collection), then its key; a
   * record without "assets" raises with the earlier deletions kept.
   */
  method DeleteAlgorithmsLoop(s: Store, mgr: Manager, name: Option<string>, major: Option<string>, minor: Option<string>,
                              decode: Blob -> Result<Listing>) returns (t: Store, err: Option<Exc>)
    requires StoreValid(s)
    ensures (t, err) == DeleteAlgorithmsAsWritten(s, mgr, name, major, minor, decode)
  {
    if !Given(name) || !Given(major) || !Given(minor) {
      return s, Some(ValueError(DeleteMessage));
    }
    var listed := ListAlgorithmsLoop(s, mgr, name, major, minor, decode);
    if listed.Err? {
      return s, Some(listed.exc);
    }
    var rs := listed.value;
    t := s;
    var i := 0;
    while i < |rs|
      invariant 0 <= i <= |rs| && StoreValid(t)
      invariant DeleteFromAsWritten(s, mgr, rs) == DeleteFromAsWritten(t, mgr, rs[i..])
    {
      DeleteFromAsWrittenStep(t, mgr, rs, i);
      var r := rs[i];
      if r.assets.None? {
        return t, Some(AttributeError(ItemsMessage));
      }
      t := DeleteEach(t, mgr.assets, Values(r.assets.value));
      if Given(r.moduleId) {
        t := DeleteObjectsIn(t, mgr.assets, [r.moduleId.value]);
      }
      t := DeleteObjectsIn(t, mgr.algorithms, [KeyOf(r)]);
      i := i + 1;
    }
    assert rs[i..] == [];
    err := None;
  }

  lemma DeleteFromAsWrittenStep(t: Store, mgr: Manager, rs: seq<Listing>, i: nat)
    requires StoreValid(t) && i < |rs|
    ensures DeleteFromAsWritten(t, mgr, rs[i..]) ==
      match DeleteOneAsWritten(t, mgr, rs[i])
      case Err(e) => (t, Some(e))
      case Ok(t1) => DeleteFromAsWritten(t1, mgr, rs[i + 1..])
  {
    assert rs[i..][1..] == rs[i + 1..];
  }

  // ---------------------------------------------------------------- deletion properties

  /** `delete_objects(c, names)` empties exactly those names of collection `c`. */
  lemma DeleteObjectsLookup(s: Store, c: string, names: seq<string>, c2: string, n: string)
    requires StoreValid(s)
    ensures Lookup(CollectionOf(DeleteObjectsIn(s, c, names), c2), n) ==
      if c2 == c && n in names then None else Lookup(CollectionOf(s, c2), n)
  {
    if c in s.m {
      PopAllSpec(s.m[c], names, n);
    }
  }

  lemma {:induction false} DeleteEachLookup(s: Store, c: string, names: seq<string>, c2: string, n: string)
    requires StoreValid(s)
    ensures Lookup(CollectionOf(DeleteEach(s, c, names), c2), n) ==
      if c2 == c && n in names then None else Lookup(CollectionOf(s, c2), n)
    decreases |names|
  {
    if names != [] {
      DeleteObjectsLookup(s, c, [names[0]], c2, n);
      DeleteEachLookup(DeleteObjectsIn(s, c, [names[0]]), c, names[1..], c2, n);
      assert n in names <==> n == names[0] || n in names[1..];
    }
  }

  /** What the corrected deletion of one record targets: its assets, its module and its key. */
  predicate Targets(mgr: Manager, r: Listing, c: string, n: string)
  {
    (c == mgr.assets && n in Values(AssetsOf(r)))
    || (c == mgr.modules && Given(r.moduleId) && n == r.moduleId.value)
    || (c == mgr.algorithms && n == KeyOf(r))
  }

  predicate AnyTargets(mgr: Manager, rs: seq<Listing>, c: string, n: string)
  {
    exists i :: 0 <= i < |rs| && Targets(mgr, rs[i], c, n)
  }

  lemma DeleteOneLookup(s: Store, mgr: Manager, r: Listing, c: string, n: string)
    requires StoreValid(s)
    ensures Lookup(CollectionOf(DeleteOne(s, mgr, r), c), n) ==
      if Targets(mgr, r, c, n) then None else Lookup(CollectionOf(s, c), n)
  {
    var s1 := DeleteEach(s, mgr.assets, Values(AssetsOf(r)));
    DeleteEachLookup(s, mgr.assets, Values(AssetsOf(r)), c, n);
    var s2 := if Given(r.moduleId) then DeleteObjectsIn(s1, mgr.modules, [r.moduleId.value]) else s1;
    if Given(r.moduleId) {
      DeleteObjectsLookup(s1, mgr.modules, [r.moduleId.value], c, n);
    }
    DeleteObjectsLookup(s2, mgr.algorithms, [KeyOf(r)], c, n);
  }

  lemma {:induction false} DeleteFromLookup(s: Store, mgr: Manager, rs: seq<Listing>, c: string, n: string)
    requires StoreValid(s)
    ensures Lookup(CollectionOf(DeleteFrom(s, mgr, rs), c), n) ==
      if AnyTargets(mgr, rs, c, n) then None else Lookup(CollectionOf(s, c), n)
    decreases |rs|
  {
    if rs != [] {
      DeleteOneLookup(s, mgr, rs[0], c, n);
      DeleteFromLookup(DeleteOne(s, mgr, rs[0]), mgr, rs[1..], c, n);
      if AnyTargets(mgr, rs, c, n) && !Targets(mgr, rs[0], c, n) {
        var i :| 0 <= i < |rs| && Targets(mgr, rs[i], c, n);
        assert rs[1..][i - 1] == rs[i];
      }
      if AnyTargets(mgr, rs[1..], c, n) {
        var i :| 0 <= i < |rs[1..]| && Targets(mgr, rs[1..][i], c, n);
        assert rs[i + 1] == rs[1..][i];
      }
    }
  }

  /**
   * The corrected deletion refuses a missing or empty filter and otherwise
   * removes, for every listed record, its key from the algorithm
   * collection, its module from the module collection and its assets from
   * the asset collection; every other object of every collection keeps its
   * value.
   */
  lemma DeleteSpec(s: Store, mgr: Manager, name: Option<string>, major: Option<string>, minor: Option<string>,
                   decode: Blob -> Result<Listing>, c: string, n: string)
    requires StoreValid(s)
    ensures var (t, err) := DeleteAlgorithms(s, mgr, name, major, minor, decode);
      (!Given(name) || !Given(major) || !Given(minor) ==> t == s && err == Some(ValueError(DeleteMessage)))
      && (err.None? <==> Given(name) && Given(major) && Given(minor) && ListAlgorithms(s, mgr, name, major, minor, decode).Ok?)
      && (err.None? ==>
            var rs := ListAlgorithms(s, mgr, name, major, minor, decode).value;
            Lookup(CollectionOf(t, c), n) == if AnyTargets(mgr, rs, c, n) then None else Lookup(CollectionOf(s, c), n))
  {
    if Given(name) && Given(major) && Given(minor) && ListAlgorithms(s, mgr, name, major, minor, decode).Ok? {
      DeleteFromLookup(s, mgr, ListAlgorithms(s, mgr, name, major, minor, decode).value, c, n);
    }
  }

  /** Every record the corrected deletion acts on has exactly the requested name and versions. */
  lemma DeletesOnlyMatching(s: Store, mgr: Manager, name: string, major: string, minor: string, decode: Blob -> Result<Listing>)
    requires StoreValid(s) && name != "" && major != "" && minor != ""
    ensures var r := ListAlgorithms(s, mgr, Some(name), Some(major), Some(minor), decode);
      r.Ok? ==> forall x :: x in r.value ==> x.name == name && x.major == major && x.minor == minor
  {
    ListSpec(s, mgr, Some(name), Some(major), Some(minor), decode);
  }

  // ---------------------------------------------------------------- the two defects as written

  /**
   * As written, the module of a deleted algorithm stays in the module
   * collection: the delete addressed to it goes to the asset collection.
   */
  lemma ModuleSurvives(s: Store, mgr: Manager, r: Listing)
    requires StoreValid(s) && r.assets.Some? && Given(r.moduleId)
    requires mgr.modules != mgr.assets && mgr.modules != mgr.algorithms
    ensures DeleteOneAsWritten(s, mgr, r).Ok?
    ensures Lookup(CollectionOf(DeleteOneAsWritten(s, mgr, r).value, mgr.modules), r.moduleId.value)
         == Lookup(CollectionOf(s, mgr.modules), r.moduleId.value)
    ensures Lookup(CollectionOf(DeleteOne(s, mgr, r), mgr.modules), r.moduleId.value) == None
  {
    var m := r.moduleId.value;
    var s1 := DeleteEach(s, mgr.assets, Values(r.assets.value));
    DeleteEachLookup(s, mgr.assets, Values(r.assets.value), mgr.modules, m);
    DeleteObjectsLookup(s1, mgr.assets, [m], mgr.modules, m);
    DeleteObjectsLookup(DeleteObjectsIn(s1, mgr.assets, [m]), mgr.algorithms, [KeyOf(r)], mgr.modules, m);
    DeleteOneLookup(s, mgr, r, mgr.modules, m);
  }

  /**
   * As written, the first listed record without "assets" raises an
   * AttributeError, leaving the records before it deleted and the rest in
   * place.
   */
  lemma MissingAssetsRaise(s: Store, mgr: Manager, rs: seq<Listing>)
    requires StoreValid(s)
    ensures (DeleteFromAsWritten(s, mgr, rs).1 == Some(AttributeError(ItemsMessage))) <==>
      exists i :: 0 <= i < |rs| && rs[i].assets.None?
    ensures DeleteFromAsWritten(s, mgr, rs).1.None? ==> forall i :: 0 <= i < |rs| ==> rs[i].assets.Some?
  {
    MissingAssetsRaiseFrom(s, mgr, rs);
  }

  lemma {:induction false} MissingAssetsRaiseFrom(s: Store, mgr: Manager, rs: seq<Listing>)
    requires StoreValid(s)
    ensures DeleteFromAsWritten(s, mgr, rs).1 == (if exists i :: 0 <= i < |rs| && rs[i].assets.None? then Some(AttributeError(ItemsMessage)) else None)
    decreases |rs|
  {
    if rs != [] {
      if rs[0].assets.Some? {
        var s1 := DeleteOneAsWritten(s, mgr, rs[0]).value;
        MissingAssetsRaiseFrom(s1, mgr, rs[1..]);
        assert (exists i :: 0 <= i < |rs| && rs[i].assets.None?) <==> (exists i :: 0 <= i < |rs[1..]| && rs[1..][i].assets.None?) by {
          if exists i :: 0 <= i < |rs| && rs[i].assets.None? {
            var i :| 0 <= i < |rs| && rs[i].assets.None?;
            assert rs[1..][i - 1] == rs[i];
          }
          if exists i :: 0 <= i < |rs[1..]| && rs[1..][i].assets.None? {
            var i :| 0 <= i < |rs[1..]| && rs[1..][i].assets.None?;
            assert rs[i + 1] == rs[1..][i];
          }
        }
      }
    }
  }

  /** On records that all carry "assets", the two deletions differ only in where the module delete goes. */
  lemma {:induction false} AsWrittenWithAssets(s: Store, mgr: Manager, rs: seq<Listing>, c: string, n: string)
    requires StoreValid(s)
    requires forall i :: 0 <= i < |rs| ==> rs[i].assets.Some?
    requires c != mgr.modules && c != mgr.assets
    ensures Lookup(CollectionOf(DeleteFromAsWritten(s, mgr, rs).0, c), n) == Lookup(CollectionOf(DeleteFrom(s, mgr, rs), c), n)
    ensures Lookup(CollectionOf(DeleteFrom(s, mgr, rs), c), n) ==
      if AnyTargets(mgr, rs, c, n) then None else Lookup(CollectionOf(s, c), n)
  {
    DeleteFromLookup(s, mgr, rs, c, n);
    AsWrittenLookup(s, mgr, rs, c, n);
  }

  lemma {:induction false} AsWrittenLookup(s: Store, mgr: Manager, rs: seq<Listing>, c: string, n: string)
    requires StoreValid(s)
    requires forall i :: 0 <= i < |rs| ==> rs[i].assets.Some?
    requires c != mgr.modules && c != mgr.assets
    ensures Lookup(CollectionOf(DeleteFromAsWritten(s, mgr, rs).0, c), n) ==
      if AnyTargets(mgr, rs, c, n) then None else Lookup(CollectionOf(s, c), n)
    decreases |rs|
  {
    if rs != [] {
      var r := rs[0];
      var s1 := DeleteEach(s, mgr.assets, Values(r.assets.value));
      DeleteEachLookup(s, mgr.assets, Values(r.assets.value), c, n);
      var s2 := if Given(r.moduleId) then DeleteObjectsIn(s1, mgr.assets, [r.moduleId.value]) else s1;
      if Given(r.moduleId) {
        DeleteObjectsLookup(s1, mgr.assets, [r.moduleId.value], c, n);
      }
      DeleteObjectsLookup(s2, mgr.algorithms, [KeyOf(r)], c, n);
      var t := DeleteOneAsWritten(s, mgr, r).value;
      AsWrittenLookup(t, mgr, rs[1..], c, n);
      if AnyTargets(mgr, rs, c, n) && !Targets(mgr, rs[0], c, n) {
        var i :| 0 <= i < |rs| && Targets(mgr, rs[i], c, n);
        assert rs[1..][i - 1] == rs[i];
      }
      if AnyTargets(mgr, rs[1..], c, n) {
        var i :| 0 <= i < |rs[1..]| && Targets(mgr, rs[1..][i], c, n);
        assert rs[i + 1] == rs[1..][i];
      }
    }
  }
}
