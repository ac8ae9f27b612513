/**
 * The pure rules of `AlgorithmDeployer`: how the project file becomes the
 * algorithm's name, versions and configuration, how the algorithm-store key
 * and record are composed, how `Runner.py` is located, how module files are
 * renamed and which dotted import names are rewritten, and which files
 * count as modules and which as assets. Relative paths use "/" as the
 * separator.
 */
module Deployer {
  import opened Wrappers
  import opened PyStr
  import opened PyList
  import AlgorithmConfig
  import ObjectStore
  import ServerUtils

  const Sep: char := '/'

  // ---------------------------------------------------------------- __init__

  datatype CompoxTable = CompoxTable(
    config: AlgorithmConfig.AlgorithmConfigRecord,
    checkImportable: Option<bool>, obfuscate: Option<bool>, hashModule: Option<bool>, hashAssets: Option<bool>)

  /** The `[tool]` table of the project file: absent, without a `compox` entry, or with one. */
  datatype ToolTable = NoTool | NoCompox | WithCompox(compox: CompoxTable)

  /** The parts of the project file the deployer reads. */
  datatype Pyproject = Pyproject(name: string, version: string, tool: ToolTable)

  datatype AlgorithmDeployer = AlgorithmDeployer(
    algorithmId: string, directory: string, name: string, major: string, minor: string,
    config: AlgorithmConfig.AlgorithmConfigRecord,
    checkImportable: bool, obfuscate: bool, hashModule: bool, hashAssets: bool)

  /** `version.split(".")[0]` and `[1]`: a version without a dot has no minor part. */
  function VersionParts(version: string): (r: Result<(string, string)>)
    ensures r.Ok? <==> '.' in version
    ensures r.Err? ==> r.exc == IndexError
  {
    var parts := Split(version, '.');
    SplitCount(version, '.');
    if |parts| < 2 then Err(IndexError) else Ok((parts[0], parts[1]))
  }

  /** A string splits into more than one part iff it contains the separator. */
  lemma {:induction false} SplitCount(s: string, d: char)
    ensures |Split(s, d)| >= 2 <==> d in s
  {
    if s != [] {
      SplitCount(s[1..], d);
      assert d in s <==> s[0] == d || d in s[1..];
    }
  }

  /** A leading separator splits off an empty first part. */
  lemma SplitLead(d: char, t: string)
    ensures Split([d] + t, d) == [""] + Split(t, d)
  {
    assert ([d] + t)[1..] == t;
  }

  /** The major and minor versions are the first and second dot-separated fields. */
  lemma VersionFields(a: string, b: string, rest: string)
    requires '.' !in a && '.' !in b
    ensures VersionParts(a + "." + b) == Ok((a, b))
    ensures VersionParts(a + "." + b + "." + rest) == Ok((a, b))
  {
    SplitTwo(a, b, "", '.');
    assert a + "." + b + "" == a + "." + b;
    SplitTwo(a, b, "." + rest, '.');
    assert a + "." + b + ("." + rest) == a + "." + b + "." + rest;
  }

  /** `a`, then `b`, are the first two parts when `t` is empty or starts with the separator. */
  lemma SplitTwo(a: string, b: string, t: string, d: char)
    requires d !in a && d !in b && (t == [] || t[0] == d)
    ensures var p := Split(a + [d] + b + t, d); |p| >= 2 && p[0] == a && p[1] == b
  {
    var tail := Split(t, d);
    assert tail[0] == "" by {
      if t != [] {
        assert t == [d] + t[1..];
        SplitLead(d, t[1..]);
      }
    }
    SplitPrefix(b, d, t);
    var mid := Split(b + t, d);
    assert b + tail[0] == b;
    assert mid[0] == b;
    SplitLead(d, b + t);
    var lead := Split([d] + (b + t), d);
    assert lead[0] == "" && lead[1] == b;
    SplitPrefix(a, d, [d] + (b + t));
    assert a + lead[0] == a;
    assert a + [d] + b + t == a + ([d] + (b + t));
  }

  lemma ShortVersion()
    ensures VersionParts("1.2") == Ok(("1", "2"))
    ensures VersionParts("1") == Err(IndexError)
  {
    VersionFields("1", "2", "");
    assert "1" + "." + "2" == "1.2";
  }

  /** What `__init__` does with the project file: the first problem it meets is raised. */
  function NewDeployer(uuid: string, directory: string, p: Pyproject): Result<AlgorithmDeployer>
  {
    var versions :- VersionParts(p.version);
    var config :- match p.tool
      case WithCompox(t) => AlgorithmConfig.CheckConfig(t.config).result
      case _ => AlgorithmConfig.CheckConfig(AlgorithmConfig.DefaultConfig).result;
    match p.tool
    case NoTool => Err(KeyError("tool"))
    case NoCompox => Err(KeyError("compox"))
    case WithCompox(t) =>
      if t.checkImportable.None? then Err(KeyError("check_importable"))
      else if t.obfuscate.None? then Err(KeyError("obfuscate"))
      else if t.hashModule.None? then Err(KeyError("hash_module"))
      else if t.hashAssets.None? then Err(KeyError("hash_assets"))
      else Ok(AlgorithmDeployer(uuid, directory, p.name, versions.0, versions.1, config,
                                t.checkImportable.value, t.obfuscate.value, t.hashModule.value, t.hashAssets.value))
  }

  /**
   * A project file without `[tool.compox]` is refused with a KeyError once
   * its version is read, although the code before it has taken the default
   * configuration for that case.
   */
  lemma MissingCompoxRaises(uuid: string, directory: string, p: Pyproject)
    requires !p.tool.WithCompox? && '.' in p.version
    ensures NewDeployer(uuid, directory, p) == Err(KeyError(if p.tool.NoTool? then "tool" else "compox"))
  {
    AlgorithmConfig.DefaultConfigPasses();
  }

  /** A complete project file gives a deployer with its name, versions, validated configuration and flags. */
  lemma DeployerFields(uuid: string, directory: string, p: Pyproject)
    requires p.tool.WithCompox? && '.' in p.version
    requires AlgorithmConfig.CheckConfig(p.tool.compox.config).result.Ok?
    requires var t := p.tool.compox; t.checkImportable.Some? && t.obfuscate.Some? && t.hashModule.Some? && t.hashAssets.Some?
    ensures var r := NewDeployer(uuid, directory, p);
      r.Ok? && r.value.algorithmId == uuid && r.value.name == p.name
      && (r.value.major, r.value.minor) == VersionParts(p.version).value
      && r.value.config == AlgorithmConfig.CheckConfig(p.tool.compox.config).result.value
      && r.value.checkImportable == p.tool.compox.checkImportable.value && r.value.hashAssets == p.tool.compox.hashAssets.value
  {
  }

  // ---------------------------------------------------------------- store_algorithm's record

  /** The algorithm-store key `id~name~major~minor`. */
  function AlgorithmKey(d: AlgorithmDeployer): string
  {
    d.algorithmId + "~" + d.name + "~" + d.major + "~" + d.minor
  }

  /** The algorithm record `store_algorithm` serialises. */
  datatype AlgorithmRecord = AlgorithmRecord(
    algorithmId: string, name: string, major: string, minor: string,
    config: AlgorithmConfig.AlgorithmConfigRecord, moduleId: string, assets: seq<(string, string)>, timestamp: string)

  function RecordOf(d: AlgorithmDeployer, moduleId: string, assets: seq<(string, string)>, timestamp: string): AlgorithmRecord
  {
    AlgorithmRecord(d.algorithmId, d.name, d.major, d.minor, d.config, moduleId, assets, timestamp)
  }

  /**
   * The last step of `store_algorithm` on a connection: create the
   * collection when it is missing and put the serialised record under the
   * key. The JSON encoder is a parameter.
   */
  function StoreRecord(s: ObjectStore.Store, collection: string, d: AlgorithmDeployer, moduleId: string,
                       assets: seq<(string, string)>, timestamp: string, encode: AlgorithmRecord -> string, bytesOnly: bool): (r: ObjectStore.Store)
    requires ObjectStore.StoreValid(s)
    ensures ObjectStore.StoreValid(r)
  {
    var s1 := if collection in s.m then s else ObjectStore.CreateAll(s, [collection]);
    ObjectStore.PutIn(s1, collection, [AlgorithmKey(d)], [ObjectStore.Text(encode(RecordOf(d, moduleId, assets, timestamp)))], bytesOnly)
  }

  /**
   * A store that keeps text holds the record under the key, and the record
   * names the deployer's id, name and versions; a store that keeps only
   * bytes (the compox in-memory connection) silently keeps whatever was
   * there before.
   */
  lemma StoredRecord(s: ObjectStore.Store, collection: string, d: AlgorithmDeployer, moduleId: string,
                     assets: seq<(string, string)>, timestamp: string, encode: AlgorithmRecord -> string, bytesOnly: bool)
    requires ObjectStore.StoreValid(s)
    ensures var r := StoreRecord(s, collection, d, moduleId, assets, timestamp, encode, bytesOnly);
      var rec := RecordOf(d, moduleId, assets, timestamp);
      collection in r.m
      && (!bytesOnly ==> ObjectStore.Lookup(r.m[collection], AlgorithmKey(d)) == Some(ObjectStore.Text(encode(rec))))
      && (bytesOnly ==> ObjectStore.Lookup(r.m[collection], AlgorithmKey(d)) == ObjectStore.Lookup(ObjectStore.CollectionOf(s, collection), AlgorithmKey(d)))
      && rec.algorithmId == d.algorithmId && rec.name == d.name && rec.major == d.major && rec.minor == d.minor
  {
    var s1 := if collection in s.m then s else ObjectStore.CreateAll(s, [collection]);
    var key := AlgorithmKey(d);
    var v := ObjectStore.Text(encode(RecordOf(d, moduleId, assets, timestamp)));
    ObjectStore.PutInSpec(s1, collection, [key], [v], bytesOnly, key);
    if bytesOnly {
      ObjectStore.TextIsDropped([key], [v], key);
    }
    if collection !in s.m {
      ObjectStore.CreateAllSpec(s, [collection], collection);
    }
    assert ObjectStore.CollectionOf(s1, collection) == ObjectStore.CollectionOf(s, collection);
  }

  /**
   * Round trip with the server's key parser: a key composed here, whose
   * fields contain no "~" and whose versions are integers, is found by its
   * id and gives back the same name and versions.
   */
  lemma KeyRoundTrip(d: AlgorithmDeployer, others: seq<string>)
    requires '~' !in d.algorithmId && '~' !in d.name && '~' !in d.major && '~' !in d.minor
    requires ParseInt(d.major).Ok? && ParseInt(d.minor).Ok?
    requires ServerUtils.NoMatch(d.algorithmId, others)
    ensures ServerUtils.FindSpec(d.algorithmId, others + [AlgorithmKey(d)])
         == Ok(Some(ServerUtils.AlgorithmRef(AlgorithmKey(d), d.algorithmId, d.name, ParseInt(d.major).value, ParseInt(d.minor).value)))
  {
    var parts := [d.algorithmId, d.name, d.major, d.minor];
    assert Join(parts, "~") == AlgorithmKey(d) by {
      assert parts[1..] == [d.name, d.major, d.minor];
      assert [d.name, d.major, d.minor][1..] == [d.major, d.minor];
      assert [d.major, d.minor][1..] == [d.minor];
      assert Join([d.major, d.minor], "~") == d.major + "~" + d.minor;
      assert Join([d.name, d.major, d.minor], "~") == d.name + "~" + (d.major + "~" + d.minor);
    }
    SplitJoin(parts, '~');
    FindAfterNoMatch(d.algorithmId, others, AlgorithmKey(d));
  }

  lemma {:induction false} FindAfterNoMatch(id: string, others: seq<string>, key: string)
    requires ServerUtils.NoMatch(id, others)
    ensures ServerUtils.FindSpec(id, others + [key]) == ServerUtils.FindSpec(id, [key])
  {
    if others != [] {
      assert (others + [key])[1..] == others[1..] + [key];
      assert others[0] in others;
      FindAfterNoMatch(id, others[1..], key);
    }
  }

  // ---------------------------------------------------------------- process_path_to_dict_key

  /** `path.replace("\\", "/")`, character by character. */
  function Slashes(s: string): (r: string)
    ensures |r| == |s| && forall i :: 0 <= i < |s| ==> r[i] == (if s[i] == '\\' then '/' else s[i])
  {
    if s == [] then [] else [if s[0] == '\\' then '/' else s[0]] + Slashes(s[1..])
  }

  /** `process_path_to_dict_key`: one leading backslash is dropped, then every backslash becomes "/". */
  function ProcessPathToDictKey(path: string): Result<string>
  {
    if path == [] then Err(IndexError)
    else
      var p := if path[0] == '\\' then path[1..] else path;
      Ok(Replace(p, "\\", "/"))
  }

  /** Replacing a single character by a single character is a character-wise map. */
  lemma {:induction false} ReplaceBackslash(s: string)
    ensures Replace(s, "\\", "/") == Slashes(s)
  {
    if s != [] {
      ReplaceBackslash(s[1..]);
      assert s[..1] == [s[0]];
    }
  }

  /**
   * The key has no backslash; it is the path without one leading backslash,
   * with slashes for the rest. A leading "/" stays, so a path that started
   * with two backslashes (or with "/") still begins with "/".
   */
  lemma DictKeySpec(path: string)
    ensures ProcessPathToDictKey(path).Ok? <==> path != []
    ensures path != [] ==> var k := ProcessPathToDictKey(path).value;
      '\\' !in k
      && k == Slashes(if path[0] == '\\' then path[1..] else path)
      && (|path| >= 2 && path[0] == '\\' && path[1] == '\\' ==> k[0] == '/')
      && (path[0] == '/' ==> k[0] == '/')
  {
    if path != [] {
      var p := if path[0] == '\\' then path[1..] else path;
      ReplaceBackslash(p);
      var k := Slashes(p);
      assert '\\' !in k by {
        forall i | 0 <= i < |k| ensures k[i] != '\\' { }
      }
    }
  }

  // ---------------------------------------------------------------- Runner.py

  const RunnerMissingMessage: string :=
    "Runner.py not found in the root of the algorithm directory and separate_runner_path is not provided."

  /**
   * The module's files and their relative paths after the Runner check: a
   * separate runner file is added under the relative name `Runner.py`.
   */
  function WithRunner(files: seq<string>, rels: seq<string>, separateRunner: Option<string>): Result<(seq<string>, seq<string>)>
  {
    if "Runner.py" !in rels && separateRunner.None? then Err(ValueError(RunnerMissingMessage))
    else if separateRunner.Some? then Ok((files + [separateRunner.value], rels + ["Runner.py"]))
    else Ok((files, rels))
  }

  /** The module is refused iff it has no root `Runner.py` and no separate one; otherwise it always has one. */
  lemma RunnerRule(files: seq<string>, rels: seq<string>, separateRunner: Option<string>)
    ensures WithRunner(files, rels, separateRunner).Err? <==> "Runner.py" !in rels && separateRunner.None?
    ensures WithRunner(files, rels, separateRunner).Ok? ==> "Runner.py" in WithRunner(files, rels, separateRunner).value.1
  {
    if separateRunner.Some? {
      var r := rels + ["Runner.py"];
      assert r[|rels|] == "Runner.py";
    }
  }

  // ---------------------------------------------------------------- paths

  function Components(p: string): seq<string>
  {
    Split(p, Sep)
  }

  function Basename(p: string): string
  {
    var cs := Components(p);
    cs[|cs| - 1]
  }

  function Dirname(p: string): string
  {
    var cs := Components(p);
    Join(cs[..|cs| - 1], [Sep])
  }

  /** `os.path.join(d, n)`. */
  function JoinPath(d: string, n: string): string
  {
    if d == "" then n else d + [Sep] + n
  }

  lemma {:induction false} JoinAppend(ps: seq<string>, n: string, sep: string)
    requires |ps| >= 1
    ensures Join(ps + [n], sep) == Join(ps, sep) + sep + n
  {
    if |ps| > 1 {
      JoinAppend(ps[1..], n, sep);
      assert (ps + [n])[1..] == ps[1..] + [n];
    }
  }

  /** A name without a separator joined to a directory is a file of that directory. */
  lemma JoinPathParts(d: string, n: string)
    requires Sep !in n
    ensures Basename(JoinPath(d, n)) == n && Dirname(JoinPath(d, n)) == d
  {
    if d == "" {
      SplitPrefix(n, Sep, "");
      assert n + "" == n;
    } else {
      var ps := Split(d, Sep);
      JoinSplit(d, Sep);
      SplitPartsAvoidSep(d, Sep);
      JoinAppend(ps, n, [Sep]);
      SplitJoin(ps + [n], Sep);
      assert (ps + [n])[..|ps|] == ps;
    }
  }

  // ---------------------------------------------------------------- _rename_all_files

  /** A uuid or a hash made into a module name: "pcb" + it + ".py", without "-" and "_". */
  function RandomName(u: string): string
  {
    Replace(Replace("pcb" + u + ".py", "-", ""), "_", "")
  }

  /** The runner file and special files such as `__init__.py` keep their names. */
  predicate Kept(p: string)
  {
    Basename(p) == "Runner.py" || IsSubstring("__", Basename(p))
  }

  /**
   * The new name of one file: kept, or a random name in the same directory
   * from the i-th uuid (mode "uuid") or from the hash of the file (mode
   * "md5"); any other mode raises on the first file to rename.
   */
  function RenameOne(p: string, i: nat, mode: string, uuids: nat -> string, md5: string -> string): Result<string>
  {
    if Kept(p) then Ok(p)
    else if mode == "uuid" then Ok(JoinPath(Dirname(p), RandomName(uuids(i))))
    else if mode == "md5" then Ok(JoinPath(Dirname(p), RandomName(md5(p))))
    else Err(ValueError("Unsupported mode: " + mode))
  }

  /** The dict of `_rename_all_files`, as its items in insertion order. */
  function RenameAll(files: seq<string>, mode: string, uuids: nat -> string, md5: string -> string): Result<seq<(string, string)>>
  {
    RenameFrom(files, 0, mode, uuids, md5)
  }

  function RenameFrom(files: seq<string>, i: nat, mode: string, uuids: nat -> string, md5: string -> string): Result<seq<(string, string)>>
    requires i <= |files|
    decreases |files| - i
  {
    if i == |files| then Ok([])
    else
      var n :- RenameOne(files[i], i, mode, uuids, md5);
      var rest :- RenameFrom(files, i + 1, mode, uuids, md5);
      Ok([(files[i], n)] + rest)
  }

  /** `_rename_all_files`' loop over the relative paths; the renaming on disk is left out. */
  method RenameAllFiles(files: seq<string>, mode: string, uuids: nat -> string, md5: string -> string)
    returns (r: Result<seq<(string, string)>>)
    ensures r == RenameAll(files, mode, uuids, md5)
  {
    var items: seq<(string, string)> := [];
    var i := 0;
    match RenameFrom(files, 0, mode, uuids, md5) {
      case Ok(rest) => assert [] + rest == rest;
      case Err(_) =>
    }
    while i < |files|
      invariant 0 <= i <= |files|
      invariant forall j :: 0 <= j < i ==> RenameOne(files[j], j, mode, uuids, md5).Ok?
      invariant RenameAll(files, mode, uuids, md5) == PrefixThen(files, i, items, mode, uuids, md5)
    {
      var n := RenameOne(files[i], i, mode, uuids, md5);
      if n.Err? {
        PrefixErr(files, i, items, mode, uuids, md5);
        return Err(n.exc);
      }
      PrefixStep(files, i, items, mode, uuids, md5);
      items := items + [(files[i], n.value)];
      i := i + 1;
    }
    assert items + [] == items;
    return Ok(items);
  }

  /** The items built so far followed by the rest of the renaming. */
  function PrefixThen(files: seq<string>, i: nat, items: seq<(string, string)>, mode: string, uuids: nat -> string, md5: string -> string): Result<seq<(string, string)>>
    requires i <= |files|
  {
    match RenameFrom(files, i, mode, uuids, md5)
    case Ok(rest) => Ok(items + rest)
    case Err(e) => Err(e)
  }

  lemma PrefixStep(files: seq<string>, i: nat, items: seq<(string, string)>, mode: string, uuids: nat -> string, md5: string -> string)
    requires i < |files| && RenameOne(files[i], i, mode, uuids, md5).Ok?
    ensures PrefixThen(files, i, items, mode, uuids, md5)
         == PrefixThen(files, i + 1, items + [(files[i], RenameOne(files[i], i, mode, uuids, md5).value)], mode, uuids, md5)
  {
    var n := RenameOne(files[i], i, mode, uuids, md5).value;
    match RenameFrom(files, i + 1, mode, uuids, md5)
    case Ok(rest) =>
      assert items + ([(files[i], n)] + rest) == items + [(files[i], n)] + rest;
    case Err(_) =>
  }

  lemma PrefixErr(files: seq<string>, i: nat, items: seq<(string, string)>, mode: string, uuids: nat -> string, md5: string -> string)
    requires i < |files| && RenameOne(files[i], i, mode, uuids, md5).Err?
    ensures PrefixThen(files, i, items, mode, uuids, md5) == Err(RenameOne(files[i], i, mode, uuids, md5).exc)
  {
  }

  /** Removing a character distributes over concatenation. */
  lemma {:induction false} ReplaceConcat(a: string, b: string, c: char)
    ensures Replace(a + b, [c], "") == Replace(a, [c], "") + Replace(b, [c], "")
  {
    if a != [] {
      ReplaceConcat(a[1..], b, c);
      assert (a + b)[1..] == a[1..] + b;
      assert (a + b)[..1] == a[..1];
    } else {
      assert a + b == b;
    }
  }

  lemma {:induction false} ReplaceNoChar(s: string, c: char)
    requires c !in s
    ensures Replace(s, [c], "") == s
  {
    if s != [] {
      ReplaceNoChar(s[1..], c);
      assert s[..1] == [s[0]];
    }
  }

  /** Removing `c` from `a + u + b` touches only `u` when `a` and `b` do not contain it. */
  lemma Around(a: string, u: string, b: string, c: char)
    requires c !in a && c !in b
    ensures Replace(a + u + b, [c], "") == a + Replace(u, [c], "") + b
  {
    assert a + u + b == a + (u + b);
    ReplaceConcat(a, u + b, c);
    ReplaceConcat(u, b, c);
    ReplaceNoChar(a, c);
    ReplaceNoChar(b, c);
  }

  /** The random name is "pcb", the uuid without "-" and "_", and ".py". */
  lemma RandomNameIs(u: string)
    ensures RandomName(u) == "pcb" + Replace(Replace(u, "-", ""), "_", "") + ".py"
  {
    Around("pcb", u, ".py", '-');
    Around("pcb", Replace(u, "-", ""), ".py", '_');
  }

  /** Removing every "-" and then every "_" leaves neither, and keeps the prefix and the suffix. */
  lemma RandomNameShape(u: string)
    ensures var n := RandomName(u);
      '-' !in n && '_' !in n && StartsWith(n, "pcb") && EndsWith(n, ".py")
      && (Sep !in u ==> Sep !in n)
  {
    var s := "pcb" + u + ".py";
    var s1 := Replace(s, "-", "");
    ReplaceCharRemoves(s, '-', "");
    ReplaceCharKeeps(s1, '_', "", '-');
    ReplaceCharRemoves(s1, '_', "");
    RandomNameIs(u);
    var m := Replace(Replace(u, "-", ""), "_", "");
    assert RandomName(u) == "pcb" + m + ".py";
    assert ("pcb" + m + ".py")[..3] == "pcb";
    assert ("pcb" + m + ".py")[|"pcb" + m + ".py"| - 3..] == ".py";
    if Sep !in u {
      ReplaceCharKeeps(u, '-', "", Sep);
      ReplaceCharKeeps(Replace(u, "-", ""), '_', "", Sep);
      assert Sep !in "pcb" + m + ".py";
    }
  }

  /** What the renaming promises of one file. */
  predicate RenamedWell(from: string, to: string)
  {
    (Kept(from) ==> to == from)
    && (!Kept(from) ==>
          (Dirname(to) == Dirname(from)
           && '-' !in Basename(to) && '_' !in Basename(to) && StartsWith(Basename(to), "pcb") && EndsWith(Basename(to), ".py")))
  }

  /**
   * One file's renaming keeps the runner and every special file, and moves
   * any other file to a name in the same directory that starts with "pcb",
   * ends with ".py" and has no "-" or "_". An unknown mode raises iff the
   * file would have to be renamed.
   */
  lemma RenameOneSpec(p: string, i: nat, mode: string, uuids: nat -> string, md5: string -> string)
    requires forall k: nat :: Sep !in uuids(k)
    requires forall q :: Sep !in md5(q)
    ensures RenameOne(p, i, mode, uuids, md5).Err? <==> !Kept(p) && mode != "uuid" && mode != "md5"
    ensures RenameOne(p, i, mode, uuids, md5).Ok? ==> RenamedWell(p, RenameOne(p, i, mode, uuids, md5).value)
  {
    if !Kept(p) && (mode == "uuid" || mode == "md5") {
      var u := if mode == "uuid" then uuids(i) else md5(p);
      RandomNameShape(u);
      JoinPathParts(Dirname(p), RandomName(u));
    }
  }

  /** The renamings pair `files[i..]` in order with names `RenamedWell` accepts. */
  predicate RenamedList(files: seq<string>, i: nat, items: seq<(string, string)>)
    requires i <= |files|
  {
    |items| == |files| - i
    && forall j :: 0 <= j < |items| ==> items[j].0 == files[i + j] && RenamedWell(items[j].0, items[j].1)
  }

  /** The renaming fails exactly for an unsupported mode with at least one file to rename. */
  lemma {:induction false} RenameFails(files: seq<string>, i: nat, mode: string, uuids: nat -> string, md5: string -> string)
    requires i <= |files|
    decreases |files| - i
    ensures RenameFrom(files, i, mode, uuids, md5).Err? <==>
      mode != "uuid" && mode != "md5" && exists j :: i <= j < |files| && !Kept(files[j])
  {
    if i < |files| {
      RenameFails(files, i + 1, mode, uuids, md5);
      if mode != "uuid" && mode != "md5" && (exists j :: i <= j < |files| && !Kept(files[j])) && Kept(files[i]) {
        var j :| i <= j < |files| && !Kept(files[j]);
        assert j != i;
      }
    }
  }

  /** A successful renaming pairs every file, in order, with a name it is allowed to take. */
  lemma {:induction false} RenameRule(files: seq<string>, i: nat, mode: string, uuids: nat -> string, md5: string -> string)
    requires i <= |files|
    requires forall k: nat :: Sep !in uuids(k)
    requires forall p :: Sep !in md5(p)
    decreases |files| - i
    ensures RenameFrom(files, i, mode, uuids, md5).Ok? ==> RenamedList(files, i, RenameFrom(files, i, mode, uuids, md5).value)
  {
    var r := RenameFrom(files, i, mode, uuids, md5);
    if i < |files| && r.Ok? {
      RenameRule(files, i + 1, mode, uuids, md5);
      RenameOneSpec(files[i], i, mode, uuids, md5);
      var rest := RenameFrom(files, i + 1, mode, uuids, md5).value;
      var items := r.value;
      assert items == [(files[i], RenameOne(files[i], i, mode, uuids, md5).value)] + rest;
      forall j | 0 <= j < |items|
        ensures items[j].0 == files[i + j] && RenamedWell(items[j].0, items[j].1)
      {
        if j > 0 {
          assert items[j] == rest[j - 1];
        }
      }
    }
  }

  // ---------------------------------------------------------------- file filters

  /** `find_py_files`' filter: no `__pycache__` component. */
  predicate IsModuleFile(p: string)
  {
    "__pycache__" !in Components(p)
  }

  /** `find_other_than_py_files`' filters: not ".py", not a directory, no `__pycache__`, no `.gitignore`. */
  predicate IsAssetFile(p: string, isDir: string -> bool)
  {
    !EndsWith(p, ".py") && !isDir(p) && "__pycache__" !in Components(p) && ".gitignore" !in Components(p)
  }

  function ModuleFiles(ps: seq<string>): (r: seq<string>)
    ensures forall x :: x in r <==> x in ps && IsModuleFile(x)
  {
    if ps == [] then []
    else (if IsModuleFile(ps[0]) then [ps[0]] else []) + ModuleFiles(ps[1..])
  }

  function AssetFiles(ps: seq<string>, isDir: string -> bool): (r: seq<string>)
    ensures forall x :: x in r <==> x in ps && IsAssetFile(x, isDir)
  {
    if ps == [] then []
    else (if IsAssetFile(ps[0], isDir) then [ps[0]] else []) + AssetFiles(ps[1..], isDir)
  }

  /** `s` is `t` with some elements left out, the rest in their order. */
  predicate Subsequence(s: seq<string>, t: seq<string>)
    decreases |t|
  {
    s == [] || (t != [] && ((s[0] == t[0] && Subsequence(s[1..], t[1..])) || Subsequence(s, t[1..])))
  }

  /** Both filters keep the walk's order. */
  lemma {:induction false} ModuleFilesKeepOrder(ps: seq<string>)
    ensures Subsequence(ModuleFiles(ps), ps)
  {
    if ps != [] {
      ModuleFilesKeepOrder(ps[1..]);
      var rest := ModuleFiles(ps[1..]);
      if IsModuleFile(ps[0]) {
        assert ModuleFiles(ps) == [ps[0]] + rest;
        assert ModuleFiles(ps)[1..] == rest;
      } else {
        assert ModuleFiles(ps) == rest;
        SubsequenceSkip(rest, ps);
      }
    }
  }

  lemma {:induction false} AssetFilesKeepOrder(ps: seq<string>, isDir: string -> bool)
    ensures Subsequence(AssetFiles(ps, isDir), ps)
  {
    if ps != [] {
      AssetFilesKeepOrder(ps[1..], isDir);
      var rest := AssetFiles(ps[1..], isDir);
      if IsAssetFile(ps[0], isDir) {
        assert AssetFiles(ps, isDir) == [ps[0]] + rest;
        assert AssetFiles(ps, isDir)[1..] == rest;
      } else {
        assert AssetFiles(ps, isDir) == rest;
        SubsequenceSkip(rest, ps);
      }
    }
  }

  lemma SubsequenceSkip(s: seq<string>, t: seq<string>)
    requires t != [] && Subsequence(s, t[1..])
    ensures Subsequence(s, t)
  {
  }

  /** Sources, caches and the ignore file never become assets. */
  lemma AssetExclusions(d: string, isDir: string -> bool)
    ensures !IsAssetFile(d + "/x.py", isDir)
    ensures !IsAssetFile("__pycache__/" + d, isDir)
    ensures !IsAssetFile(".gitignore", isDir)
  {
    assert (d + "/x.py")[|d + "/x.py"| - 3..] == ".py";
    SplitLead(Sep, d);
    SplitPrefix("__pycache__", Sep, "/" + d);
    assert "__pycache__/" + d == "__pycache__" + ("/" + d);
    assert Components("__pycache__/" + d)[0] == "__pycache__";
    SplitPrefix(".gitignore", Sep, "");
    assert ".gitignore" + "" == ".gitignore";
  }
}
