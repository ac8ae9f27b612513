/**
 * The import candidates of `_rename_folders_and_file_with_unique_ids`: for
 * every renamed module file, every dotted prefix and every dotted suffix of
 * its path, with ".py" removed, is an import that may have to be rewritten
 * from the old name to the new one.
 *
 * As written, the old candidates and the new candidates are deduplicated
 * separately and then zipped, so a duplicate on one side only shifts every
 * later pair (`ImportPairsAsWritten`, `MisalignedImports`). The corrected
 * model deduplicates the zipped pairs by their old name (`ImportPairs`), and
 * each pair it keeps comes from one file and one candidate position.
 */
module DeployerImports {
  import opened PyStr
  import opened PyList
  import Deployer

  /** `[".".join(m[:i]) for i in range(1, len(m) + 1)]`. */
  function Prefixes(m: seq<string>): seq<string>
  {
    seq(|m|, i requires 0 <= i < |m| => Join(m[..i + 1], "."))
  }

  /** `[".".join(m[-i:]) for i in range(1, len(m) + 1)]`. */
  function Suffixes(m: seq<string>): seq<string>
  {
    seq(|m|, i requires 0 <= i < |m| => Join(m[|m| - (i + 1)..], "."))
  }

  /** The candidates of one path: its dotted prefixes, then its dotted suffixes. */
  function Candidates(f: string): seq<string>
  {
    var m := Split(f, Deployer.Sep);
    Prefixes(m) + Suffixes(m)
  }

  /** The flattened candidate lists of all files, in file order. */
  function Flat(fs: seq<string>): seq<string>
  {
    if fs == [] then [] else Candidates(fs[0]) + Flat(fs[1..])
  }

  /** `item.replace(".py", "")` on every candidate. */
  function StripPy(xs: seq<string>): (r: seq<string>)
    ensures |r| == |xs|
  {
    seq(|xs|, i requires 0 <= i < |xs| => Replace(xs[i], ".py", ""))
  }

  /** `list(dict.fromkeys(xs))` after the names in `seen`: first occurrences, in order. */
  function DedupFrom(xs: seq<string>, seen: set<string>): seq<string>
  {
    if xs == [] then []
    else if xs[0] in seen then DedupFrom(xs[1..], seen)
    else [xs[0]] + DedupFrom(xs[1..], seen + {xs[0]})
  }

  /** `dict.fromkeys` keeps each name once, and exactly the names not seen before. */
  lemma {:induction false} DedupFromSpec(xs: seq<string>, seen: set<string>)
    ensures forall x :: x in DedupFrom(xs, seen) <==> x in xs && x !in seen
    ensures Distinct(DedupFrom(xs, seen))
  {
    if xs != [] {
      if xs[0] in seen {
        DedupFromSpec(xs[1..], seen);
      } else {
        DedupFromSpec(xs[1..], seen + {xs[0]});
        PrependDistinct(xs[0], DedupFrom(xs[1..], seen + {xs[0]}));
      }
    }
  }

  function Dedup(xs: seq<string>): seq<string>
  {
    DedupFrom(xs, {})
  }

  /** `zip(a, b)`: pairs up to the shorter length. */
  function Zip(a: seq<string>, b: seq<string>): (r: seq<(string, string)>)
    ensures |r| == if |a| <= |b| then |a| else |b|
    ensures forall i :: 0 <= i < |r| ==> r[i] == (a[i], b[i])
  {
    if a == [] || b == [] then [] else [(a[0], b[0])] + Zip(a[1..], b[1..])
  }

  function Olds(pairs: seq<(string, string)>): seq<string>
  {
    seq(|pairs|, i requires 0 <= i < |pairs| => pairs[i].0)
  }

  function News(pairs: seq<(string, string)>): seq<string>
  {
    seq(|pairs|, i requires 0 <= i < |pairs| => pairs[i].1)
  }

  /** The (old import, new import) pairs the rewriting loop uses, as written. */
  function ImportPairsAsWritten(pairs: seq<(string, string)>): seq<(string, string)>
  {
    Zip(Dedup(StripPy(Flat(Olds(pairs)))), Dedup(StripPy(Flat(News(pairs)))))
  }

  // ---------------------------------------------------------------- corrected pairing

  /** The candidates of one renamed file, old and new side by side. */
  function FilePairs(o: string, n: string): seq<(string, string)>
  {
    Zip(StripPy(Candidates(o)), StripPy(Candidates(n)))
  }

  function FlatPairs(pairs: seq<(string, string)>): seq<(string, string)>
  {
    if pairs == [] then [] else FilePairs(pairs[0].0, pairs[0].1) + FlatPairs(pairs[1..])
  }

  function Keys(ps: seq<(string, string)>): (r: seq<string>)
    ensures |r| == |ps| && forall i :: 0 <= i < |ps| ==> r[i] == ps[i].0
  {
    seq(|ps|, i requires 0 <= i < |ps| => ps[i].0)
  }

  /** The first pair for every old name not in `seen`, in order. */
  function DedupByKey(ps: seq<(string, string)>, seen: set<string>): (r: seq<(string, string)>)
    ensures forall p :: p in r ==> p in ps && p.0 !in seen
    ensures forall p :: p in ps && p.0 !in seen ==> p.0 in Keys(r)
    ensures Distinct(Keys(r))
  {
    if ps == [] then []
    else if ps[0].0 in seen then DedupByKey(ps[1..], seen)
    else
      var rest := DedupByKey(ps[1..], seen + {ps[0].0});
      assert ps[0].0 !in Keys(rest);
      PrependDistinct(ps[0].0, Keys(rest));
      assert Keys([ps[0]] + rest) == [ps[0].0] + Keys(rest);
      [ps[0]] + rest
  }

  /** The corrected pairing: the per-file pairs, the first pair per old name kept. */
  function ImportPairs(pairs: seq<(string, string)>): seq<(string, string)>
  {
    DedupByKey(FlatPairs(pairs), {})
  }

  // ---------------------------------------------------------------- properties

  /**
   * A path of `n` components has `2 * n` candidates: the first is its first
   * component, the `n`-th and the last are the whole dotted path, and the
   * one after the prefixes is its last component.
   */
  lemma CandidatesShape(f: string)
    ensures var m := Split(f, Deployer.Sep); var c := Candidates(f);
      |c| == 2 * |m| && c[0] == m[0] && c[|m| - 1] == Join(m, ".") && c[2 * |m| - 1] == Join(m, ".")
      && c[|m|] == m[|m| - 1]
  {
    JoinedShape(Split(f, Deployer.Sep));
  }

  /** The prefixes then suffixes of a non-empty path, at the four positions above. */
  lemma JoinedShape(m: seq<string>)
    requires |m| >= 1
    ensures var c := Prefixes(m) + Suffixes(m);
      |c| == 2 * |m| && c[0] == m[0] && c[|m| - 1] == Join(m, ".") && c[2 * |m| - 1] == Join(m, ".")
      && c[|m|] == m[|m| - 1]
  {
    EndsShape(m);
    var p, q := Prefixes(m), Suffixes(m);
    assert (p + q)[|m|] == q[0];
    assert (p + q)[2 * |m| - 1] == q[|m| - 1];
  }

  /** The first and last prefixes and suffixes of a non-empty path. */
  lemma EndsShape(m: seq<string>)
    requires |m| >= 1
    ensures Prefixes(m)[0] == m[0] && Prefixes(m)[|m| - 1] == Join(m, ".")
    ensures Suffixes(m)[0] == m[|m| - 1] && Suffixes(m)[|m| - 1] == Join(m, ".")
  {
    PrefixEnds(m);
    SuffixEnds(m);
  }

  lemma PrefixEnds(m: seq<string>)
    requires |m| >= 1
    ensures Prefixes(m)[0] == m[0] && Prefixes(m)[|m| - 1] == Join(m, ".")
  {
    PrefixFirst(m);
    PrefixLast(m);
  }

  lemma PrefixFirst(m: seq<string>)
    requires |m| >= 1
    ensures Prefixes(m)[0] == m[0]
  {
    PrefixAt(m, 0);
    assert m[..1] == [m[0]];
    JoinOne(m[0], ".");
  }

  lemma PrefixLast(m: seq<string>)
    requires |m| >= 1
    ensures Prefixes(m)[|m| - 1] == Join(m, ".")
  {
    var k := |m| - 1;
    PrefixAt(m, k);
    assert m[..k + 1] == m;
  }

  lemma PrefixAt(m: seq<string>, i: nat)
    requires i < |m|
    ensures Prefixes(m)[i] == Join(m[..i + 1], ".")
  {
  }

  lemma JoinOne(x: string, sep: string)
    ensures Join([x], sep) == x
  {
  }

  lemma SuffixEnds(m: seq<string>)
    requires |m| >= 1
    ensures Suffixes(m)[0] == m[|m| - 1] && Suffixes(m)[|m| - 1] == Join(m, ".")
  {
    var one := m[|m| - 1..];
    assert one == [m[|m| - 1]];
    assert Join(one, ".") == m[|m| - 1];
    assert m[|m| - |m|..] == m;
  }

  /** A file with as many components in its new path as in its old one pairs every candidate. */
  lemma FilePairsLength(o: string, n: string)
    requires |Split(o, Deployer.Sep)| == |Split(n, Deployer.Sep)|
    ensures |FilePairs(o, n)| == |Candidates(o)| && Keys(FilePairs(o, n)) == StripPy(Candidates(o))
  {
  }

  /** A pair belongs to the per-file pairs iff one file produces it. */
  lemma {:induction false} FlatPairsMembers(pairs: seq<(string, string)>, p: (string, string))
    ensures p in FlatPairs(pairs) <==> exists k :: 0 <= k < |pairs| && p in FilePairs(pairs[k].0, pairs[k].1)
  {
    if pairs != [] {
      FlatPairsMembers(pairs[1..], p);
      if p in FlatPairs(pairs[1..]) {
        var k :| 0 <= k < |pairs[1..]| && p in FilePairs(pairs[1..][k].0, pairs[1..][k].1);
        assert pairs[k + 1] == pairs[1..][k];
      }
      if exists k :: 0 <= k < |pairs| && p in FilePairs(pairs[k].0, pairs[k].1) {
        var k :| 0 <= k < |pairs| && p in FilePairs(pairs[k].0, pairs[k].1);
        if k > 0 {
          assert pairs[1..][k - 1] == pairs[k];
        }
      }
    }
  }

  /**
   * The corrected pairing is sound, one-to-one and complete: every pair it
   * keeps is an old and a new candidate at the same position of one file,
   * no old name appears twice, and every old candidate is rewritten.
   */
  lemma ImportPairsSpec(pairs: seq<(string, string)>)
    ensures forall p :: p in ImportPairs(pairs) ==>
      exists k, j :: 0 <= k < |pairs| && 0 <= j < |FilePairs(pairs[k].0, pairs[k].1)| && p == FilePairs(pairs[k].0, pairs[k].1)[j]
    ensures Distinct(Keys(ImportPairs(pairs)))
    ensures forall p :: p in FlatPairs(pairs) ==> p.0 in Keys(ImportPairs(pairs))
  {
    forall p | p in ImportPairs(pairs)
      ensures exists k, j :: 0 <= k < |pairs| && 0 <= j < |FilePairs(pairs[k].0, pairs[k].1)| && p == FilePairs(pairs[k].0, pairs[k].1)[j]
    {
      FlatPairsMembers(pairs, p);
      var k :| 0 <= k < |pairs| && p in FilePairs(pairs[k].0, pairs[k].1);
      var j :| 0 <= j < |FilePairs(pairs[k].0, pairs[k].1)| && p == FilePairs(pairs[k].0, pairs[k].1)[j];
    }
  }

  // ---------------------------------------------------------------- both pairings agree without duplicates

  lemma {:induction false} DedupFromDistinct(xs: seq<string>, seen: set<string>)
    requires Distinct(xs) && forall x :: x in xs ==> x !in seen
    ensures DedupFrom(xs, seen) == xs
  {
    if xs != [] {
      TailDistinct(xs);
      DedupFromDistinct(xs[1..], seen + {xs[0]});
      assert xs == [xs[0]] + xs[1..];
    }
  }

  lemma {:induction false} DedupByKeyDistinct(ps: seq<(string, string)>, seen: set<string>)
    requires Distinct(Keys(ps)) && forall p :: p in ps ==> p.0 !in seen
    ensures DedupByKey(ps, seen) == ps
  {
    if ps != [] {
      TailDistinct(Keys(ps));
      assert Keys(ps)[1..] == Keys(ps[1..]);
      forall p | p in ps[1..] ensures p.0 !in seen + {ps[0].0} {
        var i :| 0 <= i < |ps[1..]| && ps[1..][i] == p;
        assert Keys(ps)[i + 1] == p.0;
      }
      DedupByKeyDistinct(ps[1..], seen + {ps[0].0});
    }
  }

  lemma {:induction false} StripPyConcat(a: seq<string>, b: seq<string>)
    ensures StripPy(a + b) == StripPy(a) + StripPy(b)
  {
  }

  lemma {:induction false} ZipConcat(a1: seq<string>, a2: seq<string>, b1: seq<string>, b2: seq<string>)
    requires |a1| == |b1|
    ensures Zip(a1 + a2, b1 + b2) == Zip(a1, b1) + Zip(a2, b2)
  {
  }

  /** Component counts that agree file by file. */
  predicate SameShape(pairs: seq<(string, string)>)
  {
    forall k :: 0 <= k < |pairs| ==> |Split(pairs[k].0, Deployer.Sep)| == |Split(pairs[k].1, Deployer.Sep)|
  }

  /** With matching component counts, zipping the flattened lists is the per-file pairing. */
  lemma {:induction false} ZipFlat(pairs: seq<(string, string)>)
    requires SameShape(pairs)
    ensures Zip(StripPy(Flat(Olds(pairs))), StripPy(Flat(News(pairs)))) == FlatPairs(pairs)
    ensures Keys(FlatPairs(pairs)) == StripPy(Flat(Olds(pairs)))
  {
    if pairs != [] {
      assert Olds(pairs[1..]) == Olds(pairs)[1..] && News(pairs[1..]) == News(pairs)[1..];
      ZipFlat(pairs[1..]);
      var (o, n) := pairs[0];
      FilePairsLength(o, n);
      CandidatesShape(o);
      CandidatesShape(n);
      assert Flat(Olds(pairs)) == Candidates(o) + Flat(Olds(pairs[1..]));
      assert Flat(News(pairs)) == Candidates(n) + Flat(News(pairs[1..]));
      StripPyConcat(Candidates(o), Flat(Olds(pairs[1..])));
      StripPyConcat(Candidates(n), Flat(News(pairs[1..])));
      ZipConcat(StripPy(Candidates(o)), StripPy(Flat(Olds(pairs[1..]))), StripPy(Candidates(n)), StripPy(Flat(News(pairs[1..]))));
      assert Keys(FlatPairs(pairs)) == Keys(FilePairs(o, n)) + Keys(FlatPairs(pairs[1..]));
    }
  }

  /**
   * When neither candidate list has a duplicate and the renaming keeps the
   * component counts, the pairing as written is the corrected one.
   */
  lemma AgreeWithoutDuplicates(pairs: seq<(string, string)>)
    requires SameShape(pairs)
    requires Distinct(StripPy(Flat(Olds(pairs)))) && Distinct(StripPy(Flat(News(pairs))))
    ensures ImportPairsAsWritten(pairs) == ImportPairs(pairs)
  {
    DedupFromDistinct(StripPy(Flat(Olds(pairs))), {});
    DedupFromDistinct(StripPy(Flat(News(pairs))), {});
    ZipFlat(pairs);
    DedupByKeyDistinct(FlatPairs(pairs), {});
  }

  // ---------------------------------------------------------------- the misalignment

  /** Two modules named "u" in different packages, then a top-level module. */
  const Example: seq<(string, string)> := [("a/u.py", "d/x.py"), ("b/u.py", "e/y.py"), ("c.py", "z.py")]

  /** A package and a module: the package, the dotted path, the module, the dotted path. */
  lemma CandidatesTwo(p: string, q: string)
    requires Deployer.Sep !in p && Deployer.Sep !in q && p != "" && q != ""
    ensures Candidates(p + "/" + q) == [p, p + "." + q, q, p + "." + q]
  {
    SplitExample(p, q);
    var m := [p, q];
    assert m[..1] == [p] && m[..2] == m && m[1..] == [q] && m[0..] == m;
    assert Join(m, ".") == p + "." + q;
  }

  /** A top-level module is its own only candidate, twice. */
  lemma CandidatesOne(p: string)
    requires Deployer.Sep !in p && p != ""
    ensures Candidates(p) == [p, p]
  {
    SplitExample(p, "");
    assert [p][..1] == [p] && [p][0..] == [p];
  }

  lemma StripFour(w: string, x: string, y: string, z: string)
    ensures StripPy([w, x, y, z]) == [Replace(w, ".py", ""), Replace(x, ".py", ""), Replace(y, ".py", ""), Replace(z, ".py", "")]
  {
  }

  lemma CandidatesAt(d: char, m: char)
    requires 'a' <= d <= 'z' && 'a' <= m <= 'z'
    ensures StripPy(Candidates([d, '/', m, '.', 'p', 'y'])) == [[d], [d, '.', m], [m], [d, '.', m]]
  {
    assert [d, '/', m, '.', 'p', 'y'] == [d] + "/" + [m, '.', 'p', 'y'];
    CandidatesTwo([d], [m, '.', 'p', 'y']);
    assert [d] + "." + [m, '.', 'p', 'y'] == [d, '.', m, '.', 'p', 'y'];
    StripFour([d], [d, '.', m, '.', 'p', 'y'], [m, '.', 'p', 'y'], [d, '.', m, '.', 'p', 'y']);
    StripExample(d, m);
  }

  lemma CandidatesTop(m: char)
    requires 'a' <= m <= 'z'
    ensures StripPy(Candidates([m, '.', 'p', 'y'])) == [[m], [m]]
  {
    CandidatesOne([m, '.', 'p', 'y']);
    StripExample(m, m);
    assert StripPy([[m, '.', 'p', 'y'], [m, '.', 'p', 'y']]) == [Replace([m, '.', 'p', 'y'], ".py", ""), Replace([m, '.', 'p', 'y'], ".py", "")];
  }

  lemma {:induction false} SplitExample(p: string, q: string)
    requires Deployer.Sep !in p && Deployer.Sep !in q && p != ""
    ensures q != "" ==> Split(p + "/" + q, Deployer.Sep) == [p, q]
    ensures q == "" ==> Split(p, Deployer.Sep) == [p]
  {
    SplitPrefix(q, Deployer.Sep, "");
    assert q + "" == q;
    SplitPrefix(p, Deployer.Sep, "");
    assert p + "" == p;
    assert ("/" + q)[1..] == q;
    SplitPrefix(p, Deployer.Sep, "/" + q);
    assert p + "/" + q == p + ("/" + q);
  }

  lemma StripExample(d: char, m: char)
    requires 'a' <= d <= 'z' && 'a' <= m <= 'z'
    ensures Replace([d], ".py", "") == [d]
    ensures Replace([d, '.', m], ".py", "") == [d, '.', m]
    ensures Replace([m, '.', 'p', 'y'], ".py", "") == [m]
    ensures Replace([d, '.', m, '.', 'p', 'y'], ".py", "") == [d, '.', m]
  {
    assert Replace(['.', m], ".py", "") == ['.', m];
    assert [d, '.', m][..3] == [d, '.', m] && [d, '.', m][1] != ".py"[1];
    assert [d, '.', m][1..] == ['.', m];
    assert [m, '.', 'p', 'y'][1..] == ".py" && [m, '.', 'p', 'y'][..3][0] != ".py"[0];
    assert Replace(".py", ".py", "") == "" by {
      assert ".py"[..3] == ".py" && ".py"[3..] == "";
    }
    assert [d, '.', m, '.', 'p', 'y'][1..] == ['.', m, '.', 'p', 'y'];
    assert ['.', m, '.', 'p', 'y'][1..] == [m, '.', 'p', 'y'];
    assert [d, '.', m, '.', 'p', 'y'][..3][1] != ".py"[1] && ['.', m, '.', 'p', 'y'][..3][2] != ".py"[2];
  }

  lemma FlatThree(f1: string, f2: string, f3: string)
    ensures Flat([f1, f2, f3]) == Candidates(f1) + (Candidates(f2) + Candidates(f3))
  {
    var fs := [f1, f2, f3];
    assert fs[1..] == [f2, f3] && fs[1..][1..] == [f3] && fs[1..][1..][1..] == [];
    assert Flat([f3]) == Candidates(f3);
    assert Flat([f2, f3]) == Candidates(f2) + Candidates(f3);
  }

  lemma StripThree(c1: seq<string>, c2: seq<string>, c3: seq<string>)
    ensures StripPy(c1 + (c2 + c3)) == StripPy(c1) + StripPy(c2) + StripPy(c3)
  {
    StripPyConcat(c1, c2 + c3);
    StripPyConcat(c2, c3);
  }

  /** Stripping commutes with flattening, file by file. */
  lemma FlatStrip(f1: string, f2: string, f3: string)
    ensures StripPy(Flat([f1, f2, f3])) == StripPy(Candidates(f1)) + StripPy(Candidates(f2)) + StripPy(Candidates(f3))
  {
    FlatThree(f1, f2, f3);
    StripThree(Candidates(f1), Candidates(f2), Candidates(f3));
  }

  const OldCandidates: seq<string> := ["a", "a.u", "u", "a.u", "b", "b.u", "u", "b.u", "c", "c"]
  const NewCandidates: seq<string> := ["d", "d.x", "x", "d.x", "e", "e.y", "y", "e.y", "z", "z"]

  lemma ExampleFiles()
    ensures Olds(Example) == ["a/u.py", "b/u.py", "c.py"]
    ensures News(Example) == ["d/x.py", "e/y.py", "z.py"]
  {
  }

  lemma OldList()
    ensures StripPy(Flat(Olds(Example))) == OldCandidates
  {
    ExampleFiles();
    CandidatesAt('a', 'u');
    CandidatesAt('b', 'u');
    CandidatesTop('c');
    FlatStrip("a/u.py", "b/u.py", "c.py");
  }

  lemma NewList()
    ensures StripPy(Flat(News(Example))) == NewCandidates
  {
    ExampleFiles();
    CandidatesAt('d', 'x');
    CandidatesAt('e', 'y');
    CandidatesTop('z');
    FlatStrip("d/x.py", "e/y.py", "z.py");
  }

  /** One step of `dict.fromkeys`. */
  lemma DedupStep(x: string, t: seq<string>, seen: set<string>)
    ensures DedupFrom([x] + t, seen) == if x in seen then DedupFrom(t, seen) else [x] + DedupFrom(t, seen + {x})
  {
    assert ([x] + t)[1..] == t;
  }

  // `dict.fromkeys` on the example, three names at a time.

  lemma OldFrom7()
    ensures DedupFrom(["b.u", "c", "c"], {"a", "a.u", "u", "b", "b.u"}) == ["c"]
  {
    DedupStep("c", [], {"a", "a.u", "u", "b", "b.u", "c"});
    DedupStep("c", ["c"], {"a", "a.u", "u", "b", "b.u"});
    assert {"a", "a.u", "u", "b", "b.u"} + {"c"} == {"a", "a.u", "u", "b", "b.u", "c"};
    DedupStep("b.u", ["c", "c"], {"a", "a.u", "u", "b", "b.u"});
  }

  lemma OldFrom4()
    ensures DedupFrom(["b", "b.u", "u", "b.u", "c", "c"], {"a", "a.u", "u"}) == ["b", "b.u", "c"]
  {
    OldFrom7();
    DedupStep("u", ["b.u", "c", "c"], {"a", "a.u", "u", "b", "b.u"});
    DedupStep("b.u", ["u", "b.u", "c", "c"], {"a", "a.u", "u", "b"});
    assert {"a", "a.u", "u", "b"} + {"b.u"} == {"a", "a.u", "u", "b", "b.u"};
    DedupStep("b", ["b.u", "u", "b.u", "c", "c"], {"a", "a.u", "u"});
    assert {"a", "a.u", "u"} + {"b"} == {"a", "a.u", "u", "b"};
  }

  lemma OldFrom1()
    ensures DedupFrom(["a.u", "u", "a.u", "b", "b.u", "u", "b.u", "c", "c"], {"a"}) == ["a.u", "u", "b", "b.u", "c"]
  {
    OldFrom4();
    DedupStep("a.u", ["b", "b.u", "u", "b.u", "c", "c"], {"a", "a.u", "u"});
    DedupStep("u", ["a.u", "b", "b.u", "u", "b.u", "c", "c"], {"a", "a.u"});
    assert {"a", "a.u"} + {"u"} == {"a", "a.u", "u"};
    DedupStep("a.u", ["u", "a.u", "b", "b.u", "u", "b.u", "c", "c"], {"a"});
    assert {"a"} + {"a.u"} == {"a", "a.u"};
  }

  lemma OldFrom0()
    ensures DedupFrom(["a", "a.u", "u", "a.u", "b", "b.u", "u", "b.u", "c", "c"], {}) == ["a", "a.u", "u", "b", "b.u", "c"]
  {
    OldFrom1();
    DedupStep("a", ["a.u", "u", "a.u", "b", "b.u", "u", "b.u", "c", "c"], {});
    assert {} + {"a"} == {"a"};
  }

  lemma NewFrom7()
    ensures DedupFrom(["e.y", "z", "z"], {"d", "d.x", "x", "e", "e.y", "y"}) == ["z"]
  {
    DedupStep("z", [], {"d", "d.x", "x", "e", "e.y", "y", "z"});
    DedupStep("z", ["z"], {"d", "d.x", "x", "e", "e.y", "y"});
    assert {"d", "d.x", "x", "e", "e.y", "y"} + {"z"} == {"d", "d.x", "x", "e", "e.y", "y", "z"};
    DedupStep("e.y", ["z", "z"], {"d", "d.x", "x", "e", "e.y", "y"});
  }

  lemma NewFrom4()
    ensures DedupFrom(["e", "e.y", "y", "e.y", "z", "z"], {"d", "d.x", "x"}) == ["e", "e.y", "y", "z"]
  {
    NewFrom7();
    DedupStep("y", ["e.y", "z", "z"], {"d", "d.x", "x", "e", "e.y"});
    assert {"d", "d.x", "x", "e", "e.y"} + {"y"} == {"d", "d.x", "x", "e", "e.y", "y"};
    DedupStep("e.y", ["y", "e.y", "z", "z"], {"d", "d.x", "x", "e"});
    assert {"d", "d.x", "x", "e"} + {"e.y"} == {"d", "d.x", "x", "e", "e.y"};
    DedupStep("e", ["e.y", "y", "e.y", "z", "z"], {"d", "d.x", "x"});
    assert {"d", "d.x", "x"} + {"e"} == {"d", "d.x", "x", "e"};
  }

  lemma NewFrom1()
    ensures DedupFrom(["d.x", "x", "d.x", "e", "e.y", "y", "e.y", "z", "z"], {"d"}) == ["d.x", "x", "e", "e.y", "y", "z"]
  {
    NewFrom4();
    DedupStep("d.x", ["e", "e.y", "y", "e.y", "z", "z"], {"d", "d.x", "x"});
    DedupStep("x", ["d.x", "e", "e.y", "y", "e.y", "z", "z"], {"d", "d.x"});
    assert {"d", "d.x"} + {"x"} == {"d", "d.x", "x"};
    DedupStep("d.x", ["x", "d.x", "e", "e.y", "y", "e.y", "z", "z"], {"d"});
    assert {"d"} + {"d.x"} == {"d", "d.x"};
  }

  lemma NewFrom0()
    ensures DedupFrom(["d", "d.x", "x", "d.x", "e", "e.y", "y", "e.y", "z", "z"], {}) == ["d", "d.x", "x", "e", "e.y", "y", "z"]
  {
    NewFrom1();
    DedupStep("d", ["d.x", "x", "d.x", "e", "e.y", "y", "e.y", "z", "z"], {});
    assert {} + {"d"} == {"d"};
  }

  lemma DedupOld()
    ensures Dedup(OldCandidates) == ["a", "a.u", "u", "b", "b.u", "c"]
  {
    OldFrom0();
  }

  lemma DedupNew()
    ensures Dedup(NewCandidates) == ["d", "d.x", "x", "e", "e.y", "y", "z"]
  {
    NewFrom0();
  }

  /** A file in a package other than "c" pairs no old name "c". */
  lemma NoTopLevelC(d: char, m: char, e: char, n: char)
    requires 'a' <= d <= 'z' && 'a' <= m <= 'z' && 'a' <= e <= 'z' && 'a' <= n <= 'z' && d != 'c' && m != 'c'
    ensures forall p :: p in FilePairs([d, '/', m, '.', 'p', 'y'], [e, '/', n, '.', 'p', 'y']) ==> p.0 != "c"
  {
    CandidatesAt(d, m);
    CandidatesAt(e, n);
  }

  lemma TopLevelPairs()
    ensures FilePairs("c.py", "z.py") == [("c", "z"), ("c", "z")]
  {
    CandidatesTop('c');
    CandidatesTop('z');
  }

  /** Which old names each file of the example pairs with what. */
  lemma ExampleFilePairs()
    ensures forall p :: p in FilePairs(Example[0].0, Example[0].1) ==> p.0 != "c"
    ensures forall p :: p in FilePairs(Example[1].0, Example[1].1) ==> p.0 != "c"
    ensures FilePairs(Example[2].0, Example[2].1) == [("c", "z"), ("c", "z")]
  {
    NoTopLevelC('a', 'u', 'd', 'x');
    NoTopLevelC('b', 'u', 'e', 'y');
    TopLevelPairs();
  }

  /** Three files of which only the last pairs the old name "c", always with "z". */
  lemma OnlyLastPairsC(pairs: seq<(string, string)>)
    requires |pairs| == 3
    requires forall p :: p in FilePairs(pairs[0].0, pairs[0].1) ==> p.0 != "c"
    requires forall p :: p in FilePairs(pairs[1].0, pairs[1].1) ==> p.0 != "c"
    requires FilePairs(pairs[2].0, pairs[2].1) == [("c", "z"), ("c", "z")]
    ensures forall p :: p in FlatPairs(pairs) && p.0 == "c" ==> p == ("c", "z")
    ensures ("c", "z") in FlatPairs(pairs)
  {
    FlatPairsThree(pairs);
  }

  lemma FlatPairsThree(pairs: seq<(string, string)>)
    requires |pairs| == 3
    ensures FlatPairs(pairs) == FilePairs(pairs[0].0, pairs[0].1) + (FilePairs(pairs[1].0, pairs[1].1) + FilePairs(pairs[2].0, pairs[2].1))
  {
    var rest := pairs[1..];
    assert rest[0] == pairs[1] && rest[1..][0] == pairs[2] && |rest[1..]| == 1 && rest[1..][1..] == [];
    assert FlatPairs(rest[1..]) == FilePairs(pairs[2].0, pairs[2].1);
    assert FlatPairs(rest) == FilePairs(pairs[1].0, pairs[1].1) + FilePairs(pairs[2].0, pairs[2].1);
  }

  /** No file of the example pairs "c" with anything but "z". */
  lemma ExampleOrigins()
    ensures forall p :: p in FlatPairs(Example) && p.0 == "c" ==> p == ("c", "z")
    ensures ("c", "z") in FlatPairs(Example)
  {
    ExampleFilePairs();
    OnlyLastPairsC(Example);
  }

  /**
   * As written, the second "u" is dropped from the old list only, so the
   * top-level module "c" is paired with "y", the new name of the second
   * file, which no file pairs it with.
   */
  lemma MisalignedImports()
    ensures |ImportPairsAsWritten(Example)| > 5 && ImportPairsAsWritten(Example)[5] == ("c", "y")
    ensures ("c", "y") !in FlatPairs(Example)
  {
    OldList();
    NewList();
    DedupOld();
    DedupNew();
    PairAt(Example, ["a", "a.u", "u", "b", "b.u", "c"], ["d", "d.x", "x", "e", "e.y", "y", "z"], 5);
    ExampleOrigins();
  }

  lemma PairAt(pairs: seq<(string, string)>, os: seq<string>, ns: seq<string>, i: nat)
    requires Dedup(StripPy(Flat(Olds(pairs)))) == os && Dedup(StripPy(Flat(News(pairs)))) == ns
    requires i < |os| && i < |ns|
    ensures |ImportPairsAsWritten(pairs)| > i && ImportPairsAsWritten(pairs)[i] == (os[i], ns[i])
  {
  }

  /** When "c" is paired only with "z", and is paired, the corrected pairing keeps exactly ("c", "z") for it. */
  lemma PairedOnlyWith(pairs: seq<(string, string)>)
    requires forall p :: p in FlatPairs(pairs) && p.0 == "c" ==> p == ("c", "z")
    requires ("c", "z") in FlatPairs(pairs)
    ensures ("c", "z") in ImportPairs(pairs)
    ensures forall p :: p in ImportPairs(pairs) && p.0 == "c" ==> p == ("c", "z")
  {
    var r := ImportPairs(pairs);
    assert "c" in Keys(r);
    var i :| 0 <= i < |r| && Keys(r)[i] == "c";
    assert r[i] in FlatPairs(pairs);
  }

  /** The corrected pairing keeps "c" with "z", the new name of its own file. */
  lemma CorrectedExample()
    ensures ("c", "z") in ImportPairs(Example)
    ensures forall p :: p in ImportPairs(Example) && p.0 == "c" ==> p == ("c", "z")
  {
    ExampleOrigins();
    PairedOnlyWith(Example);
  }
}
