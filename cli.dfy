/**
 * `parse_flat_args`: the leftover command-line tokens of the server's CLI,
 * `--a.b.c value` or `--a.b.c=value`, become a nested dict of settings
 * `{"a": {"b": {"c": value}}}` with the value converted to None, a bool, a
 * list of strings, an int, a float or left as a string.
 *
 * Whether Python's `float()` accepts a text is a parameter (`isFloat`); a
 * value it accepts is kept as the text it was read from.
 */
module Cli {
  import opened Wrappers
  import opened PyStr
  import opened OrderedMap

  /** The values the parser produces; a dict keeps its key order. */
  datatype Val =
    | NoneVal
    | BoolVal(b: bool)
    | IntVal(i: int)
    | FloatVal(literal: string)
    | StrVal(s: string)
    | ListVal(items: seq<string>)
    | DictVal(d: OMap<Val>)

  /** Every dict inside a value lists each of its keys once. */
  ghost predicate WellFormed(v: Val)
  {
    v.DictVal? ==> Valid(v.d) && forall k :: k in v.d.m ==> WellFormed(v.d.m[k])
  }

  /** The Python class name of a value, as error messages show it. */
  function TypeName(v: Val): string
  {
    match v
    case NoneVal => "NoneType"
    case BoolVal(_) => "bool"
    case IntVal(_) => "int"
    case FloatVal(_) => "float"
    case StrVal(_) => "str"
    case ListVal(_) => "list"
    case DictVal(_) => "dict"
  }

  // ---------------------------------------------------------------- value conversion

  predicate IsNullWord(lc: string) { lc == "null" || lc == "none" }
  predicate IsTrueWord(lc: string) { lc == "true" || lc == "yes" || lc == "1" }
  predicate IsFalseWord(lc: string) { lc == "false" || lc == "no" || lc == "0" }

  /**
   * The conversion of a value token, tried in the source's order: the null
   * words, the true words, the false words (all ignoring case), a comma
   * list of stripped strings, an all-digit int, a float, else the string.
   * A missing value (a trailing `--key`) stays None.
   */
  function Convert(value: Option<string>, isFloat: string -> bool): (r: Val)
    ensures WellFormed(r) && !r.DictVal?
  {
    if value.None? then NoneVal
    else
      var v := value.value;
      var lc := Lower(v);
      if IsNullWord(lc) then NoneVal
      else if IsTrueWord(lc) then BoolVal(true)
      else if IsFalseWord(lc) then BoolVal(false)
      else if ',' in v then
        var pieces := Split(v, ',');
        ListVal(seq(|pieces|, i requires 0 <= i < |pieces| => Strip(pieces[i])))
      else if IsDigits(v) then IntVal(DigitsValue(v))
      else if isFloat(v) then FloatVal(v)
      else StrVal(v)
  }

  /**
   * A natural number written in decimal reads back as that int, except 0
   * and 1, which the boolean words catch first.
   */
  lemma ConvertNat(n: nat, isFloat: string -> bool)
    ensures n == 0 ==> Convert(Some(NatToString(n)), isFloat) == BoolVal(false)
    ensures n == 1 ==> Convert(Some(NatToString(n)), isFloat) == BoolVal(true)
    ensures n >= 2 ==> Convert(Some(NatToString(n)), isFloat) == IntVal(n)
  {
    var s := NatToString(n);
    NatToStringValue(n);
    assert Lower(s) == s;
    assert ',' !in s by {
      assert forall i :: 0 <= i < |s| ==> IsDigitChar(s[i]);
    }
    if n < 10 {
      assert s == [DigitChar(n)];
      assert s[0] as int == '0' as int + n;
    } else {
      assert |s| >= 2;
    }
  }

  /** The words are recognised in any case: "TRUE", "Yes", "NONE" and "No" convert like their lower-case forms. */
  lemma ConvertIgnoresCase(isFloat: string -> bool)
    ensures Convert(Some("TRUE"), isFloat) == BoolVal(true)
    ensures Convert(Some("Yes"), isFloat) == BoolVal(true)
    ensures Convert(Some("NONE"), isFloat) == NoneVal
    ensures Convert(Some("No"), isFloat) == BoolVal(false)
  {
    assert Lower("TRUE") == "true";
    assert Lower("Yes") == "yes";
    assert Lower("NONE") == "none";
    assert Lower("No") == "no";
  }

  /** A comma list keeps its elements as stripped strings, digits included. */
  lemma ConvertList(isFloat: string -> bool)
    ensures Convert(Some("1, 2"), isFloat) == ListVal(["1", "2"])
  {
    assert Lower("1, 2") == "1, 2";
    SplitTwo("1", ',', " 2");
    assert "1" + [','] + " 2" == "1, 2";
    StripPieces();
  }

  /** A text with one separator splits into the two sides. */
  lemma SplitTwo(a: string, d: char, b: string)
    requires d !in a && d !in b
    ensures Split(a + [d] + b, d) == [a, b]
  {
    SplitNoSeparator(b, d);
    var t := [d] + b;
    assert t[1..] == b;
    assert Split(t, d) == [""] + Split(b, d);
    SplitPrefix(a, d, t);
    assert a + t == a + [d] + b && a + "" == a;
  }

  lemma StripPieces()
    ensures Strip("1") == "1" && Strip(" 2") == "2"
  {
    assert LStrip(" 2") == "2";
    assert RStrip("2") == "2";
  }

  // ---------------------------------------------------------------- the nested assignment

  const NoSetdefaultTail: string := "' object has no attribute 'setdefault'"

  /**
   * `target = updates; for part in parts[:-1]: target =
   * target.setdefault(part, {})` followed by `target[parts[-1]] = val`.
   * `setdefault` on a value that is not a dict raises AttributeError, and
   * the final item assignment on one raises TypeError. The dicts the walk
   * passes through are fresh or owned by `updates` alone, so rebuilding
   * them by value is the same as mutating them in place.
   */
  function Assign(target: OMap<Val>, parts: seq<string>, v: Val): (r: Result<OMap<Val>>)
    requires |parts| >= 1 && WellFormed(DictVal(target)) && WellFormed(v)
    ensures r.Ok? ==> WellFormed(DictVal(r.value)) && parts[0] in r.value.m
    decreases |parts|
  {
    if |parts| == 1 then Ok(Put(target, parts[0], v))
    else
      var child := if parts[0] in target.m then target.m[parts[0]] else DictVal(Empty());
      if !child.DictVal? then
        Err(if |parts| == 2 then TypeError else AttributeError("'" + TypeName(child) + NoSetdefaultTail))
      else
        var sub :- Assign(child.d, parts[1..], v);
        Ok(Put(target, parts[0], DictVal(sub)))
  }

  /** The value at a dotted path, if every step is a dict holding the next key. */
  function Lookup(d: OMap<Val>, path: seq<string>): Option<Val>
    requires |path| >= 1
    decreases |path|
  {
    if path[0] !in d.m then None
    else if |path| == 1 then Some(d.m[path[0]])
    else if d.m[path[0]].DictVal? then Lookup(d.m[path[0]].d, path[1..])
    else None
  }

  /** Every step before the last finds a dict or nothing. */
  predicate Walkable(d: OMap<Val>, path: seq<string>)
    requires |path| >= 1
    decreases |path|
  {
    |path| == 1
    || path[0] !in d.m
    || (d.m[path[0]].DictVal? && Walkable(d.m[path[0]].d, path[1..]))
  }

  /**
   * The assignment succeeds iff the path is walkable; it then stores the
   * value at the path, leaves the path walkable, and leaves every other
   * top-level key as it was.
   */
  lemma {:induction false} AssignSpec(d: OMap<Val>, path: seq<string>, v: Val)
    requires |path| >= 1 && WellFormed(DictVal(d)) && WellFormed(v)
    decreases |path|
    ensures Assign(d, path, v).Ok? <==> Walkable(d, path)
    ensures Assign(d, path, v).Ok? ==>
      var r := Assign(d, path, v).value;
      Lookup(r, path) == Some(v) && Walkable(r, path)
      && forall k :: k != path[0] ==> (k in r.m <==> k in d.m) && (k in d.m ==> r.m[k] == d.m[k])
  {
    if |path| > 1 {
      var child := if path[0] in d.m then d.m[path[0]] else DictVal(Empty());
      if child.DictVal? {
        AssignSpec(child.d, path[1..], v);
      }
    }
  }

  // ---------------------------------------------------------------- the token loop

  /**
   * The parse of the remaining tokens into `updates`: a token not starting
   * with `--` is skipped; `--key=value` splits at the first `=`; otherwise
   * the next token, whatever it looks like, is the value, and a trailing
   * `--key` has the value None.
   */
  function Parse(args: seq<string>, updates: OMap<Val>, isFloat: string -> bool): (r: Result<OMap<Val>>)
    requires WellFormed(DictVal(updates))
    ensures r.Ok? ==> WellFormed(DictVal(r.value))
    decreases |args|
  {
    if args == [] then Ok(updates)
    else if !StartsWith(args[0], "--") then Parse(args[1..], updates, isFloat)
    else
      var key0 := args[0][2..];
      var (key, value, rest) :=
        if '=' in key0 then (SplitOnce(key0, '=').0, Some(SplitOnce(key0, '=').1), args[1..])
        else (key0, if |args| >= 2 then Some(args[1]) else None, if |args| >= 2 then args[2..] else []);
      var updates' :- Assign(updates, Split(key, '.'), Convert(value, isFloat));
      Parse(rest, updates', isFloat)
  }

  /** `parse_flat_args(args)`. */
  function ParseFlatArgs(args: seq<string>, isFloat: string -> bool): Result<OMap<Val>>
  {
    Parse(args, Empty(), isFloat)
  }

  /** The `while i < len(args)` loop of `parse_flat_args`. */
  method ParseFlatArgsLoop(args: seq<string>, isFloat: string -> bool) returns (r: Result<OMap<Val>>)
    ensures r == ParseFlatArgs(args, isFloat)
  {
    var updates: OMap<Val> := Empty();
    var i := 0;
    while i < |args|
      invariant 0 <= i <= |args| + 1 && WellFormed(DictVal(updates))
      invariant Parse(if i <= |args| then args[i..] else [], updates, isFloat) == ParseFlatArgs(args, isFloat)
      decreases |args| - i
    {
      var arg := args[i];
      ghost var tail := args[i..];
      if StartsWith(arg, "--") {
        var key := arg[2..];
        var value: Option<string>;
        if '=' in key {
          var split := SplitOnce(key, '=');
          key, value := split.0, Some(split.1);
          assert tail[1..] == args[i + 1..];
        } else {
          i := i + 1;
          value := if i < |args| then Some(args[i]) else None;
          assert |tail| >= 2 ==> tail[2..] == args[i + 1..];
        }
        var val := Convert(value, isFloat);
        var parts := Split(key, '.');
        var stored := Assign(updates, parts, val);
        if stored.Err? {
          return Err(stored.exc);
        }
        updates := stored.value;
      }
      else {
        assert tail[1..] == args[i + 1..];
      }
      i := i + 1;
    }
    return Ok(updates);
  }

  // ---------------------------------------------------------------- properties

  /** `--k=v` and `--k v` give the same result, when `k` has no `=`. */
  lemma EqualsFormSame(k: string, v: string, rest: seq<string>, updates: OMap<Val>, isFloat: string -> bool)
    requires '=' !in k && WellFormed(DictVal(updates))
    ensures Parse(["--" + k + "=" + v] + rest, updates, isFloat) == Parse(["--" + k, v] + rest, updates, isFloat)
  {
    var withEq := ["--" + k + "=" + v] + rest;
    var spaced := ["--" + k, v] + rest;
    assert withEq[0][2..] == k + "=" + v;
    assert spaced[0][2..] == k;
    assert StartsWith(withEq[0], "--") && StartsWith(spaced[0], "--");
    SplitOnceAtFirst(k, '=', v);
    assert withEq[1..] == rest && spaced[2..] == rest;
  }

  /** Splitting at the first `c` of `a + [c] + b`, where `a` has no `c`, gives `a` and `b`. */
  lemma SplitOnceAtFirst(a: string, c: char, b: string)
    requires c !in a
    ensures c in a + [c] + b && SplitOnce(a + [c] + b, c) == (a, b)
  {
    var s := a + [c] + b;
    assert s[|a|] == c;
    var i := FirstIndex(s, c);
    assert i == |a|;
    assert s[..i] == a && s[i + 1..] == b;
  }

  /** A trailing `--k` stores None at the path of `k`. */
  lemma TrailingKeyIsNone(k: string, updates: OMap<Val>, isFloat: string -> bool)
    requires '=' !in k && WellFormed(DictVal(updates))
    ensures Parse(["--" + k], updates, isFloat) == Assign(updates, Split(k, '.'), NoneVal)
  {
    assert ["--" + k][0][2..] == k;
    assert StartsWith("--" + k, "--");
  }

  /** A token that is neither a `--` option nor the value of one is skipped. */
  lemma StrayTokenIgnored(t: string, rest: seq<string>, updates: OMap<Val>, isFloat: string -> bool)
    requires !StartsWith(t, "--") && WellFormed(DictVal(updates))
    ensures Parse([t] + rest, updates, isFloat) == Parse(rest, updates, isFloat)
  {
    assert ([t] + rest)[1..] == rest;
  }

  /** Splitting a text without the separator gives the text alone. */
  lemma SplitNoSeparator(s: string, d: char)
    requires d !in s
    ensures Split(s, d) == [s]
  {
    SplitPrefix(s, d, "");
    assert s + "" == s;
  }

  /**
   * A `--k v` pair at the front stores the converted value at the dotted
   * path of `k`, and the parse goes on with the tokens after `v`.
   */
  lemma ParsePair(k: string, v: string, rest: seq<string>, updates: OMap<Val>, isFloat: string -> bool)
    requires '=' !in k && WellFormed(DictVal(updates))
    ensures var a := Assign(updates, Split(k, '.'), Convert(Some(v), isFloat));
      Parse(["--" + k, v] + rest, updates, isFloat) == if a.Err? then Err(a.exc) else Parse(rest, a.value, isFloat)
  {
    var args := ["--" + k, v] + rest;
    assert args[0][2..] == k && StartsWith(args[0], "--");
    assert args[1] == v && args[2..] == rest;
  }

  /**
   * `--a.b.c v` into an empty result creates the intermediate dicts and
   * stores the converted value at the dotted path, for any path whose
   * parts contain no dot and no `=`.
   */
  lemma DottedKeyNests(path: seq<string>, v: string, isFloat: string -> bool)
    requires |path| >= 1 && forall p :: p in path ==> '.' !in p && '=' !in p
    ensures ParseFlatArgs(["--" + Join(path, "."), v], isFloat).Ok?
    ensures Lookup(ParseFlatArgs(["--" + Join(path, "."), v], isFloat).value, path) == Some(Convert(Some(v), isFloat))
  {
    var key := Join(path, ".");
    SplitJoin(path, '.');
    assert Split(key, '.') == path;
    JoinAvoids(path, '.', '=');
    assert ["--" + key, v] + [] == ["--" + key, v];
    ParsePair(key, v, [], Empty(), isFloat);
    EmptyWalkable(path);
    AssignSpec(Empty(), path, Convert(Some(v), isFloat));
  }

  /** Nothing blocks a path in the empty dict. */
  lemma EmptyWalkable(path: seq<string>)
    requires |path| >= 1
    ensures Walkable(Empty<Val>(), path)
  {
  }

  /** Joining parts that avoid a character other than the separator gives a text that avoids it. */
  lemma {:induction false} JoinAvoids(parts: seq<string>, sep: char, c: char)
    requires c != sep && forall p :: p in parts ==> c !in p
    ensures c !in Join(parts, [sep])
  {
    if |parts| > 1 {
      assert forall p :: p in parts[1..] ==> p in parts;
      JoinAvoids(parts[1..], sep, c);
    }
  }

  /** A later occurrence of the same key overwrites the earlier value. */
  lemma LaterKeyWins(k: string, v1: string, v2: string, isFloat: string -> bool)
    requires '=' !in k
    requires ParseFlatArgs(["--" + k, v1], isFloat).Ok?
    ensures ParseFlatArgs(["--" + k, v1, "--" + k, v2], isFloat).Ok?
    ensures Lookup(ParseFlatArgs(["--" + k, v1, "--" + k, v2], isFloat).value, Split(k, '.')) == Some(Convert(Some(v2), isFloat))
  {
    var path := Split(k, '.');
    var first := Assign(Empty(), path, Convert(Some(v1), isFloat));
    assert ["--" + k, v1] + [] == ["--" + k, v1];
    ParsePair(k, v1, [], Empty(), isFloat);
    assert ["--" + k, v1, "--" + k, v2] == ["--" + k, v1] + ["--" + k, v2];
    ParsePair(k, v1, ["--" + k, v2], Empty(), isFloat);
    var d1 := first.value;
    AssignSpec(Empty(), path, Convert(Some(v1), isFloat));
    assert ["--" + k, v2] + [] == ["--" + k, v2];
    ParsePair(k, v2, [], d1, isFloat);
    AssignSpec(d1, path, Convert(Some(v2), isFloat));
  }

  /** A scalar that a later dotted key would descend into makes the parse fail: `--a 1 --a.b 2` raises TypeError. */
  lemma ScalarBlocksNesting(isFloat: string -> bool)
    ensures ParseFlatArgs(["--a", "1", "--a.b", "2"], isFloat) == Err(TypeError)
  {
    SplitNoSeparator("a", '.');
    SplitTwo("a", '.', "b");
    assert "a" + ['.'] + "b" == "a.b";
    OneIsTrue(isFloat);
    assert "--" + "a" == "--a" && "--" + "a.b" == "--a.b";
    assert ["--a", "1", "--a.b", "2"] == ["--" + "a", "1"] + ["--a.b", "2"];
    ParsePair("a", "1", ["--a.b", "2"], Empty(), isFloat);
    var d1 := Put(Empty<Val>(), "a", BoolVal(true));
    assert ["--a.b", "2"] + [] == ["--a.b", "2"];
    ParsePair("a.b", "2", [], d1, isFloat);
  }

  lemma OneIsTrue(isFloat: string -> bool)
    ensures Convert(Some("1"), isFloat) == BoolVal(true)
  {
    assert Lower("1") == "1";
  }
}
