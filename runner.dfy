/**
 * The attribute mechanism of `BaseRunner`: attributes a Runner sets while it
 * loads its assets are stored on the object and locked; every other
 * attribute lives in the per-execution runner context, which `initialize`
 * replaces by an empty one. A re-initialisation silently skips locked names,
 * any other assignment to a locked name raises AttributeError.
 *
 * The runner context is a `ContextVar` in the system; here it is a field of
 * the runner, one execution at a time.
 */
module Runners {
  import opened Wrappers

  /** The names `__setattr__` hands straight to the object (BaseRunner.py:93-101). */
  const InternalNames: set<string> :=
    {"_locked_attributes", "_locking_assets", "_device", "task_handler", "runner_context", "device", "_initializing"}

  /** The three of them that are read-only properties of the class (BaseRunner.py:51-77). */
  const Properties: set<string> := {"task_handler", "runner_context", "device"}

  /**
   * What an attribute is bound to. Python attributes hold references: `Ref`
   * names a (possibly mutable) object by its address; the stages of the
   * typed runners also record an int and a shape tuple, and the runner's own
   * bookkeeping holds a device string, flags and the set of locked names.
   */
  datatype Val = Ref(addr: nat) | Int(n: int) | Tuple(ns: seq<nat>) | Str(s: string) | Bool(b: bool) | NameSet(names: set<string>)

  /** Python's truth value of an attribute value; an object behind a reference counts as true. */
  predicate Truthy(v: Val)
  {
    match v
    case Ref(_) => true
    case Int(n) => n != 0
    case Tuple(ns) => ns != []
    case Str(s) => s != ""
    case Bool(b) => b
    case NameSet(names) => names != {}
  }

  /** An assignment `self.<name> = <value>` made by a Runner's own code. */
  datatype Assign = Assign(name: string, value: Val)

  /**
   * What a concrete Runner class contributes: the assignments its `__init__`
   * and its `load_assets` make, in order.
   */
  datatype RunnerCode = RunnerCode(initAssigns: seq<Assign>, assetAssigns: seq<Assign>)

  /** Assignments that stay clear of the runner's own bookkeeping. */
  predicate UserNames(xs: seq<Assign>)
  {
    forall i :: 0 <= i < |xs| ==> xs[i].name !in InternalNames
  }

  predicate UserCode(code: RunnerCode)
  {
    UserNames(code.initAssigns) && UserNames(code.assetAssigns)
  }

  /**
   * The runner's observable state: `_device` (unset until first assigned),
   * the object's other own attributes, `_locked_attributes` (unset until
   * assets are loaded), the truth values of the two mode flags and the
   * runner context.
   */
  datatype RunnerState = RunnerState(
    device: Option<Val>,
    own: map<string, Val>,
    locked: Option<Val>,
    lockingAssets: bool,
    initializing: bool,
    context: map<string, Val>)

  /** `Runner.__new__(Runner)`: an object with no attributes yet. */
  const Blank := RunnerState(None, map[], None, false, false, map[])

  /** The asset-loading mode only runs once the locked set exists. */
  predicate Sane(st: RunnerState)
  {
    st.lockingAssets ==> st.locked.Some? && st.locked.value.NameSet?
  }

  /** `name in self._locked_attributes`, the set being there. */
  predicate IsLocked(st: RunnerState, name: string)
  {
    st.locked.Some? && st.locked.value.NameSet? && name in st.locked.value.names
  }

  const LockedTail: string := "' is locked and cannot be modified."
  const NoAttributeHead: string := "object has no attribute '"

  function LockedMessage(name: string): string
  {
    "Attribute '" + name + LockedTail
  }

  function NoAttributeMessage(name: string): string
  {
    NoAttributeHead + name + "'"
  }

  /** Assigning a property that has no setter. */
  function NoSetterMessage(name: string): string
  {
    "property '" + name + "' has no setter"
  }

  function NoDeleterMessage(name: string): string
  {
    "property '" + name + "' has no deleter"
  }

  /**
   * `__setattr__`. An internal name goes to the object as it is: the three
   * properties refuse it, the others are written whatever the modes say.
   * Otherwise, while assets load the name joins the locked set and the
   * object; a locked name is skipped while initialising and refused after;
   * anything else goes to the context.
   */
  function SetAttr(st: RunnerState, name: string, value: Val): (RunnerState, Option<Exc>)
  {
    if name in InternalNames then
      if name in Properties then (st, Some(AttributeError(NoSetterMessage(name))))
      else if name == "_device" then (st.(device := Some(value)), None)
      else if name == "_locked_attributes" then (st.(locked := Some(value)), None)
      else if name == "_locking_assets" then (st.(lockingAssets := Truthy(value)), None)
      else (st.(initializing := Truthy(value)), None)
    else if st.lockingAssets then
      if st.locked.None? then (st, Some(AttributeError(NoAttributeMessage("_locked_attributes"))))
      else if !st.locked.value.NameSet? then (st, Some(AttributeError(NoAttributeMessage("add"))))
      else (st.(locked := Some(NameSet(st.locked.value.names + {name})), own := st.own[name := value]), None)
    else if IsLocked(st, name) then
      if st.initializing then (st, None) else (st, Some(AttributeError(LockedMessage(name))))
    else
      (st.(context := st.context[name := value]), None)
  }

  /**
   * `__getattribute__`: the context first, then the object, where `device`
   * is the property returning `_device`.
   */
  function GetAttr(st: RunnerState, name: string): Result<Val>
  {
    if name in st.context then Ok(st.context[name])
    else if name == "device" || name == "_device" then
      if st.device.Some? then Ok(st.device.value) else Err(AttributeError(NoAttributeMessage("_device")))
    else if name == "_locked_attributes" then
      if st.locked.Some? then Ok(st.locked.value) else Err(AttributeError(NoAttributeMessage(name)))
    else if name == "_locking_assets" then Ok(Bool(st.lockingAssets))
    else if name == "_initializing" then Ok(Bool(st.initializing))
    else if name in st.own then Ok(st.own[name])
    else Err(AttributeError(NoAttributeMessage(name)))
  }

  /** `__delattr__`: from the context when it is there, else from the object. */
  function DelAttr(st: RunnerState, name: string): (RunnerState, Option<Exc>)
  {
    if name in st.context then (st.(context := st.context - {name}), None)
    else if name in Properties then (st, Some(AttributeError(NoDeleterMessage(name))))
    else if name == "_device" then
      if st.device.Some? then (st.(device := None), None) else (st, Some(AttributeError(name)))
    else if name == "_locked_attributes" then
      if st.locked.Some? then (st.(locked := None), None) else (st, Some(AttributeError(name)))
    else if name == "_locking_assets" then (st.(lockingAssets := false), None)
    else if name == "_initializing" then (st.(initializing := false), None)
    else if name in st.own then (st.(own := st.own - {name}), None)
    else (st, Some(AttributeError(name)))
  }

  /** A run of assignments; the first one that raises ends it. */
  function Assigns(st: RunnerState, xs: seq<Assign>): (RunnerState, Option<Exc>)
    decreases |xs|
  {
    if xs == [] then (st, None)
    else
      var (st1, err) := SetAttr(st, xs[0].name, xs[0].value);
      if err.Some? then (st1, err) else Assigns(st1, xs[1..])
  }

  /** `initialize(device)`: set a truthy device, clear the context, re-run `__init__` in initialising mode. */
  function Initialize(st: RunnerState, device: Option<string>, code: RunnerCode): (RunnerState, Option<Exc>)
  {
    var st1 := st.(device := if device.Some? && device.value != "" then Some(Str(device.value)) else st.device,
                   context := map[], initializing := true);
    var (st2, err) := Assigns(st1, code.initAssigns);
    if err.Some? then (st2, err) else (st2.(initializing := false), None)
  }

  /** `_load_assets()`: a new empty locked set, then `load_assets` in locking mode. */
  function LoadAssets(st: RunnerState, code: RunnerCode): (RunnerState, Option<Exc>)
  {
    var st1 := st.(locked := Some(NameSet({})), lockingAssets := true);
    var (st2, err) := Assigns(st1, code.assetAssigns);
    if err.Some? then (st2, err) else (st2.(lockingAssets := false), None)
  }

  /** The value the last assignment to `name` in `xs` gives it, if any. */
  function LastValue(xs: seq<Assign>, name: string): Option<Val>
    decreases |xs|
  {
    if xs == [] then None
    else if xs[|xs| - 1].name == name then Some(xs[|xs| - 1].value)
    else LastValue(xs[..|xs| - 1], name)
  }

  function Names(xs: seq<Assign>): set<string>
  {
    set i | 0 <= i < |xs| :: xs[i].name
  }

  // ---------------------------------------------------------------- properties

  /** Outside initialisation and asset loading, assigning a locked attribute raises and changes nothing. */
  lemma LockedRejects(st: RunnerState, name: string, value: Val)
    requires name !in InternalNames && !st.lockingAssets && !st.initializing && IsLocked(st, name)
    ensures SetAttr(st, name, value) == (st, Some(AttributeError(LockedMessage(name))))
  {
  }

  /** An unlocked attribute goes to the context and reads back; the object is untouched. */
  lemma UnlockedReadsBack(st: RunnerState, name: string, value: Val)
    requires name !in InternalNames && !st.lockingAssets && !IsLocked(st, name)
    ensures var (st1, err) := SetAttr(st, name, value);
      err.None? && GetAttr(st1, name) == Ok(value) && st1.own == st.own && st1.locked == st.locked
  {
  }

  /**
   * The internal names bypass the locking rules whatever the modes: no such
   * assignment raises the locked error, none touches the context or the
   * object's other attributes, only `_locked_attributes` changes the locked
   * set, and exactly the three properties refuse the assignment.
   */
  lemma InternalBypass(st: RunnerState, name: string, value: Val)
    requires name in InternalNames
    ensures var (st1, err) := SetAttr(st, name, value);
      st1.context == st.context && st1.own == st.own
      && (name != "_locked_attributes" ==> st1.locked == st.locked)
      && err != Some(AttributeError(LockedMessage(name)))
      && (err.Some? <==> name in Properties)
      && (name in Properties ==> st1 == st && err == Some(AttributeError(NoSetterMessage(name))))
  {
    assert "device" in Properties;
  }

  /**
   * `device` is read-only: assigning it raises and changes nothing, while
   * `_device` may be assigned and is what `device` then reads.
   */
  lemma DeviceReadOnly(st: RunnerState, v: Val)
    requires "device" !in st.context
    ensures SetAttr(st, "device", v) == (st, Some(AttributeError(NoSetterMessage("device"))))
    ensures var (st1, err) := SetAttr(st, "_device", v);
      err.None? && GetAttr(st1, "device") == Ok(v) && st1.context == st.context && st1.locked == st.locked
  {
  }

  /** A user name leaves the device and both modes alone, and keeps the runner sane. */
  lemma UserNameKeepsModes(st: RunnerState, name: string, value: Val)
    requires name !in InternalNames
    ensures var (st1, _) := SetAttr(st, name, value);
      st1.device == st.device && st1.lockingAssets == st.lockingAssets && st1.initializing == st.initializing
      && (Sane(st) ==> Sane(st1))
  {
  }

  /** The context never holds an internal name: `__setattr__` sends those to the object. */
  lemma ContextStaysUser(st: RunnerState, name: string, value: Val)
    requires st.context.Keys !! InternalNames
    ensures SetAttr(st, name, value).0.context.Keys !! InternalNames
  {
  }

  /**
   * Two executions share the runner object but each has its own context.
   * An unlocked assignment made in one of them reads back there and leaves
   * every attribute the other one reads exactly as it was.
   */
  lemma ContextsIsolated(st: RunnerState, mine: map<string, Val>, theirs: map<string, Val>, name: string, value: Val)
    requires name !in InternalNames && !st.lockingAssets && !IsLocked(st, name)
    ensures var (st1, err) := SetAttr(st.(context := mine), name, value);
      err.None? && GetAttr(st1, name) == Ok(value)
      && forall n :: GetAttr(st1.(context := theirs), n) == GetAttr(st.(context := theirs), n)
  {
    UnlockedReadsBack(st.(context := mine), name, value);
  }

  /** Deleting an attribute that reads from the context uncovers the object's own value, if any. */
  lemma DelUncovers(st: RunnerState, name: string)
    requires name in st.context && name !in InternalNames
    ensures var (st1, err) := DelAttr(st, name);
      err.None? && (name in st.own ==> GetAttr(st1, name) == Ok(st.own[name])) && (name !in st.own ==> GetAttr(st1, name).Err?)
  {
  }

  /**
   * In initialising mode no user assignment raises; the object and its
   * locked set are left alone, and a name ends up in the context iff it was
   * there or is an unlocked name the run assigns, with the last value assigned.
   */
  lemma {:induction false} InitAssignsSpec(st: RunnerState, xs: seq<Assign>)
    requires UserNames(xs) && st.initializing && !st.lockingAssets
    ensures var (st1, err) := Assigns(st, xs);
      err.None? && st1.own == st.own && st1.locked == st.locked && st1.device == st.device
      && st1.initializing && !st1.lockingAssets
      && (forall n :: n in st1.context <==> n in st.context || (n in Names(xs) && !IsLocked(st, n)))
      && (forall n :: !IsLocked(st, n) && LastValue(xs, n).Some? ==> n in st1.context && st1.context[n] == LastValue(xs, n).value)
      && (forall n :: n in st.context && LastValue(xs, n).None? ==> n in st1.context && st1.context[n] == st.context[n])
    decreases |xs|
  {
    if xs != [] {
      assert xs[0].name !in InternalNames;
      var (st1, _) := SetAttr(st, xs[0].name, xs[0].value);
      UserNamesTail(xs);
      InitAssignsSpec(st1, xs[1..]);
      LastValueCons(xs);
      NamesCons(xs);
    }
  }

  /**
   * In locking mode every assigned user name joins the locked set and the
   * object holds its last value; the context is left alone.
   */
  lemma {:induction false} LockAssignsSpec(st: RunnerState, xs: seq<Assign>)
    requires UserNames(xs) && st.lockingAssets && st.locked.Some? && st.locked.value.NameSet?
    ensures var (st1, err) := Assigns(st, xs);
      err.None? && st1.lockingAssets && st1.initializing == st.initializing && st1.device == st.device
      && st1.context == st.context
      && st1.locked == Some(NameSet(st.locked.value.names + Names(xs)))
      && (forall n :: n in st1.own <==> n in st.own || n in Names(xs))
      && (forall n :: LastValue(xs, n).Some? ==> n in st1.own && st1.own[n] == LastValue(xs, n).value)
      && (forall n :: LastValue(xs, n).None? && n in st.own ==> n in st1.own && st1.own[n] == st.own[n])
    decreases |xs|
  {
    if xs != [] {
      assert xs[0].name !in InternalNames;
      var (st1, _) := SetAttr(st, xs[0].name, xs[0].value);
      UserNamesTail(xs);
      LockAssignsSpec(st1, xs[1..]);
      LastValueCons(xs);
      NamesCons(xs);
      assert st.locked.value.names + Names(xs) == st1.locked.value.names + Names(xs[1..]);
    } else {
      var none: set<string> := {};
      assert Names(xs) == none;
      assert st.locked.value.names + none == st.locked.value.names;
    }
  }

  lemma UserNamesTail(xs: seq<Assign>)
    requires xs != [] && UserNames(xs)
    ensures UserNames(xs[1..])
  {
    forall i | 0 <= i < |xs[1..]| ensures xs[1..][i].name !in InternalNames {
      assert xs[1..][i] == xs[i + 1];
    }
  }

  lemma {:induction false} LastValueCons(xs: seq<Assign>)
    requires xs != []
    ensures forall n :: LastValue(xs, n) == (if LastValue(xs[1..], n).Some? then LastValue(xs[1..], n)
                                            else if xs[0].name == n then Some(xs[0].value) else None)
    decreases |xs|
  {
    if |xs| > 1 {
      LastValueCons(xs[..|xs| - 1]);
      assert xs[..|xs| - 1][1..] == xs[1..][..|xs[1..]| - 1];
    }
  }

  lemma NamesCons(xs: seq<Assign>)
    requires xs != []
    ensures Names(xs) == {xs[0].name} + Names(xs[1..])
  {
    forall n | n in Names(xs) ensures n in {xs[0].name} + Names(xs[1..]) {
      var i :| 0 <= i < |xs| && xs[i].name == n;
      if i > 0 {
        assert xs[1..][i - 1].name == n;
      }
    }
    forall n | n in Names(xs[1..]) ensures n in Names(xs) {
      var i :| 0 <= i < |xs[1..]| && xs[1..][i].name == n;
      assert xs[i + 1].name == n;
    }
  }

  lemma LastValueNames(xs: seq<Assign>, n: string)
    ensures LastValue(xs, n).Some? <==> n in Names(xs)
    decreases |xs|
  {
    if xs != [] {
      LastValueCons(xs);
      NamesCons(xs);
      LastValueNames(xs[1..], n);
    }
  }

  /**
   * With an `__init__` that assigns user names only, `initialize` never
   * raises: it sets a truthy device, keeps the loaded assets and their
   * locks, and leaves the context holding exactly the unlocked names
   * `__init__` assigns.
   */
  lemma InitializeSpec(st: RunnerState, device: Option<string>, code: RunnerCode)
    requires UserNames(code.initAssigns) && !st.lockingAssets
    ensures var (st1, err) := Initialize(st, device, code);
      err.None? && !st1.initializing && !st1.lockingAssets
      && st1.own == st.own && st1.locked == st.locked
      && st1.device == (if device.Some? && device.value != "" then Some(Str(device.value)) else st.device)
      && (forall n :: n in st1.context <==> n in Names(code.initAssigns) && !IsLocked(st, n))
      && (forall n :: !IsLocked(st, n) && LastValue(code.initAssigns, n).Some? ==>
            GetAttr(st1, n) == Ok(LastValue(code.initAssigns, n).value))
  {
    var st0 := st.(device := if device.Some? && device.value != "" then Some(Str(device.value)) else st.device,
                   context := map[], initializing := true);
    InitAssignsSpec(st0, code.initAssigns);
  }

  /**
   * With a `load_assets` that assigns user names only, `_load_assets` never
   * raises: exactly the names it assigns are locked, with their last values.
   */
  lemma LoadAssetsSpec(st: RunnerState, code: RunnerCode)
    requires UserNames(code.assetAssigns)
    ensures var (st1, err) := LoadAssets(st, code);
      err.None? && !st1.lockingAssets && st1.initializing == st.initializing && st1.context == st.context
      && st1.device == st.device
      && st1.locked == Some(NameSet(Names(code.assetAssigns)))
      && (forall n :: LastValue(code.assetAssigns, n).Some? ==> n in st1.own && st1.own[n] == LastValue(code.assetAssigns, n).value)
  {
    LockAssignsSpec(st.(locked := Some(NameSet({})), lockingAssets := true), code.assetAssigns);
    assert {} + Names(code.assetAssigns) == Names(code.assetAssigns);
  }

  /**
   * A re-initialised runner reads every locked asset from the object: the
   * fresh context holds no locked name, so `__init__` cannot shadow the asset.
   */
  lemma ReinitializeExposesAssets(st: RunnerState, device: Option<string>, code: RunnerCode, n: string)
    requires UserNames(code.initAssigns) && !st.lockingAssets && IsLocked(st, n) && n in st.own && n !in InternalNames
    ensures Initialize(st, device, code).1.None?
    ensures GetAttr(Initialize(st, device, code).0, n) == Ok(st.own[n])
  {
    InitializeSpec(st, device, code);
  }

  /**
   * An `__init__` that assigns `device` raises from `initialize`, and the
   * runner is left in initialising mode: nothing lowers the flag again.
   */
  lemma InitializeAssigningDevice(st: RunnerState, device: Option<string>, v: Val)
    ensures var (st1, err) := Initialize(st, device, RunnerCode([Assign("device", v)], []));
      err == Some(AttributeError(NoSetterMessage("device"))) && st1.initializing && st1.context == map[]
  {
  }

  /** The objects references point to, as the lists of values they hold. */
  type Heap = map<nat, seq<Val>>

  /**
   * `self.<name>.append(x)`: the attribute is read as usual and the object
   * it refers to is changed in place; `__setattr__` is not involved.
   */
  function AppendTo(st: RunnerState, heap: Heap, name: string, x: Val): Result<Heap>
  {
    match GetAttr(st, name)
    case Err(e) => Err(e)
    case Ok(v) =>
      if v.Ref? && v.addr in heap then Ok(heap[v.addr := heap[v.addr] + [x]])
      else Err(AttributeError("object has no attribute 'append'"))
  }

  /**
   * The asymmetry of asset locking: rebinding a locked attribute raises,
   * while appending to the list it refers to succeeds and is seen by every
   * later read through the same binding.
   */
  lemma LockedButMutable(st: RunnerState, heap: Heap, name: string, x: Val, v: Val, a: nat)
    requires name !in InternalNames && !st.lockingAssets && !st.initializing && IsLocked(st, name)
    requires GetAttr(st, name) == Ok(Ref(a)) && a in heap
    ensures SetAttr(st, name, v) == (st, Some(AttributeError(LockedMessage(name))))
    ensures AppendTo(st, heap, name, x) == Ok(heap[a := heap[a] + [x]])
    ensures var h1 := AppendTo(st, heap, name, x).value; h1[a] == heap[a] + [x] && GetAttr(st, name) == Ok(Ref(a))
  {
  }

  // ---------------------------------------------------------------- the runner object

  /** One Runner object; its class's own code is fixed when the module is imported. */
  class BaseRunner {
    var device: Option<Val>
    var own: map<string, Val>
    var locked: Option<Val>
    var lockingAssets: bool
    var initializing: bool
    var context: map<string, Val>
    const code: RunnerCode

    function State(): RunnerState
      reads this
    {
      RunnerState(device, own, locked, lockingAssets, initializing, context)
    }

    ghost predicate Valid()
      reads this
    {
      Sane(State())
    }

    /** `m.Runner.__new__(m.Runner)`. */
    constructor (code: RunnerCode)
      ensures Valid() && State() == Blank && this.code == code
    {
      this.code := code;
      device := None;
      own := map[];
      locked := None;
      lockingAssets := false;
      initializing := false;
      context := map[];
    }

    function Attr(name: string): Result<Val>
      reads this
    {
      GetAttr(State(), name)
    }

    method SetAttribute(name: string, value: Val) returns (err: Option<Exc>)
      modifies this
      ensures (State(), err) == SetAttr(old(State()), name, value)
      ensures name !in InternalNames ==>
        device == old(device) && lockingAssets == old(lockingAssets) && initializing == old(initializing)
        && (old(Valid()) ==> Valid())
    {
      if name in InternalNames {
        if name in Properties {
          return Some(AttributeError(NoSetterMessage(name)));
        }
        if name == "_device" {
          device := Some(value);
        } else if name == "_locked_attributes" {
          locked := Some(value);
        } else if name == "_locking_assets" {
          lockingAssets := Truthy(value);
        } else {
          initializing := Truthy(value);
        }
        return None;
      }
      if lockingAssets {
        if locked.None? {
          return Some(AttributeError(NoAttributeMessage("_locked_attributes")));
        }
        if !locked.value.NameSet? {
          return Some(AttributeError(NoAttributeMessage("add")));
        }
        locked := Some(NameSet(locked.value.names + {name}));
        own := own[name := value];
        return None;
      }
      if locked.Some? && locked.value.NameSet? && name in locked.value.names {
        if initializing {
          return None;
        }
        return Some(AttributeError(LockedMessage(name)));
      }
      context := context[name := value];
      return None;
    }

    method DeleteAttribute(name: string) returns (err: Option<Exc>)
      modifies this
      ensures (State(), err) == DelAttr(old(State()), name)
    {
      err := None;
      if name in context {
        context := context - {name};
      } else if name in Properties {
        err := Some(AttributeError(NoDeleterMessage(name)));
      } else if name == "_device" {
        if device.Some? {
          device := None;
        } else {
          err := Some(AttributeError(name));
        }
      } else if name == "_locked_attributes" {
        if locked.Some? {
          locked := None;
        } else {
          err := Some(AttributeError(name));
        }
      } else if name == "_locking_assets" {
        lockingAssets := false;
      } else if name == "_initializing" {
        initializing := false;
      } else if name in own {
        own := own - {name};
      } else {
        err := Some(AttributeError(name));
      }
    }

    /** Runs the assignments one by one through `__setattr__`. */
    method RunAssigns(xs: seq<Assign>) returns (err: Option<Exc>)
      modifies this
      ensures (State(), err) == Assigns(old(State()), xs)
    {
      ghost var st0 := State();
      var i := 0;
      while i < |xs|
        invariant 0 <= i <= |xs|
        invariant Assigns(State(), xs[i..]) == Assigns(st0, xs)
      {
        assert xs[i..][1..] == xs[i + 1..];
        err := SetAttribute(xs[i].name, xs[i].value);
        if err.Some? {
          return;
        }
        i := i + 1;
      }
      err := None;
    }

    /** Neither flag is raised: the runner is between hook runs. */
    predicate Idle()
      reads this
    {
      !lockingAssets && !initializing
    }

    method Init(dev: Option<string>) returns (err: Option<Exc>)
      modifies this
      ensures (State(), err) == Initialize(old(State()), dev, code)
      ensures UserNames(code.initAssigns) && !old(lockingAssets) ==> err.None? && Idle() && Valid()
    {
      if !lockingAssets && UserNames(code.initAssigns) {
        InitializeSpec(State(), dev, code);
      }
      if dev.Some? && dev.value != "" {
        device := Some(Str(dev.value));
      }
      context := map[];
      initializing := true;
      err := RunAssigns(code.initAssigns);
      if err.Some? {
        return;
      }
      initializing := false;
    }

    method LoadAllAssets() returns (err: Option<Exc>)
      modifies this
      ensures (State(), err) == LoadAssets(old(State()), code)
      ensures UserNames(code.assetAssigns) ==> err.None? && !lockingAssets && initializing == old(initializing) && Valid()
    {
      if UserNames(code.assetAssigns) {
        LoadAssetsSpec(State(), code);
      }
      locked := Some(NameSet({}));
      lockingAssets := true;
      err := RunAssigns(code.assetAssigns);
      if err.Some? {
        return;
      }
      lockingAssets := false;
    }
  }
}
