/** The namespace a user script runs in (`SandboxGlobals`): a copy of the
    builtin allow-list, the guard helpers the restricted compiler's output
    calls, the hardware functions the HAL module actually provides (drawn
    from a fixed whitelist), three Chinese aliases, the random, math and
    threading modules, an optional print hook and a `time` object whose
    `sleep` is meant to be bounded. */
module SandboxNamespace {
  import opened Wrappers
  import Motion
  import Text

  /** The identity of an object fetched from the HAL module with getattr. */
  type HalValue = nat

  /** The HAL module handed to the sandbox: the attributes it has (hasattr /
      getattr), and its `motion_controller` when it has one. */
  datatype HalModule = HalModule(attrs: map<string, HalValue>, motion: Option<Motion.MotionController>)

  /** What a global name is bound to. */
  datatype Binding =
    | BuiltinsTable(names: set<string>)  // `ALLOWED_BUILTINS.copy()`: each name bound to the Python builtin of that name
    | Text(s: string)
    | Guard(name: string)                // a RestrictedPython guard helper, or `iter`
    | HalFunction(value: HalValue)       // an attribute of the HAL module, by identity
    | NoneValue                          // `None`, as `dict.get` returns for a missing key
    | PrintHook(callback: nat)           // the `on_print` callable
    | PrintCollector                     // the sandbox's own print collector
    | TimeShim                           // the `Time()` instance; its class attribute `sleep` is the lambda
    | StdModule(name: string)            // random, math, threading

  /** The keys of `ALLOWED_BUILTINS`. */
  const AllowedBuiltinNames: set<string> := {
    "abs", "all", "any", "bool", "dict", "enumerate", "filter", "float", "int",
    "isinstance", "issubclass", "len", "list", "map", "max", "min", "pow",
    "range", "reversed", "round", "sorted", "str", "sum", "tuple", "zip",
    "print", "None", "True", "False", "NotImplemented", "Ellipsis", "__debug__"
  }

  /** The builtin table a script sees: nothing that opens files, evaluates
      strings, imports modules or reaches the interpreter. */
  function AllowedBuiltins(): (names: set<string>)
    ensures "print" in names && "range" in names && "len" in names
    ensures "open" !in names && "eval" !in names && "exec" !in names && "compile" !in names
    ensures "__import__" !in names && "getattr" !in names && "globals" !in names && "input" !in names
  {
    AllowedBuiltinNames
  }

  /** The four whitelists `_import_hal_functions` walks, in order. */
  const MotionNames: seq<string> := [
    "qianjin", "houtui", "zuopingyi", "youpingyi", "xuanzhuan", "fxuanzhuan", "tingzhi",
    "xiaozuozhuan", "xiaoyouzhuan", "dengdai", "yidong_angle", "yidong_xy",
    "set_servo", "reset_servos"
  ]
  const SensorNames: seq<string> := [
    "heshengbo", "heshengbo_juli", "xunxian", "xunxian_zhong", "xunxian_zuo", "xunxian_you", "dianchi"
  ]
  const GimbalNames: seq<string> := [
    "shang", "xia", "zuo", "you", "fuwei",
    "yuntai_shang", "yuntai_xia", "yuntai_zuo", "yuntai_you", "yuntai_fuwei"
  ]
  const VisionNames: seq<string> := ["shibieyanse"]
  const HalNames: seq<string> := MotionNames + SensorNames + GimbalNames + VisionNames

  /** Alias name and the canonical name it is copied from. */
  const Aliases: seq<(string, string)> := [("停止", "tingzhi"), ("前进", "qianjin"), ("后退", "houtui")]
  predicate IsAliasName(k: string) { k in {"停止", "前进", "后退"} }
  predicate IsStdModuleName(k: string) { k in {"random", "math", "threading"} }

  /** The six bindings every namespace starts with. */
  const BaseGlobals: map<string, Binding> := map[
    "__builtins__" := BuiltinsTable(AllowedBuiltinNames),
    "__name__" := Text("__main__"),
    "_getattr_" := Guard("safer_getattr"),
    "_getiter_" := Guard("iter"),
    "_iter_unpack_sequence_" := Guard("guarded_iter_unpack_sequence"),
    "_unpack_sequence_" := Guard("guarded_unpack_sequence")
  ]

  /** Every key a namespace may hold. */
  predicate PermittedKey(k: string) {
    k in BaseGlobals || k in HalNames || IsAliasName(k) || IsStdModuleName(k)
    || k == "time" || k == "_print_" || k == "print"
  }

  /** `dict.get(k)`: the binding, or None when the key is missing. */
  function Get(g: map<string, Binding>, k: string): Binding {
    if k in g then g[k] else NoneValue
  }

  /** The namespace after the whitelist loop has visited `names`: each name
      the HAL module has is bound to that attribute. */
  function CopyAttrs(g: map<string, Binding>, attrs: map<string, HalValue>, names: seq<string>): map<string, Binding>
    decreases |names|
  {
    if |names| == 0 then g
    else
      var before := CopyAttrs(g, attrs, names[..|names| - 1]);
      var n := names[|names| - 1];
      if n in attrs then before[n := HalFunction(attrs[n])] else before
  }

  /** Closed form of CopyAttrs: a visited name the module has is bound to
      its attribute; every other key keeps its old binding or stays absent. */
  lemma {:induction false} CopyAttrsSpec(g: map<string, Binding>, attrs: map<string, HalValue>, names: seq<string>)
    ensures forall k :: k in CopyAttrs(g, attrs, names) <==> k in g || (k in names && k in attrs)
    ensures forall k :: k in names && k in attrs ==> CopyAttrs(g, attrs, names)[k] == HalFunction(attrs[k])
    ensures forall k :: k in g && !(k in names && k in attrs) ==> CopyAttrs(g, attrs, names)[k] == g[k]
    decreases |names|
  {
    if |names| > 0 {
      var init := names[..|names| - 1];
      CopyAttrsSpec(g, attrs, init);
      assert forall k :: k in names <==> k in init || k == names[|names| - 1];
    }
  }

  /** The namespace after `_import_hal_functions(hal)`. */
  function WithHal(g: map<string, Binding>, hal: HalModule): map<string, Binding> {
    var copied := CopyAttrs(g, hal.attrs, HalNames);
    var aliased := copied["停止" := Get(copied, "tingzhi")]["前进" := Get(copied, "qianjin")]["后退" := Get(copied, "houtui")];
    aliased["random" := StdModule("random")]["math" := StdModule("math")]["threading" := StdModule("threading")]
  }

  /** The namespace `SandboxGlobals(hal, on_print)` builds. */
  function InitialGlobals(hal: Option<HalModule>, onPrint: Option<nat>): map<string, Binding> {
    var withHal := if hal.Some? then WithHal(BaseGlobals, hal.value) else BaseGlobals;
    var withPrint := if onPrint.Some? then withHal["_print_" := PrintHook(onPrint.value)]["print" := PrintHook(onPrint.value)] else withHal;
    withPrint["time" := TimeShim]
  }

  /** The body of the `sleep` lambda on a number `x`: a request above 5
      seconds returns at once without sleeping, a negative one raises as
      `time.sleep` does, anything else sleeps `min(x, 5)` seconds. The
      result is the time slept. This is what `time.sleep(x)` is evidently
      meant to do. */
  function ShimSleep(x: real): (r: Result<real, PyError>)
    ensures r.Ok? ==> 0.0 <= r.value <= 5.0
    ensures r.Err? <==> x < 0.0
    ensures x > 5.0 ==> r == Ok(0.0)
    ensures 0.0 <= x <= 5.0 ==> r == Ok(x)
  {
    if x > 5.0 then Ok(0.0)
    else if x < 0.0 then Err(ValueError("sleep length must be non-negative"))
    else Ok(if x < 5.0 then x else 5.0)
  }

  /** A positional argument reaching the `sleep` lambda: the `Time()`
      instance itself, or a number of seconds from the script. */
  datatype SleepArg = TimeInstance | Seconds(x: real)

  /** Python's message for a call of the one-parameter lambda with `n`
      positional arguments. */
  function ArityMessage(n: nat): string {
    if n == 0 then "<lambda>() missing 1 required positional argument: 'x'"
    else "<lambda>() takes 1 positional argument but " + Text.NatToDecimal(n) + " were given"
  }

  /** `lambda x: None if x > 5 else time.sleep(min(x, 5))` applied to
      positional arguments: any count but one is a TypeError, and so is
      `x > 5` on the `Time` instance; on one number it is the body. */
  function ShimLambda(args: seq<SleepArg>): (r: Result<real, PyError>)
    ensures |args| != 1 ==> r == Err(TypeError(ArityMessage(|args|)))
    ensures |args| == 1 && args[0].TimeInstance? ==> r.Err? && r.error.TypeError?
    ensures |args| == 1 && args[0].Seconds? ==> r == ShimSleep(args[0].x)
  {
    if |args| != 1 then Err(TypeError(ArityMessage(|args|)))
    else match args[0]
      case TimeInstance => Err(TypeError("'>' not supported between instances of 'Time' and 'int'"))
      case Seconds(x) => ShimSleep(x)
  }

  /** The script's arguments as lambda arguments. */
  function SecondsArgs(seconds: seq<real>): (args: seq<SleepArg>)
    ensures |args| == |seconds|
    ensures forall i :: 0 <= i < |seconds| ==> args[i] == Seconds(seconds[i])
  {
    seq(|seconds|, i requires 0 <= i < |seconds| => Seconds(seconds[i]))
  }

  /** `time.sleep(a1, ..., an)` in a script, as written. The lambda is a
      plain function stored on the class `Time`, so reading `sleep` through
      the instance (`_getattr_`, which is getattr) yields a bound method,
      and the call passes the instance before the script's arguments. */
  function ShimSleepAsWritten(seconds: seq<real>): (r: Result<real, PyError>)
    ensures r.Err? && r.error.TypeError?
  {
    ShimLambda([TimeInstance] + SecondsArgs(seconds))
  }

  /** No call of the written shim behaves as the lambda's body does: with
      one number it raises TypeError where the body sleeps, skips, or
      raises ValueError. */
  lemma ShimNeverSleeps(x: real)
    ensures ShimSleepAsWritten([x]) == Err(TypeError(ArityMessage(2)))
    ensures ShimLambda([Seconds(x)]) == ShimSleep(x)
    ensures ShimSleepAsWritten([x]) != ShimSleep(x)
  {
    assert |[TimeInstance] + SecondsArgs([x])| == 2;
  }

  /** The keys that come from anywhere but the whitelist. */
  predicate IsOtherKey(k: string) {
    k in {
      "__builtins__", "__name__", "_getattr_", "_getiter_", "_iter_unpack_sequence_", "_unpack_sequence_",
      "停止", "前进", "后退", "random", "math", "threading", "time", "_print_", "print"
    }
  }

  lemma BaseKeysAreOther(k: string)
    requires k in BaseGlobals
    ensures IsOtherKey(k)
  {
  }

  lemma WhitelistIsOther(k: string)
    requires k in HalNames
    ensures !IsOtherKey(k)
  {
    assert k in MotionNames || k in SensorNames || k in GimbalNames || k in VisionNames;
    if k in MotionNames {
      MotionIsNotOther(k);
    } else if k in SensorNames {
      assert !IsOtherKey(k);
    } else if k in GimbalNames {
      assert !IsOtherKey(k);
    }
  }

  lemma MotionIsNotOther(k: string)
    requires k in MotionNames
    ensures !IsOtherKey(k)
  {
    if k in MotionNames[..7] {
      assert !IsOtherKey(k);
    } else {
      assert k in MotionNames[7..];
    }
  }

  /** No whitelisted name collides with a key bound anywhere else. */
  lemma WhitelistIsDisjoint(k: string)
    requires k in HalNames
    ensures !IsOtherKey(k) && k !in BaseGlobals
  {
    WhitelistIsOther(k);
    if k in BaseGlobals {
      BaseKeysAreOther(k);
    }
  }

  /** The namespace with HAL functions copied; the keys of the base namespace
      are untouched by the copy. */
  lemma {:induction false} CopiedBase(hal: HalModule)
    ensures forall k :: k in CopyAttrs(BaseGlobals, hal.attrs, HalNames) <==> k in BaseGlobals || (k in HalNames && k in hal.attrs)
    ensures forall k :: k in HalNames && k in hal.attrs ==> CopyAttrs(BaseGlobals, hal.attrs, HalNames)[k] == HalFunction(hal.attrs[k])
    ensures forall k :: k in BaseGlobals ==> CopyAttrs(BaseGlobals, hal.attrs, HalNames)[k] == BaseGlobals[k]
  {
    CopyAttrsSpec(BaseGlobals, hal.attrs, HalNames);
    forall k | k in BaseGlobals
      ensures !(k in HalNames && k in hal.attrs)
    {
      if k in HalNames {
        WhitelistIsDisjoint(k);
      }
    }
  }

  /** A whitelisted name is visible exactly when a HAL module is given and
      has that attribute, and it is then bound to that very attribute. */
  lemma ExposedHalFunctions(hal: Option<HalModule>, onPrint: Option<nat>, name: string)
    requires name in HalNames
    ensures name in InitialGlobals(hal, onPrint) <==> hal.Some? && name in hal.value.attrs
    ensures hal.Some? && name in hal.value.attrs ==>
      InitialGlobals(hal, onPrint)[name] == HalFunction(hal.value.attrs[name])
  {
    WhitelistIsDisjoint(name);
    if hal.Some? {
      CopiedBase(hal.value);
    } else {
      assert name !in BaseGlobals;
    }
  }

  /** Away from `time` and the print hooks, the namespace binds a key as
      `_import_hal_functions` left it. */
  lemma InitialGlobalsAt(hal: Option<HalModule>, onPrint: Option<nat>, k: string)
    requires k != "time" && k != "print" && k != "_print_"
    ensures var w := if hal.Some? then WithHal(BaseGlobals, hal.value) else BaseGlobals;
      (k in InitialGlobals(hal, onPrint) <==> k in w)
      && (k in w ==> InitialGlobals(hal, onPrint)[k] == w[k])
  {
  }

  /** The aliases `_import_hal_functions` binds, read from the whitelist copy. */
  lemma WithHalAliases(g: map<string, Binding>, hal: HalModule)
    ensures var copied := CopyAttrs(g, hal.attrs, HalNames);
      && "停止" in WithHal(g, hal) && WithHal(g, hal)["停止"] == Get(copied, "tingzhi")
      && "前进" in WithHal(g, hal) && WithHal(g, hal)["前进"] == Get(copied, "qianjin")
      && "后退" in WithHal(g, hal) && WithHal(g, hal)["后退"] == Get(copied, "houtui")
  {
  }

  /** A whitelisted name read back from the base namespace's copy. */
  lemma CopiedName(hal: HalModule, name: string)
    requires name in HalNames
    ensures Get(CopyAttrs(BaseGlobals, hal.attrs, HalNames), name)
      == if name in hal.attrs then HalFunction(hal.attrs[name]) else NoneValue
  {
    CopiedBase(hal);
    WhitelistIsDisjoint(name);
  }

  /** With a HAL module, each alias shares the canonical function's binding
      (None when the module lacks it); without one, no alias is bound. */
  lemma AliasBindings(hal: Option<HalModule>, onPrint: Option<nat>)
    ensures forall i :: 0 <= i < |Aliases| ==>
      var (alias, canonical) := Aliases[i];
      (hal.None? ==> alias !in InitialGlobals(hal, onPrint))
      && (hal.Some? ==>
          alias in InitialGlobals(hal, onPrint)
          && InitialGlobals(hal, onPrint)[alias]
             == (if canonical in hal.value.attrs then HalFunction(hal.value.attrs[canonical]) else NoneValue))
  {
    assert "tingzhi" in HalNames && "qianjin" in HalNames && "houtui" in HalNames;
    InitialGlobalsAt(hal, onPrint, "停止");
    InitialGlobalsAt(hal, onPrint, "前进");
    InitialGlobalsAt(hal, onPrint, "后退");
    if hal.Some? {
      WithHalAliases(BaseGlobals, hal.value);
      CopiedName(hal.value, "tingzhi");
      CopiedName(hal.value, "qianjin");
      CopiedName(hal.value, "houtui");
    } else {
      if "停止" in BaseGlobals { BaseKeysStartWithUnderscore("停止"); }
      if "前进" in BaseGlobals { BaseKeysStartWithUnderscore("前进"); }
      if "后退" in BaseGlobals { BaseKeysStartWithUnderscore("后退"); }
    }
  }

  /** Outside the aliases and the modules, `_import_hal_functions` binds a
      key exactly as the whitelist loop left it. */
  lemma WithHalAt(g: map<string, Binding>, hal: HalModule, k: string)
    requires !IsAliasName(k) && !IsStdModuleName(k)
    ensures k in WithHal(g, hal) <==> k in CopyAttrs(g, hal.attrs, HalNames)
    ensures k in WithHal(g, hal) ==> WithHal(g, hal)[k] == CopyAttrs(g, hal.attrs, HalNames)[k]
  {
  }

  /** Every base key starts with an underscore; no alias or module name does. */
  lemma BaseKeysStartWithUnderscore(k: string)
    requires k in BaseGlobals
    ensures |k| > 0 && k[0] == '_'
    ensures !IsAliasName(k) && !IsStdModuleName(k)
  {
  }

  /** The keys of the base namespace survive `_import_hal_functions`. */
  lemma {:induction false} WithHalKeepsBase(hal: HalModule, k: string)
    requires k in BaseGlobals
    ensures k in WithHal(BaseGlobals, hal) && WithHal(BaseGlobals, hal)[k] == BaseGlobals[k]
  {
    CopiedBase(hal);
    BaseKeysStartWithUnderscore(k);
    WithHalAt(BaseGlobals, hal, k);
  }

  /** The fixed part of every namespace: the builtin table, the guards and
      the sleep shim. */
  lemma FixedBindings(hal: Option<HalModule>, onPrint: Option<nat>)
    ensures var g := InitialGlobals(hal, onPrint);
      && "__builtins__" in g && g["__builtins__"] == BuiltinsTable(AllowedBuiltins())
      && "__name__" in g && g["__name__"] == Text("__main__")
      && "_getattr_" in g && g["_getattr_"] == Guard("safer_getattr")
      && "time" in g && g["time"] == TimeShim
  {
    if hal.Some? {
      WithHalKeepsBase(hal.value, "__builtins__");
      WithHalKeepsBase(hal.value, "__name__");
      WithHalKeepsBase(hal.value, "_getattr_");
    }
  }

  /** `print` and `_print_` are bound, both to the hook, exactly when
      `on_print` is given. */
  lemma PrintBindings(hal: Option<HalModule>, onPrint: Option<nat>)
    ensures var g := InitialGlobals(hal, onPrint);
      && (onPrint.Some? <==> "print" in g)
      && (onPrint.Some? <==> "_print_" in g)
      && (onPrint.Some? ==> g["print"] == g["_print_"] == PrintHook(onPrint.value))
  {
    var w := if hal.Some? then WithHal(BaseGlobals, hal.value) else BaseGlobals;
    assert "print" !in BaseGlobals && "_print_" !in BaseGlobals;
    if hal.Some? {
      CopiedBase(hal.value);
      assert "print" !in HalNames by {
        if "print" in HalNames {
          WhitelistIsOther("print");
        }
      }
      assert "_print_" !in HalNames by {
        if "_print_" in HalNames {
          WhitelistIsOther("_print_");
        }
      }
    }
    assert "print" !in w && "_print_" !in w;
  }

  /** random, math and threading are bound exactly when a HAL module is. */
  lemma StdModules(hal: Option<HalModule>, onPrint: Option<nat>, m: string)
    requires IsStdModuleName(m)
    ensures m in InitialGlobals(hal, onPrint) <==> hal.Some?
    ensures hal.Some? ==> InitialGlobals(hal, onPrint)[m] == StdModule(m)
  {
    assert m != "time" && m != "print" && m != "_print_";
    if hal.None? {
      assert m !in BaseGlobals by {
        if m in BaseGlobals {
          BaseKeysAreOther(m);
        }
      }
    }
  }

  /** Capability scoping: no key outside the fixed set, the whitelist and
      the aliases ever appears, and without a HAL module no hardware
      function does. */
  lemma NamespaceIsScoped(hal: Option<HalModule>, onPrint: Option<nat>, k: string)
    requires k in InitialGlobals(hal, onPrint)
    ensures PermittedKey(k)
    ensures InitialGlobals(hal, onPrint)[k].HalFunction? ==> hal.Some?
  {
    if hal.Some? {
      CopiedBase(hal.value);
    }
  }

  class SandboxGlobals {
    /** `_globals`. */
    var globals: map<string, Binding>

    constructor (hal: Option<HalModule>, onPrint: Option<nat>)
      ensures globals == InitialGlobals(hal, onPrint)
    {
      globals := BaseGlobals;
      new;
      if hal.Some? {
        ImportHalFunctions(hal.value);
      }
      if onPrint.Some? {
        globals := globals["_print_" := PrintHook(onPrint.value)]["print" := PrintHook(onPrint.value)];
      }
      globals := globals["time" := TimeShim];
    }

    /** `_import_hal_functions`: the whitelist loop, then the aliases, then
        the standard modules. */
    method ImportHalFunctions(hal: HalModule)
      modifies this
      ensures globals == WithHal(old(globals), hal)
    {
      var names := HalNames;
      for i := 0 to |names|
        invariant globals == CopyAttrs(old(globals), hal.attrs, names[..i])
      {
        assert names[..i + 1][..i] == names[..i];
        if names[i] in hal.attrs {
          globals := globals[names[i] := HalFunction(hal.attrs[names[i]])];
        }
      }
      assert names[..|names|] == names;
      globals := globals["停止" := Get(globals, "tingzhi")];
      globals := globals["前进" := Get(globals, "qianjin")];
      globals := globals["后退" := Get(globals, "houtui")];
      globals := globals["random" := StdModule("random")];
      globals := globals["math" := StdModule("math")];
      globals := globals["threading" := StdModule("threading")];
    }

    /** `get_globals`: a copy, so a script's assignments never reach the
        stored namespace. */
    method GetGlobals() returns (g: map<string, Binding>)
      ensures g == globals
    {
      g := globals;
    }
  }
}
