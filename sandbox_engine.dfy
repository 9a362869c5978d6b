/** The execution engine (`CodeSandbox`) and the single-flight supervisor
    (`ProcessManager`).

    `execute` runs the script on a daemon worker thread and waits for it with
    `thread.join(timeout)`. The model splits it at that wait: BeginExecute is
    everything up to the join and hands the caller a Run ticket (the caller's
    own frame: the timeout it waits with); FinishExecute is everything after
    the join, told how the worker stood when the join returned. Between the
    two, any other action may interleave: Emit (a print by any worker into the
    shared collector, including a worker abandoned by an earlier timeout),
    Interrupt, Reset, StopExecution, EmergencyStop, and a second BeginExecute,
    which meets the busy gate. Execute is the two halves with no interleaving. */
module SandboxEngine {
  import opened Wrappers
  import Text
  import Motion
  import opened SandboxNamespace

  const BusyError: string := "已有代码正在执行"
  const CompileError: string := "代码编译失败"
  const StartBusyError: string := "已有代码正在执行，请先停止"
  const DefaultTimeout: int := 30

  /** The dictionary `execute` returns. */
  datatype ExecResult = ExecResult(success: bool, error: Option<string>, output: seq<string>)

  /** How the worker thread stands when `thread.join(timeout)` returns: done,
      done with an exception (its `str`), or still alive. */
  datatype WorkerOutcome = Finished | Faulted(message: string) | StillRunning

  /** What the caller of `execute` holds while its worker runs. */
  datatype Run = Run(execTimeout: int)

  datatype Begin = Refused(result: ExecResult) | Started(run: Run)

  const TimeoutPrefix: string := "执行超时（"
  const TimeoutSuffix: string := "秒）"
  const FaultPrefix: string := "执行错误: "

  /** The timeout error, which names the effective timeout in seconds. */
  function TimeoutMessage(seconds: int): (m: string)
    ensures |m| > |TimeoutPrefix| + |TimeoutSuffix|
    ensures m[..|TimeoutPrefix|] == TimeoutPrefix && m[|m| - |TimeoutSuffix|..] == TimeoutSuffix
  {
    TimeoutPrefix + Text.IntToDecimal(seconds) + TimeoutSuffix
  }

  /** Different timeouts give different messages: the number in the message
      is the timeout the join waited for. */
  lemma TimeoutMessageNamesTimeout(a: int, b: int)
    requires TimeoutMessage(a) == TimeoutMessage(b)
    ensures a == b
  {
    var ma, mb := TimeoutMessage(a), TimeoutMessage(b);
    assert ma[|TimeoutPrefix|..|ma| - |TimeoutSuffix|] == Text.IntToDecimal(a);
    assert mb[|TimeoutPrefix|..|mb| - |TimeoutSuffix|] == Text.IntToDecimal(b);
    Text.IntToDecimalInjective(a, b);
  }

  /** The message of a one-second timeout. */
  lemma OneSecondTimeoutMessage()
    ensures TimeoutMessage(1) == "执行超时（1秒）"
  {
    assert Text.IntToDecimal(1) == "1";
  }

  /** The fault error: the exception's text after a fixed prefix, so the
      text can be read back from the error. */
  function FaultMessage(message: string): (m: string)
    ensures |m| == |FaultPrefix| + |message|
    ensures m[..|FaultPrefix|] == FaultPrefix && m[|FaultPrefix|..] == message
  {
    FaultPrefix + message
  }

  /** The result `execute` reports once the join has returned, with the
      collector's entries at that moment as its output. */
  function Report(outcome: WorkerOutcome, execTimeout: int, collected: seq<string>): (r: ExecResult)
    ensures r.success <==> outcome.Finished?
    ensures r.error.None? <==> outcome.Finished?
    ensures r.output == collected
  {
    match outcome
    case Finished => ExecResult(true, None, collected)
    case Faulted(m) => ExecResult(false, Some(FaultMessage(m)), collected)
    case StillRunning => ExecResult(false, Some(TimeoutMessage(execTimeout)), collected)
  }

  /** A report tells the three outcomes apart: a timeout is never confused
      with a script error, whatever the script's exception says. */
  lemma ReportDistinguishesOutcomes(execTimeout: int, message: string, collected: seq<string>)
    ensures Report(StillRunning, execTimeout, collected) != Report(Faulted(message), execTimeout, collected)
    ensures Report(StillRunning, execTimeout, collected).error == Some(TimeoutMessage(execTimeout))
    ensures Report(Faulted(message), execTimeout, collected).error == Some(FaultMessage(message))
  {
    var t := TimeoutMessage(execTimeout);
    var f := FaultMessage(message);
    assert t[2] != f[2];
  }

  /** The namespace a `CodeSandbox` stores: `SandboxGlobals(hal, None)` with
      `_print_` and `print` then pointed at the sandbox's print collector. */
  function EngineGlobals(hal: Option<HalModule>): map<string, Binding> {
    InitialGlobals(hal, None)["_print_" := PrintCollector]["print" := PrintCollector]
  }

  /** Every script sees the collector as `print`, the HAL functions exactly
      as the namespace builder exposes them, and nothing outside the
      permitted keys. */
  lemma EngineNamespace(hal: Option<HalModule>, name: string)
    ensures "print" in EngineGlobals(hal) && EngineGlobals(hal)["print"] == PrintCollector
    ensures "_print_" in EngineGlobals(hal) && EngineGlobals(hal)["_print_"] == PrintCollector
    ensures name in HalNames ==>
      (name in EngineGlobals(hal) <==> hal.Some? && name in hal.value.attrs)
      && (hal.Some? && name in hal.value.attrs ==> EngineGlobals(hal)[name] == HalFunction(hal.value.attrs[name]))
    ensures name in EngineGlobals(hal) ==> PermittedKey(name)
  {
    if name in HalNames {
      ExposedHalFunctions(hal, None, name);
      WhitelistIsOther(name);
    }
    if name in InitialGlobals(hal, None) {
      NamespaceIsScoped(hal, None, name);
    }
  }

  /** The motion controller the HAL module exposes, as a frame. */
  ghost function MotionFrame(hal: Option<HalModule>): set<object> {
    if hal.Some? && hal.value.motion.Some? then {hal.value.motion.value} else {}
  }

  /** All four wheels of the HAL's motion controller (if any) are stopped. */
  ghost predicate MotorsStopped(hal: Option<HalModule>)
    reads MotionFrame(hal)
  {
    hal.Some? && hal.value.motion.Some? ==> hal.value.motion.value.motorSpeeds == [0, 0, 0, 0]
  }

  class CodeSandbox {
    const hal: Option<HalModule>
    /** The default timeout in seconds. */
    const timeout: int
    /** Whether the restricted compiler accepts a script (compile_restricted
        is not part of this model). */
    const compiles: string -> bool
    const namespace: SandboxGlobals
    /** `_executing` and `_interrupted`. */
    var executing: bool
    var interrupted: bool
    /** `_print_output`: written by the constructor and `reset` only. */
    var printOutput: seq<string>
    /** `_print_collector.txt`, shared by every worker this sandbox started. */
    var collectorText: seq<string>
    /** Workers left running by a timeout; nothing ever joins them again. */
    ghost var abandonedWorkers: nat

    ghost predicate Valid()
      reads this, namespace
    {
      namespace.globals == EngineGlobals(hal)
    }

    constructor (hal: Option<HalModule>, compiles: string -> bool, timeout: int := DefaultTimeout)
      ensures Valid() && fresh(namespace)
      ensures this.hal == hal && this.compiles == compiles && this.timeout == timeout
      ensures !executing && !interrupted && printOutput == [] && collectorText == []
      ensures abandonedWorkers == 0
    {
      this.hal := hal;
      this.timeout := timeout;
      this.compiles := compiles;
      executing := false;
      interrupted := false;
      printOutput := [];
      collectorText := [];
      abandonedWorkers := 0;
      var ns := new SandboxGlobals(hal, None);
      namespace := ns;
      new;
      namespace.globals := namespace.globals["_print_" := PrintCollector]["print" := PrintCollector];
    }

    /** `timeout if timeout is not None else self.timeout`. */
    function ExecTimeout(timeoutArg: Option<int>): (seconds: int)
      ensures timeoutArg.Some? ==> seconds == timeoutArg.value
      ensures timeoutArg.None? ==> seconds == timeout
    {
      if timeoutArg.Some? then timeoutArg.value else timeout
    }

    /** `execute` up to the join: the busy gate, compilation, the state
        reset, and the start of the worker. */
    method BeginExecute(code: string, timeoutArg: Option<int>) returns (b: Begin)
      modifies this
      ensures b.Started? <==> !old(executing) && compiles(code)
      ensures old(executing) ==> b == Refused(ExecResult(false, Some(BusyError), []))
      ensures !old(executing) && !compiles(code) ==> b == Refused(ExecResult(false, Some(CompileError), []))
      ensures b.Refused? ==> executing == old(executing) && interrupted == old(interrupted) && collectorText == old(collectorText)
      ensures b.Started? ==> b.run == Run(ExecTimeout(timeoutArg)) && executing && !interrupted && collectorText == []
      ensures printOutput == old(printOutput) && abandonedWorkers == old(abandonedWorkers)
    {
      if executing {
        return Refused(ExecResult(false, Some(BusyError), []));
      }
      if !compiles(code) {
        return Refused(ExecResult(false, Some(CompileError), []));
      }
      executing := true;
      interrupted := false;
      collectorText := [];
      b := Started(Run(ExecTimeout(timeoutArg)));
    }

    /** A print by some worker of this sandbox: its entries are appended to
        the shared collector, whichever run is current. */
    method Emit(entries: seq<string>)
      modifies this`collectorText
      ensures collectorText == old(collectorText) + entries
    {
      collectorText := collectorText + entries;
    }

    /** `execute` after the join: a worker still alive is abandoned and the
        sandbox marked interrupted; the result carries the collector's
        entries; the busy flag is released whatever the worker's state. */
    method FinishExecute(run: Run, outcome: WorkerOutcome) returns (r: ExecResult)
      modifies this
      ensures r == Report(outcome, run.execTimeout, old(collectorText))
      ensures !executing
      ensures interrupted == (old(interrupted) || outcome.StillRunning?)
      ensures abandonedWorkers == old(abandonedWorkers) + (if outcome.StillRunning? then 1 else 0)
      ensures collectorText == old(collectorText) && printOutput == old(printOutput)
    {
      if outcome.StillRunning? {
        interrupted := true;
        abandonedWorkers := abandonedWorkers + 1;
      }
      r := Report(outcome, run.execTimeout, collectorText);
      executing := false;
    }

    /** `execute` with nothing interleaved: a worker whose prints are
        `entries` and which stands as `outcome` when the join returns. The
        output is exactly this run's prints. */
    method Execute(code: string, timeoutArg: Option<int>, outcome: WorkerOutcome, entries: seq<string>) returns (r: ExecResult)
      modifies this
      ensures old(executing) ==>
        (r == ExecResult(false, Some(BusyError), [])
         && executing && interrupted == old(interrupted) && collectorText == old(collectorText))
      ensures !old(executing) && !compiles(code) ==>
        (r == ExecResult(false, Some(CompileError), [])
         && !executing && interrupted == old(interrupted) && collectorText == old(collectorText))
      ensures !old(executing) && compiles(code) ==>
        (r == Report(outcome, ExecTimeout(timeoutArg), entries)
         && !executing && interrupted == outcome.StillRunning? && collectorText == entries)
      ensures printOutput == old(printOutput)
    {
      var b := BeginExecute(code, timeoutArg);
      if b.Refused? {
        return b.result;
      }
      Emit(entries);
      r := FinishExecute(b.run, outcome);
    }

    method IsExecuting() returns (busy: bool)
      ensures busy == executing
    {
      busy := executing;
    }

    /** `interrupt`: only while executing, raise the flag and stop the
        wheels. The worker itself runs on: nothing consults the flag. */
    method Interrupt()
      modifies this`interrupted, MotionFrame(hal)
      ensures interrupted == (old(interrupted) || old(executing))
      ensures old(executing) ==> MotorsStopped(hal)
      ensures !old(executing) ==> unchanged(MotionFrame(hal))
    {
      if executing {
        interrupted := true;
        if hal.Some? && hal.value.motion.Some? {
          hal.value.motion.value.Tingzhi();
        }
      }
    }

    /** `reset`: clears both flags and `_print_output`, but not the
        collector's entries. */
    method Reset()
      modifies this`executing, this`interrupted, this`printOutput
      ensures !executing && !interrupted && printOutput == []
    {
      executing := false;
      interrupted := false;
      printOutput := [];
    }
  }

  /** The dictionary `start_execution` returns: `output` is missing from the
      busy answer, present otherwise. */
  datatype ManagerResult = ManagerResult(success: bool, error: Option<string>, output: Option<seq<string>>, processId: Option<string>)

  datatype Start = Answered(result: ManagerResult) | Running(run: Run)

  datatype Status = Status(executing: bool, processId: Option<string>, interrupted: bool, stopRequested: bool)

  function WithProcessId(r: ExecResult, processId: Option<string>): ManagerResult {
    ManagerResult(r.success, r.error, Some(r.output), processId)
  }

  /** `process_id or f"exec_{int(time.time())}"`: a missing or empty id is
      replaced by one generated from the current second. */
  function ProcessIdFor(processId: Option<string>, nowSecs: nat): (id: string)
    ensures |id| > 0
    ensures processId.Some? && processId.value != "" ==> id == processId.value
  {
    if processId.Some? && processId.value != "" then processId.value
    else "exec_" + Text.NatToDecimal(nowSecs)
  }

  /** Generated ids are equal only when they were generated in the same second. */
  lemma GeneratedIdsDiffer(a: nat, b: nat)
    requires ProcessIdFor(None, a) == ProcessIdFor(None, b)
    ensures a == b
  {
    var p := "exec_";
    assert ProcessIdFor(None, a)[|p|..] == Text.NatToDecimal(a);
    assert ProcessIdFor(None, b)[|p|..] == Text.NatToDecimal(b);
    Text.NatToDecimalInjective(a, b);
  }

  class ProcessManager {
    const hal: Option<HalModule>
    const sandbox: CodeSandbox
    var currentProcessId: Option<string>
    var stopRequested: bool

    ghost predicate Valid()
      reads this, sandbox, sandbox.namespace
    {
      sandbox.hal == hal && sandbox.Valid()
    }

    constructor (hal: Option<HalModule>, compiles: string -> bool)
      ensures Valid() && fresh(sandbox) && fresh(sandbox.namespace)
      ensures this.hal == hal
      ensures sandbox.compiles == compiles && sandbox.timeout == DefaultTimeout
      ensures !sandbox.executing && !sandbox.interrupted && sandbox.collectorText == []
      ensures currentProcessId == None && !stopRequested
    {
      this.hal := hal;
      sandbox := new CodeSandbox(hal, compiles);
      currentProcessId := None;
      stopRequested := false;
    }

    /** `start_execution` up to the sandbox's join: the busy gate (answered
        with the current id), then a fresh id and the sandbox's own gate. */
    method StartExecution(code: string, processId: Option<string>, nowSecs: nat, timeoutArg: Option<int> := Some(DefaultTimeout))
      returns (s: Start)
      requires Valid()
      modifies this, sandbox
      ensures Valid()
      ensures old(sandbox.executing) ==>
        s == Answered(ManagerResult(false, Some(StartBusyError), None, old(currentProcessId)))
        && currentProcessId == old(currentProcessId) && stopRequested == old(stopRequested)
        && sandbox.executing && sandbox.interrupted == old(sandbox.interrupted)
        && sandbox.collectorText == old(sandbox.collectorText)
      ensures !old(sandbox.executing) && !sandbox.compiles(code) ==>
        s == Answered(ManagerResult(false, Some(CompileError), Some([]), Some(ProcessIdFor(processId, nowSecs))))
        && currentProcessId == None && !stopRequested && !sandbox.executing
        && sandbox.interrupted == old(sandbox.interrupted) && sandbox.collectorText == old(sandbox.collectorText)
      ensures !old(sandbox.executing) && sandbox.compiles(code) ==>
        s == Running(Run(sandbox.ExecTimeout(timeoutArg)))
        && currentProcessId == Some(ProcessIdFor(processId, nowSecs)) && !stopRequested
        && sandbox.executing && !sandbox.interrupted && sandbox.collectorText == []
      ensures sandbox.printOutput == old(sandbox.printOutput) && sandbox.abandonedWorkers == old(sandbox.abandonedWorkers)
    {
      var busy := sandbox.IsExecuting();
      if busy {
        return Answered(ManagerResult(false, Some(StartBusyError), None, currentProcessId));
      }
      stopRequested := false;
      currentProcessId := Some(ProcessIdFor(processId, nowSecs));
      var b := sandbox.BeginExecute(code, timeoutArg);
      match b
      case Refused(r) =>
        s := Answered(WithProcessId(r, currentProcessId));
        currentProcessId := None;
      case Started(run) =>
        s := Running(run);
    }

    /** `start_execution` after the join: the id is read only now, so a run
        stopped meanwhile reports no id; it is cleared unless a stop was
        requested. */
    method FinishExecution(run: Run, outcome: WorkerOutcome) returns (r: ManagerResult)
      requires Valid()
      modifies this, sandbox
      ensures Valid()
      ensures r == WithProcessId(Report(outcome, run.execTimeout, old(sandbox.collectorText)), old(currentProcessId))
      ensures currentProcessId == (if old(stopRequested) then old(currentProcessId) else None)
      ensures stopRequested == old(stopRequested)
      ensures !sandbox.executing && sandbox.interrupted == (old(sandbox.interrupted) || outcome.StillRunning?)
      ensures sandbox.collectorText == old(sandbox.collectorText) && sandbox.printOutput == old(sandbox.printOutput)
      ensures sandbox.abandonedWorkers == old(sandbox.abandonedWorkers) + (if outcome.StillRunning? then 1 else 0)
    {
      var er := sandbox.FinishExecute(run, outcome);
      r := WithProcessId(er, currentProcessId);
      if !stopRequested {
        currentProcessId := None;
      }
    }

    /** `start_execution` with nothing interleaved. */
    method StartAndRun(code: string, processId: Option<string>, nowSecs: nat, outcome: WorkerOutcome, entries: seq<string>,
                       timeoutArg: Option<int> := Some(DefaultTimeout))
      returns (r: ManagerResult)
      requires Valid()
      modifies this, sandbox
      ensures Valid()
      ensures old(sandbox.executing) ==>
        r == ManagerResult(false, Some(StartBusyError), None, old(currentProcessId))
        && currentProcessId == old(currentProcessId) && stopRequested == old(stopRequested) && sandbox.executing
        && sandbox.interrupted == old(sandbox.interrupted) && sandbox.collectorText == old(sandbox.collectorText)
      ensures !old(sandbox.executing) && !sandbox.compiles(code) ==>
        r == ManagerResult(false, Some(CompileError), Some([]), Some(ProcessIdFor(processId, nowSecs)))
        && sandbox.interrupted == old(sandbox.interrupted) && sandbox.collectorText == old(sandbox.collectorText)
      ensures !old(sandbox.executing) && sandbox.compiles(code) ==>
        r == WithProcessId(Report(outcome, sandbox.ExecTimeout(timeoutArg), entries), Some(ProcessIdFor(processId, nowSecs)))
        && sandbox.interrupted == outcome.StillRunning? && sandbox.collectorText == entries
      ensures !old(sandbox.executing) ==> currentProcessId == None && !stopRequested && !sandbox.executing
      ensures sandbox.printOutput == old(sandbox.printOutput)
      ensures sandbox.abandonedWorkers == old(sandbox.abandonedWorkers)
        + (if !old(sandbox.executing) && sandbox.compiles(code) && outcome.StillRunning? then 1 else 0)
    {
      var s := StartExecution(code, processId, nowSecs, timeoutArg);
      match s
      case Answered(a) =>
        r := a;
      case Running(run) =>
        assert run.execTimeout == sandbox.ExecTimeout(timeoutArg);
        sandbox.Emit(entries);
        assert sandbox.collectorText == entries;
        r := FinishExecution(run, outcome);
    }

    /** `stop_execution`: only while the sandbox executes; interrupts it and
        forgets the id at once. */
    method StopExecution() returns (stopped: bool)
      requires Valid()
      modifies this, sandbox, MotionFrame(hal)
      ensures Valid()
      ensures stopped == old(sandbox.executing)
      ensures stopped ==> stopRequested && currentProcessId == None && sandbox.interrupted && MotorsStopped(hal)
      ensures !stopped ==>
        (currentProcessId == old(currentProcessId) && stopRequested == old(stopRequested)
         && sandbox.interrupted == old(sandbox.interrupted) && unchanged(MotionFrame(hal)))
      ensures sandbox.executing == old(sandbox.executing) && sandbox.collectorText == old(sandbox.collectorText)
      ensures sandbox.printOutput == old(sandbox.printOutput) && sandbox.abandonedWorkers == old(sandbox.abandonedWorkers)
    {
      var busy := sandbox.IsExecuting();
      if busy {
        stopRequested := true;
        sandbox.Interrupt();
        currentProcessId := None;
        return true;
      }
      return false;
    }

    /** `emergency_stop`: the wheels stop unconditionally, then an ordinary
        stop. The run itself is not ended: the busy flag is untouched. */
    method EmergencyStop()
      requires Valid()
      modifies this, sandbox, MotionFrame(hal)
      ensures Valid()
      ensures MotorsStopped(hal)
      ensures sandbox.executing == old(sandbox.executing)
      ensures old(sandbox.executing) ==> stopRequested && currentProcessId == None && sandbox.interrupted
      ensures !old(sandbox.executing) ==>
        currentProcessId == old(currentProcessId) && stopRequested == old(stopRequested)
        && sandbox.interrupted == old(sandbox.interrupted)
      ensures sandbox.collectorText == old(sandbox.collectorText)
      ensures sandbox.printOutput == old(sandbox.printOutput) && sandbox.abandonedWorkers == old(sandbox.abandonedWorkers)
    {
      if hal.Some? && hal.value.motion.Some? {
        hal.value.motion.value.Tingzhi();
      }
      var _ := StopExecution();
    }

    method GetStatus() returns (st: Status)
      requires Valid()
      ensures st == Status(sandbox.executing, currentProcessId, sandbox.interrupted, stopRequested)
    {
      var busy := sandbox.IsExecuting();
      st := Status(busy, currentProcessId, sandbox.interrupted, stopRequested);
    }
  }

  // ---------------------------------------------------------------------
  // Scenarios

  /** An empty script runs to completion with no output and no error. */
  method EmptyScript(compiles: string -> bool) returns (r: ExecResult)
    requires compiles("")
    ensures r == ExecResult(true, None, [])
  {
    var box := new CodeSandbox(None, compiles);
    r := box.Execute("", None, Finished, []);
  }

  /** A worker still alive after a one-second join: the run fails with the
      timeout message, keeps what it printed, and leaves the sandbox
      interrupted but free for the next run. */
  method TimeoutScenario(compiles: string -> bool, code: string) returns (r: ExecResult, interrupted: bool, busy: bool)
    requires compiles(code)
    ensures !r.success && r.error == Some(TimeoutMessage(1)) && r.output == ["tick"]
    ensures interrupted && !busy
  {
    var box := new CodeSandbox(None, compiles);
    r := box.Execute(code, Some(1), StillRunning, ["tick"]);
    interrupted := box.interrupted;
    busy := box.IsExecuting();
  }

  /** While one run is being joined, a second `execute` is refused and
      disturbs nothing; the first run still completes. */
  method BusyScenario(compiles: string -> bool, code: string) returns (second: ExecResult, first: ExecResult)
    requires compiles(code)
    ensures second == ExecResult(false, Some(BusyError), [])
    ensures first == ExecResult(true, None, ["a"])
  {
    var box := new CodeSandbox(None, compiles);
    var b := box.BeginExecute(code, None);
    var run := b.run;
    box.Emit(["a"]);
    second := box.Execute(code, None, Finished, ["b"]);
    first := box.FinishExecute(run, Finished);
  }

  /** A stop during a run: the run itself still reports success once its
      worker ends, but its process id is gone by then. */
  method StopScenario(compiles: string -> bool, code: string) returns (stopped: bool, r: ManagerResult)
    requires compiles(code)
    ensures stopped && r.success && r.processId == None
  {
    var pm := new ProcessManager(None, compiles);
    var s := pm.StartExecution(code, Some("p1"), 0);
    assert s.Running? && pm.sandbox.executing;
    var run := s.run;
    stopped := pm.StopExecution();
    assert stopped && pm.currentProcessId == None;
    r := pm.FinishExecution(run, Finished);
  }

  /** A worker abandoned by a timeout keeps printing into the shared
      collector, so its late lines appear in the next run's output. */
  method LateOutputScenario(compiles: string -> bool, code: string) returns (first: ExecResult, second: ExecResult)
    requires compiles(code)
    ensures !first.success && first.output == ["early"]
    ensures second.success && second.output == ["late", "mine"]
  {
    var box := new CodeSandbox(None, compiles);
    var b1 := box.BeginExecute(code, Some(1));
    box.Emit(["early"]);
    first := box.FinishExecute(b1.run, StillRunning);
    var b2 := box.BeginExecute(code, None);
    box.Emit(["late"]);
    box.Emit(["mine"]);
    second := box.FinishExecute(b2.run, Finished);
  }
}
