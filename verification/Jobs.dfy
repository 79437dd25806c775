/**
 The job of the job-runner example (`examples/job-runner/src/job.rs`): data
 shared by one runner task and the cancel and retry transitions, each step under
 the data's lock.
 */
module Jobs {
  import opened Wrappers

  type u32 = n: int | 0 <= n < 0x1_0000_0000

  datatype JobState = Queued | Running | Succeeded | Failed | Cancelling | Cancelled

  datatype Command = SuccessAfterTicks(ticks: u32) | FailAtStep(step: u32)

  function TotalSteps(c: Command): (n: u32)
    ensures n >= 1
  {
    var n := if c.SuccessAfterTicks? then c.ticks else c.step;
    if n == 0 then 1 else n
  }

  datatype Data = Data(
    command: Command,
    state: JobState,
    attempt: nat,
    step: nat,
    progress: nat,
    startedAt: Option<string>,
    finishedAt: Option<string>,
    result: Option<string>,
    error: Option<string>)

  function FixedStarted(): string { "started" }

  function FixedFinished(): string { "finished" }

  function Submitted(c: Command): Data { Data(c, Queued, 1, 0, 0, None, None, None, None) }

  predicate Terminal(s: JobState) { s == Succeeded || s == Failed || s == Cancelled }

  predicate CanCancel(s: JobState) { s == Queued || s == Running }

  predicate CanRetry(s: JobState) { s == Failed }

  /** The product saturates at the 32-bit bound; the quotient is kept below 100. */
  function ProgressPercent(step: u32, total: u32): (p: nat)
    ensures p <= 99
  {
    var product := if step * 100 >= 0x1_0000_0000 then 0xFFFF_FFFF else step * 100;
    var percent := product / (if total == 0 then 1 else total);
    if percent > 99 then 99 else percent
  }

  // ---- Transitions and ticks ----

  function Cancel(d: Data): Result<Data, JobState>
  {
    match d.state
    case Queued => Ok(d.(state := Cancelled, finishedAt := Some(FixedFinished())))
    case Running => Ok(d.(state := Cancelling))
    case _ => Err(d.state)
  }

  function Retry(d: Data): Result<Data, JobState>
  {
    if !CanRetry(d.state) then Err(d.state)
    else Ok(d.(attempt := d.attempt + 1, state := Queued, step := 0, progress := 0,
               startedAt := None, finishedAt := None, result := None, error := None))
  }

  /** The runner's first step, after its initial delay; it goes on only with a queued job. */
  function Begin(d: Data): (Data, bool)
  {
    if d.state != Queued then (d, false) else (d.(state := Running, startedAt := Some(FixedStarted())), true)
  }

  /** One pass of the runner's loop, and whether it goes on. */
  function Tick(d: Data): (Data, bool)
  {
    match d.state
    case Running =>
      var total := TotalSteps(d.command);
      var step := d.step + 1;
      if step < total then (d.(step := step, progress := ProgressPercent(step, total)), true)
      else if d.command.SuccessAfterTicks? then
        (d.(step := step, progress := 100, state := Succeeded, finishedAt := Some(FixedFinished()),
            result := Some("ok")), false)
      else
        (d.(step := step, state := Failed, finishedAt := Some(FixedFinished()), error := Some("command_failed")), false)
    case Cancelling => (d.(state := Cancelled, finishedAt := Some(FixedFinished())), false)
    case Queued => (d, true)
    case _ => (d, false)
  }

  /** What the fields say about the state. */
  ghost predicate FieldsAgree(d: Data)
  {
    && (d.result.Some? <==> d.state == Succeeded)
    && (d.progress == 100 <==> d.state == Succeeded)
    && (d.error.Some? <==> d.state == Failed)
    && (d.finishedAt.Some? <==> Terminal(d.state))
    && (d.state == Running || d.state == Cancelling ==> d.startedAt.Some? && d.step < TotalSteps(d.command))
    && (d.state == Queued ==> d.startedAt.None? && d.step == 0)
    && d.step <= TotalSteps(d.command)
  }

  ghost predicate ProgressAgrees(d: Data)
  {
    && (d.state == Running ==>
          d.step < TotalSteps(d.command) && d.progress == ProgressPercent(d.step, TotalSteps(d.command)))
    && (d.state == Queued ==> d.progress == 0)
    && d.progress <= 100
  }

  class JobData {
    const command: Command
    var state: JobState
    var attempt: nat
    var step: nat
    var progress: nat
    var startedAt: Option<string>
    var finishedAt: Option<string>
    var result: Option<string>
    var error: Option<string>

    constructor (command: Command)
      ensures Value() == Submitted(command)
    {
      this.command, state, attempt, step, progress := command, Queued, 1, 0, 0;
      startedAt, finishedAt, result, error := None, None, None, None;
    }

    ghost function Value(): Data
      reads this
    {
      Data(command, state, attempt, step, progress, startedAt, finishedAt, result, error)
    }

    method CancelJob() returns (ok: bool)
      modifies this
      ensures ok == Cancel(old(Value())).Ok?
      ensures Value() == if ok then Cancel(old(Value())).value else old(Value())
    {
      match state
      case Queued =>
        state := Cancelled;
        finishedAt := Some(FixedFinished());
        ok := true;
      case Running =>
        state := Cancelling;
        ok := true;
      case _ => ok := false;
    }

    method RetryJob() returns (ok: bool)
      modifies this
      ensures ok == Retry(old(Value())).Ok?
      ensures Value() == if ok then Retry(old(Value())).value else old(Value())
    {
      if !CanRetry(state) {
        return false;
      }
      attempt := attempt + 1;
      state := Queued;
      step, progress := 0, 0;
      startedAt, finishedAt, result, error := None, None, None, None;
      ok := true;
    }

    method BeginRun() returns (goesOn: bool)
      modifies this
      ensures (Value(), goesOn) == Begin(old(Value()))
    {
      if state != Queued {
        return false;
      }
      state := Running;
      startedAt := Some(FixedStarted());
      goesOn := true;
    }

    method RunTick() returns (goesOn: bool)
      modifies this
      ensures (Value(), goesOn) == Tick(old(Value()))
    {
      match state
      case Running =>
        var total := TotalSteps(command);
        step := step + 1;
        if step >= total {
          match command {
            case SuccessAfterTicks(_) =>
              progress := 100;
              state := Succeeded;
              result := Some("ok");
            case FailAtStep(_) =>
              state := Failed;
              error := Some("command_failed");
          }
          finishedAt := Some(FixedFinished());
          return false;
        }
        progress := ProgressPercent(step, total);
        goesOn := true;
      case Cancelling =>
        state := Cancelled;
        finishedAt := Some(FixedFinished());
        goesOn := false;
      case Queued => goesOn := true;
      case _ => goesOn := false;
    }

    /** The runner with nothing else touching the job: a queued job takes exactly `total` ticks, any other none. */
    method RunJob() returns (ticks: nat)
      requires FieldsAgree(Value()) && ProgressAgrees(Value())
      modifies this
      ensures old(state) != Queued ==> ticks == 0 && Value() == old(Value())
      ensures old(state) == Queued ==> Completed() && ticks == TotalSteps(command) && attempt == old(attempt)
    {
      var goesOn := BeginRun();
      ticks := 0;
      while goesOn
        invariant goesOn ==> old(state) == Queued && Underway()
        invariant !goesOn && old(state) == Queued ==> Completed()
        invariant old(state) == Queued ==> ticks == step && attempt == old(attempt)
        invariant old(state) != Queued ==> ticks == 0 && Value() == old(Value())
        decreases TotalSteps(command) - step, goesOn
      {
        goesOn := RunTick();
        ticks := ticks + 1;
      }
    }

    ghost predicate Underway()
      reads this
    {
      && state == Running && step < TotalSteps(command) && startedAt.Some? && progress < 100
      && result == None && error == None
    }

    ghost predicate Completed()
      reads this
    {
      && step == TotalSteps(command) && startedAt.Some? && finishedAt.Some?
      && (if command.SuccessAfterTicks? then state == Succeeded && progress == 100 && result.Some? && error.None?
          else state == Failed && progress < 100 && result.None? && error.Some?)
    }
  }

  // ---- Whole runs ----

  /** The runner task: before its first step, in its loop, returned, or aborted by the actor's stop. */
  datatype Runner = Waiting | Looping | Returned | Aborted

  datatype World = World(data: Data, runner: Runner, ticks: nat)

  datatype Act = Wake | TickOnce | CancelIt | RetryIt | Abort

  function Start(c: Command): World { World(Submitted(c), Waiting, 0) }

  function Keep(d: Data, r: Result<Data, JobState>): Data { if r.Ok? then r.value else d }

  function Step(w: World, act: Act): World
  {
    match act
    case Wake =>
      if w.runner != Waiting then w
      else w.(data := Begin(w.data).0, runner := if Begin(w.data).1 then Looping else Returned)
    case TickOnce =>
      if w.runner != Looping then w
      else w.(data := Tick(w.data).0, runner := if Tick(w.data).1 then Looping else Returned, ticks := w.ticks + 1)
    case CancelIt => w.(data := Keep(w.data, Cancel(w.data)))
    case RetryIt => w.(data := Keep(w.data, Retry(w.data)))
    case Abort => if w.runner == Returned then w else w.(runner := Aborted)
  }

  function Run(w: World, acts: seq<Act>): World
    decreases |acts|
  {
    if acts == [] then w else Run(Step(w, acts[0]), acts[1..])
  }

  /** Where the runner can be. */
  ghost predicate RunnerAgrees(w: World)
  {
    && (w.runner == Waiting ==>
          (w.data.state == Queued || w.data.state == Cancelled) && w.ticks == 0 && w.data.attempt == 1)
    && (w.runner == Looping ==>
          && (w.data.state == Running || w.data.state == Cancelling)
          && w.ticks == w.data.step && w.data.attempt == 1)
    && (w.data.state == Failed ==> w.data.attempt == 1 && (w.runner == Returned || w.runner == Aborted))
    && (w.data.attempt > 1 ==>
          && (w.data.state == Queued || w.data.state == Cancelled)
          && (w.runner == Returned || w.runner == Aborted))
    && 1 <= w.data.attempt <= 2
    && w.ticks <= TotalSteps(w.data.command)
  }

  ghost predicate Inv(w: World) { FieldsAgree(w.data) && ProgressAgrees(w.data) && RunnerAgrees(w) }

  lemma StepKeepsInv(w: World, act: Act)
    requires Inv(w)
    ensures Inv(Step(w, act)) && Step(w, act).data.command == w.data.command
  {
  }

  lemma {:induction false} RunFrom(w: World, acts: seq<Act>)
    requires Inv(w)
    ensures Inv(Run(w, acts)) && Run(w, acts).data.command == w.data.command
    decreases |acts|
  {
    if acts != [] {
      StepKeepsInv(w, acts[0]);
      RunFrom(Step(w, acts[0]), acts[1..]);
    }
  }

  /** In every interleaving of wake-up, ticks, cancel, retry and abort, the fields say what the state says. */
  lemma LifecycleHolds(c: Command, acts: seq<Act>)
    ensures var w := Run(Start(c), acts); var d := w.data;
            && (d.result.Some? <==> d.state == Succeeded) && (d.progress == 100 <==> d.state == Succeeded)
            && (d.error.Some? <==> d.state == Failed)
            && (d.finishedAt.Some? <==> d.state == Succeeded || d.state == Failed || d.state == Cancelled)
            && (d.state == Running ==> d.step < TotalSteps(c))
            && (d.state == Running && d.step <= 42_949_672 ==> IsShare(d.progress, 100 * d.step, TotalSteps(c)))
            && (w.runner == Looping ==> d.state == Running || d.state == Cancelling)
            && w.ticks <= TotalSteps(c)
            && (w.ticks == TotalSteps(c) ==> w.runner != Looping)
  {
    RunFrom(Start(c), acts);
    var d := Run(Start(c), acts).data;
    if d.state == Running { PercentIsShareIff(d.step, TotalSteps(c)); }
  }

  // ---- Progress within an attempt ----

  /** `p` hundredths of `n`, rounded down, is what `hundredfold` says, but never more than 99. */
  ghost predicate IsShare(p: nat, hundredfold: nat, n: nat)
  {
    p <= 99 && p * n <= hundredfold && (p == 99 || hundredfold < (p + 1) * n)
  }

  lemma ShareOf(x: nat, n: nat)
    requires n >= 1
    ensures IsShare(if x / n > 99 then 99 else x / n, x, n)
  {
    var q := x / n;
    assert q * n <= x < (q + 1) * n;
    if q > 99 { assert 99 * n <= q * n; }
  }

  /**
   The percentage is `100 * step / total`, rounded down and at most 99, exactly
   when the product stays within 32 bits, or its largest value makes no difference.
   */
  lemma PercentIsShareIff(step: u32, total: u32)
    requires total >= 1
    ensures IsShare(ProgressPercent(step, total), 100 * step, total) <==>
            || step <= 42_949_672 || 99 * total <= 0xFFFF_FFFF
            || 100 * step < (0xFFFF_FFFF / total + 1) * total
  {
    ShareOf(if step * 100 >= 0x1_0000_0000 then 0xFFFF_FFFF else step * 100, total);
  }

  /** Past 32 bits it falls behind: half of the largest job is reported as one percent. */
  lemma PercentOfHugeJob()
    ensures ProgressPercent(0x8000_0000, 0xFFFF_FFFF) == 1 && !IsShare(1, 100 * 0x8000_0000, 0xFFFF_FFFF)
  {
    PercentIsShareIff(0x8000_0000, 0xFFFF_FFFF);
  }

  lemma PercentGrows(a: u32, b: u32, total: u32)
    requires a <= b && total >= 1
    ensures ProgressPercent(a, total) <= ProgressPercent(b, total)
  {
    var x := if a * 100 >= 0x1_0000_0000 then 0xFFFF_FFFF else a * 100;
    var y := if b * 100 >= 0x1_0000_0000 then 0xFFFF_FFFF else b * 100;
    assert x <= y;
    QuotientGrows(x, y, total);
  }

  lemma QuotientGrows(x: nat, y: nat, n: nat)
    requires x <= y && n >= 1
    ensures x / n <= y / n
  {
    var q, r := x / n, y / n;
    assert q * n <= x && y < (r + 1) * n;
  }

  lemma StepProgress(w: World, act: Act)
    requires Inv(w)
    ensures w.data.attempt <= Step(w, act).data.attempt
    ensures Step(w, act).data.attempt == w.data.attempt ==> w.data.progress <= Step(w, act).data.progress
  {
    if act == TickOnce && w.runner == Looping && w.data.state == Running {
      PercentGrows(w.data.step, w.data.step + 1, TotalSteps(w.data.command));
    }
  }

  /** Progress never falls within an attempt. */
  lemma {:induction false} ProgressNeverFalls(w: World, acts: seq<Act>)
    requires Inv(w)
    ensures w.data.attempt <= Run(w, acts).data.attempt
    ensures Run(w, acts).data.attempt == w.data.attempt ==> w.data.progress <= Run(w, acts).data.progress
    decreases |acts|
  {
    if acts != [] {
      StepKeepsInv(w, acts[0]);
      StepProgress(w, acts[0]);
      ProgressNeverFalls(Step(w, acts[0]), acts[1..]);
    }
  }

  // ---- Affordances ----

  datatype Affordance = Affordance(name: string, available: bool)

  function Transitions(d: Data): seq<Affordance>
  {
    [Affordance("cancel", CanCancel(d.state)), Affordance("retry", CanRetry(d.state))]
  }

  /** The advertised transitions are exactly the accepted ones, and an accepted cancel is not accepted again. */
  lemma AffordancesMatch(d: Data)
    ensures Transitions(d)[0].available <==> Cancel(d).Ok?
    ensures Transitions(d)[1].available <==> Retry(d).Ok?
    ensures Cancel(d).Ok? ==> Cancel(Cancel(d).value).Err? && Retry(Cancel(d).value).Err?
    ensures Retry(d).Ok? ==> Retry(Retry(d).value).Err? && Cancel(Retry(d).value).Ok?
  {
  }

  // ---- After a retry ----

  /** A retried job has no runner left: it stays queued until it is cancelled, and is never retried again. */
  lemma RetriedNeverRuns(c: Command, acts: seq<Act>)
    ensures var w := Run(Start(c), acts);
            w.data.attempt > 1 ==>
              && (w.data.state == Queued || w.data.state == Cancelled)
              && w.runner != Waiting && w.runner != Looping && w.data.attempt == 2
  {
    RunFrom(Start(c), acts);
  }

  /** A cancelled or succeeded job stays so. */
  lemma {:induction false} FinalStaysFinal(w: World, acts: seq<Act>)
    requires Inv(w) && (w.data.state == Cancelled || w.data.state == Succeeded)
    ensures Run(w, acts).data == w.data
    decreases |acts|
  {
    if acts != [] {
      StepKeepsInv(w, acts[0]);
      assert Step(w, acts[0]).data == w.data;
      FinalStaysFinal(Step(w, acts[0]), acts[1..]);
    }
  }
}
