/**
 * SchedulerUtil: the routing layer that sends each scheduling request either to the
 * Bukkit scheduler or, on a region-threaded (Folia) server, to the global-region,
 * async or entity scheduler reached by reflection.
 *
 * A request is modelled as the sequence of backend calls it makes. Reflection is an
 * oracle `ok: Call -> bool` that says whether a reflective call resolves and returns;
 * the Bukkit calls are direct and cannot fail. The process-wide `FOLIA` flag is the
 * parameter `region`, computed once by `RegionSchedulingAvailable`.
 */
module Scheduler {
  import opened Wrappers

  // ----- Java `long` arithmetic -----

  const MIN_LONG: int := -0x8000_0000_0000_0000
  const MAX_LONG: int := 0x7fff_ffff_ffff_ffff
  const LONG_MODULUS: int := 0x1_0000_0000_0000_0000

  type Long = x: int | MIN_LONG <= x <= MAX_LONG

  /** Two's-complement wrap-around of a mathematical integer into a `long`. */
  function WrapLong(x: int): (r: Long)
    ensures MIN_LONG <= x <= MAX_LONG ==> r == x
    ensures (r - x) % LONG_MODULUS == 0
  {
    (x - MIN_LONG) % LONG_MODULUS + MIN_LONG
  }

  /** Milliseconds per server tick. */
  const MILLIS_PER_TICK: int := 50

  /**
   * `ticksToMillis`: negative tick counts are clamped to 0 before the multiplication,
   * and the multiplication is Java's wrapping `long` product.
   */
  function TicksToMillis(ticks: Long): (r: Long)
    ensures ticks <= 0 ==> r == 0
    ensures 0 <= ticks <= MAX_LONG / MILLIS_PER_TICK ==> r == ticks * MILLIS_PER_TICK && r >= 0
  {
    WrapLong((if ticks < 0 then 0 else ticks) * MILLIS_PER_TICK)
  }

  /** Above `Long.MAX_VALUE / 50` the product wraps: the largest tick count gives -50 ms. */
  lemma TicksToMillisWrapsAtMaxLong()
    ensures TicksToMillis(MAX_LONG) == -50
  {
    var p := MAX_LONG * MILLIS_PER_TICK;
    assert p - MIN_LONG == 25 * LONG_MODULUS + (LONG_MODULUS / 2 - 50);
    assert (p - MIN_LONG) % LONG_MODULUS == LONG_MODULUS / 2 - 50;
  }

  // ----- Capability probe -----

  const GET_GLOBAL_REGION_SCHEDULER: string := "getGlobalRegionScheduler"
  const GET_ASYNC_SCHEDULER: string := "getAsyncScheduler"

  /** `hasMethod`: the lookup of a public no-argument method by name; absence is `false`, never an error. */
  predicate HasMethod(hostMethods: set<string>, name: string) {
    name in hostMethods
  }

  /** The `FOLIA` flag: both region-scheduler accessors resolve on the `Bukkit` class. */
  predicate RegionSchedulingAvailable(hostMethods: set<string>) {
    HasMethod(hostMethods, GET_GLOBAL_REGION_SCHEDULER) && HasMethod(hostMethods, GET_ASYNC_SCHEDULER)
  }

  lemma RegionSchedulingNeedsBoth(hostMethods: set<string>)
    ensures RegionSchedulingAvailable(hostMethods) <==>
            GET_GLOBAL_REGION_SCHEDULER in hostMethods && GET_ASYNC_SCHEDULER in hostMethods
    ensures GET_ASYNC_SCHEDULER !in hostMethods ==> !RegionSchedulingAvailable(hostMethods)
    ensures GET_GLOBAL_REGION_SCHEDULER !in hostMethods ==> !RegionSchedulingAvailable(hostMethods)
  {
  }

  // ----- Backend calls -----

  /** The caller's `Runnable`; region calls receive it wrapped in a `Consumer`. */
  type TaskId = nat
  /** The player an entity-bound task is attached to. */
  type EntityId = nat

  datatype TimeUnit = Milliseconds

  /**
   * One backend call with the arguments it receives. Entity calls also receive the
   * no-op `RETIRED_CALLBACK`, which the model does not represent.
   */
  datatype Call =
    | BukkitRunTask(task: TaskId)
    | BukkitRunTaskLater(task: TaskId, delay: Long)
    | BukkitRunTaskTimer(task: TaskId, delay: Long, period: Long)
    | BukkitRunTaskAsynchronously(task: TaskId)
    | BukkitRunTaskTimerAsynchronously(task: TaskId, delay: Long, period: Long)
    | AsyncRunNow(task: TaskId)
    | AsyncRunAtFixedRate(task: TaskId, initialDelay: Long, period: Long, unit: TimeUnit)
    | GlobalRun(task: TaskId)
    | GlobalRunDelayed(task: TaskId, delay: Long)
    | GlobalRunAtFixedRate(task: TaskId, delay: Long, period: Long)
    | EntityRun(entity: EntityId, task: TaskId)
    | EntityRunDelayed(entity: EntityId, task: TaskId, delay: Long)
    | EntityRunAtFixedRate(entity: EntityId, task: TaskId, delay: Long, period: Long)
  {
    /** A call on `Bukkit.getScheduler()`, made directly rather than by reflection. */
    predicate IsBukkit() {
      BukkitRunTask? || BukkitRunTaskLater? || BukkitRunTaskTimer? ||
      BukkitRunTaskAsynchronously? || BukkitRunTaskTimerAsynchronously?
    }
  }

  /** The warning logged when a reflective call fails, one per failure. */
  datatype Warning =
    | AsyncFallback | AsyncRepeatingFallback
    | GlobalNowFailed | GlobalLaterFailed | GlobalTimerFailed
    | EntityNowFallback | EntityLaterFallback | EntityTimerFallback

  function WarningFor(c: Call): Warning
    requires !c.IsBukkit()
  {
    match c
    case AsyncRunNow(_) => AsyncFallback
    case AsyncRunAtFixedRate(_, _, _, _) => AsyncRepeatingFallback
    case GlobalRun(_) => GlobalNowFailed
    case GlobalRunDelayed(_, _) => GlobalLaterFailed
    case GlobalRunAtFixedRate(_, _, _) => GlobalTimerFailed
    case EntityRun(_, _) => EntityNowFallback
    case EntityRunDelayed(_, _, _) => EntityLaterFallback
    case EntityRunAtFixedRate(_, _, _, _) => EntityTimerFallback
  }

  /** `BukkitTaskHandle` or `ReflectiveTaskHandle`. */
  datatype HandleKind = BukkitHandle | ReflectiveHandle

  /**
   * What one request does: the calls in the order they are made, the warnings logged,
   * the kind of handle returned and the call whose task it wraps (`None`: it wraps null).
   */
  datatype Route = Route(attempts: seq<Call>, warnings: seq<Warning>, kind: HandleKind, wraps: Option<Call>)

  /**
   * The fallback discipline shared by every entry point: a call is only followed by
   * another after it failed, every failure logs its own warning, and the handle wraps
   * the task of the last call exactly when that call succeeded.
   */
  ghost predicate Coherent(r: Route, ok: Call -> bool) {
    && |r.attempts| >= 1
    && (forall i :: 0 <= i < |r.attempts| - 1 ==> !r.attempts[i].IsBukkit() && !ok(r.attempts[i]))
    && var last := r.attempts[|r.attempts| - 1];
    && r.kind == (if last.IsBukkit() then BukkitHandle else ReflectiveHandle)
    && r.wraps == (if last.IsBukkit() || ok(last) then Some(last) else None)
    && |r.warnings| == (if r.wraps.None? then |r.attempts| else |r.attempts| - 1)
    && forall i :: 0 <= i < |r.warnings| ==> !r.attempts[i].IsBukkit() && r.warnings[i] == WarningFor(r.attempts[i])
  }

  /** A direct Bukkit call: it returns a `BukkitTaskHandle` around the task it created. */
  function Direct(c: Call): (r: Route)
    requires c.IsBukkit()
    ensures forall ok :: Coherent(r, ok)
  {
    Route([c], [], BukkitHandle, Some(c))
  }

  /** The route of a request with nothing left to try: none. */
  const NoFallback: Route := Route([], [], ReflectiveHandle, None)

  /**
   * A reflective call inside `try`; on failure it logs the call's warning and continues
   * with `fallback`, or, when there is none, returns `new ReflectiveTaskHandle(null)`.
   */
  function Reflect(c: Call, ok: Call -> bool, fallback: Route): (r: Route)
    requires !c.IsBukkit()
    requires fallback == NoFallback || Coherent(fallback, ok)
    ensures Coherent(r, ok)
    ensures r.attempts[0] == c
    ensures ok(c) ==> r.attempts == [c] && r.wraps == Some(c)
    ensures !ok(c) ==> r.attempts == [c] + fallback.attempts
  {
    if ok(c) then Route([c], [], ReflectiveHandle, Some(c))
    else
      var r := Route([c] + fallback.attempts, [WarningFor(c)] + fallback.warnings,
                     fallback.kind, fallback.wraps);
      assert fallback != NoFallback ==> r.attempts[|r.attempts| - 1] == fallback.attempts[|fallback.attempts| - 1];
      r
  }

  // ----- Global region scheduler (no fallback of its own) -----

  function RunGlobalNow(ok: Call -> bool, task: TaskId): (r: Route)
    ensures Coherent(r, ok)
    ensures r.attempts == [GlobalRun(task)] && r.kind == ReflectiveHandle
    ensures !ok(GlobalRun(task)) ==> r.wraps.None? && r.warnings == [GlobalNowFailed]
  {
    Reflect(GlobalRun(task), ok, NoFallback)
  }

  function RunGlobalLater(ok: Call -> bool, task: TaskId, delay: Long): (r: Route)
    ensures Coherent(r, ok)
    ensures r.attempts == [GlobalRunDelayed(task, delay)] && r.kind == ReflectiveHandle
    ensures !ok(GlobalRunDelayed(task, delay)) ==> r.wraps.None? && r.warnings == [GlobalLaterFailed]
  {
    Reflect(GlobalRunDelayed(task, delay), ok, NoFallback)
  }

  function RunGlobalTimer(ok: Call -> bool, task: TaskId, delay: Long, period: Long): (r: Route)
    ensures Coherent(r, ok)
    ensures r.attempts == [GlobalRunAtFixedRate(task, delay, period)] && r.kind == ReflectiveHandle
    ensures !ok(GlobalRunAtFixedRate(task, delay, period)) ==> r.wraps.None? && r.warnings == [GlobalTimerFailed]
  {
    Reflect(GlobalRunAtFixedRate(task, delay, period), ok, NoFallback)
  }

  // ----- Entity scheduler, falling back to the global region scheduler -----

  function RunEntityNow(ok: Call -> bool, entity: EntityId, task: TaskId): (r: Route)
    ensures Coherent(r, ok)
    ensures r.attempts[0] == EntityRun(entity, task)
    ensures !ok(EntityRun(entity, task)) ==> r.attempts == [EntityRun(entity, task), GlobalRun(task)]
    ensures forall c :: c in r.attempts ==> !c.IsBukkit()
  {
    Reflect(EntityRun(entity, task), ok, RunGlobalNow(ok, task))
  }

  function RunEntityLater(ok: Call -> bool, entity: EntityId, delay: Long, task: TaskId): (r: Route)
    ensures Coherent(r, ok)
    ensures r.attempts[0] == EntityRunDelayed(entity, task, delay)
    ensures !ok(EntityRunDelayed(entity, task, delay)) ==>
              r.attempts == [EntityRunDelayed(entity, task, delay), GlobalRunDelayed(task, delay)]
    ensures forall c :: c in r.attempts ==> !c.IsBukkit()
  {
    Reflect(EntityRunDelayed(entity, task, delay), ok, RunGlobalLater(ok, task, delay))
  }

  function RunEntityTimer(ok: Call -> bool, entity: EntityId, delay: Long, period: Long, task: TaskId): (r: Route)
    ensures Coherent(r, ok)
    ensures r.attempts[0] == EntityRunAtFixedRate(entity, task, delay, period)
    ensures !ok(EntityRunAtFixedRate(entity, task, delay, period)) ==>
              r.attempts == [EntityRunAtFixedRate(entity, task, delay, period), GlobalRunAtFixedRate(task, delay, period)]
    ensures forall c :: c in r.attempts ==> !c.IsBukkit()
  {
    Reflect(EntityRunAtFixedRate(entity, task, delay, period), ok, RunGlobalTimer(ok, task, delay, period))
  }

  // ----- Public entry points -----

  /** `runAsync`: Folia's async `runNow`, falling back to Bukkit's `runTaskAsynchronously`. */
  function RunAsync(region: bool, ok: Call -> bool, task: TaskId): (r: Route)
    ensures Coherent(r, ok)
    ensures !region ==> r.attempts == [BukkitRunTaskAsynchronously(task)]
    ensures region ==> r.attempts[0] == AsyncRunNow(task)
    ensures region && !ok(AsyncRunNow(task)) ==>
              r.attempts == [AsyncRunNow(task), BukkitRunTaskAsynchronously(task)] && r.kind == BukkitHandle
  {
    if !region then Direct(BukkitRunTaskAsynchronously(task))
    else Reflect(AsyncRunNow(task), ok, Direct(BukkitRunTaskAsynchronously(task)))
  }

  /**
   * `runAsyncRepeating`: the async scheduler takes milliseconds, converted from ticks;
   * its Bukkit fallback takes the original tick values.
   */
  function RunAsyncRepeating(region: bool, ok: Call -> bool, task: TaskId, delayTicks: Long, periodTicks: Long): (r: Route)
    ensures Coherent(r, ok)
    ensures !region ==> r.attempts == [BukkitRunTaskTimerAsynchronously(task, delayTicks, periodTicks)]
    ensures region ==> r.attempts[0] == AsyncRunAtFixedRate(task, TicksToMillis(delayTicks), TicksToMillis(periodTicks), Milliseconds)
    ensures region && !ok(r.attempts[0]) ==>
              r.attempts == [r.attempts[0], BukkitRunTaskTimerAsynchronously(task, delayTicks, periodTicks)]
              && r.kind == BukkitHandle
  {
    var timer := Direct(BukkitRunTaskTimerAsynchronously(task, delayTicks, periodTicks));
    if !region then timer
    else Reflect(AsyncRunAtFixedRate(task, TicksToMillis(delayTicks), TicksToMillis(periodTicks), Milliseconds), ok, timer)
  }

  /** `runNow`: Bukkit's `runTask`, or the global region scheduler's `run` with no further fallback. */
  function RunNow(region: bool, ok: Call -> bool, task: TaskId): (r: Route)
    ensures Coherent(r, ok)
    ensures !region ==> r.attempts == [BukkitRunTask(task)] && r.kind == BukkitHandle
    ensures region ==> r.attempts == [GlobalRun(task)] && r.kind == ReflectiveHandle
  {
    if !region then Direct(BukkitRunTask(task)) else RunGlobalNow(ok, task)
  }

  /** `runSync` delegates to `runNow`. */
  function RunSync(region: bool, ok: Call -> bool, task: TaskId): (r: Route)
    ensures Coherent(r, ok)
  {
    RunNow(region, ok, task)
  }

  function RunAtEntityNow(region: bool, ok: Call -> bool, entity: EntityId, task: TaskId): (r: Route)
    ensures Coherent(r, ok)
    ensures !region ==> r.attempts == [BukkitRunTask(task)] && r.kind == BukkitHandle
    ensures region ==> r == RunEntityNow(ok, entity, task)
  {
    if !region then Direct(BukkitRunTask(task)) else RunEntityNow(ok, entity, task)
  }

  function RunAtEntityLater(region: bool, ok: Call -> bool, entity: EntityId, delay: Long, task: TaskId): (r: Route)
    ensures Coherent(r, ok)
    ensures !region ==> r.attempts == [BukkitRunTaskLater(task, delay)] && r.kind == BukkitHandle
    ensures region ==> r == RunEntityLater(ok, entity, delay, task)
  {
    if !region then Direct(BukkitRunTaskLater(task, delay)) else RunEntityLater(ok, entity, delay, task)
  }

  function RunAtEntityTimer(region: bool, ok: Call -> bool, entity: EntityId, delay: Long, period: Long, task: TaskId): (r: Route)
    ensures Coherent(r, ok)
    ensures !region ==> r.attempts == [BukkitRunTaskTimer(task, delay, period)] && r.kind == BukkitHandle
    ensures region ==> r == RunEntityTimer(ok, entity, delay, period, task)
  {
    if !region then Direct(BukkitRunTaskTimer(task, delay, period)) else RunEntityTimer(ok, entity, delay, period, task)
  }

  // ----- Properties of the routing -----

  /** `runSync` and `runNow` are the same request. */
  lemma RunSyncIsRunNow(region: bool, ok: Call -> bool, task: TaskId)
    ensures RunSync(region, ok, task) == RunNow(region, ok, task)
  {
  }

  /** Without region scheduling the entity is ignored: each entity entry is the Bukkit call of the same kind. */
  lemma EntityEntriesWithoutRegion(ok: Call -> bool, e1: EntityId, e2: EntityId, task: TaskId, delay: Long, period: Long)
    ensures RunAtEntityNow(false, ok, e1, task) == RunAtEntityNow(false, ok, e2, task) == RunNow(false, ok, task)
    ensures RunAtEntityLater(false, ok, e1, delay, task) == Route([BukkitRunTaskLater(task, delay)], [], BukkitHandle, Some(BukkitRunTaskLater(task, delay)))
    ensures RunAtEntityTimer(false, ok, e1, delay, period, task) == RunAtEntityTimer(false, ok, e2, delay, period, task)
    ensures RunAtEntityTimer(false, ok, e1, delay, period, task).wraps == Some(BukkitRunTaskTimer(task, delay, period))
  {
  }

  /**
   * With region scheduling, a failed entity call is retried once on the global region
   * scheduler with the same tick arguments; if that fails too the handle wraps null.
   * No entity request ever reaches the Bukkit scheduler.
   */
  lemma EntityFallbackIsGlobal(ok: Call -> bool, entity: EntityId, task: TaskId, delay: Long, period: Long)
    requires !ok(EntityRunAtFixedRate(entity, task, delay, period))
    ensures var r := RunAtEntityTimer(true, ok, entity, delay, period, task);
            r.attempts[1] == GlobalRunAtFixedRate(task, delay, period) &&
            (ok(r.attempts[1]) <==> r.wraps == Some(GlobalRunAtFixedRate(task, delay, period))) &&
            (!ok(r.attempts[1]) ==> r.wraps.None? && r.warnings == [EntityTimerFallback, GlobalTimerFailed])
  {
  }

  /** A route wraps null only when its last call was a reflective call that failed. */
  lemma NullHandleOnlyAfterFailure(r: Route, ok: Call -> bool)
    requires Coherent(r, ok)
    ensures r.wraps.None? <==> (var last := r.attempts[|r.attempts| - 1]; !last.IsBukkit() && !ok(last))
    ensures r.wraps.None? ==> r.kind == ReflectiveHandle && |r.warnings| == |r.attempts|
  {
  }

  /** When every reflective call succeeds, the first preferred backend is the only one used. */
  lemma NoFallbackWhenReflectionWorks(ok: Call -> bool, entity: EntityId, task: TaskId, delay: Long, period: Long)
    requires forall c :: ok(c)
    ensures RunAtEntityLater(true, ok, entity, delay, task).attempts == [EntityRunDelayed(entity, task, delay)]
    ensures RunAsyncRepeating(true, ok, task, delay, period).warnings == []
    ensures RunAsync(true, ok, task).kind == ReflectiveHandle
  {
  }

  // ----- Handles -----

  /** The task object a backend returned; `hasCancelMethod` says whether `getMethod("cancel")` resolves on it. */
  class ScheduledTask {
    const origin: Call
    const hasCancelMethod: bool
    var cancelled: bool

    constructor (origin: Call, hasCancelMethod: bool)
      ensures this.origin == origin && this.hasCancelMethod == hasCancelMethod && !cancelled
    {
      this.origin := origin;
      this.hasCancelMethod := hasCancelMethod;
      cancelled := false;
    }
  }

  /** `TaskHandle`: a `BukkitTaskHandle` or `ReflectiveTaskHandle` around a possibly null task. */
  class TaskHandle {
    const kind: HandleKind
    const task: ScheduledTask?

    constructor (kind: HandleKind, task: ScheduledTask?)
      ensures this.kind == kind && this.task == task
    {
      this.kind := kind;
      this.task := task;
    }

    /**
     * `cancel()`: nothing happens for a null task; a Bukkit task is cancelled directly; a
     * reflective task is cancelled when its `cancel` method resolves, and a failed lookup
     * is swallowed. Cancelling twice is the same as cancelling once.
     */
    method Cancel()
      modifies if task == null then {} else {task}
      ensures task != null ==>
                task.cancelled == (old(task.cancelled) || kind == BukkitHandle || task.hasCancelMethod)
    {
      if task == null {
        return;
      }
      if kind == BukkitHandle || task.hasCancelMethod {
        task.cancelled := true;
      }
    }
  }

  /**
   * Turns a route into the handle the caller receives: a fresh task object for the call
   * that succeeded, or a handle around null.
   */
  method Submit(r: Route, hasCancelMethod: bool) returns (h: TaskHandle)
    ensures fresh(h) && h.kind == r.kind
    ensures (h.task == null) <==> r.wraps.None?
    ensures h.task != null ==> fresh(h.task) && h.task.origin == r.wraps.value && !h.task.cancelled
  {
    var t: ScheduledTask? := null;
    if r.wraps.Some? {
      t := new ScheduledTask(r.wraps.value, hasCancelMethod);
    }
    h := new TaskHandle(r.kind, t);
  }

  /** A request whose every call fails still yields a handle, and cancelling it is harmless. */
  method CancelAfterTotalFailure(ok: Call -> bool, entity: EntityId, task: TaskId) returns (h: TaskHandle)
    requires forall c :: !ok(c)
    ensures h.kind == ReflectiveHandle && h.task == null
  {
    var r := RunAtEntityNow(true, ok, entity, task);
    assert r.wraps.None?;
    h := Submit(r, true);
    h.Cancel();
    h.Cancel();
  }
}
