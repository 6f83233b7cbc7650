/**
 * The per-node service of the engine (SeaTunnelServer): the lazy, once-only
 * bootstrap of the slot service, `init` and `shutdown` of the sub-services,
 * master-only access to the coordinator with bounded polling, the guard on
 * the member-removed event and the end-state query on the shared
 * running-state map.
 *
 * Sub-services whose code is not part of this model (slot service, task
 * execution service, coordinator service, monitor, executor) are handles;
 * what the node service does to them is recorded, in order, as `Call`s.
 * The cluster (Hazelcast node engine) is reduced to a membership view and a
 * map from task-group location to execution state.
 */
module NodeService {
  import opened Wrappers

  /** getCoordinatorService waits at most this many times for the coordinator. */
  const COORDINATOR_MAX_RETRIES: nat := 20
  /** The slot service is built with dynamic slots and a slot number of 2. */
  const SLOT_SERVICE_DYNAMIC_SLOT: bool := true
  const SLOT_SERVICE_SLOT_NUMBER: nat := 2
  /** The monitor prints execution info at a fixed rate: first at 0 s, then every 60 s. */
  const MONITOR_INITIAL_DELAY_SECONDS: nat := 0
  const MONITOR_PERIOD_SECONDS: nat := 60

  /** A cluster member's address; only compared for equality. */
  datatype Address = Address(host: string, port: nat)

  /**
   * What isMasterNode observes of the cluster: the master address, or None
   * when no master became known within isMasterNode's own retries.
   */
  datatype MembershipView = MembershipView(masterAddress: Option<Address>)

  /** The SeaTunnelEngineExceptions the node service raises or receives. */
  datatype EngineError =
    | NoMasterNode          // "cluster have no master node"
    | InactiveMasterNode    // coordinator requested on a node that is not master
    | CoordinatorNotActive  // master node whose coordinator never became active
    | CoordinatorFailure    // raised by the coordinator while handling a removed member

  datatype SlotService = DefaultSlotService(dynamicSlot: bool, slotNumber: nat)
  datatype TaskExecutionService = TaskExecutionService(node: Address)
  datatype CoordinatorService = CoordinatorService(node: Address)
  datatype MonitorService = ScheduledMonitor(initialDelaySeconds: nat, periodSeconds: nat)

  /** A call the node service makes into one of its sub-services. */
  datatype Call =
    | StartTaskExecution     // new TaskExecutionService(..).start()
    | InitSlotService        // new DefaultSlotService(..).init()
    | CreateCoordinator      // new CoordinatorService(..)
    | ScheduleMonitor        // monitorService.scheduleAtFixedRate(..)
    | ShutdownMonitor
    | CloseSlotService
    | ShutdownCoordinator
    | ShutdownExecutor
    | ShutdownTaskExecution
    | ForwardMemberRemoved   // coordinatorService.memberRemoved(event)

  /** How many times a call trace initialises the slot service. */
  function InitCount(s: seq<Call>): (n: nat)
    ensures n <= |s|
    ensures n == 0 <==> InitSlotService !in s
  {
    if s == [] then 0
    else InitCount(s[..|s| - 1]) + (if s[|s| - 1] == InitSlotService then 1 else 0)
  }

  /** Counting over a concatenation adds up. */
  lemma {:induction false} InitCountAppend(s: seq<Call>, t: seq<Call>)
    ensures InitCount(s + t) == InitCount(s) + InitCount(t)
    decreases |t|
  {
    if t == [] {
      assert s + t == s;
    } else {
      InitCountAppend(s, t[..|t| - 1]);
      assert (s + t)[..|s + t| - 1] == s + t[..|t| - 1];
    }
  }

  /** InitCount agrees with the multiplicity of InitSlotService in the trace. */
  lemma {:induction false} InitCountIsMultiplicity(s: seq<Call>)
    ensures InitCount(s) == multiset(s)[InitSlotService]
  {
    if s != [] {
      InitCountIsMultiplicity(s[..|s| - 1]);
      assert s == s[..|s| - 1] + [s[|s| - 1]];
    }
  }

  /** The calls getSlotService makes: it initialises the slot service only when there is none yet. */
  function Bootstrap(slotService: Option<SlotService>): (r: seq<Call>)
    ensures InitCount(r) == (if slotService.None? then 1 else 0)
  {
    if slotService.None? then [InitSlotService] else []
  }

  /**
   * The slot service is initialised once: starting from a trace that
   * initialised it exactly when it exists, a bootstrap leaves exactly one
   * initialisation in the trace, whether or not it existed before.
   */
  lemma BootstrapInitialisesOnce(calls: seq<Call>, slotService: Option<SlotService>)
    requires InitCount(calls) == (if slotService.Some? then 1 else 0)
    ensures InitCount(calls + Bootstrap(slotService)) == 1
  {
    InitCountAppend(calls, Bootstrap(slotService));
  }

  /** Position of a stop call in the dependency order monitor, slots, coordinator, executor, task execution; 0 for the other calls. */
  function StopRank(c: Call): nat {
    match c
    case ShutdownMonitor => 1
    case CloseSlotService => 2
    case ShutdownCoordinator => 3
    case ShutdownExecutor => 4
    case ShutdownTaskExecution => 5
    case _ => 0
  }

  /** Every call in `s` ranks above `k` in the stop order. */
  ghost predicate RanksAbove(s: seq<Call>, k: nat) {
    forall i :: 0 <= i < |s| ==> StopRank(s[i]) > k
  }

  /** `s` consists of stop calls only, each sub-service at most once, in dependency order. */
  ghost predicate InStopOrder(s: seq<Call>) {
    && RanksAbove(s, 0)
    && (forall i, j :: 0 <= i < j < |s| ==> StopRank(s[i]) < StopRank(s[j]))
  }

  /**
   * The calls shutdown makes: the monitor, the slot service and the
   * coordinator are stopped only when present; the executor and the task
   * execution service always, last.
   */
  function StopSequence(hasMonitor: bool, hasSlots: bool, hasCoordinator: bool): (r: seq<Call>)
    ensures ShutdownMonitor in r <==> hasMonitor
    ensures CloseSlotService in r <==> hasSlots
    ensures ShutdownCoordinator in r <==> hasCoordinator
    ensures InitSlotService !in r
    ensures ShutdownExecutor in r && ShutdownTaskExecution in r
  {
    (if hasMonitor then [ShutdownMonitor] else [])
    + ((if hasSlots then [CloseSlotService] else [])
       + ((if hasCoordinator then [ShutdownCoordinator] else [])
          + [ShutdownExecutor, ShutdownTaskExecution]))
  }

  /** Putting an optional stop call in front of later-ranked stop calls keeps the stop order. */
  lemma PrependStopKeepsOrder(present: bool, c: Call, rest: seq<Call>, k: nat)
    requires k < StopRank(c)
    requires RanksAbove(rest, StopRank(c)) && InStopOrder(rest)
    ensures InStopOrder((if present then [c] else []) + rest)
    ensures RanksAbove((if present then [c] else []) + rest, k)
  {
    var r := (if present then [c] else []) + rest;
    if present {
      forall i, j | 0 <= i < j < |r| ensures StopRank(r[i]) < StopRank(r[j]) {
        assert r[j] == rest[j - 1];
        if i > 0 {
          assert r[i] == rest[i - 1];
        }
      }
    } else {
      assert r == rest;
    }
  }

  /** shutdown stops the sub-services in the dependency order monitor, slots, coordinator, executor, task execution. */
  lemma StopSequenceInOrder(hasMonitor: bool, hasSlots: bool, hasCoordinator: bool)
    ensures InStopOrder(StopSequence(hasMonitor, hasSlots, hasCoordinator))
  {
    var last := [ShutdownExecutor, ShutdownTaskExecution];
    PrependStopKeepsOrder(hasCoordinator, ShutdownCoordinator, last, 2);
    var fromCoordinator := (if hasCoordinator then [ShutdownCoordinator] else []) + last;
    PrependStopKeepsOrder(hasSlots, CloseSlotService, fromCoordinator, 1);
    var fromSlots := (if hasSlots then [CloseSlotService] else []) + fromCoordinator;
    PrependStopKeepsOrder(hasMonitor, ShutdownMonitor, fromSlots, 0);
  }

  /**
   * isMasterNode: the node is master when the observed master address is its
   * own; with no master observable the call fails with NoMasterNode.
   */
  function IsMasterNode(view: MembershipView, thisAddress: Address): (r: Result<bool, EngineError>)
    ensures r.Failure? <==> view.masterAddress.None?
    ensures r.Failure? ==> r.error == NoMasterNode
    ensures r == Success(true) <==> view.masterAddress == Some(thisAddress)
  {
    match view.masterAddress
    case None => Failure(NoMasterNode)
    case Some(master) => Success(master == thisAddress)
  }

  /**
   * Number of one-second waits getCoordinatorService makes, counted from
   * `k` waits already made: it keeps waiting while the coordinator answers
   * inactive, fewer than COORDINATOR_MAX_RETRIES waits were made and the
   * node is running. `probe(k)` is the coordinator's answer to the
   * isCoordinatorActive() call made after k waits, and `running(k)` the
   * value of isRunning that the same loop test reads; a shutdown on another
   * thread may clear it while the loop polls.
   */
  function CoordinatorWaits(running: nat -> bool, probe: nat -> bool, k: nat): (n: nat)
    requires k <= COORDINATOR_MAX_RETRIES
    ensures k <= n <= COORDINATOR_MAX_RETRIES
    ensures forall j :: k <= j < n ==> !probe(j) && running(j)
    ensures probe(n) || n == COORDINATOR_MAX_RETRIES || !running(n)
    decreases COORDINATOR_MAX_RETRIES - k
  {
    if probe(k) || k == COORDINATOR_MAX_RETRIES || !running(k) then k
    else CoordinatorWaits(running, probe, k + 1)
  }

  /** The polling stops at the first opportunity: any count with the stopping properties is the one CoordinatorWaits gives. */
  lemma CoordinatorWaitsIsFirstStop(running: nat -> bool, probe: nat -> bool, n: nat)
    requires n <= COORDINATOR_MAX_RETRIES
    requires forall j :: 0 <= j < n ==> !probe(j) && running(j)
    requires probe(n) || n == COORDINATOR_MAX_RETRIES || !running(n)
    ensures n == CoordinatorWaits(running, probe, 0)
  {
  }

  /** A shutdown seen at the n-th loop test ends the polling there, whatever the coordinator answers later. */
  lemma ShutdownEndsPolling(running: nat -> bool, probe: nat -> bool, n: nat)
    requires n <= COORDINATOR_MAX_RETRIES && !running(n)
    ensures CoordinatorWaits(running, probe, 0) <= n
  {
  }

  /** Execution state of one task group. */
  datatype ExecutionState =
    | CREATED | SCHEDULED | DEPLOYING | RUNNING | FINISHED | CANCELING | CANCELED | FAILED

  /** The terminal states. */
  predicate IsEndState(s: ExecutionState) {
    s == FINISHED || s == CANCELED || s == FAILED
  }

  /** Identity of a task group: job, pipeline, task group. */
  datatype TaskGroupLocation = TaskGroupLocation(jobId: nat, pipelineId: nat, taskGroupId: nat)

  /** The cluster-wide running-state map; None when the map cannot be obtained. */
  type RunningJobState = Option<map<TaskGroupLocation, ExecutionState>>

  /**
   * taskIsEnded: false when the running-state map is missing or has no entry
   * for the location; otherwise whether the stored state is an end state.
   */
  function TaskIsEnded(runningJobState: RunningJobState, location: TaskGroupLocation): (r: bool)
    ensures runningJobState.None? ==> !r
    ensures runningJobState.Some? && location !in runningJobState.value ==> !r
    ensures runningJobState.Some? && location in runningJobState.value ==>
              (r <==> IsEndState(runningJobState.value[location]))
  {
    match runningJobState
    case None => false
    case Some(states) => location in states && IsEndState(states[location])
  }

  /** An update of the running-state map that never moves a task group out of an end state. */
  ghost predicate KeepsEndStates(before: RunningJobState, after: RunningJobState) {
    before.Some? ==>
      && after.Some?
      && forall l :: l in before.value && IsEndState(before.value[l]) ==>
           l in after.value && after.value[l] == before.value[l]
  }

  /** Once taskIsEnded answers true it keeps answering true while end states stay terminal. */
  lemma TaskIsEndedStable(before: RunningJobState, after: RunningJobState, location: TaskGroupLocation)
    requires KeepsEndStates(before, after)
    requires TaskIsEnded(before, location)
    ensures TaskIsEnded(after, location)
  {
  }

  class SeaTunnelServer {
    const thisAddress: Address
    var isRunning: bool
    var slotService: Option<SlotService>
    var taskExecutionService: Option<TaskExecutionService>
    var coordinatorService: Option<CoordinatorService>
    var monitorService: Option<MonitorService>
    /** The calls made into the sub-services so far, oldest first. */
    var calls: seq<Call>

    /**
     * The trace holds one initialisation of the slot service when the slot
     * service exists and none before, and it has the fixed configuration; the monitor
     * and the coordinator, when present, are the ones init creates.
     */
    ghost predicate Valid()
      reads this
    {
      && InitCount(calls) == (if slotService.Some? then 1 else 0)
      && (slotService.Some? ==>
            slotService.value == DefaultSlotService(SLOT_SERVICE_DYNAMIC_SLOT, SLOT_SERVICE_SLOT_NUMBER))
      && (monitorService.Some? ==>
            monitorService.value == ScheduledMonitor(MONITOR_INITIAL_DELAY_SECONDS, MONITOR_PERIOD_SECONDS))
      && (coordinatorService.Some? ==> coordinatorService.value == CoordinatorService(thisAddress))
    }

    constructor (node: Address)
      ensures Valid()
      ensures thisAddress == node && isRunning
      ensures slotService.None? && taskExecutionService.None?
      ensures coordinatorService.None? && monitorService.None?
      ensures calls == []
    {
      thisAddress := node;
      isRunning := true;
      slotService, taskExecutionService := None, None;
      coordinatorService, monitorService := None, None;
      calls := [];
    }

    /**
     * getSlotService: lazy bootstrap. The double-checked lock is modelled
     * sequentially: both checks read the same field.
     */
    method GetSlotService() returns (s: SlotService)
      requires Valid()
      modifies this`slotService, this`calls
      ensures Valid()
      ensures slotService == Some(s)
      ensures s == DefaultSlotService(SLOT_SERVICE_DYNAMIC_SLOT, SLOT_SERVICE_SLOT_NUMBER)
      ensures calls == old(calls) + Bootstrap(old(slotService))
    {
      if slotService.None? {
        if slotService.None? {
          var service := DefaultSlotService(SLOT_SERVICE_DYNAMIC_SLOT, SLOT_SERVICE_SLOT_NUMBER);
          BootstrapInitialisesOnce(calls, slotService);
          calls := calls + [InitSlotService];
          slotService := Some(service);
        }
      }
      s := slotService.value;
    }

    /**
     * init: start a new task execution service, bootstrap the slot service,
     * create the coordinator and schedule the monitor.
     */
    method Init()
      requires Valid()
      modifies this
      ensures Valid()
      ensures isRunning == old(isRunning)
      ensures taskExecutionService == Some(TaskExecutionService(thisAddress))
      ensures slotService == Some(DefaultSlotService(SLOT_SERVICE_DYNAMIC_SLOT, SLOT_SERVICE_SLOT_NUMBER))
      ensures old(slotService).Some? ==> slotService == old(slotService)
      ensures coordinatorService == Some(CoordinatorService(thisAddress))
      ensures monitorService == Some(ScheduledMonitor(MONITOR_INITIAL_DELAY_SECONDS, MONITOR_PERIOD_SECONDS))
      ensures calls == old(calls) + [StartTaskExecution] + Bootstrap(old(slotService)) + [CreateCoordinator, ScheduleMonitor]
    {
      taskExecutionService := Some(TaskExecutionService(thisAddress));
      InitCountAppend(calls, [StartTaskExecution]);
      calls := calls + [StartTaskExecution];
      var slots := GetSlotService();
      coordinatorService := Some(CoordinatorService(thisAddress));
      monitorService := Some(ScheduledMonitor(MONITOR_INITIAL_DELAY_SECONDS, MONITOR_PERIOD_SECONDS));
      InitCountAppend(calls, [CreateCoordinator, ScheduleMonitor]);
      calls := calls + [CreateCoordinator, ScheduleMonitor];
    }

    /**
     * shutdown: clear isRunning, then make the stop calls of StopSequence:
     * the monitor, the slot service and the coordinator when present, then
     * the executor and the task execution service. The task execution
     * service is stopped without a null check, so init must have run.
     */
    method Shutdown(terminate: bool)
      requires Valid()
      requires taskExecutionService.Some?
      modifies this`isRunning, this`calls
      ensures Valid()
      ensures !isRunning
      ensures calls == old(calls) + StopSequence(monitorService.Some?, slotService.Some?, coordinatorService.Some?)
    {
      isRunning := false;
      InitCountAppend(calls, StopSequence(monitorService.Some?, slotService.Some?, coordinatorService.Some?));
      calls := calls + StopSequence(monitorService.Some?, slotService.Some?, coordinatorService.Some?);
    }

    /**
     * getCoordinatorService. On a non-master node it fails at once; on the
     * master it polls isCoordinatorActive() before each wait, at most
     * COORDINATOR_MAX_RETRIES waits while the node is running, and returns
     * the coordinator only when a last isCoordinatorActive() call answers
     * true. `waits` counts the one-second sleeps. `probe(k)` answers the
     * k-th call (counting from 0); the loop's check after k waits is call k,
     * the final check call waits + 1. `running(k)` is isRunning as that
     * check reads it: a concurrent shutdown may clear it between checks,
     * and nothing sets it again once it is cleared.
     */
    method GetCoordinatorService(view: MembershipView, probe: nat -> bool, running: nat -> bool)
      returns (r: Result<CoordinatorService, EngineError>, waits: nat)
      requires IsMasterNode(view, thisAddress) == Success(true) ==> coordinatorService.Some?
      requires !isRunning ==> forall k :: !running(k)
      ensures IsMasterNode(view, thisAddress).Failure? ==> r == Failure(NoMasterNode) && waits == 0
      ensures IsMasterNode(view, thisAddress) == Success(false) ==> r == Failure(InactiveMasterNode) && waits == 0
      ensures IsMasterNode(view, thisAddress) == Success(true) ==>
                && waits == CoordinatorWaits(running, probe, 0)
                && (!isRunning ==> waits == 0)
                && (r.Success? <==> probe(waits + 1))
                && (r.Success? ==> Some(r.value) == coordinatorService)
                && (r.Failure? ==> r.error == CoordinatorNotActive)
    {
      waits := 0;
      var master := IsMasterNode(view, thisAddress);
      if master.Failure? {
        return Failure(master.error), 0;
      }
      if master.value {
        while !probe(waits) && waits < COORDINATOR_MAX_RETRIES && running(waits)
          invariant waits <= COORDINATOR_MAX_RETRIES
          invariant CoordinatorWaits(running, probe, waits) == CoordinatorWaits(running, probe, 0)
          decreases COORDINATOR_MAX_RETRIES - waits
        {
          waits := waits + 1;
        }
        if probe(waits + 1) {
          r := Success(coordinatorService.value);
        } else {
          r := Failure(CoordinatorNotActive);
        }
      } else {
        r := Failure(InactiveMasterNode);
      }
    }

    /** Records that the coordinator's memberRemoved handler was called. */
    method RecordForward()
      requires Valid()
      modifies this`calls
      ensures Valid()
      ensures calls == old(calls) + [ForwardMemberRemoved]
    {
      InitCountAppend(calls, [ForwardMemberRemoved]);
      calls := calls + [ForwardMemberRemoved];
    }

    /**
     * memberRemoved: forward the event to the coordinator only when this
     * node is master; every engine exception on the way (no master, the two
     * coordinator errors, a failure inside the coordinator's handler) is
     * logged and not propagated. isMasterNode is consulted twice, by the
     * guard (`guardView`) and inside getCoordinatorService (`accessView`).
     * `forwarded` says whether the coordinator received the event, which is
     * then recorded in the trace, and `logged` which error was logged. A failure inside the coordinator's handler
     * (`handlerFails`) is taken to be an engine exception, the only kind the
     * source catches.
     */
    method MemberRemoved(guardView: MembershipView, accessView: MembershipView, probe: nat -> bool,
                         running: nat -> bool, handlerFails: bool)
      returns (forwarded: bool, logged: Option<EngineError>)
      requires Valid()
      requires IsMasterNode(accessView, thisAddress) == Success(true) ==> coordinatorService.Some?
      requires !isRunning ==> forall k :: !running(k)
      modifies this`calls
      ensures Valid()
      ensures calls == old(calls) + (if forwarded then [ForwardMemberRemoved] else [])
      ensures forwarded ==> IsMasterNode(guardView, thisAddress) == Success(true)
      ensures IsMasterNode(guardView, thisAddress).Failure? ==> !forwarded && logged == Some(NoMasterNode)
      ensures IsMasterNode(guardView, thisAddress) == Success(false) ==> !forwarded && logged == None
      ensures IsMasterNode(guardView, thisAddress) == Success(true) ==>
                var access := IsMasterNode(accessView, thisAddress);
                && (access.Failure? ==> !forwarded && logged == Some(NoMasterNode))
                && (access == Success(false) ==> !forwarded && logged == Some(InactiveMasterNode))
                && (access == Success(true) ==>
                      && forwarded == probe(CoordinatorWaits(running, probe, 0) + 1)
                      && logged == (if !forwarded then Some(CoordinatorNotActive)
                                    else if handlerFails then Some(CoordinatorFailure)
                                    else None))
    {
      forwarded, logged := false, None;
      var guard := IsMasterNode(guardView, thisAddress);
      if guard.Failure? {
        logged := Some(guard.error);
        return;
      }
      if guard.value {
        var coordinator, waits := GetCoordinatorService(accessView, probe, running);
        if coordinator.Failure? {
          logged := Some(coordinator.error);
          return;
        }
        forwarded := true;
        RecordForward();
        if handlerFails {
          logged := Some(CoordinatorFailure);
        }
      }
    }
  }

  /** With every sub-service present, shutdown makes all five stop calls. */
  lemma StopSequenceAllPresent()
    ensures StopSequence(true, true, true) == [ShutdownMonitor, CloseSlotService, ShutdownCoordinator, ShutdownExecutor, ShutdownTaskExecution]
  {
  }

  /** The trace of init on a fresh node followed by shutdown with every sub-service present. */
  lemma InitThenShutdownTrace(trace: seq<Call>)
    requires trace == [] + [StartTaskExecution] + Bootstrap(None) + [CreateCoordinator, ScheduleMonitor] + StopSequence(true, true, true)
    ensures trace == [StartTaskExecution, InitSlotService, CreateCoordinator, ScheduleMonitor,
                      ShutdownMonitor, CloseSlotService, ShutdownCoordinator, ShutdownExecutor, ShutdownTaskExecution]
  {
    var started := [StartTaskExecution, InitSlotService, CreateCoordinator, ScheduleMonitor];
    assert [] + [StartTaskExecution] + Bootstrap(None) + [CreateCoordinator, ScheduleMonitor] == started;
    StopSequenceAllPresent();
  }

  /**
   * A node's life: construct, init, two getSlotService calls (the sequential
   * form of two racing callers), shutdown. Both callers observe the one slot
   * service, which was built and initialised once, and the sub-services are
   * stopped in dependency order.
   */
  method NodeLifecycle(node: Address) returns (first: SlotService, second: SlotService, trace: seq<Call>)
    ensures first == second == DefaultSlotService(SLOT_SERVICE_DYNAMIC_SLOT, SLOT_SERVICE_SLOT_NUMBER)
    ensures trace == [StartTaskExecution, InitSlotService, CreateCoordinator, ScheduleMonitor,
                      ShutdownMonitor, CloseSlotService, ShutdownCoordinator, ShutdownExecutor, ShutdownTaskExecution]
  {
    var server := new SeaTunnelServer(node);
    server.Init();
    ghost var started := server.calls;
    first := server.GetSlotService();
    second := server.GetSlotService();
    assert server.calls == started;
    assert server.monitorService.Some? && server.slotService.Some? && server.coordinatorService.Some?;
    server.Shutdown(true);
    trace := server.calls;
    InitThenShutdownTrace(trace);
  }
}
