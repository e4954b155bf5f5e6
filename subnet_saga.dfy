/**
 * `Subnet#create_infrastructure`: create a T1 router, enable its route
 * advertisement, attach it to the T0 router, create a logical switch and attach
 * it to the T1 router. When a step raises, the router and switch created so far
 * are deleted and the call fails with "Failed to create subnet: <cause>".
 */
module SubnetSaga {
  import opened Wrappers
  import opened Ipv4
  import opened SubnetDefinition
  import opened Nsxt

  const FailurePrefix: string := "Failed to create subnet: "

  function Failed(cause: string): string {
    FailurePrefix + cause
  }

  /** The controller's state after a run, and what the run returns. */
  datatype Run = Run(after: Inventory, result: Result<LogicalSwitch, string>)

  function SubnetOf(subnet: Subnet): IpSubnet {
    IpSubnet(subnet.range, subnet.gateway)
  }

  /** The run of the saga against a controller in state `inv` whose failing operations are `failures`. */
  function Saga(subnet: Subnet, failures: map<Op, string>, inv: Inventory): (r: Run)
    ensures inv.log < r.after.log
    ensures inv.Valid() ==> r.after.Valid()
    ensures inv.Valid() && r.result.Success? ==> r.result.value.id in r.after.switches && r.result.value.id !in inv.switches
  {
    var p := subnet.cloudProperties;
    var create := Invoke(inv, failures, CreateT1Router(p.edgeClusterId, p.t1Name));
    if create.error.Some? then Run(create.after, Failure(Failed(create.error.value)))
    else
      var router := inv.nextId;
      var enable := Invoke(create.after, failures, EnableRouteAdvertisement(router));
      if enable.error.Some? then
        Run(Invoke(enable.after, failures, DeleteT1Router(router)).after, Failure(Failed(enable.error.value)))
      else
        var attach := Invoke(enable.after, failures, AttachT1ToT0(p.t0RouterId, router));
        if attach.error.Some? then
          Run(Invoke(attach.after, failures, DeleteT1Router(router)).after, Failure(Failed(attach.error.value)))
        else
          var switchId := attach.after.nextId;
          var create2 := Invoke(attach.after, failures, CreateLogicalSwitch(p.transportZoneId, p.switchName));
          if create2.error.Some? then
            Run(Invoke(create2.after, failures, DeleteT1Router(router)).after, Failure(Failed(create2.error.value)))
          else
            var link := Invoke(create2.after, failures, AttachSwitchToT1(switchId, router, SubnetOf(subnet)));
            if link.error.Some? then
              var unswitched := Invoke(link.after, failures, DeleteLogicalSwitch(switchId)).after;
              Run(Invoke(unswitched, failures, DeleteT1Router(router)).after, Failure(Failed(link.error.value)))
            else
              Run(link.after, Success(LogicalSwitch(switchId, DisplayName(p.switchName, switchId))))
  }

  /**
   * Runs the saga against `nsxt`. Each compensating delete is attempted whether
   * or not an earlier one raised; its own error is dropped.
   */
  method CreateInfrastructure(subnet: Subnet, nsxt: Controller) returns (result: Result<LogicalSwitch, string>)
    requires nsxt.Valid()
    modifies nsxt
    ensures nsxt.Valid()
    ensures Run(nsxt.State(), result) == Saga(subnet, nsxt.failures, old(nsxt.State()))
  {
    var p := subnet.cloudProperties;
    var router := nsxt.CreateT1Router(p.edgeClusterId, p.t1Name);
    if router.Failure? {
      return Failure(Failed(router.error));
    }
    var t1 := router.value;
    var error := nsxt.EnableRouteAdvertisement(t1.id);
    if error.Some? {
      var _ := nsxt.DeleteT1Router(t1.id);
      return Failure(Failed(error.value));
    }
    error := nsxt.AttachT1ToT0(p.t0RouterId, t1.id);
    if error.Some? {
      var _ := nsxt.DeleteT1Router(t1.id);
      return Failure(Failed(error.value));
    }
    var created := nsxt.CreateLogicalSwitch(p.transportZoneId, p.switchName);
    if created.Failure? {
      var _ := nsxt.DeleteT1Router(t1.id);
      return Failure(Failed(created.error));
    }
    var logicalSwitch := created.value;
    error := nsxt.AttachSwitchToT1(logicalSwitch.id, t1.id, SubnetOf(subnet));
    if error.Some? {
      var _ := nsxt.DeleteLogicalSwitch(logicalSwitch.id);
      var _ := nsxt.DeleteT1Router(t1.id);
      return Failure(Failed(error.value));
    }
    return Success(logicalSwitch);
  }

  /** The five calls of a successful run, in order, for router `r` and switch `r + 1`. */
  function SuccessCalls(subnet: Subnet, r: Id): seq<Call> {
    var p := subnet.cloudProperties;
    [CreateT1Router(p.edgeClusterId, p.t1Name),
     EnableRouteAdvertisement(r),
     AttachT1ToT0(p.t0RouterId, r),
     CreateLogicalSwitch(p.transportZoneId, p.switchName),
     AttachSwitchToT1(r + 1, r, SubnetOf(subnet))]
  }

  predicate NoStepFails(failures: map<Op, string>) {
    CreateT1RouterOp !in failures && EnableRouteAdvertisementOp !in failures && AttachT1ToT0Op !in failures &&
    CreateLogicalSwitchOp !in failures && AttachSwitchToT1Op !in failures
  }

  /** The run succeeds exactly when none of the five steps raises. */
  lemma SagaSucceedsIff(subnet: Subnet, failures: map<Op, string>, inv: Inventory)
    ensures Saga(subnet, failures, inv).result.Success? <==> NoStepFails(failures)
  {
  }

  /**
   * A successful run makes exactly the five calls in order, returns the switch
   * it created, and leaves the new router and switch in place.
   */
  lemma SagaSuccess(subnet: Subnet, failures: map<Op, string>, inv: Inventory)
    requires NoStepFails(failures)
    ensures var run := Saga(subnet, failures, inv);
      && run.after.log == inv.log + SuccessCalls(subnet, inv.nextId)
      && run.result == Success(LogicalSwitch(inv.nextId + 1, DisplayName(subnet.cloudProperties.switchName, inv.nextId + 1)))
      && run.after.routers == inv.routers + {inv.nextId}
      && run.after.switches == inv.switches + {inv.nextId + 1}
  {
  }

  /** The five steps of the saga; the deletes are its compensations. */
  predicate IsStep(op: Op) {
    op != DeleteT1RouterOp && op != DeleteLogicalSwitchOp
  }

  /**
   * Every failure is reported as "Failed to create subnet: <cause>", the cause
   * being the error of a step that raised, never that of a compensating delete.
   */
  lemma SagaFailureMessage(subnet: Subnet, failures: map<Op, string>, inv: Inventory)
    requires Saga(subnet, failures, inv).result.Failure?
    ensures exists op :: op in failures && IsStep(op) && Saga(subnet, failures, inv).result.error == Failed(failures[op])
    ensures FailurePrefix <= Saga(subnet, failures, inv).result.error
  {
  }

  /**
   * When the compensating deletes themselves succeed, a failed run leaves no
   * router and no switch that it created: the live sets are as before.
   */
  lemma SagaFailureLeavesNothing(subnet: Subnet, failures: map<Op, string>, inv: Inventory)
    requires inv.Valid()
    requires DeleteT1RouterOp !in failures && DeleteLogicalSwitchOp !in failures
    requires Saga(subnet, failures, inv).result.Failure?
    ensures Saga(subnet, failures, inv).after.routers == inv.routers
    ensures Saga(subnet, failures, inv).after.switches == inv.switches
  {
    assert inv.nextId !in inv.routers && inv.nextId + 1 !in inv.switches;
  }

  /** `create_t1_router` raises: nothing else is called (an assumption; no unit test covers this step). */
  lemma CreateRouterFails(subnet: Subnet, failures: map<Op, string>, inv: Inventory)
    requires CreateT1RouterOp in failures
    ensures Saga(subnet, failures, inv).after.log ==
      inv.log + [CreateT1Router(subnet.cloudProperties.edgeClusterId, subnet.cloudProperties.t1Name)]
    ensures Saga(subnet, failures, inv).result == Failure(Failed(failures[CreateT1RouterOp]))
  {
  }

  /** `enable_route_advertisement` raises: the router is deleted and no switch is created. */
  lemma RouteAdvertisementFails(subnet: Subnet, failures: map<Op, string>, inv: Inventory)
    requires CreateT1RouterOp !in failures && EnableRouteAdvertisementOp in failures
    ensures var p := subnet.cloudProperties;
      Saga(subnet, failures, inv).after.log == inv.log +
        [CreateT1Router(p.edgeClusterId, p.t1Name), EnableRouteAdvertisement(inv.nextId), DeleteT1Router(inv.nextId)]
    ensures Saga(subnet, failures, inv).result == Failure(Failed(failures[EnableRouteAdvertisementOp]))
  {
  }

  /** `attach_t1_to_t0` raises: the router is deleted and no switch is created. */
  lemma AttachToT0Fails(subnet: Subnet, failures: map<Op, string>, inv: Inventory)
    requires CreateT1RouterOp !in failures && EnableRouteAdvertisementOp !in failures && AttachT1ToT0Op in failures
    ensures var p := subnet.cloudProperties;
      Saga(subnet, failures, inv).after.log == inv.log +
        [CreateT1Router(p.edgeClusterId, p.t1Name), EnableRouteAdvertisement(inv.nextId),
         AttachT1ToT0(p.t0RouterId, inv.nextId), DeleteT1Router(inv.nextId)]
    ensures Saga(subnet, failures, inv).result == Failure(Failed(failures[AttachT1ToT0Op]))
  {
  }

  /** `create_logical_switch` raises: the router is deleted (an assumption; no unit test covers this step). */
  lemma CreateSwitchFails(subnet: Subnet, failures: map<Op, string>, inv: Inventory)
    requires CreateT1RouterOp !in failures && EnableRouteAdvertisementOp !in failures && AttachT1ToT0Op !in failures
    requires CreateLogicalSwitchOp in failures
    ensures var p := subnet.cloudProperties;
      Saga(subnet, failures, inv).after.log == inv.log +
        [CreateT1Router(p.edgeClusterId, p.t1Name), EnableRouteAdvertisement(inv.nextId),
         AttachT1ToT0(p.t0RouterId, inv.nextId), CreateLogicalSwitch(p.transportZoneId, p.switchName),
         DeleteT1Router(inv.nextId)]
    ensures Saga(subnet, failures, inv).result == Failure(Failed(failures[CreateLogicalSwitchOp]))
  {
  }

  /**
   * `attach_switch_to_t1` raises: both the switch and the router are deleted,
   * the router's delete being attempted even when the switch's raises.
   */
  lemma AttachSwitchFails(subnet: Subnet, failures: map<Op, string>, inv: Inventory)
    requires CreateT1RouterOp !in failures && EnableRouteAdvertisementOp !in failures && AttachT1ToT0Op !in failures
    requires CreateLogicalSwitchOp !in failures && AttachSwitchToT1Op in failures
    ensures Saga(subnet, failures, inv).after.log ==
      inv.log + SuccessCalls(subnet, inv.nextId) + [DeleteLogicalSwitch(inv.nextId + 1), DeleteT1Router(inv.nextId)]
    ensures Saga(subnet, failures, inv).result == Failure(Failed(failures[AttachSwitchToT1Op]))
  {
  }
}
