/**
 * The SDN (NSX-T) controller that `create_infrastructure` drives, as the unit
 * tests' strict double sees it: every call it receives is logged, a call whose
 * operation is configured to fail raises that operation's error, and otherwise
 * creations add a router or switch under a fresh id and deletions remove one.
 */
module Nsxt {
  import opened Wrappers
  import opened Text
  import opened Ipv4

  type Id = nat

  /** The subnet handed to `attach_switch_to_t1`, built from the validated range and gateway. */
  datatype IpSubnet = IpSubnet(range: CidrBlock, gateway: Address)

  datatype Op =
    | CreateT1RouterOp | EnableRouteAdvertisementOp | AttachT1ToT0Op
    | CreateLogicalSwitchOp | AttachSwitchToT1Op | DeleteLogicalSwitchOp | DeleteT1RouterOp

  /** One call on the controller with its arguments; a nil name is `None`. */
  datatype Call =
    | CreateT1Router(edgeClusterId: string, name: Option<string>)
    | EnableRouteAdvertisement(routerId: Id)
    | AttachT1ToT0(t0RouterId: string, t1RouterId: Id)
    | CreateLogicalSwitch(transportZoneId: string, name: Option<string>)
    | AttachSwitchToT1(switchId: Id, routerId: Id, ipSubnet: IpSubnet)
    | DeleteLogicalSwitch(switchId: Id)
    | DeleteT1Router(routerId: Id)
  {
    function Op(): Op {
      match this
      case CreateT1Router(_, _) => CreateT1RouterOp
      case EnableRouteAdvertisement(_) => EnableRouteAdvertisementOp
      case AttachT1ToT0(_, _) => AttachT1ToT0Op
      case CreateLogicalSwitch(_, _) => CreateLogicalSwitchOp
      case AttachSwitchToT1(_, _, _) => AttachSwitchToT1Op
      case DeleteLogicalSwitch(_) => DeleteLogicalSwitchOp
      case DeleteT1Router(_) => DeleteT1RouterOp
    }
  }

  datatype LogicalRouter = LogicalRouter(id: Id, displayName: string)

  datatype LogicalSwitch = LogicalSwitch(id: Id, displayName: string)

  /** A router or switch created without a name is displayed under its id. */
  function DisplayName(name: Option<string>, id: Id): string {
    name.GetOr(ShowNat(id))
  }

  /** What the controller holds: live routers and switches, every call received, and the next id it hands out. */
  datatype Inventory = Inventory(routers: set<Id>, switches: set<Id>, log: seq<Call>, nextId: Id) {
    /** Every live id was handed out before, so the next one is fresh. */
    predicate Valid() {
      (forall id | id in routers :: id < nextId) && (forall id | id in switches :: id < nextId)
    }
  }

  datatype Reply = Reply(after: Inventory, error: Option<string>)

  /** The controller's answer to one call. */
  function Invoke(inv: Inventory, failures: map<Op, string>, call: Call): (r: Reply)
    ensures r.after.log == inv.log + [call]
    ensures r.error.Some? <==> call.Op() in failures
    ensures r.error.Some? ==> r.error.value == failures[call.Op()]
    ensures r.error.Some? || !(call.CreateT1Router? || call.CreateLogicalSwitch?) ==> r.after.nextId == inv.nextId
    ensures r.error.Some? ==> r.after == inv.(log := inv.log + [call])
    ensures r.error.None? && call.CreateT1Router? ==>
      r.after.routers == inv.routers + {inv.nextId} && r.after.switches == inv.switches && r.after.nextId == inv.nextId + 1
    ensures r.error.None? && call.CreateLogicalSwitch? ==>
      r.after.switches == inv.switches + {inv.nextId} && r.after.routers == inv.routers && r.after.nextId == inv.nextId + 1
    ensures r.error.None? && call.DeleteT1Router? ==>
      r.after.routers == inv.routers - {call.routerId} && r.after.switches == inv.switches
    ensures r.error.None? && call.DeleteLogicalSwitch? ==>
      r.after.switches == inv.switches - {call.switchId} && r.after.routers == inv.routers
    ensures !(call.CreateT1Router? || call.CreateLogicalSwitch? || call.DeleteT1Router? || call.DeleteLogicalSwitch?) ==>
      r.after == inv.(log := inv.log + [call])
    ensures inv.Valid() ==> r.after.Valid()
  {
    var logged := inv.(log := inv.log + [call]);
    if call.Op() in failures then Reply(logged, Some(failures[call.Op()]))
    else
      match call
      case CreateT1Router(_, _) =>
        Reply(logged.(routers := inv.routers + {inv.nextId}, nextId := inv.nextId + 1), None)
      case CreateLogicalSwitch(_, _) =>
        Reply(logged.(switches := inv.switches + {inv.nextId}, nextId := inv.nextId + 1), None)
      case DeleteT1Router(id) => Reply(logged.(routers := inv.routers - {id}), None)
      case DeleteLogicalSwitch(id) => Reply(logged.(switches := inv.switches - {id}), None)
      case _ => Reply(logged, None)
  }

  /** The controller client: its state changes only through the calls below. */
  class Controller {
    var routers: set<Id>
    var switches: set<Id>
    var log: seq<Call>
    var nextId: Id
    /** The operations that raise, with their error messages. */
    const failures: map<Op, string>

    function State(): Inventory
      reads this
    {
      Inventory(routers, switches, log, nextId)
    }

    ghost predicate Valid()
      reads this
    {
      State().Valid()
    }

    constructor (failures: map<Op, string>)
      ensures Valid() && this.failures == failures
      ensures State() == Inventory({}, {}, [], 0)
    {
      routers, switches, log, nextId := {}, {}, [], 0;
      this.failures := failures;
    }

    method Perform(call: Call) returns (error: Option<string>)
      requires Valid()
      modifies this
      ensures Valid()
      ensures Reply(State(), error) == Invoke(old(State()), failures, call)
    {
      var reply := Invoke(State(), failures, call);
      routers, switches, log, nextId := reply.after.routers, reply.after.switches, reply.after.log, reply.after.nextId;
      error := reply.error;
    }

    method CreateT1Router(edgeClusterId: string, name: Option<string>) returns (r: Result<LogicalRouter, string>)
      requires Valid()
      modifies this
      ensures Valid()
      ensures State() == Invoke(old(State()), failures, Call.CreateT1Router(edgeClusterId, name)).after
      ensures r == if CreateT1RouterOp in failures then Failure(failures[CreateT1RouterOp])
                   else Success(LogicalRouter(old(nextId), DisplayName(name, old(nextId))))
    {
      var id := nextId;
      var error := Perform(Call.CreateT1Router(edgeClusterId, name));
      r := if error.Some? then Failure(error.value) else Success(LogicalRouter(id, DisplayName(name, id)));
    }

    method EnableRouteAdvertisement(routerId: Id) returns (error: Option<string>)
      requires Valid()
      modifies this
      ensures Valid()
      ensures Reply(State(), error) == Invoke(old(State()), failures, Call.EnableRouteAdvertisement(routerId))
    {
      error := Perform(Call.EnableRouteAdvertisement(routerId));
    }

    method AttachT1ToT0(t0RouterId: string, t1RouterId: Id) returns (error: Option<string>)
      requires Valid()
      modifies this
      ensures Valid()
      ensures Reply(State(), error) == Invoke(old(State()), failures, Call.AttachT1ToT0(t0RouterId, t1RouterId))
    {
      error := Perform(Call.AttachT1ToT0(t0RouterId, t1RouterId));
    }

    method CreateLogicalSwitch(transportZoneId: string, name: Option<string>) returns (r: Result<LogicalSwitch, string>)
      requires Valid()
      modifies this
      ensures Valid()
      ensures State() == Invoke(old(State()), failures, Call.CreateLogicalSwitch(transportZoneId, name)).after
      ensures r == if CreateLogicalSwitchOp in failures then Failure(failures[CreateLogicalSwitchOp])
                   else Success(LogicalSwitch(old(nextId), DisplayName(name, old(nextId))))
    {
      var id := nextId;
      var error := Perform(Call.CreateLogicalSwitch(transportZoneId, name));
      r := if error.Some? then Failure(error.value) else Success(LogicalSwitch(id, DisplayName(name, id)));
    }

    method AttachSwitchToT1(switchId: Id, routerId: Id, ipSubnet: IpSubnet) returns (error: Option<string>)
      requires Valid()
      modifies this
      ensures Valid()
      ensures Reply(State(), error) == Invoke(old(State()), failures, Call.AttachSwitchToT1(switchId, routerId, ipSubnet))
    {
      error := Perform(Call.AttachSwitchToT1(switchId, routerId, ipSubnet));
    }

    method DeleteLogicalSwitch(switchId: Id) returns (error: Option<string>)
      requires Valid()
      modifies this
      ensures Valid()
      ensures Reply(State(), error) == Invoke(old(State()), failures, Call.DeleteLogicalSwitch(switchId))
    {
      error := Perform(Call.DeleteLogicalSwitch(switchId));
    }

    method DeleteT1Router(routerId: Id) returns (error: Option<string>)
      requires Valid()
      modifies this
      ensures Valid()
      ensures Reply(State(), error) == Invoke(old(State()), failures, Call.DeleteT1Router(routerId))
    {
      error := Perform(Call.DeleteT1Router(routerId));
    }
  }
}
