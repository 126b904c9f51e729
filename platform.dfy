/** The collaborators the bridged devices call but whose code is not part of
    this model: the heap (`new`/`malloc`, `delete`/`free`), the endpoint
    table (`AddDeviceEndpoint`, `RemoveDeviceEndpoint`) and the global stack
    lock (`LockChipStack`, `UnlockChipStack`). Their state is ghost: the
    model tracks which blocks are live, which devices are registered and
    with which blocks, whether the lock is held, and the order of the calls
    in an event log. */
module Platform {
  import opened MatterTypes

  /** One entry of a device's device-type list. */
  datatype DeviceType = DeviceType(deviceType: uint16, version: uint8)

  /** What the endpoint table keeps for a registered device: the device,
      its endpoint descriptor, its data-version block with the element count
      the caller passed for it, its device types and its parent endpoint. */
  datatype Registration = Registration(
    device: object,
    endpoint: object,
    versions: object,
    versionCount: nat,
    deviceTypes: seq<DeviceType>,
    parentEndpointId: EndpointId)
  {
    /** The blocks the endpoint table may read while this entry exists. */
    function Blocks(): set<object> {
      {device, endpoint, versions}
    }
  }

  datatype Event =
    | LockChipStack
    | UnlockChipStack
    | AddDeviceEndpoint(registration: Registration)
    | RemoveDeviceEndpoint(device: object)
    | Release(block: object)                    // `free` or `delete`
    | SetMeasuredValue(device: object, value: int)

  class Runtime {
    ghost var live: set<object>                 // allocated and not yet released
    ghost var table: map<object, Registration>  // registered devices
    ghost var lockHeld: bool
    ghost var log: seq<Event>

    /** Every block the endpoint table refers to is live, every entry is
        keyed by its own device, and no block belongs to two entries. */
    ghost predicate Valid()
      reads this
    {
      && (forall d :: d in table ==> table[d].device == d && table[d].Blocks() <= live)
      && (forall d1, d2 :: d1 in table && d2 in table && d1 != d2 ==> table[d1].Blocks() !! table[d2].Blocks())
    }

    /** `o` may be read by the protocol stack through the endpoint table. */
    ghost predicate Pinned(o: object)
      reads this
    {
      exists d :: d in table && o in table[d].Blocks()
    }

    constructor ()
      ensures Valid()
      ensures live == {} && table == map[] && !lockHeld && log == []
    {
      live, table, lockHeld, log := {}, map[], false, [];
    }

    /** A successful `new` or `malloc` of `o`. */
    method Allocated(o: object)
      requires Valid()
      requires o !in live
      modifies this
      ensures Valid()
      ensures live == old(live) + {o}
      ensures table == old(table) && lockHeld == old(lockHeld) && log == old(log)
    {
      live := live + {o};
    }

    /** `free` or `delete`: only a live block, and never one the endpoint
        table still refers to. */
    method Release(o: object)
      requires Valid()
      requires o in live && !Pinned(o)
      modifies this
      ensures Valid()
      ensures live == old(live) - {o}
      ensures log == old(log) + [Event.Release(o)]
      ensures table == old(table) && lockHeld == old(lockHeld)
    {
      live := live - {o};
      log := log + [Event.Release(o)];
    }

    /** `AddDeviceEndpoint`: whether the table accepts the device is the
        table's own decision, supplied here as `result` (an endpoint index,
        or negative on failure). Only an accepted device is registered. */
    method AddDeviceEndpoint(reg: Registration, result: int)
      requires Valid()
      requires reg.device in live && reg.endpoint in live && reg.versions in live
      requires !Pinned(reg.device) && !Pinned(reg.endpoint) && !Pinned(reg.versions)
      modifies this
      ensures Valid()
      ensures table == if result >= 0 then old(table)[reg.device := reg] else old(table)
      ensures log == old(log) + [Event.AddDeviceEndpoint(reg)]
      ensures live == old(live) && lockHeld == old(lockHeld)
    {
      if result >= 0 {
        table := table[reg.device := reg];
      }
      log := log + [Event.AddDeviceEndpoint(reg)];
    }

    /** `RemoveDeviceEndpoint`: the device is no longer in the table. */
    method RemoveDeviceEndpoint(device: object)
      requires Valid()
      modifies this
      ensures Valid()
      ensures table == old(table) - {device}
      ensures log == old(log) + [Event.RemoveDeviceEndpoint(device)]
      ensures live == old(live) && lockHeld == old(lockHeld)
    {
      table := table - {device};
      log := log + [Event.RemoveDeviceEndpoint(device)];
    }

    /** Records that a device stored a measured value the stack may observe;
        the device's setter calls it, so the store needs the stack lock. */
    method StoreMeasuredValue(device: object, value: int)
      requires lockHeld
      modifies this
      ensures log == old(log) + [Event.SetMeasuredValue(device, value)]
      ensures live == old(live) && table == old(table) && lockHeld
    {
      log := log + [Event.SetMeasuredValue(device, value)];
    }

    /** The stack lock is not re-entrant: locking requires it free. */
    method LockChipStack()
      requires !lockHeld
      modifies this
      ensures lockHeld
      ensures log == old(log) + [Event.LockChipStack]
      ensures live == old(live) && table == old(table)
    {
      lockHeld := true;
      log := log + [Event.LockChipStack];
    }

    method UnlockChipStack()
      requires lockHeld
      modifies this
      ensures !lockHeld
      ensures log == old(log) + [Event.UnlockChipStack]
      ensures live == old(live) && table == old(table)
    {
      lockHeld := false;
      log := log + [Event.UnlockChipStack];
    }
  }
}
