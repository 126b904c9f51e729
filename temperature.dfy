/** MatterTemperature: a temperature sensor made visible as a dynamic Matter
    endpoint. `Begin` allocates the device object, the endpoint descriptor
    and the data-version block, then registers them with the endpoint table,
    releasing what it allocated if any step fails; `End` deregisters and then
    releases. The raw value is in hundredths of a degree Celsius. */
module Temperature {
  import opened MatterTypes
  import opened Platform

  // ---------------------------------------------------------------------
  // Static tables

  datatype AttributeType = Int16s | Int16u | Bitmap32

  /** One `DECLARE_DYNAMIC_ATTRIBUTE` entry: id, type, size in bytes, mask. */
  datatype AttributeDecl = AttributeDecl(id: AttributeId, attributeType: AttributeType, size: nat, mask: nat)

  /** An attribute list is either declared here or shared with other
      devices (the descriptor and bridged-basic lists). */
  datatype AttributeList = Declared(attributes: seq<AttributeDecl>) | Shared(name: string)

  /** One `DECLARE_DYNAMIC_CLUSTER` entry. */
  datatype ClusterDecl = ClusterDecl(id: ClusterId, attributes: AttributeList)

  const DeviceTypeTempSensor: uint16 := 0x0302
  const DeviceVersionDefault: uint8 := 1

  const TempSensorDeviceTypes: seq<DeviceType> := [DeviceType(DeviceTypeTempSensor, DeviceVersionDefault)]

  const TempSensorAttrs: seq<AttributeDecl> := [
    AttributeDecl(MeasuredValueId, Int16s, 2, 0),
    AttributeDecl(MinMeasuredValueId, Int16s, 2, 0),
    AttributeDecl(MaxMeasuredValueId, Int16s, 2, 0),
    AttributeDecl(FeatureMapId, Bitmap32, 4, 0),
    AttributeDecl(ClusterRevisionId, Int16u, 2, 0)
  ]

  const TempMeasurementEndpointClusters: seq<ClusterDecl> := [
    ClusterDecl(TemperatureMeasurementId, Declared(TempSensorAttrs)),
    ClusterDecl(DescriptorId, Shared("descriptorAttrs")),
    ClusterDecl(BridgedDeviceBasicInformationId, Shared("bridgedDeviceBasicAttrs"))
  ]

  /** `sizeof(DataVersion)`: a data version is a 32-bit counter. */
  const DataVersionSize: nat := 4

  /** `dataversion_size`: the byte size of the data-version block. */
  const DataVersionBytes: nat := |TempMeasurementEndpointClusters| * DataVersionSize

  const TempMinValue: int16 := -4000
  const TempMaxValue: int16 := 10000
  const SensorName: string := "Temperature sensor"
  const ParentEndpointId: EndpointId := 1

  /** The descriptor lists three distinct clusters, and the data-version
      block has room for exactly one data version per cluster. */
  lemma StaticTables()
    ensures |TempMeasurementEndpointClusters| == 3
    ensures forall i, j :: 0 <= i < j < 3 ==>
      TempMeasurementEndpointClusters[i].id != TempMeasurementEndpointClusters[j].id
    ensures DataVersionBytes / DataVersionSize == |TempMeasurementEndpointClusters|
    ensures DataVersionBytes % DataVersionSize == 0
  {
  }

  /** What `begin` registers: the element count it passes for the
      data-version block is the block's byte size, four times the number of
      data versions the block can hold. */
  function TempRegistration(sensor: object, endpoint: object, versions: object): (r: Registration)
    ensures r.Blocks() == {sensor, endpoint, versions}
    ensures r.versionCount == DataVersionSize * |TempMeasurementEndpointClusters|
    ensures r.versionCount > |TempMeasurementEndpointClusters|
  {
    Registration(sensor, endpoint, versions, DataVersionBytes, TempSensorDeviceTypes, ParentEndpointId)
  }

  // ---------------------------------------------------------------------
  // The blocks `begin` allocates

  /** The temperature device object. Only the members `MatterTemperature`
      uses are modelled; its setter clamps like the humidity sensor's. */
  class DeviceTempSensor {
    const deviceName: string
    var reachable: bool
    var productName: string
    const minValue: int16
    const maxValue: int16
    var measuredValue: int16

    constructor (name: string, min: int16, max: int16, measured: int16)
      ensures deviceName == name && minValue == min && maxValue == max && measuredValue == measured
      ensures !reachable && productName == ""
    {
      deviceName := name;
      minValue, maxValue, measuredValue := min, max, measured;
      reachable, productName := false, "";
    }

    method SetReachable(r: bool)
      modifies this`reachable
      ensures reachable == r
    {
      reachable := r;
    }

    method SetProductName(name: string)
      modifies this`productName
      ensures productName == name
    {
      productName := name;
    }

    /** The store is observed by the protocol stack, so it happens with the
        stack lock held. */
    method SetMeasuredValue(rt: Runtime, value: int16)
      requires rt.lockHeld
      modifies this`measuredValue, rt
      ensures measuredValue == Clamp(value, minValue, maxValue)
      ensures rt.log == old(rt.log) + [Event.SetMeasuredValue(this, value)]
      ensures rt.live == old(rt.live) && rt.table == old(rt.table) && rt.lockHeld
    {
      measuredValue := Clamp(value, minValue, maxValue);
      rt.StoreMeasuredValue(this, value);
    }
  }

  /** `EmberAfEndpointType`: the endpoint descriptor. */
  class EmberAfEndpointType {
    var cluster: seq<ClusterDecl>
    var clusterCount: nat
    var endpointSize: nat
  }

  /** The answers of the environment to the allocations `begin` makes and
      the endpoint table's answer to `AddDeviceEndpoint`. */
  datatype Outcomes = Outcomes(sensorAllocated: bool, endpointAllocated: bool,
                               versionsAllocated: bool, addResult: int)
  {
    predicate AllSucceed() {
      sensorAllocated && endpointAllocated && versionsAllocated && addResult >= 0
    }
  }

  /** The events `begin` logs once the device is allocated: the releases of
      each failed step, or the registration followed, if the endpoint table
      refused it, by the releases of all three blocks. */
  ghost function BeginTrace(env: Outcomes, sensor: object, endpoint: object?, versions: object?): seq<Event> {
    if !env.endpointAllocated || endpoint == null then
      [Release(sensor)]
    else if !env.versionsAllocated || versions == null then
      [Release(sensor), Release(endpoint)]
    else
      [AddDeviceEndpoint(TempRegistration(sensor, endpoint, versions))] +
      (if env.addResult < 0 then [Release(sensor), Release(endpoint), Release(versions)] else [])
  }

  /** The first step of `begin` once `new` has succeeded: the device with
      bounds [-4000, 10000] and value 0, made reachable and named. */
  method NewSensor(rt: Runtime) returns (s: DeviceTempSensor)
    requires rt.Valid()
    modifies rt
    ensures fresh(s) && rt.Valid() && !rt.Pinned(s)
    ensures rt.live == old(rt.live) + {s}
    ensures rt.table == old(rt.table) && rt.log == old(rt.log) && rt.lockHeld == old(rt.lockHeld)
    ensures s.deviceName == SensorName && s.productName == SensorName && s.reachable
    ensures s.minValue == TempMinValue && s.maxValue == TempMaxValue && s.measuredValue == 0
  {
    s := new DeviceTempSensor(SensorName, TempMinValue, TempMaxValue, 0);
    rt.Allocated(s);
    s.SetReachable(true);
    s.SetProductName(SensorName);
  }

  /** The last rollback of `begin`: delete the device, then free the
      descriptor and the data-version block. */
  method ReleaseAll(rt: Runtime, s: object, e: object, v: object)
    requires rt.Valid()
    requires s in rt.live && e in rt.live && v in rt.live
    requires !rt.Pinned(s) && !rt.Pinned(e) && !rt.Pinned(v)
    requires s != e && e != v && s != v
    modifies rt
    ensures rt.Valid()
    ensures rt.live == old(rt.live) - {s, e, v}
    ensures rt.log == old(rt.log) + [Release(s), Release(e), Release(v)]
    ensures rt.table == old(rt.table) && rt.lockHeld == old(rt.lockHeld)
  {
    rt.Release(s);
    rt.Release(e);
    rt.Release(v);
  }

  /** The part of `begin` after the device is allocated: allocate and fill
      the endpoint descriptor, allocate the data-version block, register the
      three; on any failure release everything, the device included. */
  method RegisterEndpoint(rt: Runtime, env: Outcomes, s: DeviceTempSensor)
    returns (ok: bool, e: EmberAfEndpointType?, v: array?<uint8>)
    requires rt.Valid() && s in rt.live && !rt.Pinned(s)
    modifies rt
    ensures rt.Valid() && rt.lockHeld == old(rt.lockHeld)
    ensures ok <==> env.endpointAllocated && env.versionsAllocated && env.addResult >= 0
    ensures e != null <==> env.endpointAllocated
    ensures v != null <==> env.endpointAllocated && env.versionsAllocated
    ensures e != null ==> fresh(e)
    ensures v != null ==> fresh(v)
    ensures rt.log == old(rt.log) + BeginTrace(env, s, e, v)
    ensures !ok ==> rt.live == old(rt.live) - {s} && rt.table == old(rt.table)
    ensures ok ==>
      && e != null && v != null
      && e.cluster == TempMeasurementEndpointClusters
      && e.clusterCount == |TempMeasurementEndpointClusters| && e.endpointSize == 0
      && v.Length == DataVersionBytes
      && rt.live == old(rt.live) + {e, v}
      && rt.table == old(rt.table)[s := TempRegistration(s, e, v)]
  {
    e, v := null, null;
    if !env.endpointAllocated {
      rt.Release(s);
      return false, e, v;
    }
    e := new EmberAfEndpointType;
    assert e !in rt.live;
    rt.Allocated(e);
    e.cluster := TempMeasurementEndpointClusters;
    e.clusterCount := |TempMeasurementEndpointClusters|;
    e.endpointSize := 0;

    var dataversionSize := |TempMeasurementEndpointClusters| * DataVersionSize;
    if !env.versionsAllocated {
      rt.Release(s);
      rt.Release(e);
      return false, e, v;
    }
    v := new uint8[dataversionSize];
    assert v !in rt.live;
    rt.Allocated(v);

    rt.AddDeviceEndpoint(Registration(s, e, v, dataversionSize, TempSensorDeviceTypes, ParentEndpointId),
                         env.addResult);
    if env.addResult < 0 {
      ReleaseAll(rt, s, e, v);
      return false, e, v;
    }
    return true, e, v;
  }

  // ---------------------------------------------------------------------
  // The endpoint lifecycle

  class MatterTemperature {
    var sensorDevice: DeviceTempSensor?
    var deviceEndpoint: EmberAfEndpointType?
    var endpointDataversionStorage: array?<uint8>
    var initialized: bool
    var baseMatterDevice: DeviceTempSensor?  // kept by the appliance base class

    /** Initialized, the instance owns three live blocks, registered
        together with the endpoint table, and the device's value lies within
        its bounds. Uninitialized, the pointers may dangle. */
    ghost predicate Valid(rt: Runtime)
      reads this, rt, sensorDevice, deviceEndpoint
    {
      && rt.Valid()
      && (initialized ==>
        && sensorDevice != null && deviceEndpoint != null && endpointDataversionStorage != null
        && baseMatterDevice == sensorDevice
        && sensorDevice.minValue == TempMinValue && sensorDevice.maxValue == TempMaxValue
        && TempMinValue <= sensorDevice.measuredValue <= TempMaxValue
        && deviceEndpoint.cluster == TempMeasurementEndpointClusters
        && deviceEndpoint.clusterCount == |TempMeasurementEndpointClusters|
        && deviceEndpoint.endpointSize == 0
        && endpointDataversionStorage.Length == DataVersionBytes
        && sensorDevice in rt.table
        && rt.table[sensorDevice] == TempRegistration(sensorDevice, deviceEndpoint, endpointDataversionStorage))
    }

    constructor ()
      ensures sensorDevice == null && deviceEndpoint == null && endpointDataversionStorage == null
      ensures baseMatterDevice == null && !initialized
    {
      sensorDevice, deviceEndpoint, endpointDataversionStorage := null, null, null;
      baseMatterDevice := null;
      initialized := false;
    }

    /** `begin()`. The ghost results name the blocks this call allocated
        (null where the allocation failed or was not reached). */
    method Begin(rt: Runtime, env: Outcomes)
      returns (ok: bool, ghost sensor: DeviceTempSensor?, ghost endpoint: EmberAfEndpointType?,
               ghost versions: array?<uint8>)
      requires Valid(rt)
      modifies this, rt
      ensures Valid(rt)
      // an initialized instance refuses and nothing changes
      ensures old(initialized) ==> !ok && unchanged(this) && unchanged(rt)
      // otherwise begin succeeds exactly when every step does
      ensures !old(initialized) ==> (ok <==> env.AllSucceed())
      ensures !old(initialized) ==>
        && (sensor != null <==> env.sensorAllocated)
        && (endpoint != null <==> env.sensorAllocated && env.endpointAllocated)
        && (versions != null <==> env.sensorAllocated && env.endpointAllocated && env.versionsAllocated)
      ensures sensor != null ==> fresh(sensor)
      ensures endpoint != null ==> fresh(endpoint)
      ensures versions != null ==> fresh(versions)
      ensures rt.lockHeld == old(rt.lockHeld)
      // each failure releases, in allocation order, what this call allocated
      ensures !old(initialized) && !env.sensorAllocated ==> rt.log == old(rt.log)
      ensures !old(initialized) && sensor != null ==>
        rt.log == old(rt.log) + BeginTrace(env, sensor, endpoint, versions)
      // failure: nothing stays allocated or registered, the instance keeps its fields,
      // except that the base-class device pointer is left at the released sensor
      ensures !ok ==> rt.live == old(rt.live) && rt.table == old(rt.table)
      ensures !ok && !old(initialized) ==>
        && !initialized
        && sensorDevice == old(sensorDevice) && deviceEndpoint == old(deviceEndpoint)
        && endpointDataversionStorage == old(endpointDataversionStorage)
        && baseMatterDevice == (if env.sensorAllocated then sensor else old(baseMatterDevice))
      // success: the instance records exactly the blocks it registered
      ensures ok ==>
        && initialized && sensor != null && endpoint != null && versions != null
        && sensorDevice == sensor && deviceEndpoint == endpoint && endpointDataversionStorage == versions
        && baseMatterDevice == sensor
        && rt.live == old(rt.live) + {sensor, endpoint, versions}
        && rt.table == old(rt.table)[sensor := TempRegistration(sensor, endpoint, versions)]
        && sensor.deviceName == SensorName && sensor.productName == SensorName && sensor.reachable
        && sensor.measuredValue == 0
    {
      sensor, endpoint, versions := null, null, null;
      if initialized {
        return false, sensor, endpoint, versions;
      }

      if !env.sensorAllocated {
        return false, sensor, endpoint, versions;
      }
      var s := NewSensor(rt);
      sensor := s;
      baseMatterDevice := s;

      var e, v;
      ok, e, v := RegisterEndpoint(rt, env, s);
      endpoint, versions := e, v;
      if !ok {
        return;
      }

      sensorDevice := s;
      deviceEndpoint := e;
      endpointDataversionStorage := v;
      initialized := true;
    }

    /** `end()`: deregister, then release the descriptor, the data-version
        block and the device. The pointers are left as they were. */
    method End(rt: Runtime)
      requires Valid(rt)
      modifies this`initialized, rt
      ensures Valid(rt) && !initialized
      ensures !old(initialized) ==> unchanged(rt)
      ensures old(initialized) ==>
        && rt.log == old(rt.log) + [RemoveDeviceEndpoint(old(sensorDevice)), Release(old(deviceEndpoint)),
                                    Release(old(endpointDataversionStorage)), Release(old(sensorDevice))]
        && rt.live == old(rt.live) - {old(sensorDevice), old(deviceEndpoint), old(endpointDataversionStorage)}
        && rt.table == old(rt.table) - {old(sensorDevice)}
        && rt.lockHeld == old(rt.lockHeld)
    {
      if !initialized {
        return;
      }
      rt.RemoveDeviceEndpoint(sensorDevice);
      rt.Release(deviceEndpoint);
      rt.Release(endpointDataversionStorage);
      rt.Release(sensorDevice);
      initialized := false;
    }

    /** The destructor: exactly `end()`. */
    method Destroy(rt: Runtime)
      requires Valid(rt)
      modifies this`initialized, rt
      ensures Valid(rt) && !initialized
      ensures !old(initialized) ==> unchanged(rt)
      ensures old(initialized) ==>
        && rt.log == old(rt.log) + [RemoveDeviceEndpoint(old(sensorDevice)), Release(old(deviceEndpoint)),
                                    Release(old(endpointDataversionStorage)), Release(old(sensorDevice))]
        && rt.live == old(rt.live) - {old(sensorDevice), old(deviceEndpoint), old(endpointDataversionStorage)}
        && rt.table == old(rt.table) - {old(sensorDevice)}
        && rt.lockHeld == old(rt.lockHeld)
    {
      End(rt);
    }

    /** `set_measured_value_raw`: nothing when uninitialized; otherwise the
        store happens under the stack lock, which is released again. */
    method SetMeasuredValueRaw(rt: Runtime, value: int16)
      requires Valid(rt) && (initialized ==> !rt.lockHeld)
      modifies rt, sensorDevice
      ensures Valid(rt) && rt.lockHeld == old(rt.lockHeld)
      ensures sensorDevice != null ==>
        sensorDevice.reachable == old(sensorDevice.reachable) && sensorDevice.productName == old(sensorDevice.productName)
      ensures rt.live == old(rt.live) && rt.table == old(rt.table)
      ensures !initialized ==> unchanged(rt) && (sensorDevice != null ==> unchanged(sensorDevice))
      ensures initialized ==>
        && rt.log == old(rt.log) + [LockChipStack, SetMeasuredValue(sensorDevice, value), UnlockChipStack]
        && GetMeasuredValueRaw(rt) == Clamp(value, TempMinValue, TempMaxValue)
    {
      if !initialized {
        return;
      }
      rt.LockChipStack();
      sensorDevice.SetMeasuredValue(rt, value);
      rt.UnlockChipStack();
    }

    /** `get_measured_value_raw`: dereferences the device unchecked, so it
        needs an initialized instance; the value is within the bounds. */
    function GetMeasuredValueRaw(rt: Runtime): (r: int16)
      reads this, rt, sensorDevice, deviceEndpoint
      requires Valid(rt) && initialized
      ensures TempMinValue <= r <= TempMaxValue
    {
      sensorDevice.measuredValue
    }
  }

  /** The lifecycle as a caller sees it, from the contracts alone. */
  method LifecycleScenario()
  {
    var rt := new Runtime();
    var t := new MatterTemperature();

    // The data-version allocation fails: the device and the descriptor are
    // released, nothing is registered, and the base-class pointer dangles.
    var ok, s1, e1, v1 := t.Begin(rt, Outcomes(true, true, false, 0));
    assert !ok && !t.initialized && rt.live == {} && rt.table == map[];
    assert rt.log == [Release(s1), Release(e1)];
    assert t.baseMatterDevice == s1 && s1 !in rt.live;

    // The next begin succeeds as if the first had not happened.
    ghost var s2, e2, v2;
    ok, s2, e2, v2 := t.Begin(rt, Outcomes(true, true, true, 0));
    assert ok && t.initialized && rt.table.Keys == {s2} && rt.live == {s2, e2, v2};

    // A second begin is refused and leaves the registration alone.
    ok, s1, e1, v1 := t.Begin(rt, Outcomes(true, true, true, 0));
    assert !ok && t.initialized && rt.table.Keys == {s2};

    // 120.00 degrees is stored as the maximum, 100.00 degrees; the device
    // stays reachable and named.
    t.SetMeasuredValueRaw(rt, 12000);
    assert t.GetMeasuredValueRaw(rt) == 10000;
    assert s2.reachable && s2.productName == SensorName;

    // end deregisters and releases everything; a second end does nothing.
    t.End(rt);
    assert rt.live == {} && rt.table == map[];
    ghost var logAfterEnd := rt.log;
    t.End(rt);
    assert rt.log == logAfterEnd;
  }
}
