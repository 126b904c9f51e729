/** DeviceHumiditySensor: a relative-humidity sensor exposed as a bridged
    Matter device. Its state is a bounded measured value (hundredths of a
    percent) with fixed bounds; it answers attribute reads from the protocol
    stack and schedules a report when the measured value changes.

    The pure part is a specification on `SensorState` values; the class
    below keeps the same state in fields and its methods are proved to
    follow that specification. */
module HumiditySensor {
  import opened MatterTypes
  import opened Bytes

  /** `kChanged_MeasurementValue`, the change-mask bit of the measured value. */
  const ChangedMeasurementValue: bv32 := 0x08

  /** Cluster metadata reported for the humidity measurement cluster. */
  const HumidityFeatureMap: uint32 := 0
  const HumidityClusterRevision: uint16 := 1

  datatype Option<T> = None | Some(value: T)

  /** `EMBER_ZCL_STATUS_SUCCESS` and `EMBER_ZCL_STATUS_FAILURE`. */
  datatype Status = Success | Failure

  /** A report queued with the reporting engine. */
  datatype Report = Report(endpointId: EndpointId, clusterId: ClusterId, attributeId: AttributeId)

  /** The status of a read and the bytes it placed at the start of the
      caller's buffer. */
  datatype ReadOutcome = ReadOutcome(status: Status, written: seq<uint8>)

  /** The shared handler for the Bridged Device Basic Information cluster,
      which belongs to the device base class: given the cluster, the
      attribute and the buffer length it decides the outcome. */
  type BasicReadHandler = (ClusterId, AttributeId, uint16) -> ReadOutcome

  /** The part of a device the read handler and the setter look at. */
  datatype SensorState = SensorState(
    reachable: bool,
    endpointId: EndpointId,
    minValue: uint16,
    maxValue: uint16,
    measuredValue: uint16)

  /** The effect of a set: the new state and the reports it queued. */
  datatype SetOutcome = SetOutcome(state: SensorState, reports: seq<Report>)

  // ---------------------------------------------------------------------
  // Change notification

  /** The reports queued for a change mask: one MeasuredValue report of this
      endpoint when the measured-value bit is set, none otherwise. */
  function StatusChangedReports(endpointId: EndpointId, mask: bv32): (r: seq<Report>)
    ensures r == [] || r == [Report(endpointId, RelativeHumidityMeasurementId, MeasuredValueId)]
    ensures r != [] <==> mask & ChangedMeasurementValue != 0
  {
    if mask & ChangedMeasurementValue != 0 then
      [Report(endpointId, RelativeHumidityMeasurementId, MeasuredValueId)]
    else
      []
  }

  // ---------------------------------------------------------------------
  // Bounded value store

  /** `SetMeasuredValue(m)` on a device in state `s`. */
  function SetMeasured(s: SensorState, m: uint16): (r: SetOutcome)
    ensures r.state == s.(measuredValue := r.state.measuredValue)
    ensures r.reports == [] || r.reports == [Report(s.endpointId, RelativeHumidityMeasurementId, MeasuredValueId)]
  {
    var v := Clamp(m, s.minValue, s.maxValue);
    var changed := s.measuredValue != v;
    SetOutcome(s.(measuredValue := v),
               if changed then StatusChangedReports(s.endpointId, ChangedMeasurementValue) else [])
  }

  /** The stored value is the input clamped into [minValue, maxValue]:
      below the minimum it becomes the minimum, above the maximum the
      maximum, otherwise it is kept; nothing else in the state changes. */
  lemma SetMeasuredClamps(s: SensorState, m: uint16)
    ensures var t := SetMeasured(s, m).state;
      && t == s.(measuredValue := t.measuredValue)
      && (m < s.minValue ==> t.measuredValue == s.minValue)
      && (s.minValue <= m <= s.maxValue ==> t.measuredValue == m)
      && (s.minValue <= m && s.maxValue < m ==> t.measuredValue == s.maxValue)
      && (s.minValue <= s.maxValue ==> s.minValue <= t.measuredValue <= s.maxValue)
  {
  }

  /** A set queues exactly one MeasuredValue report of the device's endpoint
      when the stored value changed, and none when it did not. */
  lemma SetReportsIffChanged(s: SensorState, m: uint16)
    ensures var out := SetMeasured(s, m);
      && (out.reports != [] <==> out.state.measuredValue != s.measuredValue)
      && (out.reports != [] ==> out.reports == [Report(s.endpointId, RelativeHumidityMeasurementId, MeasuredValueId)])
  {
  }

  /** Setting the value just read is silent and changes nothing, whenever the
      stored value is within the bounds. */
  lemma SetOfGetIsSilent(s: SensorState)
    requires s.minValue <= s.measuredValue <= s.maxValue
    ensures SetMeasured(s, s.measuredValue) == SetOutcome(s, [])
  {
  }

  /** Repeating a set is silent and leaves the state as the first set did. */
  lemma SetTwiceIsSilent(s: SensorState, m: uint16)
    ensures var once := SetMeasured(s, m);
      SetMeasured(once.state, m) == SetOutcome(once.state, [])
  {
  }

  // ---------------------------------------------------------------------
  // Attribute dispatch

  /** `HandleReadEmberAfAttribute` on a device in state `s`. */
  function ReadAttribute(s: SensorState, basic: BasicReadHandler, clusterId: ClusterId,
                         attributeId: AttributeId, maxReadLength: uint16): (r: ReadOutcome)
    ensures !s.reachable ==> r == ReadOutcome(Failure, [])
    ensures s.reachable && clusterId == BridgedDeviceBasicInformationId ==>
      r == basic(clusterId, attributeId, maxReadLength)
    ensures clusterId != BridgedDeviceBasicInformationId ==>
      (r.status == Failure ==> r.written == []) &&
      (r.status == Success ==> clusterId == RelativeHumidityMeasurementId && |r.written| == maxReadLength)
  {
    if !s.reachable then
      ReadOutcome(Failure, [])
    else if clusterId == BridgedDeviceBasicInformationId then
      basic(clusterId, attributeId, maxReadLength)
    else if clusterId != RelativeHumidityMeasurementId then
      ReadOutcome(Failure, [])
    else if attributeId == MeasuredValueId && maxReadLength == 2 then
      ReadOutcome(Success, EncodeLE(s.measuredValue, 2))
    else if attributeId == MinMeasuredValueId && maxReadLength == 2 then
      ReadOutcome(Success, EncodeLE(s.minValue, 2))
    else if attributeId == MaxMeasuredValueId && maxReadLength == 2 then
      ReadOutcome(Success, EncodeLE(s.maxValue, 2))
    else if attributeId == FeatureMapId && maxReadLength == 4 then
      ReadOutcome(Success, EncodeLE(HumidityFeatureMap, 4))
    else if attributeId == ClusterRevisionId && maxReadLength == 2 then
      ReadOutcome(Success, EncodeLE(HumidityClusterRevision, 2))
    else
      ReadOutcome(Failure, [])
  }

  /** The attributes of the humidity measurement cluster this device serves. */
  datatype HumidityAttribute = MeasuredValue | MinMeasuredValue | MaxMeasuredValue | FeatureMap | ClusterRevision

  /** The attribute an identifier names, if any. */
  function AttributeOf(id: AttributeId): (a: Option<HumidityAttribute>)
    ensures a.Some? ==> IdOf(a.value) == id
  {
    if id == MeasuredValueId then Some(MeasuredValue)
    else if id == MinMeasuredValueId then Some(MinMeasuredValue)
    else if id == MaxMeasuredValueId then Some(MaxMeasuredValue)
    else if id == FeatureMapId then Some(FeatureMap)
    else if id == ClusterRevisionId then Some(ClusterRevision)
    else None
  }

  function IdOf(a: HumidityAttribute): AttributeId {
    match a
    case MeasuredValue => MeasuredValueId
    case MinMeasuredValue => MinMeasuredValueId
    case MaxMeasuredValue => MaxMeasuredValueId
    case FeatureMap => FeatureMapId
    case ClusterRevision => ClusterRevisionId
  }

  /** The width of each attribute's encoding: 16-bit values, a 32-bit
      feature map. */
  function Width(a: HumidityAttribute): nat {
    if a == FeatureMap then 4 else 2
  }

  /** The value each attribute reports in state `s`. */
  function ValueOf(s: SensorState, a: HumidityAttribute): nat {
    match a
    case MeasuredValue => s.measuredValue
    case MinMeasuredValue => s.minValue
    case MaxMeasuredValue => s.maxValue
    case FeatureMap => HumidityFeatureMap
    case ClusterRevision => HumidityClusterRevision
  }

  /** On a reachable device, a read of the humidity cluster succeeds exactly
      when the attribute is one of the five and the buffer length equals its
      width; a successful read fills the whole buffer with the attribute's
      value in the target's little-endian layout. */
  lemma ReadHumidityCluster(s: SensorState, basic: BasicReadHandler,
                             attributeId: AttributeId, maxReadLength: uint16)
    requires s.reachable
    ensures var r := ReadAttribute(s, basic, RelativeHumidityMeasurementId, attributeId, maxReadLength);
      && (r.status == Success <==>
            AttributeOf(attributeId).Some? && maxReadLength == Width(AttributeOf(attributeId).value))
      && (r.status == Success ==>
            |r.written| == maxReadLength &&
            DecodeLE(r.written) == ValueOf(s, AttributeOf(attributeId).value))
  {
    var a := AttributeOf(attributeId);
    if a.Some? && maxReadLength == Width(a.value) {
      Pow256Widths();
      DecodeEncode(ValueOf(s, a.value), Width(a.value));
    }
  }

  /** A read with a buffer length other than the attribute's width fails,
      for every attribute and for both shorter and longer buffers. */
  lemma LengthMismatchFails(s: SensorState, basic: BasicReadHandler, a: HumidityAttribute, maxReadLength: uint16)
    requires maxReadLength != Width(a)
    ensures ReadAttribute(s, basic, RelativeHumidityMeasurementId, IdOf(a), maxReadLength) == ReadOutcome(Failure, [])
  {
  }

  // ---------------------------------------------------------------------
  // The device object

  class DeviceHumiditySensor {
    const deviceName: string
    var reachable: bool            // kept by the Device base class
    var endpointId: EndpointId     // assigned by the endpoint table
    const minValue: uint16
    const maxValue: uint16
    var measuredValue: uint16
    ghost var reports: seq<Report> // calls to ScheduleMatterReportingCallback

    /** The bounds and the initial value are stored as given; the initial
        value is not clamped. */
    constructor (name: string, min: uint16, max: uint16, measured: uint16)
      ensures deviceName == name && minValue == min && maxValue == max && measuredValue == measured
      ensures !reachable && reports == []
    {
      deviceName := name;
      minValue, maxValue, measuredValue := min, max, measured;
      reachable, endpointId := false, 0;
      reports := [];
    }

    function State(): SensorState
      reads this
    {
      SensorState(reachable, endpointId, minValue, maxValue, measuredValue)
    }

    /** The value the MeasuredValue attribute serves. */
    function GetMeasuredValue(): (r: uint16)
      reads this
      ensures r == ValueOf(State(), MeasuredValue)
    {
      measuredValue
    }

    /** The value the FeatureMap attribute serves. */
    function GetHumiditySensorClusterFeatureMap(): (r: uint32)
      reads this
      ensures r == ValueOf(State(), FeatureMap)
    {
      HumidityFeatureMap
    }

    /** The value the ClusterRevision attribute serves. */
    function GetHumiditySensorClusterRevision(): (r: uint16)
      reads this
      ensures r == ValueOf(State(), ClusterRevision)
    {
      HumidityClusterRevision
    }

    /** Clamp, store, and queue a report if the stored value changed. */
    method SetMeasuredValue(measurement: uint16)
      modifies this`measuredValue, this`reports
      ensures State() == SetMeasured(old(State()), measurement).state
      ensures reports == old(reports) + SetMeasured(old(State()), measurement).reports
    {
      var m := measurement;
      if m < minValue {
        m := minValue;
      } else if m > maxValue {
        m := maxValue;
      }
      var changed := measuredValue != m;
      measuredValue := m;
      if changed {
        HandleHumiditySensorDeviceStatusChanged(ChangedMeasurementValue);
      }
    }

    /** Answer a read from the protocol stack into `buffer`; the device
        itself is left as it was. */
    method HandleReadEmberAfAttribute(clusterId: ClusterId, attributeId: AttributeId, buffer: array<uint8>,
                                      maxReadLength: uint16, basic: BasicReadHandler) returns (status: Status)
      requires maxReadLength <= buffer.Length
      requires clusterId == BridgedDeviceBasicInformationId ==>
        |basic(clusterId, attributeId, maxReadLength).written| <= maxReadLength
      modifies buffer
      ensures unchanged(this)
      ensures var r := ReadAttribute(State(), basic, clusterId, attributeId, maxReadLength);
        status == r.status && buffer[..] == r.written + old(buffer[..])[|r.written|..]
    {
      if !reachable {
        return Failure;
      }
      if clusterId == BridgedDeviceBasicInformationId {
        var r := basic(clusterId, attributeId, maxReadLength);
        Memcpy(buffer, r.written);
        return r.status;
      }
      if clusterId != RelativeHumidityMeasurementId {
        return Failure;
      }
      if attributeId == MeasuredValueId && maxReadLength == 2 {
        Memcpy(buffer, EncodeLE(GetMeasuredValue(), 2));
      } else if attributeId == MinMeasuredValueId && maxReadLength == 2 {
        Memcpy(buffer, EncodeLE(minValue, 2));
      } else if attributeId == MaxMeasuredValueId && maxReadLength == 2 {
        Memcpy(buffer, EncodeLE(maxValue, 2));
      } else if attributeId == FeatureMapId && maxReadLength == 4 {
        Memcpy(buffer, EncodeLE(GetHumiditySensorClusterFeatureMap(), 4));
      } else if attributeId == ClusterRevisionId && maxReadLength == 2 {
        Memcpy(buffer, EncodeLE(GetHumiditySensorClusterRevision(), 2));
      } else {
        return Failure;
      }
      return Success;
    }

    /** Queue the reports a change mask calls for. */
    method HandleHumiditySensorDeviceStatusChanged(itemChangedMask: bv32)
      modifies this`reports
      ensures reports == old(reports) + StatusChangedReports(endpointId, itemChangedMask)
    {
      if itemChangedMask & ChangedMeasurementValue != 0 {
        reports := reports + [Report(endpointId, RelativeHumidityMeasurementId, MeasuredValueId)];
      }
    }
  }

  /** On a reachable device, a read of the measured value, the feature map or
      the cluster revision with the attribute's width succeeds, and its bytes
      decode to what the matching getter returns. */
  lemma ReadsAgreeWithGetters(d: DeviceHumiditySensor, basic: BasicReadHandler)
    requires d.reachable
    ensures var r := ReadAttribute(d.State(), basic, RelativeHumidityMeasurementId, MeasuredValueId, 2);
      r.status == Success && DecodeLE(r.written) == d.GetMeasuredValue()
    ensures var r := ReadAttribute(d.State(), basic, RelativeHumidityMeasurementId, FeatureMapId, 4);
      r.status == Success && DecodeLE(r.written) == d.GetHumiditySensorClusterFeatureMap()
    ensures var r := ReadAttribute(d.State(), basic, RelativeHumidityMeasurementId, ClusterRevisionId, 2);
      r.status == Success && DecodeLE(r.written) == d.GetHumiditySensorClusterRevision()
  {
    ReadHumidityCluster(d.State(), basic, MeasuredValueId, 2);
    ReadHumidityCluster(d.State(), basic, FeatureMapId, 4);
    ReadHumidityCluster(d.State(), basic, ClusterRevisionId, 2);
  }

  /** A caller's view, from the contracts alone: a value above the maximum
      is stored as the maximum and reported once, setting the value just
      read is silent, a read of an unreachable device fails, a four-byte
      attribute read with a two-byte buffer fails, and a two-byte read of
      the measured value yields its little-endian bytes. */
  method HumidityScenario(basic: BasicReadHandler)
  {
    var d := new DeviceHumiditySensor("Humidity sensor", 0, 10000, 5000);
    d.SetMeasuredValue(15000);
    assert d.GetMeasuredValue() == 10000;
    assert d.reports == [Report(d.endpointId, RelativeHumidityMeasurementId, MeasuredValueId)];
    d.SetMeasuredValue(d.GetMeasuredValue());
    assert |d.reports| == 1;

    var buffer := new uint8[4];
    var status := d.HandleReadEmberAfAttribute(RelativeHumidityMeasurementId, MeasuredValueId, buffer, 2, basic);
    assert status == Failure;           // not reachable yet

    d.reachable := true;                // what the device base class's SetReachable does
    status := d.HandleReadEmberAfAttribute(RelativeHumidityMeasurementId, FeatureMapId, buffer, 2, basic);
    assert status == Failure;           // the feature map is four bytes wide
    status := d.HandleReadEmberAfAttribute(RelativeHumidityMeasurementId, MeasuredValueId, buffer, 2, basic);
    assert status == Success && buffer[..2] == [0x10, 0x27];  // 10000 == 0x2710
  }
}
