# Bridged Matter sensors: endpoint lifecycle and attribute access

This project is a Dafny model of the layer of the Silicon Labs Arduino core that exposes a physical sensor as a dynamic Matter endpoint. It covers two classes:

- `MatterTemperature` is the application-facing handle of a temperature sensor. `begin()` allocates three blocks: the device object, the endpoint descriptor (`EmberAfEndpointType`) and the data-version block. It then registers them with the endpoint table. If any step fails, it releases what it allocated. `end()` and the destructor deregister and then release. `set_measured_value_raw` stores a raw value (hundredths of a degree Celsius) while holding the stack lock.
- `DeviceHumiditySensor` is a bridged device. It stores each new measured value (hundredths of a percent) clamped into fixed bounds; the initial value is stored as given. It answers attribute reads from the protocol stack: cluster id, attribute id and buffer length give either success with the value's bytes in the buffer, or failure. It queues a report with the reporting engine when the measured value changes.

## Modules

- `MatterTypes` (matter_types.dfy) holds the integer widths, the Matter cluster and attribute ids, and the clamping rule.
- `Bytes` (bytes.dfy) holds the native little-endian layout that `memcpy` of an integer produces, with both round trips proved, and `memcpy` itself.
- `Platform` (platform.dfy) models the collaborators the two classes call but whose code is not modelled. This is the `Runtime` class:
  - a ghost heap: the set of live blocks;
  - the endpoint table: a map from each registered device to its blocks;
  - the global stack lock;
  - a ghost event log that records, in order, every lock, unlock, registration, deregistration, free, delete and measured-value store.

  `Release` (`free` or `delete`) requires a block that is live and that no registration refers to. So double frees, and frees before deregistration, fail verification.
- `HumiditySensor` (humidity.dfy) holds:
  - the pure specification of the setter, the read dispatcher and the change-mask scheduler, as functions on a `SensorState` value;
  - the class `DeviceHumiditySensor`, whose methods are proved to follow that specification.

  `ScheduleMatterReportingCallback` appends to the ghost `reports` sequence. The output buffer is an `array<uint8>`.
- `Temperature` (temperature.dfy) holds:
  - the static cluster and attribute tables;
  - the device object `MatterTemperature` allocates;
  - the class `MatterTemperature`, whose `Begin`, `End`, `Destroy` and `SetMeasuredValueRaw` state their whole effect on the instance, the heap, the endpoint table, the lock and the event log.

The outcome of each allocation and the endpoint table's answer to `AddDeviceEndpoint` come from the environment, as the `Outcomes` argument of `Begin`. Two caller-side methods use only the contracts:
- `LifecycleScenario`: a `begin` whose data-version allocation fails rolls back; a second `begin` succeeds; a third is refused; a raw value of 12000 is stored as 10000; `end` releases everything, and a second `end` does nothing.
- `HumiditySensor`'s `HumidityScenario`: a value above the maximum is stored as the maximum and reported once; setting the value just read is silent; a read of an unreachable device fails; a four-byte attribute read with a two-byte buffer fails; a two-byte read of the measured value yields its little-endian bytes.

Two source behaviours are modelled as written and stated as proved facts:

- After a failed `begin` that got past the device allocation, `base_matter_device` still points at the deleted device (libraries/Matter/src/MatterTemperature.cpp:92). `Begin`'s postcondition and `LifecycleScenario` show it.
- The data-version `Span` is given `dataversion_size`, the block's size in bytes (12), as its element count. The block holds three data versions (libraries/Matter/src/MatterTemperature.cpp:105, 117). `TempRegistration` records the count that is passed and proves it exceeds the cluster count.

On rollback, `begin` deletes the device, then frees the descriptor, then the data-version block (libraries/Matter/src/MatterTemperature.cpp:108-110, 119-121). This is allocation order, not reverse allocation order, and `ReleaseAll` and `Begin`'s logged trace record it.

## Model

| member | source | states |
|---|---|---|
| MatterTypes.Clamp | libraries/Matter/src/devices/DeviceHumiditySensor.cpp:46-52 | with min <= max the result lies in [min, max]; an in-range input is kept; the result is always the input, min or max |
| MatterTypes.ClampIsNearest | libraries/Matter/src/devices/DeviceHumiditySensor.cpp:46-52 | within a non-empty range the clamped value is the in-range value nearest the input |
| MatterTypes.ClampIdempotent | libraries/Matter/src/devices/DeviceHumiditySensor.cpp:46-52 | clamping twice is clamping once |
| Bytes.EncodeLE | libraries/Matter/src/devices/DeviceHumiditySensor.cpp:95-107 | the native layout of an n-byte integer is exactly n bytes |
| Bytes.DecodeEncode | libraries/Matter/src/devices/DeviceHumiditySensor.cpp:95-107 | every value below 256^n is recovered from its n bytes |
| Bytes.EncodeDecode | libraries/Matter/src/devices/DeviceHumiditySensor.cpp:95-107 | every byte sequence is the encoding of the value it decodes to, so encoding is a bijection onto n-byte sequences |
| Bytes.DecodeBound | libraries/Matter/src/devices/DeviceHumiditySensor.cpp:95-107 | n bytes decode to a value below 256^n |
| Bytes.EncodeInjective | libraries/Matter/src/devices/DeviceHumiditySensor.cpp:95-107 | distinct field values give distinct buffer contents |
| Bytes.Memcpy | libraries/Matter/src/devices/DeviceHumiditySensor.cpp:95 | the first bytes of the buffer become the source bytes and the rest are untouched |
| Platform.Runtime.Allocated | libraries/Matter/src/MatterTemperature.cpp:84-106 | a successful `new` or `malloc` adds the block to the live set and changes nothing else |
| Platform.Runtime.Release | libraries/Matter/src/MatterTemperature.cpp:97-121 | `free`/`delete` is only allowed on a live block that no registration refers to; it removes the block and logs the release |
| Platform.Runtime.AddDeviceEndpoint | libraries/Matter/src/MatterTemperature.cpp:114-118 | the call is logged; the device is registered with its blocks exactly when the table's result is non-negative; the blocks must be live and unregistered |
| Platform.Runtime.RemoveDeviceEndpoint | libraries/Matter/src/MatterTemperature.cpp:140 | the device leaves the endpoint table and the call is logged |
| Platform.Runtime.StoreMeasuredValue | libraries/Matter/src/MatterTemperature.cpp:159 | records a device's store of a measured value; it needs the stack lock held, logs the store and changes nothing else |
| Platform.Runtime.LockChipStack | libraries/Matter/src/MatterTemperature.cpp:158 | the lock must be free (not re-entrant); afterwards it is held and the call is logged |
| Platform.Runtime.UnlockChipStack | libraries/Matter/src/MatterTemperature.cpp:160 | the lock must be held; afterwards it is free and the call is logged |
| HumiditySensor.StatusChangedReports | libraries/Matter/src/devices/DeviceHumiditySensor.cpp:115-122 | a mask yields one MeasuredValue report of the device's endpoint exactly when the measured-value bit is set, otherwise none |
| HumiditySensor.SetMeasured | libraries/Matter/src/devices/DeviceHumiditySensor.cpp:46-61 | a set changes only the measured value and queues either nothing or the single MeasuredValue report of the device's endpoint |
| HumiditySensor.SetMeasuredClamps | libraries/Matter/src/devices/DeviceHumiditySensor.cpp:46-56 | after a set, below-min input is stored as min, in-range input as itself, above-max input as max; with min <= max the stored value is within the bounds; no other field changes |
| HumiditySensor.SetReportsIffChanged | libraries/Matter/src/devices/DeviceHumiditySensor.cpp:54-60 | a set queues exactly one MeasuredValue report iff the stored value changed, none otherwise |
| HumiditySensor.SetOfGetIsSilent | libraries/Matter/src/devices/DeviceHumiditySensor.cpp:41-60 | setting the value just read changes nothing and queues nothing when it is within the bounds |
| HumiditySensor.SetTwiceIsSilent | libraries/Matter/src/devices/DeviceHumiditySensor.cpp:46-60 | repeating a set changes nothing and queues nothing |
| HumiditySensor.ReadAttribute | libraries/Matter/src/devices/DeviceHumiditySensor.cpp:73-113 | an unreachable device fails every read and writes nothing; a reachable device delegates the bridged-basic cluster unchanged; other failures write nothing; a success on another cluster is on the humidity cluster and fills exactly the requested length |
| HumiditySensor.AttributeOf | libraries/Matter/src/devices/DeviceHumiditySensor.cpp:93-107 | the attribute table: an id names an attribute only if it is that attribute's id |
| HumiditySensor.ReadHumidityCluster | libraries/Matter/src/devices/DeviceHumiditySensor.cpp:89-112 | on a reachable device a humidity-cluster read succeeds iff the attribute is known and the length equals its width (2, or 4 for the feature map); on success the bytes decode to the field's value |
| HumiditySensor.LengthMismatchFails | libraries/Matter/src/devices/DeviceHumiditySensor.cpp:93-110 | a shorter or longer buffer than the attribute's width fails and writes nothing, for every attribute |
| HumiditySensor.DeviceHumiditySensor.GetMeasuredValue | libraries/Matter/src/devices/DeviceHumiditySensor.cpp:41-44 | returns the value the MeasuredValue attribute serves |
| HumiditySensor.DeviceHumiditySensor.GetHumiditySensorClusterFeatureMap | libraries/Matter/src/devices/DeviceHumiditySensor.cpp:63-66 | returns the value the FeatureMap attribute serves |
| HumiditySensor.DeviceHumiditySensor.GetHumiditySensorClusterRevision | libraries/Matter/src/devices/DeviceHumiditySensor.cpp:68-71 | returns the value the ClusterRevision attribute serves |
| HumiditySensor.ReadsAgreeWithGetters | libraries/Matter/src/devices/DeviceHumiditySensor.cpp:93-107 | on a reachable device, reads of the measured value, the feature map and the revision at their widths succeed and decode to what the getters return |
| HumiditySensor.DeviceHumiditySensor.constructor | libraries/Matter/src/devices/DeviceHumiditySensor.cpp:29-39 | bounds and initial value are stored as given (unclamped) and no report is queued |
| HumiditySensor.DeviceHumiditySensor.SetMeasuredValue | libraries/Matter/src/devices/DeviceHumiditySensor.cpp:46-61 | the new state and the queued reports are those of `SetMeasured` on the old state |
| HumiditySensor.DeviceHumiditySensor.HandleReadEmberAfAttribute | libraries/Matter/src/devices/DeviceHumiditySensor.cpp:73-113 | the status is `ReadAttribute`'s; the buffer holds its bytes followed by the old contents; the device itself is unchanged |
| HumiditySensor.DeviceHumiditySensor.HandleHumiditySensorDeviceStatusChanged | libraries/Matter/src/devices/DeviceHumiditySensor.cpp:115-122 | appends exactly the reports `StatusChangedReports` gives for the mask |
| Temperature.StaticTables | libraries/Matter/src/MatterTemperature.cpp:46-50 | three distinct clusters; the data-version block holds exactly one data version per cluster |
| Temperature.TempRegistration | libraries/Matter/src/MatterTemperature.cpp:105-117 | the registration covers the device, descriptor and block, and its element count is the block's byte size, larger than the cluster count |
| Temperature.DeviceTempSensor.constructor | libraries/Matter/src/MatterTemperature.cpp:84 | the device holds the given name, bounds and value and starts unreachable with no product name |
| Temperature.DeviceTempSensor.SetReachable | libraries/Matter/src/MatterTemperature.cpp:88 | the reachability flag becomes the argument |
| Temperature.DeviceTempSensor.SetProductName | libraries/Matter/src/MatterTemperature.cpp:89 | the product name becomes the argument |
| Temperature.DeviceTempSensor.SetMeasuredValue | libraries/Matter/src/MatterTemperature.cpp:159 | the stored value is the argument clamped into the device's bounds; the store requires the stack lock held and is logged, and the lock stays held |
| Temperature.NewSensor | libraries/Matter/src/MatterTemperature.cpp:84-89 | the device is fresh, live, unregistered, reachable, named, with bounds [-4000, 10000] and value 0 |
| Temperature.ReleaseAll | libraries/Matter/src/MatterTemperature.cpp:118-123 | the last rollback deletes the device and frees the descriptor and block, in that order |
| Temperature.RegisterEndpoint | libraries/Matter/src/MatterTemperature.cpp:94-123 | succeeds iff both allocations and the registration do; on failure every block of the call, the device included, is released and the table is unchanged; on success the descriptor lists the three clusters and the device is registered with exactly these blocks |
| Temperature.MatterTemperature.constructor | libraries/Matter/src/MatterTemperature.cpp:55-62 | the device, descriptor and data-version pointers are null and the instance is not initialized; `base_matter_device` is also taken to start null (see Left out) |
| Temperature.MatterTemperature.Begin | libraries/Matter/src/MatterTemperature.cpp:77-130 | on an initialized instance returns false and changes nothing; otherwise succeeds iff every step does; a failure leaves no block allocated or registered and the fields as they were, except `base_matter_device` left at the released device; a success records exactly the blocks it registered; the logged events are the exact sequence of calls |
| Temperature.MatterTemperature.End | libraries/Matter/src/MatterTemperature.cpp:135-145 | on an uninitialized instance nothing happens; otherwise deregistration is logged before the frees and the delete, the three blocks leave the heap and the table, and the instance becomes uninitialized |
| Temperature.MatterTemperature.Destroy | libraries/Matter/src/MatterTemperature.cpp:67-70 | the same effect as `End` |
| Temperature.MatterTemperature.SetMeasuredValueRaw | libraries/Matter/src/MatterTemperature.cpp:153-161 | uninitialized: nothing changes, whatever the lock's state; initialized: the lock must be free, exactly lock, store, unlock are logged (the store itself needs the lock), the lock is free on return, the stored value is the input clamped into [-4000, 10000], and the device's reachability and product name are unchanged |
| Temperature.MatterTemperature.GetMeasuredValueRaw | libraries/Matter/src/MatterTemperature.cpp:191-194 | needs an initialized instance and has no side effect; the value is within [-4000, 10000] |

## Left out

- The floating-point Celsius setters, getters and conversion operators (libraries/Matter/src/MatterTemperature.cpp:168-183, 201-225, 242-255) are left out: they are floating point with a truncating cast.
- `operator=(int16_t)` (libraries/Matter/src/MatterTemperature.cpp:232-235) only forwards to `set_measured_value_raw`, which is modelled.
- The stack lock is a ghost flag and log entries. Thread interleaving is not modelled. On an initialized instance `SetMeasuredValueRaw` requires the lock to be free, because the lock is not re-entrant.
- The bodies of `AddDeviceEndpoint`, `RemoveDeviceEndpoint`, `ScheduleMatterReportingCallback`, `HandleReadBridgedDeviceBasicAttribute` and `ChipLogProgress` are not part of this model. `Platform.Runtime` states only their effect on the endpoint table and the event log, and the ghost `reports` sequence stands for the reporting queue. The endpoint table's verdict is an input to `Begin`. The basic-information handler is a function argument; when a read is delegated to it, it must not write more bytes than the buffer length. Logging is omitted.
- `DeviceTempSensor.cpp`, the `Device` base class and `DeviceHumiditySensor.h` are not part of this model. The model takes:
  - the temperature device's setter to clamp like the humidity one. `DeviceTempSensor.SetMeasuredValue`, the clamped value in `SetMeasuredValueRaw`'s postcondition, the bound in `MatterTemperature.Valid`, the bound of `GetMeasuredValueRaw` and the 12000-to-10000 step of `LifecycleScenario` rest on this;
  - a new device to be unreachable. The two constructors' postconditions and the failing read in `HumidityScenario` rest on this;
  - a new humidity device to have endpoint id 0 until the endpoint table assigns one. No property depends on the value;
  - a new temperature device to have an empty product name. Only `DeviceTempSensor.constructor`'s postcondition rests on this;
  - `kChanged_MeasurementValue` to be 0x08. `SetReportsIffChanged` needs only that it is non-zero;
  - the humidity feature map to be 0 and its cluster revision 1. No lemma depends on these values: `ReadHumidityCluster` and `ReadsAgreeWithGetters` hold for any values;
  - `base_matter_device`, a member of the appliance base class whose initialisation is not shown, to start null. Only `MatterTemperature.constructor`'s postcondition rests on this.
- The expansions of the `DECLARE_DYNAMIC_*` macros are not modelled. The tables hold the declared entries, and the shared descriptor and bridged-basic attribute lists are referred to by name.
- The contents of the blocks `begin` allocates are unspecified, as `malloc`'s are; no property reads them.
- libraries/Matter/src/MatterOccupancy.h is not part of this model: it declares the same lifecycle fields as the temperature class, with no bodies.
- cores/silabs/Tone.cpp, variants/thingplusmatter/arduino_spi_config.cpp and the platform configuration headers are not part of this model: they are hardware timing, peripheral registers and preprocessor feature flags.
