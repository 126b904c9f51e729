/** Integer widths, identifiers and the clamping rule shared by the bridged
    sensor devices. C's fixed-width integers become subset types of `int`;
    nothing in the modelled code wraps around, so no modular arithmetic is
    needed. */
module MatterTypes {

  type uint8 = x: int | 0 <= x < 0x100
  type uint16 = x: int | 0 <= x < 0x1_0000
  type uint32 = x: int | 0 <= x < 0x1_0000_0000
  type int16 = x: int | -0x8000 <= x < 0x8000

  type ClusterId = uint32
  type AttributeId = uint32
  type EndpointId = uint16

  // Cluster identifiers of the Matter application cluster library.
  const BridgedDeviceBasicInformationId: ClusterId := 0x0039
  const DescriptorId: ClusterId := 0x001D
  const TemperatureMeasurementId: ClusterId := 0x0402
  const RelativeHumidityMeasurementId: ClusterId := 0x0405

  // Attribute identifiers shared by the measurement clusters.
  const MeasuredValueId: AttributeId := 0x0000
  const MinMeasuredValueId: AttributeId := 0x0001
  const MaxMeasuredValueId: AttributeId := 0x0002
  const FeatureMapId: AttributeId := 0xFFFC
  const ClusterRevisionId: AttributeId := 0xFFFD

  /** The setter's clamping rule: below `lo` goes to `lo`, otherwise above
      `hi` goes to `hi`, otherwise the value is kept. */
  function Clamp(v: int, lo: int, hi: int): (r: int)
    ensures lo <= hi ==> lo <= r <= hi
    ensures lo <= v <= hi ==> r == v
    ensures r == v || r == lo || r == hi
  {
    if v < lo then lo else if v > hi then hi else v
  }

  /** Within a non-empty range, the clamped value is the in-range value
      closest to the input. */
  lemma ClampIsNearest(v: int, lo: int, hi: int, x: int)
    requires lo <= x <= hi
    ensures Dist(Clamp(v, lo, hi), v) <= Dist(x, v)
  {
  }

  /** Clamping an already clamped value changes nothing. */
  lemma ClampIdempotent(v: int, lo: int, hi: int)
    requires lo <= hi
    ensures Clamp(Clamp(v, lo, hi), lo, hi) == Clamp(v, lo, hi)
  {
  }

  function Dist(a: int, b: int): nat {
    if a <= b then b - a else a - b
  }
}
