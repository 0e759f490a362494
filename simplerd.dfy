/**
 * Header normalization: `Image.__init__` maps the raw Siemens parameter tree
 * to the fixed nested header (acquisition system, measurement, encoding,
 * parallel imaging, sequence parameters).
 *
 * `Normalize` evaluates in the order Python does: the statements before the
 * header dictionary top to bottom, then the values of the dictionary display
 * left to right.  So the error it returns is the exception the first failing
 * subscript, `get` or operator raises.
 */
module SimpleRd {
  import opened PyValues
  import opened PyOps

  datatype Trajectory = Cartesian | Radial | Spiral | Propeller | Other

  /** A header tuple in the fixed order (readout, phase, slice). */
  datatype Triple = Triple(x: Value, y: Value, z: Value)

  datatype Space = Space(matrixSize: Triple, fieldOfView: Triple)

  datatype AcquisitionSystem = AcquisitionSystem(
    institutionName: Value,
    receiverChannels: Value,
    systemFieldStrength: Value,
    systemVendor: Value,
    systemModel: Value)

  datatype Measurement = Measurement(
    scanDate: string,
    acquisitionType: Value,
    measurementUid: Value,
    protocolName: Value)

  /** The encoding dimensions; `sets` is the header's `set` entry. */
  datatype Dimensions = Dimensions(
    kspaceEncodingStep1: Value,
    kspaceEncodingStep2: Value,
    average: Value,
    contrast: Value,
    phase: Value,
    repetition: Value,
    segment: Value,
    sets: Value,
    slice: Value)

  datatype Encoding = Encoding(
    trajectory: Trajectory,
    encodedSpace: Space,
    reconSpace: Space,
    dimensions: Dimensions,
    phaseResolution: Value)

  datatype AccelerationFactor = AccelerationFactor(kspaceEncodingStep1: Value, kspaceEncodingStep2: Value)

  datatype ParallelImaging = ParallelImaging(
    accelerationFactor: AccelerationFactor,
    firstAcsLine: Value,
    nAcsLines: Value)

  /** TE, TR and TI in seconds; flip angles in degrees. */
  datatype SequenceParameters = SequenceParameters(
    turboFactor: Value,
    te: seq<real>,
    tr: seq<real>,
    ti: seq<real>,
    flipAngleDegree: seq<Value>)

  datatype Header = Header(
    acquisitionSystem: AcquisitionSystem,
    measurement: Measurement,
    encoding: Encoding,
    parallelImaging: ParallelImaging,
    sequenceParameters: SequenceParameters)

  // ---------------------------------------------------------------------
  // Where the raw tree keeps its parameter groups
  // ---------------------------------------------------------------------

  const DicomPath: seq<Key> := [Str("Dicom"), Str("xprot"), Str(""), Str("DICOM")]
  const YapsPath: seq<Key> := [Str("Meas"), Str("xprot"), Str(""), Str("YAPS")]
  const MeasPath: seq<Key> := [Str("Meas"), Str("xprot"), Str(""), Str("MEAS")]
  const HeaderPath: seq<Key> := [Str("Meas"), Str("xprot"), Str(""), Str("HEADER")]
  const IrisPath: seq<Key> := [Str("Meas"), Str("xprot"), Str(""), Str("IRIS")]

  /** The legacy ASCII-protocol mirror of the first slice's geometry. */
  const LegacySlicePath: seq<Key> :=
    [Str("MeasYaps"), Str("ascconv"), Str("sSliceArray"), Str("asSlice"), Int(0)]

  datatype Sections = Sections(dicom: Value, yaps: Value, meas: Value, header: Value, iris: Value)

  function SectionsOf(raw: Value): Result<Sections> {
    match Get(raw, DicomPath)
    case Err(e) => Err(e)
    case Ok(dicom) =>
    match Get(raw, YapsPath)
    case Err(e) => Err(e)
    case Ok(yaps) =>
    match Get(raw, MeasPath)
    case Err(e) => Err(e)
    case Ok(meas) =>
    match Get(raw, HeaderPath)
    case Err(e) => Err(e)
    case Ok(header) =>
    match Get(raw, IrisPath)
    case Err(e) => Err(e)
    case Ok(iris) =>
    Ok(Sections(dicom, yaps, meas, header, iris))
  }

  // ---------------------------------------------------------------------
  // Lookup tables
  // ---------------------------------------------------------------------

  /** The value a dictionary display with int keys gives for `key`. */
  function DisplayLookup<T>(table: seq<(int, T)>, key: Value, default: T): T {
    if table == [] then default
    else if EqualsInt(key, table[0].0) then table[0].1
    else DisplayLookup(table[1..], key, default)
  }

  /** `{n1: v1, n2: v2, ...}.get(key, default)`: an unhashable key raises. */
  function DisplayGet<T>(table: seq<(int, T)>, key: Value, default: T): Result<T> {
    if !Hashable(key) then Err(TypeError) else Ok(DisplayLookup(table, key, default))
  }

  const TrajectoryTable: seq<(int, Trajectory)> :=
    [(1, Cartesian), (2, Radial), (4, Spiral), (8, Propeller)]

  /** The trajectory a `ucTrajectory` code stands for. */
  function TrajectoryOfCode(code: Value): (r: Result<Trajectory>)
    ensures r.Err? <==> !Hashable(code)
    ensures r == Ok(Cartesian) <==> EqualsInt(code, 1)
    ensures r == Ok(Radial) <==> EqualsInt(code, 2)
    ensures r == Ok(Spiral) <==> EqualsInt(code, 4)
    ensures r == Ok(Propeller) <==> EqualsInt(code, 8)
    ensures r == Ok(Other) <==>
      Hashable(code) && !EqualsInt(code, 1) && !EqualsInt(code, 2) && !EqualsInt(code, 4) && !EqualsInt(code, 8)
  {
    var t := TrajectoryTable;
    assert DisplayLookup(t, code, Other) ==
      if EqualsInt(code, 1) then Cartesian else DisplayLookup(t[1..], code, Other);
    assert DisplayLookup(t[1..], code, Other) ==
      if EqualsInt(code, 2) then Radial else DisplayLookup(t[2..], code, Other);
    assert DisplayLookup(t[2..], code, Other) ==
      if EqualsInt(code, 4) then Spiral else DisplayLookup(t[3..], code, Other);
    assert DisplayLookup(t[3..], code, Other) ==
      if EqualsInt(code, 8) then Propeller else DisplayLookup(t[4..], code, Other);
    assert t[4..] == [];
    DisplayGet(t, code, Other)
  }

  /** The code the table gives each named trajectory. */
  function CodeOf(t: Trajectory): int {
    match t
    case Cartesian => 1
    case Radial => 2
    case Spiral => 4
    case Propeller => 8
    case Other => 0
  }

  /** Reading back the code of a named trajectory gives that trajectory, and
      every int that is not one of the four codes reads as `Other`. */
  lemma TrajectoryRoundTrip(t: Trajectory, n: int)
    ensures t != Other ==> TrajectoryOfCode(VInt(CodeOf(t))) == Ok(t)
    ensures n !in {1, 2, 4, 8} ==> TrajectoryOfCode(VInt(n)) == Ok(Other)
  {
  }

  // ---------------------------------------------------------------------
  // The values computed before the header display
  // ---------------------------------------------------------------------

  /** The slice geometry: `asSlice[0]` when the per-slice array has key 0,
      otherwise the legacy mirror. */
  function SliceDataOf(raw: Value, meas: Value): (r: Result<Value>)
    ensures var a := Get(meas, [Str("sSliceArray"), Str("asSlice")]);
      && (a.Err? ==> r == Err(a.error))
      && (a.Ok? && !a.value.VDict? ==> r == Err(AttributeError))
      && (a.Ok? && a.value.VDict? && Int(0) in Keys(a.value.entries) ==>
            r.Ok? && Lookup(a.value.entries, Int(0)) == Some(r.value))
      && (a.Ok? && a.value.VDict? && Int(0) !in Keys(a.value.entries) ==>
            r == Get(raw, LegacySlicePath))
  {
    match Get(meas, [Str("sSliceArray"), Str("asSlice")])
    case Err(e) => Err(e)
    case Ok(asSlice) =>
    match HasKey(asSlice, Int(0))
    case Err(e) => Err(e)
    case Ok(modern) =>
    if modern then
      SubscriptDict(asSlice.entries, Int(0));
      Subscript(asSlice, Int(0))
    else Get(raw, LegacySlicePath)
  }

  /** Lines 23-26: the encoded readout size. */
  function ReadoutSize(trajectory: Trajectory, yaps: Value, iris: Value): Result<Value> {
    if trajectory == Cartesian then Subscript(yaps, Str("iNoOfFourierColumns"))
    else Get(iris, [Str("DERIVED"), Str("imageColumns")])
  }

  /** The 2D-interpolation flag is set: `sKSpace.uc2DInterpolation` is present
      and equal to 1 (an absent flag reads as -1). */
  predicate InterpolationOn(meas: Value) {
    var flag := Get(meas, [Str("sKSpace"), Str("uc2DInterpolation")]);
    flag.Ok? && EqualsInt(flag.value, 1)
  }

  /** The encoded phase size: `iPEFTLength`, halved (by true division) under
      2D interpolation. */
  function PhaseSize(meas: Value, yaps: Value): (r: Result<Value>)
    ensures var kspace := Subscript(meas, Str("sKSpace"));
      var len := Subscript(yaps, Str("iPEFTLength"));
      r.Ok? <==>
        && kspace.Ok? && kspace.value.VDict?
        && len.Ok?
        && (InterpolationOn(meas) ==> IsNumber(len.value))
    ensures r.Ok? ==>
      var len := Subscript(yaps, Str("iPEFTLength")).value;
      if InterpolationOn(meas) then IsNumber(len) && r.value == VReal(AsReal(len) / 2.0)
      else r.value == len
  {
    match Subscript(meas, Str("sKSpace"))
    case Err(e) => Err(e)
    case Ok(kspace) =>
    match DictGet(kspace, Str("uc2DInterpolation"), VInt(-1))
    case Err(e) => Err(e)
    case Ok(flag) =>
    assert EqualsInt(flag, 1) <==> InterpolationOn(meas) by {
      LookupSome(kspace.entries, Str("uc2DInterpolation"));
    }
    match Subscript(yaps, Str("iPEFTLength"))
    case Err(e) => Err(e)
    case Ok(len) =>
    if EqualsInt(flag, 1) then Div(len, VInt(2)) else Ok(len)
  }

  /** The encoded slice size: 1 when `iNoOfFourierPartitions` is absent or
      `i3DFTLength` equals 1, otherwise `i3DFTLength`. */
  function PartitionSize(yaps: Value): (r: Result<Value>)
    ensures Absent(yaps, "iNoOfFourierPartitions") ==> r == Ok(VInt(1))
    ensures !yaps.VDict? ==> r == Err(AttributeError)
    ensures yaps.VDict? && !Absent(yaps, "iNoOfFourierPartitions") ==>
      var len := Subscript(yaps, Str("i3DFTLength"));
      if len.Err? then r == Err(len.error)
      else r == Ok(if EqualsInt(len.value, 1) then VInt(1) else len.value)
  {
    match HasKey(yaps, Str("iNoOfFourierPartitions"))
    case Err(e) => Err(e)
    case Ok(partitioned) =>
    if !partitioned then Ok(VInt(1))
    else
      match Subscript(yaps, Str("i3DFTLength"))
      case Err(e) => Err(e)
      case Ok(len) =>
      Ok(if EqualsInt(len, 1) then VInt(1) else len)
  }

  /** The partitions-times-lines candidate.  It is evaluated whenever the
      segmentation mode is present, and it divides by the key spelled
      `lSegements`. */
  function SegmentCandidate(fast: Value, yaps: Value): (r: Result<Value>)
    ensures Absent(fast, "lSegments") ==> r == Err(TypeError)
    ensures r.Ok? ==> fast.VDict? && Get(fast, [Str("lSegments"), Int(0)]).Ok?
    ensures fast.VDict? && Get(fast, [Str("lSegments"), Int(0)]).Ok? ==>
      var first := Get(fast, [Str("lSegments"), Int(0)]).value;
      && (!IsNumber(first) ==> r == Err(TypeError))
      && (IsNumber(first) && AsReal(first) <= 1.0 ==> r == Ok(VInt(1)))
    ensures fast.VDict? && Get(fast, [Str("lSegments"), Int(0)]).Ok? ==>
      var first := Get(fast, [Str("lSegments"), Int(0)]).value;
      var partitions := Subscript(yaps, Str("iNoOfFourierPartitions"));
      var lines := Subscript(yaps, Str("iNoOfFourierLines"));
      var divisor := Subscript(fast, Str("lSegements"));
      IsNumber(first) && AsReal(first) > 1.0 &&
      partitions.Ok? && IsNumber(partitions.value) &&
      lines.Ok? && IsNumber(lines.value) &&
      divisor.Ok? && IsNumber(divisor.value) && AsReal(divisor.value) != 0.0 ==>
        r.Ok?
    ensures r.Ok? ==>
      var first := Get(fast, [Str("lSegments"), Int(0)]).value;
      IsNumber(first) &&
      if AsReal(first) > 1.0 then
        && Subscript(yaps, Str("iNoOfFourierPartitions")).Ok?
        && Subscript(yaps, Str("iNoOfFourierLines")).Ok?
        && Subscript(fast, Str("lSegements")).Ok?
        && var product := Mul(Subscript(yaps, Str("iNoOfFourierPartitions")).value,
                              Subscript(yaps, Str("iNoOfFourierLines")).value);
           product.Ok? && r == Div(product.value, Subscript(fast, Str("lSegements")).value)
      else r == Ok(VInt(1))
  {
    match DictGet(fast, Str("lSegments"), VNone)
    case Err(e) => Err(e)
    case Ok(segments) =>
    assert Lookup(fast.entries, Str("lSegments")).Some? ==>
      Get(fast, [Str("lSegments"), Int(0)]) == Subscript(segments, Int(0));
    LookupSome(fast.entries, Str("lSegments"));
    match Subscript(segments, Int(0))
    case Err(e) => Err(e)
    case Ok(first) =>
    match Greater(first, VInt(1))
    case Err(e) => Err(e)
    case Ok(multi) =>
    if !multi then Ok(VInt(1))
    else
      match Subscript(yaps, Str("iNoOfFourierPartitions"))
      case Err(e) => Err(e)
      case Ok(partitions) =>
      match Subscript(yaps, Str("iNoOfFourierLines"))
      case Err(e) => Err(e)
      case Ok(lines) =>
      match Mul(partitions, lines)
      case Err(e) => Err(e)
      case Ok(product) =>
      match Subscript(fast, Str("lSegements"))
      case Err(e) => Err(e)
      case Ok(divisor) =>
      Div(product, divisor)
  }

  /** The segment count: 1 without a segmentation mode; with one, the
      mode-1 candidate, the mode-2 shot count (default 1), or 1. */
  function SegmentOf(meas: Value, yaps: Value): (r: Result<Value>)
    ensures r.Ok? ==> Subscript(meas, Str("sFastImaging")).Ok?
    ensures var fast := Subscript(meas, Str("sFastImaging"));
      fast.Ok? && Absent(fast.value, "ucSegmentationMode") ==> r == Ok(VInt(1))
    ensures var fast := Subscript(meas, Str("sFastImaging"));
      fast.Ok? && fast.value.VDict? && !Absent(fast.value, "ucSegmentationMode") ==>
        var mode := Get(fast.value, [Str("ucSegmentationMode"), Int(0)]);
        (r.Ok? <==>
          SegmentCandidate(fast.value, yaps).Ok? && mode.Ok? && Hashable(mode.value))
    ensures r.Ok? ==>
      var fast := Subscript(meas, Str("sFastImaging")).value;
      if Absent(fast, "ucSegmentationMode") then r.value == VInt(1)
      else
        && !Absent(fast, "lSegments")
        && Get(fast, [Str("ucSegmentationMode"), Int(0)]).Ok?
        && var mode := Get(fast, [Str("ucSegmentationMode"), Int(0)]).value;
           && (EqualsInt(mode, 1) ==> r == SegmentCandidate(fast, yaps))
           && (EqualsInt(mode, 2) ==> r == DictGet(fast, Str("lShots"), VInt(1)))
           && (!EqualsInt(mode, 1) && !EqualsInt(mode, 2) ==> r.value == VInt(1))
  {
    match Subscript(meas, Str("sFastImaging"))
    case Err(e) => Err(e)
    case Ok(fast) =>
    match HasKey(fast, Str("ucSegmentationMode"))
    case Err(e) => Err(e)
    case Ok(hasMode) =>
    if !hasMode then Ok(VInt(1))
    else
      match SegmentCandidate(fast, yaps)
      case Err(e) => Err(e)
      case Ok(candidate) =>
      match DictGet(fast, Str("lShots"), VInt(1))
      case Err(e) => Err(e)
      case Ok(shots) =>
      match Get(fast, [Str("ucSegmentationMode"), Int(0)])
      case Err(e) => Err(e)
      case Ok(mode) =>
      var table := [(1, candidate), (2, shots)];
      assert DisplayLookup(table, mode, VInt(1)) ==
        if EqualsInt(mode, 1) then candidate else DisplayLookup(table[1..], mode, VInt(1));
      assert DisplayLookup(table[1..], mode, VInt(1)) ==
        if EqualsInt(mode, 2) then shots else DisplayLookup(table[2..], mode, VInt(1));
      assert table[2..] == [];
      DisplayGet(table, mode, VInt(1))
  }

  /** The values the constructor computes before building the header. */
  datatype Preamble = Preamble(
    phaseOverSampling: Value,
    trajectory: Trajectory,
    sliceData: Value,
    encodedMatrix: Triple,
    segment: Value)

  function PreambleOf(raw: Value, s: Sections): Result<Preamble> {
    match Subscript(s.iris, Str("DERIVED"))
    case Err(e) => Err(e)
    case Ok(derived) =>
    match DictGet(derived, Str("phaseOverSampling"), VInt(0))
    case Err(e) => Err(e)
    case Ok(phaseOverSampling) =>
    match Get(s.meas, [Str("sKSpace"), Str("ucTrajectory"), Int(0)])
    case Err(e) => Err(e)
    case Ok(code) =>
    match TrajectoryOfCode(code)
    case Err(e) => Err(e)
    case Ok(trajectory) =>
    match Get(s.meas, [Str("sKSpace"), Str("dPhaseResolution")])
    case Err(e) => Err(e)
    case Ok(phaseResolution) =>
    match SliceDataOf(raw, s.meas)
    case Err(e) => Err(e)
    case Ok(sliceData) =>
    match ReadoutSize(trajectory, s.yaps, s.iris)
    case Err(e) => Err(e)
    case Ok(x) =>
    match PhaseSize(s.meas, s.yaps)
    case Err(e) => Err(e)
    case Ok(y) =>
    match PartitionSize(s.yaps)
    case Err(e) => Err(e)
    case Ok(z) =>
    match SegmentOf(s.meas, s.yaps)
    case Err(e) => Err(e)
    case Ok(segment) =>
    Ok(Preamble(phaseOverSampling, trajectory, sliceData, Triple(x, y, z), segment))
  }

  // ---------------------------------------------------------------------
  // The header display, group by group
  // ---------------------------------------------------------------------

  function AcquisitionSystemOf(s: Sections): Result<AcquisitionSystem> {
    match Subscript(s.dicom, Str("InstitutionName"))
    case Err(e) => Err(e)
    case Ok(institution) =>
    match Subscript(s.yaps, Str("iMaxNoOfRxChannels"))
    case Err(e) => Err(e)
    case Ok(channels) =>
    match Subscript(s.yaps, Str("flMagneticFieldStrength"))
    case Err(e) => Err(e)
    case Ok(fieldStrength) =>
    match Subscript(s.dicom, Str("Manufacturer"))
    case Err(e) => Err(e)
    case Ok(vendor) =>
    match Subscript(s.dicom, Str("ManufacturersModelName"))
    case Err(e) => Err(e)
    case Ok(model) =>
    Ok(AcquisitionSystem(institution, channels, fieldStrength, vendor, model))
  }

  /** `frame.split('.')[10][:8]`: the first eight characters of the eleventh
      dot-separated field of the frame-of-reference UID. */
  function ScanDate(frame: Value): (r: Result<string>)
    ensures !frame.VStr? ==> r == Err(AttributeError)
    ensures frame.VStr? ==> (r.Ok? <==> Count(frame.s, '.') >= 10)
    ensures r.Ok? ==>
      && frame.VStr?
      && |Split(frame.s, '.')| > 10
      && '.' !in r.value
      && var field := Split(frame.s, '.')[10];
         r.value == field[..if |field| <= 8 then |field| else 8]
  {
    if !frame.VStr? then Err(AttributeError)
    else
      var fields := Split(frame.s, '.');
      SplitCount(frame.s, '.');
      match Index(fields, Int(10))
      case Err(e) => Err(e)
      case Ok(field) =>
      Ok(Prefix(field, 8))
  }

  function MeasurementOf(s: Sections): Result<Measurement> {
    match Get(s.yaps, [Str("tFrameOfReference"), Int(0)])
    case Err(e) => Err(e)
    case Ok(frame) =>
    match ScanDate(frame)
    case Err(e) => Err(e)
    case Ok(scanDate) =>
    match Subscript(s.dicom, Str("tMRAcquisitionType"))
    case Err(e) => Err(e)
    case Ok(acquisitionType) =>
    match Subscript(s.header, Str("MeasUID"))
    case Err(e) => Err(e)
    case Ok(uid) =>
    match Subscript(s.meas, Str("tProtocolName"))
    case Err(e) => Err(e)
    case Ok(protocol) =>
    Ok(Measurement(scanDate, acquisitionType, uid, protocol))
  }

  /** The reconstruction space: the derived image size, one partition when
      3D is off, and the unscaled slice geometry. */
  function ReconSpaceOf(s: Sections, sliceData: Value): Result<Space> {
    match Get(s.iris, [Str("DERIVED"), Str("ImageColumns")])
    case Err(e) => Err(e)
    case Ok(columns) =>
    match Get(s.iris, [Str("DERIVED"), Str("ImageLines")])
    case Err(e) => Err(e)
    case Ok(lines) =>
    match Subscript(s.yaps, Str("i3DFTLength"))
    case Err(e) => Err(e)
    case Ok(len3d) =>
    match if EqualsInt(len3d, 1) then Ok(VInt(1)) else Get(s.meas, [Str("sKSpace"), Str("lImagesPerSlab")])
    case Err(e) => Err(e)
    case Ok(partitions) =>
    match Subscript(sliceData, Str("dReadoutFOV"))
    case Err(e) => Err(e)
    case Ok(readoutFov) =>
    match Subscript(sliceData, Str("dPhaseFOV"))
    case Err(e) => Err(e)
    case Ok(phaseFov) =>
    match Subscript(sliceData, Str("dThickness"))
    case Err(e) => Err(e)
    case Ok(thickness) =>
    Ok(Space(Triple(columns, lines, partitions), Triple(readoutFov, phaseFov, thickness)))
  }

  function DimensionsOf(s: Sections, segment: Value): Result<Dimensions> {
    match Subscript(s.yaps, Str("iNoOfFourierLines"))
    case Err(e) => Err(e)
    case Ok(step1) =>
    match Subscript(s.yaps, Str("i3DFTLength"))
    case Err(e) => Err(e)
    case Ok(len3d) =>
    match if !EqualsInt(len3d, 1) then DictGet(s.yaps, Str("iNoOfFourierPartitions"), VInt(1)) else Ok(VInt(1))
    case Err(e) => Err(e)
    case Ok(step2) =>
    match DictGet(s.meas, Str("lAverages"), VInt(1))
    case Err(e) => Err(e)
    case Ok(average) =>
    match DictGet(s.meas, Str("lContrasts"), VInt(1))
    case Err(e) => Err(e)
    case Ok(contrast) =>
    match Subscript(s.meas, Str("sPhysioImaging"))
    case Err(e) => Err(e)
    case Ok(physio) =>
    match DictGet(physio, Str("lPhases"), VInt(1))
    case Err(e) => Err(e)
    case Ok(phase) =>
    match DictGet(s.meas, Str("lRepetitions"), VInt(1))
    case Err(e) => Err(e)
    case Ok(repetition) =>
    match DictGet(s.yaps, Str("iNSet"), VInt(1))
    case Err(e) => Err(e)
    case Ok(sets) =>
    match Subscript(s.meas, Str("sSliceArray"))
    case Err(e) => Err(e)
    case Ok(sliceArray) =>
    match DictGet(sliceArray, Str("lSize"), VInt(1))
    case Err(e) => Err(e)
    case Ok(slice) =>
    Ok(Dimensions(step1, step2, average, contrast, phase, repetition, segment, sets, slice))
  }

  function EncodingOf(s: Sections, p: Preamble): Result<Encoding> {
    match Subscript(p.sliceData, Str("dReadoutFOV"))
    case Err(e) => Err(e)
    case Ok(readoutFov) =>
    match Get(s.yaps, [Str("flReadoutOSFactor"), Int(0)])
    case Err(e) => Err(e)
    case Ok(readoutOs) =>
    match Mul(readoutFov, readoutOs)
    case Err(e) => Err(e)
    case Ok(fovX) =>
    match Subscript(p.sliceData, Str("dPhaseFOV"))
    case Err(e) => Err(e)
    case Ok(phaseFov) =>
    // `1 + phaseOverSampling` scales both the phase and the slice extent.
    match Add(VInt(1), p.phaseOverSampling)
    case Err(e) => Err(e)
    case Ok(scale) =>
    match Mul(phaseFov, scale)
    case Err(e) => Err(e)
    case Ok(fovY) =>
    match Subscript(p.sliceData, Str("dThickness"))
    case Err(e) => Err(e)
    case Ok(thickness) =>
    match Mul(thickness, scale)
    case Err(e) => Err(e)
    case Ok(fovZ) =>
    match ReconSpaceOf(s, p.sliceData)
    case Err(e) => Err(e)
    case Ok(recon) =>
    match DimensionsOf(s, p.segment)
    case Err(e) => Err(e)
    case Ok(dims) =>
    match Get(s.meas, [Str("sKSpace"), Str("dPhaseResolution")])
    case Err(e) => Err(e)
    case Ok(phaseResolution) =>
    Ok(Encoding(p.trajectory, Space(p.encodedMatrix, Triple(fovX, fovY, fovZ)), recon, dims, phaseResolution))
  }

  function ParallelImagingOf(s: Sections): Result<ParallelImaging> {
    // `meas.get('sPat', {})` is evaluated afresh for each entry; it is the
    // same value each time.
    match DictGet(s.meas, Str("sPat"), VDict([]))
    case Err(e) => Err(e)
    case Ok(pat) =>
    match DictGet(pat, Str("lAccelFactPE"), VInt(1))
    case Err(e) => Err(e)
    case Ok(step1) =>
    match DictGet(pat, Str("lAccelFact3D"), VInt(1))
    case Err(e) => Err(e)
    case Ok(step2) =>
    match DictGet(s.yaps, Str("lFirstRefLine"), VInt(-1))
    case Err(e) => Err(e)
    case Ok(firstAcsLine) =>
    match DictGet(pat, Str("lRefLinesPE"), VInt(0))
    case Err(e) => Err(e)
    case Ok(nAcsLines) =>
    Ok(ParallelImaging(AccelerationFactor(step1, step2), firstAcsLine, nAcsLines))
  }

  /** `[t / 1000.0 for t in xs if t > 0]`: the positive entries, in order,
      converted from milliseconds to seconds. */
  function MillisToSeconds(xs: seq<Value>): (r: Result<seq<real>>)
    ensures r.Ok? <==> forall i :: 0 <= i < |xs| ==> IsNumber(xs[i])
    ensures r.Err? ==> r == Err(TypeError)
    ensures r.Ok? ==> |r.value| <= |xs|
    ensures r.Ok? ==> forall j :: 0 <= j < |r.value| ==> r.value[j] > 0.0
  {
    if xs == [] then Ok([])
    else
      match Greater(xs[0], VInt(0))
      case Err(e) => Err(e)
      case Ok(positive) =>
      match MillisToSeconds(xs[1..])
      case Err(e) => Err(e)
      case Ok(rest) =>
      assert forall i :: 1 <= i < |xs| ==> xs[i] == xs[1..][i - 1];
      Ok(if positive then [AsReal(xs[0]) / 1000.0] + rest else rest)
  }

  /** `[a for a in xs if a > 0]`: the positive entries, in order, unchanged. */
  function PositiveEntries(xs: seq<Value>): (r: Result<seq<Value>>)
    ensures r.Ok? <==> forall i :: 0 <= i < |xs| ==> IsNumber(xs[i])
    ensures r.Err? ==> r == Err(TypeError)
    ensures r.Ok? ==> |r.value| <= |xs|
    ensures r.Ok? ==> forall j :: 0 <= j < |r.value| ==>
      IsNumber(r.value[j]) && AsReal(r.value[j]) > 0.0
  {
    if xs == [] then Ok([])
    else
      match Greater(xs[0], VInt(0))
      case Err(e) => Err(e)
      case Ok(positive) =>
      match PositiveEntries(xs[1..])
      case Err(e) => Err(e)
      case Ok(rest) =>
      assert forall i :: 1 <= i < |xs| ==> xs[i] == xs[1..][i - 1];
      Ok(if positive then [xs[0]] + rest else rest)
  }

  /** The angles kept are among the angles given. */
  lemma {:induction false} PositiveEntriesMembers(xs: seq<Value>)
    requires PositiveEntries(xs).Ok?
    ensures forall v :: v in PositiveEntries(xs).value ==> v in xs
  {
    if xs != [] {
      PositiveEntriesMembers(xs[1..]);
      assert xs == [xs[0]] + xs[1..];
    }
  }

  function SequenceParametersOf(s: Sections): Result<SequenceParameters> {
    match DictGet(s.meas, Str("sFastImaging"), VDict([]))
    case Err(e) => Err(e)
    case Ok(fast) =>
    match DictGet(fast, Str("lSliceTurboFactor"), VInt(1))
    case Err(e) => Err(e)
    case Ok(turbo) =>
    match Subscript(s.meas, Str("alTE"))
    case Err(e) => Err(e)
    case Ok(teRaw) =>
    match Iterate(teRaw)
    case Err(e) => Err(e)
    case Ok(teItems) =>
    match MillisToSeconds(teItems)
    case Err(e) => Err(e)
    case Ok(te) =>
    match Subscript(s.meas, Str("alTR"))
    case Err(e) => Err(e)
    case Ok(trRaw) =>
    match Iterate(trRaw)
    case Err(e) => Err(e)
    case Ok(trItems) =>
    match MillisToSeconds(trItems)
    case Err(e) => Err(e)
    case Ok(tr) =>
    match Subscript(s.meas, Str("alTI"))
    case Err(e) => Err(e)
    case Ok(tiRaw) =>
    match Iterate(tiRaw)
    case Err(e) => Err(e)
    case Ok(tiItems) =>
    match MillisToSeconds(tiItems)
    case Err(e) => Err(e)
    case Ok(ti) =>
    match Subscript(s.dicom, Str("adFlipAngleDegree"))
    case Err(e) => Err(e)
    case Ok(flipRaw) =>
    match Iterate(flipRaw)
    case Err(e) => Err(e)
    case Ok(flipItems) =>
    match PositiveEntries(flipItems)
    case Err(e) => Err(e)
    case Ok(flip) =>
    Ok(SequenceParameters(turbo, te, tr, ti, flip))
  }

  // ---------------------------------------------------------------------
  // Normalization
  // ---------------------------------------------------------------------

  /** `Image(raw, buffer).header`. */
  function Normalize(raw: Value): Result<Header> {
    match SectionsOf(raw)
    case Err(e) => Err(e)
    case Ok(s) =>
    match PreambleOf(raw, s)
    case Err(e) => Err(e)
    case Ok(p) =>
    match AcquisitionSystemOf(s)
    case Err(e) => Err(e)
    case Ok(acquisition) =>
    match MeasurementOf(s)
    case Err(e) => Err(e)
    case Ok(measurement) =>
    match EncodingOf(s, p)
    case Err(e) => Err(e)
    case Ok(encoding) =>
    match ParallelImagingOf(s)
    case Err(e) => Err(e)
    case Ok(parallel) =>
    match SequenceParametersOf(s)
    case Err(e) => Err(e)
    case Ok(sequence) =>
    Ok(Header(acquisition, measurement, encoding, parallel, sequence))
  }

  // ---------------------------------------------------------------------
  // The header as the dictionary `self.header`
  // ---------------------------------------------------------------------

  function TrajectoryName(t: Trajectory): string {
    match t
    case Cartesian => "cartesian"
    case Radial => "radial"
    case Spiral => "spiral"
    case Propeller => "propeller"
    case Other => "other"
  }

  function TripleValue(t: Triple): Value {
    VTuple([t.x, t.y, t.z])
  }

  function SpaceValue(s: Space): Value {
    VDict([Entry(Str("matrix_size"), TripleValue(s.matrixSize)),
           Entry(Str("field_of_view"), TripleValue(s.fieldOfView))])
  }

  function RealList(xs: seq<real>): Value {
    VList(seq(|xs|, i requires 0 <= i < |xs| => VReal(xs[i])))
  }

  function DimensionsValue(d: Dimensions): Value {
    VDict([Entry(Str("kspace_encoding_step1"), d.kspaceEncodingStep1),
           Entry(Str("kspace_encoding_step2"), d.kspaceEncodingStep2),
           Entry(Str("average"), d.average),
           Entry(Str("contrast"), d.contrast),
           Entry(Str("phase"), d.phase),
           Entry(Str("repetition"), d.repetition),
           Entry(Str("segment"), d.segment),
           Entry(Str("set"), d.sets),
           Entry(Str("slice"), d.slice)])
  }

  function AcquisitionSystemValue(a: AcquisitionSystem): Value {
    VDict([
      Entry(Str("institution_name"), a.institutionName),
      Entry(Str("receiver_channels"), a.receiverChannels),
      Entry(Str("system_field_strength"), a.systemFieldStrength),
      Entry(Str("system_vendor"), a.systemVendor),
      Entry(Str("system_model"), a.systemModel)])
  }

  function MeasurementValue(m: Measurement): Value {
    VDict([
      Entry(Str("scan_date"), VStr(m.scanDate)),
      Entry(Str("acquisition_type"), m.acquisitionType),
      Entry(Str("measurement_uid"), m.measurementUid),
      Entry(Str("protocol_name"), m.protocolName)])
  }

  function EncodingValue(e: Encoding): Value {
    VDict([
      Entry(Str("trajectory"), VStr(TrajectoryName(e.trajectory))),
      Entry(Str("encoded_space"), SpaceValue(e.encodedSpace)),
      Entry(Str("recon_space"), SpaceValue(e.reconSpace)),
      Entry(Str("dimensions"), DimensionsValue(e.dimensions)),
      Entry(Str("phase_resolution"), e.phaseResolution)])
  }

  function ParallelImagingValue(p: ParallelImaging): Value {
    VDict([
      Entry(Str("acceleration_factor"), VDict([
        Entry(Str("kspace_encoding_step_1"), p.accelerationFactor.kspaceEncodingStep1),
        Entry(Str("kspace_encoding_step_2"), p.accelerationFactor.kspaceEncodingStep2)])),
      Entry(Str("first_acs_line"), p.firstAcsLine),
      Entry(Str("n_acs_lines"), p.nAcsLines)])
  }

  function SequenceParametersValue(q: SequenceParameters): Value {
    VDict([
      Entry(Str("turbo_factor"), q.turboFactor),
      Entry(Str("TE"), RealList(q.te)),
      Entry(Str("TR"), RealList(q.tr)),
      Entry(Str("TI"), RealList(q.ti)),
      Entry(Str("flip_angle_degree"), VList(q.flipAngleDegree))])
  }

  /** The header dictionary, with the keys and the key order of the
      dictionary display that builds it. */
  function HeaderValue(h: Header): Value {
    VDict([
      Entry(Str("acquisition_system"), AcquisitionSystemValue(h.acquisitionSystem)),
      Entry(Str("measurement"), MeasurementValue(h.measurement)),
      Entry(Str("encoding"), EncodingValue(h.encoding)),
      Entry(Str("parallel_imaging"), ParallelImagingValue(h.parallelImaging)),
      Entry(Str("sequence_parameters"), SequenceParametersValue(h.sequenceParameters))])
  }

  // ---------------------------------------------------------------------
  // What each step of a successful normalization read
  // ---------------------------------------------------------------------

  /** A successful normalization is made of successful groups. */
  lemma NormalizeParts(raw: Value, h: Header) returns (s: Sections, p: Preamble)
    requires Normalize(raw) == Ok(h)
    ensures SectionsOf(raw) == Ok(s) && PreambleOf(raw, s) == Ok(p)
    ensures Get(raw, DicomPath) == Ok(s.dicom) && Get(raw, YapsPath) == Ok(s.yaps)
    ensures Get(raw, MeasPath) == Ok(s.meas) && Get(raw, HeaderPath) == Ok(s.header)
    ensures Get(raw, IrisPath) == Ok(s.iris)
    ensures AcquisitionSystemOf(s) == Ok(h.acquisitionSystem)
    ensures MeasurementOf(s) == Ok(h.measurement)
    ensures EncodingOf(s, p) == Ok(h.encoding)
    ensures ParallelImagingOf(s) == Ok(h.parallelImaging)
    ensures SequenceParametersOf(s) == Ok(h.sequenceParameters)
  {
    s := SectionsOf(raw).value;
    p := PreambleOf(raw, s).value;
  }

  lemma PreambleParts(raw: Value, s: Sections, p: Preamble)
    requires PreambleOf(raw, s) == Ok(p)
    ensures Subscript(s.iris, Str("DERIVED")).Ok?
    ensures DictGet(Subscript(s.iris, Str("DERIVED")).value, Str("phaseOverSampling"), VInt(0)) == Ok(p.phaseOverSampling)
    ensures Get(s.meas, [Str("sKSpace"), Str("ucTrajectory"), Int(0)]).Ok?
    ensures TrajectoryOfCode(Get(s.meas, [Str("sKSpace"), Str("ucTrajectory"), Int(0)]).value) == Ok(p.trajectory)
    ensures SliceDataOf(raw, s.meas) == Ok(p.sliceData)
    ensures ReadoutSize(p.trajectory, s.yaps, s.iris) == Ok(p.encodedMatrix.x)
    ensures PhaseSize(s.meas, s.yaps) == Ok(p.encodedMatrix.y)
    ensures PartitionSize(s.yaps) == Ok(p.encodedMatrix.z)
    ensures SegmentOf(s.meas, s.yaps) == Ok(p.segment)
  {
  }

  lemma EncodingParts(s: Sections, p: Preamble, e: Encoding)
    requires EncodingOf(s, p) == Ok(e)
    ensures e.trajectory == p.trajectory && e.encodedSpace.matrixSize == p.encodedMatrix
    ensures ReconSpaceOf(s, p.sliceData) == Ok(e.reconSpace)
    ensures DimensionsOf(s, p.segment) == Ok(e.dimensions)
    ensures Get(s.meas, [Str("sKSpace"), Str("dPhaseResolution")]) == Ok(e.phaseResolution)
    ensures Get(s.yaps, [Str("flReadoutOSFactor"), Int(0)]).Ok?
    ensures Add(VInt(1), p.phaseOverSampling).Ok?
    ensures
      var fov := e.encodedSpace.fieldOfView;
      var scale := Add(VInt(1), p.phaseOverSampling).value;
      && Subscript(p.sliceData, Str("dReadoutFOV")).Ok?
      && Subscript(p.sliceData, Str("dPhaseFOV")).Ok?
      && Subscript(p.sliceData, Str("dThickness")).Ok?
      && Mul(Subscript(p.sliceData, Str("dReadoutFOV")).value,
             Get(s.yaps, [Str("flReadoutOSFactor"), Int(0)]).value) == Ok(fov.x)
      && Mul(Subscript(p.sliceData, Str("dPhaseFOV")).value, scale) == Ok(fov.y)
      && Mul(Subscript(p.sliceData, Str("dThickness")).value, scale) == Ok(fov.z)
  {
  }

  lemma AcquisitionSystemParts(s: Sections, a: AcquisitionSystem)
    requires AcquisitionSystemOf(s) == Ok(a)
    ensures Subscript(s.dicom, Str("InstitutionName")) == Ok(a.institutionName)
    ensures Subscript(s.yaps, Str("iMaxNoOfRxChannels")) == Ok(a.receiverChannels)
    ensures Subscript(s.yaps, Str("flMagneticFieldStrength")) == Ok(a.systemFieldStrength)
    ensures Subscript(s.dicom, Str("Manufacturer")) == Ok(a.systemVendor)
    ensures Subscript(s.dicom, Str("ManufacturersModelName")) == Ok(a.systemModel)
  {
  }

  lemma MeasurementParts(s: Sections, m: Measurement)
    requires MeasurementOf(s) == Ok(m)
    ensures Get(s.yaps, [Str("tFrameOfReference"), Int(0)]).Ok?
    ensures ScanDate(Get(s.yaps, [Str("tFrameOfReference"), Int(0)]).value) == Ok(m.scanDate)
    ensures Subscript(s.dicom, Str("tMRAcquisitionType")) == Ok(m.acquisitionType)
    ensures Subscript(s.header, Str("MeasUID")) == Ok(m.measurementUid)
    ensures Subscript(s.meas, Str("tProtocolName")) == Ok(m.protocolName)
  {
  }

  lemma ReconSpaceParts(s: Sections, sliceData: Value, r: Space)
    requires ReconSpaceOf(s, sliceData) == Ok(r)
    ensures Get(s.iris, [Str("DERIVED"), Str("ImageColumns")]) == Ok(r.matrixSize.x)
    ensures Get(s.iris, [Str("DERIVED"), Str("ImageLines")]) == Ok(r.matrixSize.y)
    ensures Subscript(s.yaps, Str("i3DFTLength")).Ok?
    ensures EqualsInt(Subscript(s.yaps, Str("i3DFTLength")).value, 1) ==> r.matrixSize.z == VInt(1)
    ensures !EqualsInt(Subscript(s.yaps, Str("i3DFTLength")).value, 1) ==>
      Get(s.meas, [Str("sKSpace"), Str("lImagesPerSlab")]) == Ok(r.matrixSize.z)
    ensures Subscript(sliceData, Str("dReadoutFOV")) == Ok(r.fieldOfView.x)
    ensures Subscript(sliceData, Str("dPhaseFOV")) == Ok(r.fieldOfView.y)
    ensures Subscript(sliceData, Str("dThickness")) == Ok(r.fieldOfView.z)
  {
  }

  lemma DimensionsParts(s: Sections, segment: Value, d: Dimensions)
    requires DimensionsOf(s, segment) == Ok(d)
    ensures Subscript(s.yaps, Str("iNoOfFourierLines")) == Ok(d.kspaceEncodingStep1)
    ensures Subscript(s.yaps, Str("i3DFTLength")).Ok?
    ensures EqualsInt(Subscript(s.yaps, Str("i3DFTLength")).value, 1) ==> d.kspaceEncodingStep2 == VInt(1)
    ensures !EqualsInt(Subscript(s.yaps, Str("i3DFTLength")).value, 1) ==>
      DictGet(s.yaps, Str("iNoOfFourierPartitions"), VInt(1)) == Ok(d.kspaceEncodingStep2)
    ensures DictGet(s.meas, Str("lAverages"), VInt(1)) == Ok(d.average)
    ensures DictGet(s.meas, Str("lContrasts"), VInt(1)) == Ok(d.contrast)
    ensures Subscript(s.meas, Str("sPhysioImaging")).Ok?
    ensures DictGet(Subscript(s.meas, Str("sPhysioImaging")).value, Str("lPhases"), VInt(1)) == Ok(d.phase)
    ensures DictGet(s.meas, Str("lRepetitions"), VInt(1)) == Ok(d.repetition)
    ensures d.segment == segment
    ensures DictGet(s.yaps, Str("iNSet"), VInt(1)) == Ok(d.sets)
    ensures Subscript(s.meas, Str("sSliceArray")).Ok?
    ensures DictGet(Subscript(s.meas, Str("sSliceArray")).value, Str("lSize"), VInt(1)) == Ok(d.slice)
  {
  }

  lemma ParallelImagingParts(s: Sections, pi: ParallelImaging)
    requires ParallelImagingOf(s) == Ok(pi)
    ensures DictGet(s.meas, Str("sPat"), VDict([])).Ok?
    ensures
      var pat := DictGet(s.meas, Str("sPat"), VDict([])).value;
      && DictGet(pat, Str("lAccelFactPE"), VInt(1)) == Ok(pi.accelerationFactor.kspaceEncodingStep1)
      && DictGet(pat, Str("lAccelFact3D"), VInt(1)) == Ok(pi.accelerationFactor.kspaceEncodingStep2)
      && DictGet(pat, Str("lRefLinesPE"), VInt(0)) == Ok(pi.nAcsLines)
    ensures DictGet(s.yaps, Str("lFirstRefLine"), VInt(-1)) == Ok(pi.firstAcsLine)
  {
  }

  lemma SequenceParametersParts(s: Sections, sp: SequenceParameters)
    requires SequenceParametersOf(s) == Ok(sp)
    ensures DictGet(s.meas, Str("sFastImaging"), VDict([])).Ok?
    ensures DictGet(DictGet(s.meas, Str("sFastImaging"), VDict([])).value, Str("lSliceTurboFactor"), VInt(1))
            == Ok(sp.turboFactor)
    ensures Subscript(s.meas, Str("alTE")).Ok? && Iterate(Subscript(s.meas, Str("alTE")).value).Ok?
    ensures MillisToSeconds(Iterate(Subscript(s.meas, Str("alTE")).value).value) == Ok(sp.te)
    ensures Subscript(s.meas, Str("alTR")).Ok? && Iterate(Subscript(s.meas, Str("alTR")).value).Ok?
    ensures MillisToSeconds(Iterate(Subscript(s.meas, Str("alTR")).value).value) == Ok(sp.tr)
    ensures Subscript(s.meas, Str("alTI")).Ok? && Iterate(Subscript(s.meas, Str("alTI")).value).Ok?
    ensures MillisToSeconds(Iterate(Subscript(s.meas, Str("alTI")).value).value) == Ok(sp.ti)
    ensures Subscript(s.dicom, Str("adFlipAngleDegree")).Ok?
    ensures Iterate(Subscript(s.dicom, Str("adFlipAngleDegree")).value).Ok?
    ensures PositiveEntries(Iterate(Subscript(s.dicom, Str("adFlipAngleDegree")).value).value)
            == Ok(sp.flipAngleDegree)
  {
  }

  /** `v.get(name, default)` gives the default exactly when the key is absent. */
  lemma DictGetValue(v: Value, name: string, default: Value, r: Value)
    requires DictGet(v, Str(name), default) == Ok(r)
    ensures v.VDict?
    ensures Absent(v, name) ==> r == default
    ensures !Absent(v, name) ==> Lookup(v.entries, Str(name)) == Some(r)
  {
    LookupSome(v.entries, Str(name));
  }

  // ---------------------------------------------------------------------
  // Where each header entry comes from
  // ---------------------------------------------------------------------

  /** The trajectory of a normalized header, as the preamble computes it. */
  lemma TrajectorySource(raw: Value, h: Header, meas: Value)
    requires Normalize(raw) == Ok(h)
    requires Get(raw, MeasPath) == Ok(meas)
    ensures Get(meas, [Str("sKSpace"), Str("ucTrajectory"), Int(0)]).Ok?
    ensures TrajectoryOfCode(Get(meas, [Str("sKSpace"), Str("ucTrajectory"), Int(0)]).value)
            == Ok(h.encoding.trajectory)
  {
    var s, p := NormalizeParts(raw, h);
    PreambleParts(raw, s, p);
    EncodingParts(s, p, h.encoding);
  }

  /** The encoded matrix of a normalized header, as the preamble computes it. */
  lemma EncodedMatrixSource(raw: Value, h: Header, meas: Value, yaps: Value, iris: Value)
    requires Normalize(raw) == Ok(h)
    requires Get(raw, MeasPath) == Ok(meas) && Get(raw, YapsPath) == Ok(yaps) && Get(raw, IrisPath) == Ok(iris)
    ensures ReadoutSize(h.encoding.trajectory, yaps, iris) == Ok(h.encoding.encodedSpace.matrixSize.x)
    ensures PhaseSize(meas, yaps) == Ok(h.encoding.encodedSpace.matrixSize.y)
    ensures PartitionSize(yaps) == Ok(h.encoding.encodedSpace.matrixSize.z)
  {
    var s, p := NormalizeParts(raw, h);
    PreambleParts(raw, s, p);
    EncodingParts(s, p, h.encoding);
  }

  /** The header's segment count is the one the segmentation rules give. */
  lemma SegmentRule(raw: Value, h: Header, meas: Value, yaps: Value)
    requires Normalize(raw) == Ok(h)
    requires Get(raw, MeasPath) == Ok(meas) && Get(raw, YapsPath) == Ok(yaps)
    ensures SegmentOf(meas, yaps) == Ok(h.encoding.dimensions.segment)
  {
    var s, p := NormalizeParts(raw, h);
    PreambleParts(raw, s, p);
    EncodingParts(s, p, h.encoding);
    DimensionsParts(s, p.segment, h.encoding.dimensions);
  }

  /** The sections of a tree that normalizes. */
  lemma SectionsSource(raw: Value, h: Header)
    requires Normalize(raw) == Ok(h)
    ensures Get(raw, DicomPath).Ok? && Get(raw, YapsPath).Ok? && Get(raw, MeasPath).Ok?
    ensures Get(raw, HeaderPath).Ok? && Get(raw, IrisPath).Ok?
  {
  }

  /** The reconstruction space of a normalized header. */
  lemma ReconSpaceSources(raw: Value, h: Header, meas: Value, yaps: Value, iris: Value)
    requires Normalize(raw) == Ok(h)
    requires Get(raw, MeasPath) == Ok(meas) && Get(raw, YapsPath) == Ok(yaps) && Get(raw, IrisPath) == Ok(iris)
    ensures SliceDataOf(raw, meas).Ok?
    ensures ReconSpaceOf(Sections(Get(raw, DicomPath).value, yaps, meas, Get(raw, HeaderPath).value, iris),
                         SliceDataOf(raw, meas).value) == Ok(h.encoding.reconSpace)
  {
    var s, p := NormalizeParts(raw, h);
    PreambleParts(raw, s, p);
    EncodingParts(s, p, h.encoding);
  }

  /** The reconstruction field of view of a normalized header is the slice
      geometry's extents. */
  lemma ReconFieldOfViewSource(raw: Value, h: Header, meas: Value)
    requires Normalize(raw) == Ok(h)
    requires Get(raw, MeasPath) == Ok(meas)
    ensures SliceDataOf(raw, meas).Ok?
    ensures var sd := SliceDataOf(raw, meas).value;
      && Subscript(sd, Str("dReadoutFOV")) == Ok(h.encoding.reconSpace.fieldOfView.x)
      && Subscript(sd, Str("dPhaseFOV")) == Ok(h.encoding.reconSpace.fieldOfView.y)
      && Subscript(sd, Str("dThickness")) == Ok(h.encoding.reconSpace.fieldOfView.z)
  {
    SectionsSource(raw, h);
    var yaps, iris := Get(raw, YapsPath).value, Get(raw, IrisPath).value;
    ReconSpaceSources(raw, h, meas, yaps, iris);
    var sections := Sections(Get(raw, DicomPath).value, yaps, meas, Get(raw, HeaderPath).value, iris);
    ReconSpaceParts(sections, SliceDataOf(raw, meas).value, h.encoding.reconSpace);
  }

  /** Absent phase oversampling scales by the int 1, which changes nothing. */
  lemma UnitScale(derived: Value, x: Value, y: Value)
    requires Absent(derived, "phaseOverSampling")
    ensures Add(VInt(1), DictGet(derived, Str("phaseOverSampling"), VInt(0)).value) == Ok(VInt(1))
    ensures Mul(x, VInt(1)) == Ok(y) ==> y == x
  {
    DictGetAbsent(derived, "phaseOverSampling", VInt(0));
  }

  /** The encoded field of view of a normalized header. */
  lemma FieldOfViewSources(raw: Value, h: Header, yaps: Value, iris: Value)
    requires Normalize(raw) == Ok(h)
    requires Get(raw, YapsPath) == Ok(yaps) && Get(raw, IrisPath) == Ok(iris)
    ensures Get(raw, MeasPath).Ok? && SliceDataOf(raw, Get(raw, MeasPath).value).Ok?
    ensures Subscript(iris, Str("DERIVED")).Ok?
    ensures DictGet(Subscript(iris, Str("DERIVED")).value, Str("phaseOverSampling"), VInt(0)).Ok?
    ensures Get(yaps, [Str("flReadoutOSFactor"), Int(0)]).Ok?
    ensures
      var sd := SliceDataOf(raw, Get(raw, MeasPath).value).value;
      var pos := DictGet(Subscript(iris, Str("DERIVED")).value, Str("phaseOverSampling"), VInt(0)).value;
      var fov := h.encoding.encodedSpace.fieldOfView;
      && Add(VInt(1), pos).Ok?
      && Subscript(sd, Str("dReadoutFOV")).Ok?
      && Subscript(sd, Str("dPhaseFOV")).Ok?
      && Subscript(sd, Str("dThickness")).Ok?
      && Mul(Subscript(sd, Str("dReadoutFOV")).value,
             Get(yaps, [Str("flReadoutOSFactor"), Int(0)]).value) == Ok(fov.x)
      && Mul(Subscript(sd, Str("dPhaseFOV")).value, Add(VInt(1), pos).value) == Ok(fov.y)
      && Mul(Subscript(sd, Str("dThickness")).value, Add(VInt(1), pos).value) == Ok(fov.z)
  {
    var s, p := NormalizeParts(raw, h);
    PreambleParts(raw, s, p);
    EncodingParts(s, p, h.encoding);
  }

  /** The encoding dimensions of a normalized header. */
  lemma DimensionsSources(raw: Value, h: Header, meas: Value, yaps: Value)
    requires Normalize(raw) == Ok(h)
    requires Get(raw, MeasPath) == Ok(meas) && Get(raw, YapsPath) == Ok(yaps)
    ensures DimensionsOf(Sections(Get(raw, DicomPath).value, yaps, meas, Get(raw, HeaderPath).value,
                                  Get(raw, IrisPath).value),
                         h.encoding.dimensions.segment) == Ok(h.encoding.dimensions)
  {
    var s, p := NormalizeParts(raw, h);
    EncodingParts(s, p, h.encoding);
    DimensionsParts(s, p.segment, h.encoding.dimensions);
  }

  /** The parallel-imaging and sequence groups of a normalized header. */
  lemma ParametersSources(raw: Value, h: Header, meas: Value, yaps: Value, dicom: Value)
    requires Normalize(raw) == Ok(h)
    requires Get(raw, MeasPath) == Ok(meas) && Get(raw, YapsPath) == Ok(yaps) && Get(raw, DicomPath) == Ok(dicom)
    ensures
      var s := Sections(dicom, yaps, meas, Get(raw, HeaderPath).value, Get(raw, IrisPath).value);
      ParallelImagingOf(s) == Ok(h.parallelImaging) && SequenceParametersOf(s) == Ok(h.sequenceParameters)
  {
    var s, p := NormalizeParts(raw, h);
  }

  // ---------------------------------------------------------------------
  // The rules a successful normalization follows
  // ---------------------------------------------------------------------

  /** The header's trajectory is the table entry of `sKSpace.ucTrajectory[0]`. */
  lemma TrajectoryRule(raw: Value, h: Header, meas: Value)
    requires Normalize(raw) == Ok(h)
    requires Get(raw, MeasPath) == Ok(meas)
    ensures Get(meas, [Str("sKSpace"), Str("ucTrajectory"), Int(0)]).Ok?
    ensures var code := Get(meas, [Str("sKSpace"), Str("ucTrajectory"), Int(0)]).value;
      && (h.encoding.trajectory == Cartesian <==> EqualsInt(code, 1))
      && (h.encoding.trajectory == Radial <==> EqualsInt(code, 2))
      && (h.encoding.trajectory == Spiral <==> EqualsInt(code, 4))
      && (h.encoding.trajectory == Propeller <==> EqualsInt(code, 8))
  {
    TrajectorySource(raw, h, meas);
  }

  /** The slice geometry comes from `asSlice[0]` when the per-slice array
      has key 0 and from the legacy mirror otherwise; the reconstruction
      field of view is that geometry unscaled. */
  lemma SliceGeometryRule(raw: Value, h: Header, meas: Value)
    requires Normalize(raw) == Ok(h)
    requires Get(raw, MeasPath) == Ok(meas)
    ensures Get(meas, [Str("sSliceArray"), Str("asSlice")]).Ok?
    ensures Get(meas, [Str("sSliceArray"), Str("asSlice")]).value.VDict?
    ensures
      var a := Get(meas, [Str("sSliceArray"), Str("asSlice")]).value;
      var sd := if Int(0) in Keys(a.entries) then Subscript(a, Int(0)) else Get(raw, LegacySlicePath);
      && sd.Ok?
      && Subscript(sd.value, Str("dReadoutFOV")) == Ok(h.encoding.reconSpace.fieldOfView.x)
      && Subscript(sd.value, Str("dPhaseFOV")) == Ok(h.encoding.reconSpace.fieldOfView.y)
      && Subscript(sd.value, Str("dThickness")) == Ok(h.encoding.reconSpace.fieldOfView.z)
  {
    ReconFieldOfViewSource(raw, h, meas);
    var a := Get(meas, [Str("sSliceArray"), Str("asSlice")]).value;
    if Int(0) in Keys(a.entries) {
      SubscriptDict(a.entries, Int(0));
    }
  }

  /** The encoded field of view is the slice geometry scaled: the readout
      extent by the readout oversampling factor, the phase and slice extents
      both by `1 + phaseOverSampling` (0 when absent); without phase
      oversampling those two equal the reconstruction extents. */
  lemma FieldOfViewRule(raw: Value, h: Header, yaps: Value, iris: Value)
    requires Normalize(raw) == Ok(h)
    requires Get(raw, YapsPath) == Ok(yaps) && Get(raw, IrisPath) == Ok(iris)
    ensures Get(yaps, [Str("flReadoutOSFactor"), Int(0)]).Ok?
    ensures Subscript(iris, Str("DERIVED")).Ok?
    ensures
      var recon := h.encoding.reconSpace.fieldOfView;
      var encoded := h.encoding.encodedSpace.fieldOfView;
      var derived := Subscript(iris, Str("DERIVED")).value;
      && Mul(recon.x, Get(yaps, [Str("flReadoutOSFactor"), Int(0)]).value) == Ok(encoded.x)
      && DictGet(derived, Str("phaseOverSampling"), VInt(0)).Ok?
      && Add(VInt(1), DictGet(derived, Str("phaseOverSampling"), VInt(0)).value).Ok?
      && var scale := Add(VInt(1), DictGet(derived, Str("phaseOverSampling"), VInt(0)).value).value;
         && Mul(recon.y, scale) == Ok(encoded.y)
         && Mul(recon.z, scale) == Ok(encoded.z)
         && (Absent(derived, "phaseOverSampling") ==> encoded.y == recon.y && encoded.z == recon.z)
  {
    SectionsSource(raw, h);
    FieldOfViewSources(raw, h, yaps, iris);
    ReconFieldOfViewSource(raw, h, Get(raw, MeasPath).value);
    var derived := Subscript(iris, Str("DERIVED")).value;
    if Absent(derived, "phaseOverSampling") {
      var recon := h.encoding.reconSpace.fieldOfView;
      var encoded := h.encoding.encodedSpace.fieldOfView;
      UnitScale(derived, recon.y, encoded.y);
      UnitScale(derived, recon.z, encoded.z);
    }
  }

  /** The readout axis: `iNoOfFourierColumns` for a Cartesian trajectory,
      the derived `imageColumns` otherwise; the reconstruction readout size
      is the derived `ImageColumns`. */
  lemma ReadoutAxisRule(raw: Value, h: Header, yaps: Value, iris: Value)
    requires Normalize(raw) == Ok(h)
    requires Get(raw, YapsPath) == Ok(yaps) && Get(raw, IrisPath) == Ok(iris)
    ensures h.encoding.trajectory == Cartesian ==>
      Subscript(yaps, Str("iNoOfFourierColumns")) == Ok(h.encoding.encodedSpace.matrixSize.x)
    ensures h.encoding.trajectory != Cartesian ==>
      Get(iris, [Str("DERIVED"), Str("imageColumns")]) == Ok(h.encoding.encodedSpace.matrixSize.x)
    ensures Get(iris, [Str("DERIVED"), Str("ImageColumns")]) == Ok(h.encoding.reconSpace.matrixSize.x)
  {
    SectionsSource(raw, h);
    var meas := Get(raw, MeasPath).value;
    EncodedMatrixSource(raw, h, meas, yaps, iris);
    ReconSpaceSources(raw, h, meas, yaps, iris);
    var sections := Sections(Get(raw, DicomPath).value, yaps, meas, Get(raw, HeaderPath).value, iris);
    ReconSpaceParts(sections, SliceDataOf(raw, meas).value, h.encoding.reconSpace);
  }

  /** The phase axis takes `iPEFTLength`, halved when 2D interpolation is on. */
  lemma PhaseAxisRule(raw: Value, h: Header, meas: Value, yaps: Value)
    requires Normalize(raw) == Ok(h)
    requires Get(raw, MeasPath) == Ok(meas) && Get(raw, YapsPath) == Ok(yaps)
    ensures Subscript(yaps, Str("iPEFTLength")).Ok?
    ensures
      var len := Subscript(yaps, Str("iPEFTLength")).value;
      var y := h.encoding.encodedSpace.matrixSize.y;
      if InterpolationOn(meas) then IsNumber(len) && y == VReal(AsReal(len) / 2.0) else y == len
  {
    SectionsSource(raw, h);
    EncodedMatrixSource(raw, h, meas, yaps, Get(raw, IrisPath).value);
  }

  /** The slice axis and the second encoding step are 1 when `i3DFTLength`
      is 1; otherwise the encoded slice size is `i3DFTLength` (1 when
      `iNoOfFourierPartitions` is absent), the reconstruction slice size is
      `lImagesPerSlab` and the second step is `iNoOfFourierPartitions`
      (1 when absent). */
  lemma SliceAxisRule(raw: Value, h: Header, meas: Value, yaps: Value)
    requires Normalize(raw) == Ok(h)
    requires Get(raw, MeasPath) == Ok(meas) && Get(raw, YapsPath) == Ok(yaps)
    ensures yaps.VDict? && Subscript(yaps, Str("i3DFTLength")).Ok?
    ensures
      var len := Subscript(yaps, Str("i3DFTLength")).value;
      var encodedZ := h.encoding.encodedSpace.matrixSize.z;
      var reconZ := h.encoding.reconSpace.matrixSize.z;
      var step2 := h.encoding.dimensions.kspaceEncodingStep2;
      if EqualsInt(len, 1) then
        encodedZ == VInt(1) && reconZ == VInt(1) && step2 == VInt(1)
      else
        && encodedZ == (if Absent(yaps, "iNoOfFourierPartitions") then VInt(1) else len)
        && Get(meas, [Str("sKSpace"), Str("lImagesPerSlab")]) == Ok(reconZ)
        && step2 == (match Lookup(yaps.entries, Str("iNoOfFourierPartitions"))
                     case Some(n) => n
                     case None => VInt(1))
  {
    SectionsSource(raw, h);
    var iris := Get(raw, IrisPath).value;
    EncodedMatrixSource(raw, h, meas, yaps, iris);
    ReconSpaceSources(raw, h, meas, yaps, iris);
    DimensionsSources(raw, h, meas, yaps);
    var sections := Sections(Get(raw, DicomPath).value, yaps, meas, Get(raw, HeaderPath).value, iris);
    ReconSpaceParts(sections, SliceDataOf(raw, meas).value, h.encoding.reconSpace);
    DimensionsParts(sections, h.encoding.dimensions.segment, h.encoding.dimensions);
    if !EqualsInt(Subscript(yaps, Str("i3DFTLength")).value, 1) {
      DictGetValue(yaps, "iNoOfFourierPartitions", VInt(1), h.encoding.dimensions.kspaceEncodingStep2);
    }
  }

  /** With a segmentation mode but no `lSegments`, normalization fails: the
      candidate count is evaluated eagerly and subscripts `None`. */
  lemma SegmentModeWithoutCount(raw: Value, meas: Value, fast: Value)
    requires Get(raw, MeasPath) == Ok(meas)
    requires Subscript(meas, Str("sFastImaging")) == Ok(fast)
    requires fast.VDict? && Str("ucSegmentationMode") in Keys(fast.entries)
    requires Absent(fast, "lSegments")
    ensures Normalize(raw).Err?
  {
    if Normalize(raw).Ok? {
      var s, p := NormalizeParts(raw, Normalize(raw).value);
      PreambleParts(raw, s, p);
    }
  }

  /** Absent optional dimensions are 1; present ones are taken as they are. */
  lemma DimensionDefaultsRule(raw: Value, h: Header, meas: Value, yaps: Value)
    requires Normalize(raw) == Ok(h)
    requires Get(raw, MeasPath) == Ok(meas) && Get(raw, YapsPath) == Ok(yaps)
    ensures meas.VDict? && yaps.VDict?
    ensures Subscript(meas, Str("sPhysioImaging")).Ok? && Subscript(meas, Str("sSliceArray")).Ok?
    ensures var d := h.encoding.dimensions;
      && (Absent(meas, "lAverages") ==> d.average == VInt(1))
      && (Absent(meas, "lContrasts") ==> d.contrast == VInt(1))
      && (Absent(Subscript(meas, Str("sPhysioImaging")).value, "lPhases") ==> d.phase == VInt(1))
      && (Absent(meas, "lRepetitions") ==> d.repetition == VInt(1))
      && (Absent(yaps, "iNSet") ==> d.sets == VInt(1))
      && (Absent(Subscript(meas, Str("sSliceArray")).value, "lSize") ==> d.slice == VInt(1))
    ensures var d := h.encoding.dimensions;
      && (!Absent(meas, "lAverages") ==> Lookup(meas.entries, Str("lAverages")) == Some(d.average))
      && (!Absent(meas, "lContrasts") ==> Lookup(meas.entries, Str("lContrasts")) == Some(d.contrast))
      && (!Absent(meas, "lRepetitions") ==> Lookup(meas.entries, Str("lRepetitions")) == Some(d.repetition))
      && (!Absent(yaps, "iNSet") ==> Lookup(yaps.entries, Str("iNSet")) == Some(d.sets))
    ensures var d := h.encoding.dimensions;
      var physio := Subscript(meas, Str("sPhysioImaging")).value;
      var slices := Subscript(meas, Str("sSliceArray")).value;
      && (!Absent(physio, "lPhases") ==> physio.VDict? && Lookup(physio.entries, Str("lPhases")) == Some(d.phase))
      && (!Absent(slices, "lSize") ==> slices.VDict? && Lookup(slices.entries, Str("lSize")) == Some(d.slice))
  {
    DimensionsSources(raw, h, meas, yaps);
    var s := Sections(Get(raw, DicomPath).value, yaps, meas, Get(raw, HeaderPath).value, Get(raw, IrisPath).value);
    var d := h.encoding.dimensions;
    DimensionsParts(s, d.segment, d);
    DictGetValue(meas, "lAverages", VInt(1), d.average);
    DictGetValue(meas, "lContrasts", VInt(1), d.contrast);
    DictGetValue(Subscript(meas, Str("sPhysioImaging")).value, "lPhases", VInt(1), d.phase);
    DictGetValue(meas, "lRepetitions", VInt(1), d.repetition);
    DictGetValue(yaps, "iNSet", VInt(1), d.sets);
    DictGetValue(Subscript(meas, Str("sSliceArray")).value, "lSize", VInt(1), d.slice);
  }

  /** The defaults the parallel-imaging and sequence groups fall back to. */
  lemma ParameterDefaults(s: Sections, pi: ParallelImaging, sp: SequenceParameters)
    requires ParallelImagingOf(s) == Ok(pi) && SequenceParametersOf(s) == Ok(sp)
    ensures s.meas.VDict? && s.yaps.VDict?
    ensures
      && (Absent(s.meas, "sPat") ==>
            pi.accelerationFactor == AccelerationFactor(VInt(1), VInt(1)) && pi.nAcsLines == VInt(0))
      && (Absent(s.yaps, "lFirstRefLine") ==> pi.firstAcsLine == VInt(-1))
      && (!Absent(s.yaps, "lFirstRefLine") ==> Lookup(s.yaps.entries, Str("lFirstRefLine")) == Some(pi.firstAcsLine))
    ensures DictGet(s.meas, Str("sFastImaging"), VDict([])).Ok?
    ensures Absent(DictGet(s.meas, Str("sFastImaging"), VDict([])).value, "lSliceTurboFactor") ==>
      sp.turboFactor == VInt(1)
  {
    ParallelImagingParts(s, pi);
    SequenceParametersParts(s, sp);
    var meas, yaps := s.meas, s.yaps;
    var pat := DictGet(meas, Str("sPat"), VDict([])).value;
    DictGetValue(meas, "sPat", VDict([]), pat);
    if Absent(meas, "sPat") {
      DictGetValue(pat, "lAccelFactPE", VInt(1), pi.accelerationFactor.kspaceEncodingStep1);
      DictGetValue(pat, "lAccelFact3D", VInt(1), pi.accelerationFactor.kspaceEncodingStep2);
      DictGetValue(pat, "lRefLinesPE", VInt(0), pi.nAcsLines);
    }
    DictGetValue(yaps, "lFirstRefLine", VInt(-1), pi.firstAcsLine);
    var fast := DictGet(meas, Str("sFastImaging"), VDict([])).value;
    DictGetValue(meas, "sFastImaging", VDict([]), fast);
    DictGetValue(fast, "lSliceTurboFactor", VInt(1), sp.turboFactor);
  }

  /** Without `sPat` both acceleration factors are 1 and there are no ACS
      lines; without `lFirstRefLine` the first ACS line is -1; without
      `lSliceTurboFactor` the turbo factor is 1. */
  lemma ParameterDefaultsRule(raw: Value, h: Header, meas: Value, yaps: Value)
    requires Normalize(raw) == Ok(h)
    requires Get(raw, MeasPath) == Ok(meas) && Get(raw, YapsPath) == Ok(yaps)
    ensures meas.VDict? && yaps.VDict? && DictGet(meas, Str("sFastImaging"), VDict([])).Ok?
    ensures var pi := h.parallelImaging;
      && (Absent(meas, "sPat") ==>
            pi.accelerationFactor == AccelerationFactor(VInt(1), VInt(1)) && pi.nAcsLines == VInt(0))
      && (Absent(yaps, "lFirstRefLine") ==> pi.firstAcsLine == VInt(-1))
      && (!Absent(yaps, "lFirstRefLine") ==> Lookup(yaps.entries, Str("lFirstRefLine")) == Some(pi.firstAcsLine))
    ensures Absent(DictGet(meas, Str("sFastImaging"), VDict([])).value, "lSliceTurboFactor") ==>
      h.sequenceParameters.turboFactor == VInt(1)
  {
    var dicom := Get(raw, DicomPath).value;
    ParametersSources(raw, h, meas, yaps, dicom);
    var s := Sections(dicom, yaps, meas, Get(raw, HeaderPath).value, Get(raw, IrisPath).value);
    ParameterDefaults(s, h.parallelImaging, h.sequenceParameters);
  }

  /** TE, TR and TI are the positive entries of `alTE`, `alTR` and `alTI`
      in seconds; the flip angles are the positive entries of
      `adFlipAngleDegree`. */
  lemma SequenceTimesRule(raw: Value, h: Header, meas: Value, dicom: Value)
    requires Normalize(raw) == Ok(h)
    requires Get(raw, MeasPath) == Ok(meas) && Get(raw, DicomPath) == Ok(dicom)
    ensures Subscript(meas, Str("alTE")).Ok? && Iterate(Subscript(meas, Str("alTE")).value).Ok?
    ensures MillisToSeconds(Iterate(Subscript(meas, Str("alTE")).value).value) == Ok(h.sequenceParameters.te)
    ensures Subscript(meas, Str("alTR")).Ok? && Iterate(Subscript(meas, Str("alTR")).value).Ok?
    ensures MillisToSeconds(Iterate(Subscript(meas, Str("alTR")).value).value) == Ok(h.sequenceParameters.tr)
    ensures Subscript(meas, Str("alTI")).Ok? && Iterate(Subscript(meas, Str("alTI")).value).Ok?
    ensures MillisToSeconds(Iterate(Subscript(meas, Str("alTI")).value).value) == Ok(h.sequenceParameters.ti)
    ensures Subscript(dicom, Str("adFlipAngleDegree")).Ok?
    ensures Iterate(Subscript(dicom, Str("adFlipAngleDegree")).value).Ok?
    ensures PositiveEntries(Iterate(Subscript(dicom, Str("adFlipAngleDegree")).value).value)
            == Ok(h.sequenceParameters.flipAngleDegree)
  {
    var s, p := NormalizeParts(raw, h);
    SequenceParametersParts(s, h.sequenceParameters);
  }

  // ---------------------------------------------------------------------
  // Required entries
  // ---------------------------------------------------------------------

  const DicomRequired: seq<seq<Key>> := [
    [Str("InstitutionName")], [Str("Manufacturer")], [Str("ManufacturersModelName")],
    [Str("tMRAcquisitionType")], [Str("adFlipAngleDegree")]]

  const YapsRequired: seq<seq<Key>> := [
    [Str("iPEFTLength")], [Str("i3DFTLength")], [Str("iNoOfFourierLines")],
    [Str("iMaxNoOfRxChannels")], [Str("flMagneticFieldStrength")],
    [Str("tFrameOfReference"), Int(0)], [Str("flReadoutOSFactor"), Int(0)]]

  const MeasRequired: seq<seq<Key>> := [
    [Str("sKSpace"), Str("ucTrajectory"), Int(0)], [Str("sKSpace"), Str("dPhaseResolution")],
    [Str("sSliceArray"), Str("asSlice")], [Str("sFastImaging")], [Str("sPhysioImaging")],
    [Str("tProtocolName")], [Str("alTE")], [Str("alTR")], [Str("alTI")]]

  const HeaderRequired: seq<seq<Key>> := [[Str("MeasUID")]]

  const IrisRequired: seq<seq<Key>> := [
    [Str("DERIVED"), Str("ImageColumns")], [Str("DERIVED"), Str("ImageLines")]]

  /** Every path of `qs` resolves from `section`. */
  predicate AllResolve(section: Value, qs: seq<seq<Key>>) {
    forall q :: q in qs ==> Get(section, q).Ok?
  }

  /** Every entry the constructor subscripts unconditionally resolves in
      the raw tree. */
  predicate RequiredPresent(raw: Value) {
    && (forall q :: q in DicomRequired ==> Get(raw, DicomPath + q).Ok?)
    && (forall q :: q in YapsRequired ==> Get(raw, YapsPath + q).Ok?)
    && (forall q :: q in MeasRequired ==> Get(raw, MeasPath + q).Ok?)
    && (forall q :: q in HeaderRequired ==> Get(raw, HeaderPath + q).Ok?)
    && (forall q :: q in IrisRequired ==> Get(raw, IrisPath + q).Ok?)
  }

  lemma Lift(raw: Value, path: seq<Key>, section: Value, qs: seq<seq<Key>>)
    requires Get(raw, path) == Ok(section) && AllResolve(section, qs)
    ensures forall q :: q in qs ==> Get(raw, path + q).Ok?
  {
    forall q | q in qs ensures Get(raw, path + q).Ok? {
      GetAppend(raw, path, q);
    }
  }

  lemma DicomResolves(dicom: Value)
    requires Subscript(dicom, Str("InstitutionName")).Ok? && Subscript(dicom, Str("Manufacturer")).Ok?
    requires Subscript(dicom, Str("ManufacturersModelName")).Ok?
    requires Subscript(dicom, Str("tMRAcquisitionType")).Ok? && Subscript(dicom, Str("adFlipAngleDegree")).Ok?
    ensures AllResolve(dicom, DicomRequired)
  {
  }

  lemma YapsResolves(yaps: Value)
    requires Subscript(yaps, Str("iPEFTLength")).Ok? && Subscript(yaps, Str("i3DFTLength")).Ok?
    requires Subscript(yaps, Str("iNoOfFourierLines")).Ok? && Subscript(yaps, Str("iMaxNoOfRxChannels")).Ok?
    requires Subscript(yaps, Str("flMagneticFieldStrength")).Ok?
    requires Get(yaps, [Str("tFrameOfReference"), Int(0)]).Ok? && Get(yaps, [Str("flReadoutOSFactor"), Int(0)]).Ok?
    ensures AllResolve(yaps, YapsRequired)
  {
  }

  lemma MeasResolves(meas: Value)
    requires Get(meas, [Str("sKSpace"), Str("ucTrajectory"), Int(0)]).Ok?
    requires Get(meas, [Str("sKSpace"), Str("dPhaseResolution")]).Ok?
    requires Get(meas, [Str("sSliceArray"), Str("asSlice")]).Ok?
    requires Subscript(meas, Str("sFastImaging")).Ok? && Subscript(meas, Str("sPhysioImaging")).Ok?
    requires Subscript(meas, Str("tProtocolName")).Ok? && Subscript(meas, Str("alTE")).Ok?
    requires Subscript(meas, Str("alTR")).Ok? && Subscript(meas, Str("alTI")).Ok?
    ensures AllResolve(meas, MeasRequired)
  {
  }

  lemma IrisResolves(iris: Value)
    requires Get(iris, [Str("DERIVED"), Str("ImageColumns")]).Ok? && Get(iris, [Str("DERIVED"), Str("ImageLines")]).Ok?
    ensures AllResolve(iris, IrisRequired)
  {
  }

  /** What the groups of a successful normalization read from the sections. */
  lemma GroupsRead(raw: Value, s: Sections, p: Preamble, h: Header)
    requires PreambleOf(raw, s) == Ok(p)
    requires AcquisitionSystemOf(s) == Ok(h.acquisitionSystem) && MeasurementOf(s) == Ok(h.measurement)
    requires EncodingOf(s, p) == Ok(h.encoding) && SequenceParametersOf(s) == Ok(h.sequenceParameters)
    ensures AllResolve(s.dicom, DicomRequired) && AllResolve(s.yaps, YapsRequired)
    ensures AllResolve(s.meas, MeasRequired) && AllResolve(s.header, HeaderRequired)
    ensures AllResolve(s.iris, IrisRequired)
  {
    PreambleParts(raw, s, p);
    AcquisitionSystemParts(s, h.acquisitionSystem);
    MeasurementParts(s, h.measurement);
    EncodingParts(s, p, h.encoding);
    ReconSpaceParts(s, p.sliceData, h.encoding.reconSpace);
    DimensionsParts(s, p.segment, h.encoding.dimensions);
    SequenceParametersParts(s, h.sequenceParameters);
    DicomResolves(s.dicom);
    YapsResolves(s.yaps);
    MeasResolves(s.meas);
    IrisResolves(s.iris);
  }

  /** Normalization fails unless every required entry is present; in
      particular without `tProtocolName`, `MeasUID`, `ucTrajectory` or
      `alTE`. */
  lemma RequiredEntries(raw: Value)
    ensures Normalize(raw).Ok? ==> RequiredPresent(raw)
  {
    if Normalize(raw).Ok? {
      var h := Normalize(raw).value;
      var s, p := NormalizeParts(raw, h);
      GroupsRead(raw, s, p, h);
      Lift(raw, DicomPath, s.dicom, DicomRequired);
      Lift(raw, YapsPath, s.yaps, YapsRequired);
      Lift(raw, MeasPath, s.meas, MeasRequired);
      Lift(raw, HeaderPath, s.header, HeaderRequired);
      Lift(raw, IrisPath, s.iris, IrisRequired);
    }
  }

  // ---------------------------------------------------------------------
  // The list filters
  // ---------------------------------------------------------------------

  /** The time filter looks at the first entry, then filters the rest. */
  lemma MillisToSecondsCons(a: seq<Value>)
    requires a != []
    ensures MillisToSeconds(a) ==
      match Greater(a[0], VInt(0))
      case Err(e) => Err(e)
      case Ok(p) =>
        match MillisToSeconds(a[1..])
        case Err(e) => Err(e)
        case Ok(rest) => Ok((if p then [AsReal(a[0]) / 1000.0] else []) + rest)
  {
    var r := MillisToSeconds(a[1..]);
    if r.Ok? {
      assert [] + r.value == r.value;
    }
  }

  /** The time filter works entry by entry: it maps a concatenation to the
      concatenation of its results. */
  lemma {:induction false} MillisToSecondsAppend(a: seq<Value>, b: seq<Value>)
    ensures MillisToSeconds(a + b) ==
      (var x :- MillisToSeconds(a); var y :- MillisToSeconds(b); Ok(x + y))
    decreases |a|
  {
    var rb := MillisToSeconds(b);
    if a == [] {
      assert a + b == b;
      if rb.Ok? {
        assert [] + rb.value == rb.value;
      }
    } else {
      var ab := a + b;
      assert ab[0] == a[0] && ab[1..] == a[1..] + b;
      MillisToSecondsAppend(a[1..], b);
      MillisToSecondsCons(a);
      MillisToSecondsCons(ab);
      var ra := MillisToSeconds(a[1..]);
      var g := Greater(a[0], VInt(0));
      if g.Ok? && ra.Ok? && rb.Ok? {
        var head := if g.value then [AsReal(a[0]) / 1000.0] else [];
        assert head + (ra.value + rb.value) == (head + ra.value) + rb.value;
      }
    }
  }

  /** A single entry becomes its value in seconds when positive and nothing
      otherwise. */
  lemma MillisToSecondsSingle(v: Value)
    ensures MillisToSeconds([v]) ==
      if !IsNumber(v) then Err(TypeError)
      else Ok(if AsReal(v) > 0.0 then [AsReal(v) / 1000.0] else [])
  {
    MillisToSecondsCons([v]);
    assert [v][1..] == [] && [v][0] == v;
    assert MillisToSeconds([]) == Ok([]);
    if IsNumber(v) {
      assert [AsReal(v) / 1000.0] + [] == [AsReal(v) / 1000.0];
    }
  }

  /** The angle filter looks at the first entry, then filters the rest. */
  lemma PositiveEntriesCons(a: seq<Value>)
    requires a != []
    ensures PositiveEntries(a) ==
      match Greater(a[0], VInt(0))
      case Err(e) => Err(e)
      case Ok(p) =>
        match PositiveEntries(a[1..])
        case Err(e) => Err(e)
        case Ok(rest) => Ok((if p then [a[0]] else []) + rest)
  {
    var r := PositiveEntries(a[1..]);
    if r.Ok? {
      assert [] + r.value == r.value;
    }
  }

  /** The angle filter works entry by entry in the same way. */
  lemma {:induction false} PositiveEntriesAppend(a: seq<Value>, b: seq<Value>)
    ensures PositiveEntries(a + b) ==
      (var x :- PositiveEntries(a); var y :- PositiveEntries(b); Ok(x + y))
    decreases |a|
  {
    var rb := PositiveEntries(b);
    if a == [] {
      assert a + b == b;
      if rb.Ok? {
        assert [] + rb.value == rb.value;
      }
    } else {
      var ab := a + b;
      assert ab[0] == a[0] && ab[1..] == a[1..] + b;
      PositiveEntriesAppend(a[1..], b);
      PositiveEntriesCons(a);
      PositiveEntriesCons(ab);
      var ra := PositiveEntries(a[1..]);
      var g := Greater(a[0], VInt(0));
      if g.Ok? && ra.Ok? && rb.Ok? {
        var head := if g.value then [a[0]] else [];
        assert head + (ra.value + rb.value) == (head + ra.value) + rb.value;
      }
    }
  }

  /** A single entry is kept when positive and dropped otherwise. */
  lemma PositiveEntriesSingle(v: Value)
    ensures PositiveEntries([v]) ==
      if !IsNumber(v) then Err(TypeError)
      else Ok(if AsReal(v) > 0.0 then [v] else [])
  {
    PositiveEntriesCons([v]);
    assert [v][1..] == [] && [v][0] == v;
    assert PositiveEntries([]) == Ok([]);
    if IsNumber(v) {
      assert [v] + [] == [v];
    }
  }

  /** Echo times 0, 1500, -200 and 900 ms become 1.5 s and 0.9 s. */
  lemma EchoTimesExample()
    ensures MillisToSeconds([VInt(0), VInt(1500), VInt(-200), VInt(900)]) == Ok([1.5, 0.9])
  {
    var a, b, c, d := [VInt(0)], [VInt(1500)], [VInt(-200)], [VInt(900)];
    MillisToSecondsSingle(VInt(0));
    MillisToSecondsSingle(VInt(1500));
    MillisToSecondsSingle(VInt(-200));
    MillisToSecondsSingle(VInt(900));
    assert MillisToSeconds(a) == Ok([]) && MillisToSeconds(c) == Ok([]);
    assert MillisToSeconds(b) == Ok([1.5]) && MillisToSeconds(d) == Ok([0.9]);
    MillisToSecondsAppend(c, d);
    assert MillisToSeconds(c + d) == Ok([0.9]);
    MillisToSecondsAppend(b, c + d);
    assert [1.5] + [0.9] == [1.5, 0.9];
    assert MillisToSeconds(b + (c + d)) == Ok([1.5, 0.9]);
    MillisToSecondsAppend(a, b + (c + d));
    assert a + (b + (c + d)) == [VInt(0), VInt(1500), VInt(-200), VInt(900)];
  }

  /** A 256-line phase encoding under 2D interpolation gives 128.0. */
  lemma HalvedPhaseExample()
    ensures PhaseSize(
      VDict([Entry(Str("sKSpace"), VDict([Entry(Str("uc2DInterpolation"), VInt(1))]))]),
      VDict([Entry(Str("iPEFTLength"), VInt(256))])) == Ok(VReal(128.0))
  {
  }
}
