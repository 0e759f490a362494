/**
 * A raw parameter tree that `Image.__init__` accepts, and the header it
 * builds.  The tree holds every entry the constructor subscripts and none of
 * the optional ones, so the header shows each documented default.
 */
module SimpleRdExample {
  import opened PyValues
  import opened PyOps
  import opened SimpleRd

  // ---------------------------------------------------------------------
  // The tree: a small Cartesian 2D protocol
  // ---------------------------------------------------------------------

  const DicomEntries: seq<Entry> := [
    Entry(Str("InstitutionName"), VStr("Clinic")),
    Entry(Str("Manufacturer"), VStr("SIEMENS")),
    Entry(Str("ManufacturersModelName"), VStr("Prisma")),
    Entry(Str("tMRAcquisitionType"), VStr("2D")),
    Entry(Str("adFlipAngleDegree"), VList([VInt(90), VInt(0)]))]

  /** `YAPS`, with the frame-of-reference UID `frame`. */
  function YapsEntries(frame: string): seq<Entry> {[
    Entry(Str("iNoOfFourierColumns"), VInt(512)),
    Entry(Str("iPEFTLength"), VInt(256)),
    Entry(Str("i3DFTLength"), VInt(1)),
    Entry(Str("iMaxNoOfRxChannels"), VInt(32)),
    Entry(Str("flMagneticFieldStrength"), VReal(3.0)),
    Entry(Str("tFrameOfReference"), VList([VStr(frame)])),
    Entry(Str("flReadoutOSFactor"), VList([VReal(2.0)])),
    Entry(Str("iNoOfFourierLines"), VInt(256))]
  }

  const KSpaceEntries: seq<Entry> := [
    Entry(Str("ucTrajectory"), VList([VInt(1)])),
    Entry(Str("dPhaseResolution"), VReal(1.0))]

  const SliceEntries: seq<Entry> := [
    Entry(Str("dReadoutFOV"), VReal(250.0)),
    Entry(Str("dPhaseFOV"), VReal(200.0)),
    Entry(Str("dThickness"), VReal(5.0))]

  const AsSliceEntries: seq<Entry> := [Entry(Int(0), VDict(SliceEntries))]

  const SliceArrayEntries: seq<Entry> := [Entry(Str("asSlice"), VDict(AsSliceEntries))]

  const MeasEntries: seq<Entry> := [
    Entry(Str("sKSpace"), VDict(KSpaceEntries)),
    Entry(Str("sSliceArray"), VDict(SliceArrayEntries)),
    Entry(Str("sFastImaging"), VDict([])),
    Entry(Str("tProtocolName"), VStr("t2_tse")),
    Entry(Str("sPhysioImaging"), VDict([])),
    Entry(Str("alTE"), VList([VInt(1500), VInt(0)])),
    Entry(Str("alTR"), VList([VInt(5000)])),
    Entry(Str("alTI"), VList([VInt(0)]))]

  const HeaderEntries: seq<Entry> := [Entry(Str("MeasUID"), VInt(42))]

  const DerivedEntries: seq<Entry> := [
    Entry(Str("ImageColumns"), VInt(256)),
    Entry(Str("ImageLines"), VInt(256))]

  const IrisEntries: seq<Entry> := [Entry(Str("DERIVED"), VDict(DerivedEntries))]

  /** `{'xprot': {'': groups}}`, as the raw tree nests each group. */
  function Protocol(groups: seq<Entry>): Value {
    VDict([Entry(Str("xprot"), VDict([Entry(Str(""), VDict(groups))]))])
  }

  function MeasGroups(frame: string): seq<Entry> {[
    Entry(Str("YAPS"), VDict(YapsEntries(frame))),
    Entry(Str("MEAS"), VDict(MeasEntries)),
    Entry(Str("HEADER"), VDict(HeaderEntries)),
    Entry(Str("IRIS"), VDict(IrisEntries))]
  }

  const DicomGroups: seq<Entry> := [Entry(Str("DICOM"), VDict(DicomEntries))]

  /** The raw tree, with the frame-of-reference UID `frame`. */
  function Raw(frame: string): Value {
    VDict([
      Entry(Str("Dicom"), Protocol(DicomGroups)),
      Entry(Str("Meas"), Protocol(MeasGroups(frame)))])
  }

  function Parts(frame: string): Sections {
    Sections(VDict(DicomEntries), VDict(YapsEntries(frame)), VDict(MeasEntries),
             VDict(HeaderEntries), VDict(IrisEntries))
  }

  // ---------------------------------------------------------------------
  // Lookups in the tree
  // ---------------------------------------------------------------------

  /** The i-th entry of a dictionary display is what its key finds. */
  lemma At(d: seq<Entry>, i: nat)
    requires i < |d| && forall j :: 0 <= j < i ==> d[j].key != d[i].key
    ensures Subscript(VDict(d), d[i].key) == Ok(d[i].val)
  {
    LookupAt(d, i);
  }

  /** A key the display does not hold. */
  lemma Missing(d: seq<Entry>, k: Key)
    requires forall j :: 0 <= j < |d| ==> d[j].key != k
    ensures DictGet(VDict(d), k, VNone) == Ok(VNone)
    ensures forall x :: DictGet(VDict(d), k, x) == Ok(x)
    ensures HasKey(VDict(d), k) == Ok(false)
  {
    LookupMissing(d, k);
    LookupSome(d, k);
  }

  lemma Path(v: Value, k: Key, rest: seq<Key>)
    ensures Get(v, [k] + rest) == (var w :- Subscript(v, k); Get(w, rest))
  {
    assert ([k] + rest)[0] == k && ([k] + rest)[1..] == rest;
  }

  lemma ProtocolGroup(groups: seq<Entry>, i: nat)
    requires i < |groups| && forall j :: 0 <= j < i ==> groups[j].key != groups[i].key
    ensures Get(Protocol(groups), [Str("xprot"), Str(""), groups[i].key]) == Ok(groups[i].val)
  {
    At([Entry(Str("xprot"), VDict([Entry(Str(""), VDict(groups))]))], 0);
    At([Entry(Str(""), VDict(groups))], 0);
    At(groups, i);
    Path(Protocol(groups), Str("xprot"), [Str(""), groups[i].key]);
    Path(VDict([Entry(Str(""), VDict(groups))]), Str(""), [groups[i].key]);
    Path(VDict(groups), groups[i].key, []);
  }

  lemma ExampleSections(frame: string)
    ensures SectionsOf(Raw(frame)) == Ok(Parts(frame))
  {
    var top := [Entry(Str("Dicom"), Protocol(DicomGroups)), Entry(Str("Meas"), Protocol(MeasGroups(frame)))];
    At(top, 0);
    At(top, 1);
    ProtocolGroup(DicomGroups, 0);
    ProtocolGroup(MeasGroups(frame), 0);
    ProtocolGroup(MeasGroups(frame), 1);
    ProtocolGroup(MeasGroups(frame), 2);
    ProtocolGroup(MeasGroups(frame), 3);
    Path(Raw(frame), Str("Dicom"), [Str("xprot"), Str(""), Str("DICOM")]);
    Path(Raw(frame), Str("Meas"), [Str("xprot"), Str(""), Str("YAPS")]);
    Path(Raw(frame), Str("Meas"), [Str("xprot"), Str(""), Str("MEAS")]);
    Path(Raw(frame), Str("Meas"), [Str("xprot"), Str(""), Str("HEADER")]);
    Path(Raw(frame), Str("Meas"), [Str("xprot"), Str(""), Str("IRIS")]);
  }

  /** The entries of `MEAS` the preamble reads. */
  lemma MeasLookups()
    ensures Subscript(VDict(MeasEntries), Str("sKSpace")) == Ok(VDict(KSpaceEntries))
    ensures Subscript(VDict(MeasEntries), Str("sSliceArray")) == Ok(VDict(SliceArrayEntries))
    ensures Subscript(VDict(MeasEntries), Str("sFastImaging")) == Ok(VDict([]))
    ensures Get(VDict(MeasEntries), [Str("sKSpace"), Str("ucTrajectory"), Int(0)]) == Ok(VInt(1))
    ensures Get(VDict(MeasEntries), [Str("sKSpace"), Str("dPhaseResolution")]) == Ok(VReal(1.0))
    ensures Get(VDict(MeasEntries), [Str("sSliceArray"), Str("asSlice")]) == Ok(VDict(AsSliceEntries))
    ensures Get(VDict(MeasEntries), [Str("sKSpace"), Str("uc2DInterpolation")]).Err?
  {
    MeasFront();
    KSpaceLookups();
    SliceArrayLookups();
  }

  lemma MeasFront()
    ensures Subscript(VDict(MeasEntries), Str("sKSpace")) == Ok(VDict(KSpaceEntries))
    ensures Subscript(VDict(MeasEntries), Str("sSliceArray")) == Ok(VDict(SliceArrayEntries))
    ensures Subscript(VDict(MeasEntries), Str("sFastImaging")) == Ok(VDict([]))
  {
    At(MeasEntries, 0);
    At(MeasEntries, 1);
    At(MeasEntries, 2);
  }

  lemma KSpaceLookups()
    requires Subscript(VDict(MeasEntries), Str("sKSpace")) == Ok(VDict(KSpaceEntries))
    ensures Get(VDict(MeasEntries), [Str("sKSpace"), Str("ucTrajectory"), Int(0)]) == Ok(VInt(1))
    ensures Get(VDict(MeasEntries), [Str("sKSpace"), Str("dPhaseResolution")]) == Ok(VReal(1.0))
    ensures Get(VDict(MeasEntries), [Str("sKSpace"), Str("uc2DInterpolation")]).Err?
  {
    At(KSpaceEntries, 0);
    At(KSpaceEntries, 1);
    SubscriptDict(KSpaceEntries, Str("uc2DInterpolation"));
    Missing(KSpaceEntries, Str("uc2DInterpolation"));
    Path(VDict(MeasEntries), Str("sKSpace"), [Str("ucTrajectory"), Int(0)]);
    Path(VDict(KSpaceEntries), Str("ucTrajectory"), [Int(0)]);
    Path(VList([VInt(1)]), Int(0), []);
    Path(VDict(MeasEntries), Str("sKSpace"), [Str("dPhaseResolution")]);
    Path(VDict(KSpaceEntries), Str("dPhaseResolution"), []);
    Path(VDict(MeasEntries), Str("sKSpace"), [Str("uc2DInterpolation")]);
    Path(VDict(KSpaceEntries), Str("uc2DInterpolation"), []);
  }

  lemma SliceArrayLookups()
    requires Subscript(VDict(MeasEntries), Str("sSliceArray")) == Ok(VDict(SliceArrayEntries))
    ensures Get(VDict(MeasEntries), [Str("sSliceArray"), Str("asSlice")]) == Ok(VDict(AsSliceEntries))
  {
    At(SliceArrayEntries, 0);
    Path(VDict(MeasEntries), Str("sSliceArray"), [Str("asSlice")]);
    Path(VDict(SliceArrayEntries), Str("asSlice"), []);
  }

  /** The entries of `YAPS` the constructor reads, and the ones it finds
      absent. */
  lemma YapsLookups(frame: string)
    ensures var yaps := VDict(YapsEntries(frame));
      && Subscript(yaps, Str("iNoOfFourierColumns")) == Ok(VInt(512))
      && Subscript(yaps, Str("iPEFTLength")) == Ok(VInt(256))
      && Subscript(yaps, Str("i3DFTLength")) == Ok(VInt(1))
      && Subscript(yaps, Str("iMaxNoOfRxChannels")) == Ok(VInt(32))
      && Subscript(yaps, Str("flMagneticFieldStrength")) == Ok(VReal(3.0))
      && Get(yaps, [Str("tFrameOfReference"), Int(0)]) == Ok(VStr(frame))
      && Get(yaps, [Str("flReadoutOSFactor"), Int(0)]) == Ok(VReal(2.0))
      && Subscript(yaps, Str("iNoOfFourierLines")) == Ok(VInt(256))
    ensures var yaps := VDict(YapsEntries(frame));
      && HasKey(yaps, Str("iNoOfFourierPartitions")) == Ok(false)
      && (forall x :: DictGet(yaps, Str("iNSet"), x) == Ok(x))
      && (forall x :: DictGet(yaps, Str("lFirstRefLine"), x) == Ok(x))
  {
    var d := YapsEntries(frame);
    YapsFront(frame);
    YapsBack(frame);
    YapsAbsent(frame);
    Path(VDict(d), Str("tFrameOfReference"), [Int(0)]);
    Path(VList([VStr(frame)]), Int(0), []);
    Path(VDict(d), Str("flReadoutOSFactor"), [Int(0)]);
    Path(VList([VReal(2.0)]), Int(0), []);
  }

  lemma ReadoutOversampling(frame: string)
    ensures Get(VDict(YapsEntries(frame)), [Str("flReadoutOSFactor"), Int(0)]) == Ok(VReal(2.0))
  {
    YapsBack(frame);
    Path(VDict(YapsEntries(frame)), Str("flReadoutOSFactor"), [Int(0)]);
    Path(VList([VReal(2.0)]), Int(0), []);
  }

  lemma YapsFront(frame: string)
    ensures var yaps := VDict(YapsEntries(frame));
      && Subscript(yaps, Str("iNoOfFourierColumns")) == Ok(VInt(512))
      && Subscript(yaps, Str("iPEFTLength")) == Ok(VInt(256))
      && Subscript(yaps, Str("i3DFTLength")) == Ok(VInt(1))
      && Subscript(yaps, Str("iMaxNoOfRxChannels")) == Ok(VInt(32))
  {
    var d := YapsEntries(frame);
    At(d, 0);
    At(d, 1);
    At(d, 2);
    At(d, 3);
  }

  lemma YapsBack(frame: string)
    ensures var yaps := VDict(YapsEntries(frame));
      && Subscript(yaps, Str("flMagneticFieldStrength")) == Ok(VReal(3.0))
      && Subscript(yaps, Str("tFrameOfReference")) == Ok(VList([VStr(frame)]))
      && Subscript(yaps, Str("flReadoutOSFactor")) == Ok(VList([VReal(2.0)]))
      && Subscript(yaps, Str("iNoOfFourierLines")) == Ok(VInt(256))
  {
    var d := YapsEntries(frame);
    At(d, 4);
    At(d, 5);
    At(d, 6);
    At(d, 7);
  }

  lemma YapsAbsent(frame: string)
    ensures var yaps := VDict(YapsEntries(frame));
      && HasKey(yaps, Str("iNoOfFourierPartitions")) == Ok(false)
      && (forall x :: DictGet(yaps, Str("iNSet"), x) == Ok(x))
      && (forall x :: DictGet(yaps, Str("lFirstRefLine"), x) == Ok(x))
  {
    var d := YapsEntries(frame);
    Missing(d, Str("iNoOfFourierPartitions"));
    Missing(d, Str("iNSet"));
    Missing(d, Str("lFirstRefLine"));
  }

  lemma ExamplePreamble(frame: string)
    ensures PreambleOf(Raw(frame), Parts(frame)) ==
      Ok(Preamble(VInt(0), Cartesian, VDict(SliceEntries), Triple(VInt(512), VInt(256), VInt(1)), VInt(1)))
  {
    MeasLookups();
    At(IrisEntries, 0);
    Missing(DerivedEntries, Str("phaseOverSampling"));
    ExampleSliceData(frame);
    ExampleMatrix(frame);
  }

  /** Key 0 is in `asSlice`, so the slice geometry is its entry. */
  lemma ExampleSliceData(frame: string)
    ensures SliceDataOf(Raw(frame), VDict(MeasEntries)) == Ok(VDict(SliceEntries))
  {
    MeasFront();
    SliceArrayLookups();
    At(AsSliceEntries, 0);
    SubscriptDict(AsSliceEntries, Int(0));
  }

  /** The encoded matrix and the segment. */
  lemma ExampleMatrix(frame: string)
    ensures ReadoutSize(Cartesian, VDict(YapsEntries(frame)), VDict(IrisEntries)) == Ok(VInt(512))
    ensures PhaseSize(VDict(MeasEntries), VDict(YapsEntries(frame))) == Ok(VInt(256))
    ensures PartitionSize(VDict(YapsEntries(frame))) == Ok(VInt(1))
    ensures SegmentOf(VDict(MeasEntries), VDict(YapsEntries(frame))) == Ok(VInt(1))
  {
    MeasFront();
    YapsFront(frame);
    YapsAbsent(frame);
    Missing(KSpaceEntries, Str("uc2DInterpolation"));
  }

  lemma DicomLookups()
    ensures var dicom := VDict(DicomEntries);
      && Subscript(dicom, Str("InstitutionName")) == Ok(VStr("Clinic"))
      && Subscript(dicom, Str("Manufacturer")) == Ok(VStr("SIEMENS"))
      && Subscript(dicom, Str("ManufacturersModelName")) == Ok(VStr("Prisma"))
      && Subscript(dicom, Str("tMRAcquisitionType")) == Ok(VStr("2D"))
      && Subscript(dicom, Str("adFlipAngleDegree")) == Ok(VList([VInt(90), VInt(0)]))
  {
    At(DicomEntries, 0);
    At(DicomEntries, 1);
    At(DicomEntries, 2);
    At(DicomEntries, 3);
    At(DicomEntries, 4);
  }

  /** The remaining entries of `MEAS`. */
  lemma MeasRest()
    ensures var meas := VDict(MeasEntries);
      && Subscript(meas, Str("tProtocolName")) == Ok(VStr("t2_tse"))
      && Subscript(meas, Str("sPhysioImaging")) == Ok(VDict([]))
      && Subscript(meas, Str("alTE")) == Ok(VList([VInt(1500), VInt(0)]))
      && Subscript(meas, Str("alTR")) == Ok(VList([VInt(5000)]))
      && Subscript(meas, Str("alTI")) == Ok(VList([VInt(0)]))
      && (forall x :: DictGet(meas, Str("sFastImaging"), x) == Ok(VDict([])))
  {
    MeasMiddle();
    MeasTimes();
  }

  lemma MeasMiddle()
    ensures var meas := VDict(MeasEntries);
      && Subscript(meas, Str("tProtocolName")) == Ok(VStr("t2_tse"))
      && Subscript(meas, Str("sPhysioImaging")) == Ok(VDict([]))
      && (forall x :: DictGet(meas, Str("sFastImaging"), x) == Ok(VDict([])))
  {
    At(MeasEntries, 2);
    At(MeasEntries, 3);
    At(MeasEntries, 4);
  }

  lemma MeasTimes()
    ensures var meas := VDict(MeasEntries);
      && Subscript(meas, Str("alTE")) == Ok(VList([VInt(1500), VInt(0)]))
      && Subscript(meas, Str("alTR")) == Ok(VList([VInt(5000)]))
      && Subscript(meas, Str("alTI")) == Ok(VList([VInt(0)]))
  {
    At(MeasEntries, 5);
    At(MeasEntries, 6);
    At(MeasEntries, 7);
  }

  lemma MeasAbsent()
    ensures var meas := VDict(MeasEntries);
      && (forall x :: DictGet(meas, Str("lAverages"), x) == Ok(x))
      && (forall x :: DictGet(meas, Str("lContrasts"), x) == Ok(x))
      && (forall x :: DictGet(meas, Str("lRepetitions"), x) == Ok(x))
      && (forall x :: DictGet(meas, Str("sPat"), x) == Ok(x))
  {
    Missing(MeasEntries, Str("lAverages"));
    Missing(MeasEntries, Str("lContrasts"));
    Missing(MeasEntries, Str("lRepetitions"));
    Missing(MeasEntries, Str("sPat"));
  }

  lemma IrisLookups()
    ensures Get(VDict(IrisEntries), [Str("DERIVED"), Str("ImageColumns")]) == Ok(VInt(256))
    ensures Get(VDict(IrisEntries), [Str("DERIVED"), Str("ImageLines")]) == Ok(VInt(256))
  {
    At(IrisEntries, 0);
    At(DerivedEntries, 0);
    At(DerivedEntries, 1);
    Path(VDict(IrisEntries), Str("DERIVED"), [Str("ImageColumns")]);
    Path(VDict(DerivedEntries), Str("ImageColumns"), []);
    Path(VDict(IrisEntries), Str("DERIVED"), [Str("ImageLines")]);
    Path(VDict(DerivedEntries), Str("ImageLines"), []);
  }

  lemma SliceLookups()
    ensures var slice := VDict(SliceEntries);
      && Subscript(slice, Str("dReadoutFOV")) == Ok(VReal(250.0))
      && Subscript(slice, Str("dPhaseFOV")) == Ok(VReal(200.0))
      && Subscript(slice, Str("dThickness")) == Ok(VReal(5.0))
  {
    At(SliceEntries, 0);
    At(SliceEntries, 1);
    At(SliceEntries, 2);
  }

  // ---------------------------------------------------------------------
  // The header, group by group
  // ---------------------------------------------------------------------

  lemma ExampleAcquisitionSystem(frame: string)
    ensures AcquisitionSystemOf(Parts(frame)) ==
      Ok(AcquisitionSystem(VStr("Clinic"), VInt(32), VReal(3.0), VStr("SIEMENS"), VStr("Prisma")))
  {
    DicomLookups();
    YapsFront(frame);
    YapsBack(frame);
  }

  lemma ExampleMeasurement(frame: string, date: string)
    requires ScanDate(VStr(frame)) == Ok(date)
    ensures MeasurementOf(Parts(frame)) == Ok(Measurement(date, VStr("2D"), VInt(42), VStr("t2_tse")))
  {
    YapsLookups(frame);
    DicomLookups();
    MeasRest();
    At(HeaderEntries, 0);
  }

  lemma ExampleReconSpace(frame: string)
    ensures ReconSpaceOf(Parts(frame), VDict(SliceEntries)) ==
      Ok(Space(Triple(VInt(256), VInt(256), VInt(1)), Triple(VReal(250.0), VReal(200.0), VReal(5.0))))
  {
    IrisLookups();
    YapsFront(frame);
    SliceLookups();
  }

  lemma ExampleDimensions(frame: string)
    ensures DimensionsOf(Parts(frame), VInt(1)) ==
      Ok(Dimensions(VInt(256), VInt(1), VInt(1), VInt(1), VInt(1), VInt(1), VInt(1), VInt(1), VInt(1)))
  {
    YapsFront(frame);
    YapsBack(frame);
    YapsAbsent(frame);
    MeasLookups();
    MeasRest();
    MeasAbsent();
    Missing([], Str("lPhases"));
    Missing(SliceArrayEntries, Str("lSize"));
  }

  lemma ExampleEncoding(frame: string)
    ensures EncodingOf(Parts(frame),
        Preamble(VInt(0), Cartesian, VDict(SliceEntries), Triple(VInt(512), VInt(256), VInt(1)), VInt(1))) ==
      Ok(Encoding(
        Cartesian,
        Space(Triple(VInt(512), VInt(256), VInt(1)), Triple(VReal(500.0), VReal(200.0), VReal(5.0))),
        Space(Triple(VInt(256), VInt(256), VInt(1)), Triple(VReal(250.0), VReal(200.0), VReal(5.0))),
        Dimensions(VInt(256), VInt(1), VInt(1), VInt(1), VInt(1), VInt(1), VInt(1), VInt(1), VInt(1)),
        VReal(1.0)))
  {
    SliceLookups();
    ReadoutOversampling(frame);
    MeasLookups();
    assert Mul(VReal(250.0), VReal(2.0)) == Ok(VReal(500.0));
    assert Add(VInt(1), VInt(0)) == Ok(VInt(1));
    assert Mul(VReal(200.0), VInt(1)) == Ok(VReal(200.0));
    assert Mul(VReal(5.0), VInt(1)) == Ok(VReal(5.0));
    ExampleReconSpace(frame);
    ExampleDimensions(frame);
  }

  lemma ExampleParallelImaging(frame: string)
    ensures ParallelImagingOf(Parts(frame)) ==
      Ok(ParallelImaging(AccelerationFactor(VInt(1), VInt(1)), VInt(-1), VInt(0)))
  {
    MeasAbsent();
    YapsAbsent(frame);
    Missing([], Str("lAccelFactPE"));
    Missing([], Str("lAccelFact3D"));
    Missing([], Str("lRefLinesPE"));
  }

  lemma ExampleSequenceParameters(frame: string)
    ensures SequenceParametersOf(Parts(frame)) ==
      Ok(SequenceParameters(VInt(1), [1.5], [5.0], [], [VInt(90)]))
  {
    SequenceEntries();
    ExampleTimes();
    ExampleFlipAngles();
  }

  /** The entries `SequenceParametersOf` reads, list by list. */
  lemma SequenceEntries()
    ensures DictGet(VDict(MeasEntries), Str("sFastImaging"), VDict([])) == Ok(VDict([]))
    ensures DictGet(VDict([]), Str("lSliceTurboFactor"), VInt(1)) == Ok(VInt(1))
    ensures Subscript(VDict(MeasEntries), Str("alTE")).Ok? && Subscript(VDict(MeasEntries), Str("alTR")).Ok?
    ensures Subscript(VDict(MeasEntries), Str("alTI")).Ok? && Subscript(VDict(DicomEntries), Str("adFlipAngleDegree")).Ok?
    ensures Iterate(Subscript(VDict(MeasEntries), Str("alTE")).value) == Ok([VInt(1500), VInt(0)])
    ensures Iterate(Subscript(VDict(MeasEntries), Str("alTR")).value) == Ok([VInt(5000)])
    ensures Iterate(Subscript(VDict(MeasEntries), Str("alTI")).value) == Ok([VInt(0)])
    ensures Iterate(Subscript(VDict(DicomEntries), Str("adFlipAngleDegree")).value) == Ok([VInt(90), VInt(0)])
  {
    MeasRest();
    DicomLookups();
    Missing([], Str("lSliceTurboFactor"));
  }

  lemma ExampleTimes()
    ensures MillisToSeconds([VInt(1500), VInt(0)]) == Ok([1.5])
    ensures MillisToSeconds([VInt(5000)]) == Ok([5.0])
    ensures MillisToSeconds([VInt(0)]) == Ok([])
  {
    MillisToSecondsSingle(VInt(1500));
    MillisToSecondsSingle(VInt(0));
    MillisToSecondsSingle(VInt(5000));
    MillisToSecondsAppend([VInt(1500)], [VInt(0)]);
    assert [VInt(1500)] + [VInt(0)] == [VInt(1500), VInt(0)];
  }

  lemma ExampleFlipAngles()
    ensures PositiveEntries([VInt(90), VInt(0)]) == Ok([VInt(90)])
  {
    PositiveEntriesSingle(VInt(90));
    PositiveEntriesSingle(VInt(0));
    PositiveEntriesAppend([VInt(90)], [VInt(0)]);
    assert [VInt(90)] + [VInt(0)] == [VInt(90), VInt(0)];
  }

  /** A string without the separator is one piece. */
  lemma {:induction false} SplitWhole(t: string, sep: char)
    requires sep !in t
    ensures Split(t, sep) == [t]
  {
    if t != [] {
      SplitWhole(t[1..], sep);
    }
  }

  /** A first piece without the separator is split off the front. */
  lemma {:induction false} SplitFront(p: string, sep: char, rest: string)
    requires sep !in p
    ensures Split(p + [sep] + rest, sep) == [p] + Split(rest, sep)
  {
    if p == [] {
      assert p + [sep] + rest == [sep] + rest;
      assert ([sep] + rest)[1..] == rest;
    } else {
      var s := p + [sep] + rest;
      assert s[0] == p[0] && s[1..] == p[1..] + [sep] + rest;
      SplitFront(p[1..], sep, rest);
      var tail := [p[1..]] + Split(rest, sep);
      assert tail[0] == p[1..] && tail[1..] == Split(rest, sep);
      assert [p[0]] + p[1..] == p;
    }
  }

  /** `d0.d1.….dn-1.last`: one-character fields before a last field. */
  function Dotted(ds: string, last: string): string {
    if ds == [] then last else [ds[0], '.'] + Dotted(ds[1..], last)
  }

  /** Splitting `Dotted(ds, last)` at the dots gives back `last` as the
      field after the `|ds|` one-character fields. */
  lemma {:induction false} SplitDotted(ds: string, last: string)
    requires '.' !in ds && '.' !in last
    ensures |Split(Dotted(ds, last), '.')| == |ds| + 1
    ensures Split(Dotted(ds, last), '.')[|ds|] == last
  {
    if ds == [] {
      SplitWhole(last, '.');
    } else {
      SplitDotted(ds[1..], last);
      SplitFront([ds[0]], '.', Dotted(ds[1..], last));
      assert [ds[0]] + ['.'] + Dotted(ds[1..], last) == Dotted(ds, last);
    }
  }

  /** The date is the field after ten one-character fields. */
  lemma ScanDateDotted(ds: string, date: string)
    requires |ds| == 10 && '.' !in ds && '.' !in date && |date| == 8
    ensures ScanDate(VStr(Dotted(ds, date))) == Ok(date)
  {
    SplitDotted(ds, date);
  }

  // ---------------------------------------------------------------------
  // The whole normalization
  // ---------------------------------------------------------------------

  /** The tree normalizes. Present entries are copied, the FOV is scaled by
      the readout oversampling factor 2, `i3DFTLength == 1` makes the slice
      axis 1, and every absent optional entry takes its default: the
      dimensions and the acceleration factors 1, the first ACS line -1, the
      ACS line count 0, the turbo factor 1 and the segment 1.  TE, TR and TI
      keep their positive entries in seconds. */
  lemma NormalizeExample(ds: string, date: string)
    requires |ds| == 10 && '.' !in ds && '.' !in date && |date| == 8
    ensures Normalize(Raw(Dotted(ds, date))) == Ok(Header(
      AcquisitionSystem(VStr("Clinic"), VInt(32), VReal(3.0), VStr("SIEMENS"), VStr("Prisma")),
      Measurement(date, VStr("2D"), VInt(42), VStr("t2_tse")),
      Encoding(
        Cartesian,
        Space(Triple(VInt(512), VInt(256), VInt(1)), Triple(VReal(500.0), VReal(200.0), VReal(5.0))),
        Space(Triple(VInt(256), VInt(256), VInt(1)), Triple(VReal(250.0), VReal(200.0), VReal(5.0))),
        Dimensions(VInt(256), VInt(1), VInt(1), VInt(1), VInt(1), VInt(1), VInt(1), VInt(1), VInt(1)),
        VReal(1.0)),
      ParallelImaging(AccelerationFactor(VInt(1), VInt(1)), VInt(-1), VInt(0)),
      SequenceParameters(VInt(1), [1.5], [5.0], [], [VInt(90)])))
  {
    var frame := Dotted(ds, date);
    ScanDateDotted(ds, date);
    ExampleSections(frame);
    ExamplePreamble(frame);
    ExampleAcquisitionSystem(frame);
    ExampleMeasurement(frame, date);
    ExampleEncoding(frame);
    ExampleParallelImaging(frame);
    ExampleSequenceParameters(frame);
  }
}
