# siemens_to_simplerd header core, modelled in Dafny

siemens_to_simplerd reads Siemens raw-data files and turns their nested
parameter tree into a small, fixed "simple raw data" header. This project
models the part of that conversion that is pure logic over nested
key-value trees and proves properties of it:

- **Header normalization** (`Image.__init__` in `simplerd.py`).
  `SimpleRd.Normalize` maps the raw parameter tree to a `Header` record, or
  to the Python exception the constructor would raise. It covers:
  - the trajectory table;
  - the slice-geometry fallback to the `MeasYaps` mirror;
  - the encoded and reconstructed matrix sizes and fields of view;
  - the segment decision;
  - the `.get` defaults;
  - the filtered TE/TR/TI and flip-angle lists;
  - the scan date cut out of `tFrameOfReference`.

  `SimpleRd.HeaderValue` is the header dictionary, with its keys in display
  order.
- **Flattening** (`_flatten_dict` in `utils.py`, and its copy `flatten_dict`
  in `reader.py`). `Utils.FlattenDict` is the loop itself, proved equal to
  the recursive function `Utils.Flatten`. That function is characterised by
  the leaves of the tree: `Flatten` inserts every (joined path, leaf value)
  pair, in traversal order, into an empty dictionary.
- **Expected shape** (`_expected_dimensions` in `utils.py`).
  - `Utils.HeaderTree` is the header document. `ExpectedDimensions`
    updates it in place: it stores `channel` and `readout` into the
    header's own `dimensions` dictionary, then returns that dictionary or
    the list of its non-1 extents in the fixed axis order.
  - Its effect, including the partial update left behind when the readout
    lookup fails, is the function `Utils.ExpectedDimensionsEffect`.
- **Unpacking** (`unpack` and `isnamedtupleinstance` in `reader.py`).
  `Reader.Unpack` replaces every namedtuple with the dictionary of its
  fields, and keeps dictionaries, lists and tuples with their members
  unpacked.

The value type (`PyValues.Value`) covers None, int, float (as `real`), str,
list, tuple, namedtuple and dict. Dictionaries are ordered association
lists, keyed by strings or ints. `d[k] = v` is `Put`: it replaces the value
in place or appends a new entry. A dict comprehension, or a loop of such
assignments, is `PutAll`. The Python operations the code applies live in
`PyOps`:
- subscripts and paths of subscripts;
- `dict.get` and `in d.keys()`;
- `*`, `+`, `/` and `>` on numbers;
- `== 1`, where `1.0 == 1` holds;
- iteration and `str.split`.

Each raises the exception Python raises on a value of the wrong shape
(`KeyError`, `IndexError`, `TypeError`, `AttributeError` or
`ZeroDivisionError`).

Files:
- `values.dfy`: the value type and ordered-dictionary laws.
- `ops.dfy`: the Python operations.
- `simplerd.dfy`: normalization and its rules.
- `normalize_example.dfy`: a raw tree that normalizes, and the header it gives.
- `utils.dfy`: flattening and the expected shape.
- `reader.dfy`: unpacking.

### As the code does it

- **Segment candidate** (`simplerd.py:40`).
  - It is evaluated whenever `ucSegmentationMode` is present, whatever the
    mode. It subscripts `get('lSegments')`, so without `lSegments`
    normalization fails with a `TypeError` (`SegmentModeWithoutCount`).
  - It divides by the misspelled key `lSegements`, so a count above 1
    needs that key as well. The model follows the code.
- **Readout axis.** A non-Cartesian readout reads the lower-case
  `DERIVED.imageColumns` (`simplerd.py:26`). The reconstruction readout
  reads `ImageColumns` (`simplerd.py:75`).
- **`sFastImaging`.** `meas['sFastImaging']` is subscripted unconditionally
  at `simplerd.py:39`, so it is required. The `.get('sFastImaging', {})`
  default at line 107 never applies to a successful normalization.
- **True division.** `/` is true division, so a halved phase size is a
  float: 256 becomes 128.0.

## Model

| member | source | states |
|---|---|---|
| PyOps.Split | simplerd.py:58 | `str.split` returns at least one piece, no piece contains the separator, and joining the pieces with the separator gives back the string |
| PyOps.SplitCount | simplerd.py:58 | splitting gives one piece more than there are separators |
| PyOps.Prefix | simplerd.py:58 | `s[:n]` is the prefix of `s` of length `min(n, len(s))` |
| SimpleRd.TrajectoryOfCode | simplerd.py:11-16 | codes 1, 2, 4 and 8 (int or equal float) map to cartesian, radial, spiral and propeller, each if and only if; every other hashable code maps to other; an unhashable code raises `TypeError` |
| SimpleRd.TrajectoryRoundTrip | simplerd.py:11-16 | each named trajectory's code maps back to it; every int outside {1, 2, 4, 8} maps to other |
| SimpleRd.SliceDataOf | simplerd.py:19-22 | slice geometry is `asSlice[0]` when `asSlice` has key 0, otherwise the `MeasYaps.ascconv` mirror's `asSlice[0]`; a missing path or a non-dict `asSlice` raises |
| SimpleRd.PhaseSize | simplerd.py:28-31 | succeeds exactly when `sKSpace` is a dict, `iPEFTLength` is present, and `iPEFTLength` is a number under interpolation; the encoded phase size is `iPEFTLength / 2` as a float when `uc2DInterpolation == 1` (absent counts as -1), otherwise `iPEFTLength` unchanged |
| SimpleRd.PartitionSize | simplerd.py:33-36 | the encoded slice size is 1 when `iNoOfFourierPartitions` is absent or `i3DFTLength == 1`, otherwise `i3DFTLength`; a missing `i3DFTLength` raises |
| SimpleRd.SegmentCandidate | simplerd.py:40 | without `lSegments` the candidate raises `TypeError`; a non-number `lSegments[0]` raises `TypeError`; a number ≤ 1 gives 1; above 1 it is partitions × lines / `lSegements`, which succeeds when these are numbers and the divisor is not 0 |
| SimpleRd.SegmentOf | simplerd.py:39-46 | segment is 1 whenever `sFastImaging` is a dict without `ucSegmentationMode`; with a mode, the call succeeds exactly when the candidate succeeds and `ucSegmentationMode[0]` exists and is hashable; mode 1 gives the candidate, mode 2 `lShots` (default 1), any other mode 1 |
| SimpleRd.ScanDate | simplerd.py:58 | a non-string frame raises; a string succeeds exactly when it has at least 10 dots; the date is exactly the first 8 characters (all of them when fewer) of the 11th dot-separated piece, and has no dot |
| SimpleRd.MillisToSeconds | simplerd.py:108-110 | succeeds exactly when every entry is a number (else `TypeError`); the output is no longer than the input and every output is positive |
| SimpleRd.MillisToSecondsAppend | simplerd.py:108-110 | the filter of a concatenation is the concatenation of the filters, so source order is kept |
| SimpleRd.MillisToSecondsSingle | simplerd.py:108-110 | one entry becomes `[v / 1000]` when positive, `[]` when not positive, `TypeError` when not a number |
| SimpleRd.EchoTimesExample | simplerd.py:108 | echo times 0, 1500, -200 and 900 ms become `[1.5, 0.9]` |
| SimpleRd.PositiveEntries | simplerd.py:111 | succeeds exactly when every entry is a number; the output is no longer than the input and every output is a positive number |
| SimpleRd.PositiveEntriesMembers | simplerd.py:111 | every kept angle is an entry of the input |
| SimpleRd.PositiveEntriesAppend | simplerd.py:111 | the filter of a concatenation is the concatenation of the filters |
| SimpleRd.PositiveEntriesSingle | simplerd.py:111 | one angle is kept when positive and dropped otherwise |
| SimpleRd.Normalize | simplerd.py:2-113 | no contract of its own: the header it computes is stated by NormalizeParts and the rule lemmas below, its failures by RequiredEntries and SegmentModeWithoutCount |
| SimpleRd.SectionsOf | simplerd.py:3-7 | no contract of its own; stated by NormalizeParts and SectionsSource |
| SimpleRd.PreambleOf | simplerd.py:10-46 | no contract of its own; stated by PreambleParts |
| SimpleRd.ReadoutSize | simplerd.py:23-26 | no contract of its own; stated by ReadoutAxisRule |
| SimpleRd.AcquisitionSystemOf | simplerd.py:50-56 | no contract of its own; stated by AcquisitionSystemParts |
| SimpleRd.MeasurementOf | simplerd.py:57-62 | no contract of its own; stated by MeasurementParts |
| SimpleRd.EncodingOf | simplerd.py:63-97 | no contract of its own; stated by EncodingParts |
| SimpleRd.ReconSpaceOf | simplerd.py:73-84 | no contract of its own; stated by ReconSpaceParts |
| SimpleRd.DimensionsOf | simplerd.py:85-95 | no contract of its own; stated by DimensionsParts |
| SimpleRd.ParallelImagingOf | simplerd.py:98-105 | no contract of its own; stated by ParallelImagingParts |
| SimpleRd.SequenceParametersOf | simplerd.py:106-112 | no contract of its own; stated by SequenceParametersParts |
| SimpleRd.HeaderValue | simplerd.py:49-113 | no contract of its own: the header dictionary in display order; where the shape reads it is stated by Utils.ImageHeaderPaths |
| SimpleRd.NormalizeParts | simplerd.py:3-113 | structural step toward the rules below: a successful normalization found all five sections at their paths, and every header group is what its group function computes from them |
| SimpleRd.PreambleParts | simplerd.py:10-46 | the preamble holds `phaseOverSampling` (default 0), the trajectory of `ucTrajectory[0]`, the slice data, the three encoded matrix sizes and the segment |
| SimpleRd.AcquisitionSystemParts | simplerd.py:50-56 | the five acquisition-system entries are the dicom and yaps entries they name |
| SimpleRd.MeasurementParts | simplerd.py:57-62 | the scan date comes from `tFrameOfReference[0]`; acquisition type, measurement UID and protocol name are the entries they name |
| SimpleRd.EncodingParts | simplerd.py:63-97 | the encoding holds the preamble's trajectory and matrix, the recon space, the dimensions and `dPhaseResolution`; the encoded field of view is the slice geometry times the readout oversampling factor and times `1 + phaseOverSampling` |
| SimpleRd.ReconSpaceParts | simplerd.py:73-84 | the recon matrix is `ImageColumns`, `ImageLines`, and 1 or `lImagesPerSlab` by `i3DFTLength`; the recon field of view is the unscaled slice geometry |
| SimpleRd.DimensionsParts | simplerd.py:85-95 | each dimension is the entry it names with its default; step 2 is 1 when `i3DFTLength == 1` |
| SimpleRd.ParallelImagingParts | simplerd.py:98-105 | acceleration factors and ACS lines come from `sPat` (default `{}`), with defaults 1, 1 and 0; the first ACS line is `lFirstRefLine`, default -1 |
| SimpleRd.SequenceParametersParts | simplerd.py:106-112 | the turbo factor is `lSliceTurboFactor` (default 1); TE, TR and TI are the filtered `alTE`, `alTR` and `alTI`; the flip angles are the filtered `adFlipAngleDegree` |
| SimpleRd.SectionsSource | simplerd.py:3-7 | structural step toward the rules below: a successful normalization found all five sections |
| SimpleRd.TrajectorySource | simplerd.py:16 | the header's trajectory is the table entry of `ucTrajectory[0]` |
| SimpleRd.EncodedMatrixSource | simplerd.py:23-36 | structural step toward the rules below: the encoded matrix is the readout, phase and partition sizes |
| SimpleRd.SegmentRule | simplerd.py:39-46 | the header's segment is the segment decision on `sFastImaging` |
| SimpleRd.ReconSpaceSources | simplerd.py:73-84 | structural step toward the rules below: the header's recon space is computed from the sections and the slice data |
| SimpleRd.ReconFieldOfViewSource | simplerd.py:79-83 | the recon field of view is `dReadoutFOV`, `dPhaseFOV` and `dThickness` of the slice data |
| SimpleRd.UnitScale | simplerd.py:69-70 | without `phaseOverSampling` the scale is 1, and multiplying by 1 changes nothing |
| SimpleRd.FieldOfViewSources | simplerd.py:67-71 | the encoded field of view is the slice geometry scaled by the readout oversampling factor and by `1 + phaseOverSampling` |
| SimpleRd.DimensionsSources | simplerd.py:85-95 | structural step toward the rules below: the header's dimensions are computed from the sections and the segment |
| SimpleRd.ParametersSources | simplerd.py:98-112 | structural step toward the rules below: the parallel-imaging and sequence groups are computed from the sections |
| SimpleRd.TrajectoryRule | simplerd.py:11-16 | the header's trajectory is cartesian, radial, spiral or propeller exactly when `ucTrajectory[0]` equals 1, 2, 4 or 8 |
| SimpleRd.SliceGeometryRule | simplerd.py:19-22 | the recon field of view comes from `asSlice[0]` when key 0 is present, otherwise from the `MeasYaps` mirror |
| SimpleRd.FieldOfViewRule | simplerd.py:67-83 | encoded field of view = recon field of view times the readout oversampling factor (readout) and times `1 + phaseOverSampling` (phase, slice); without `phaseOverSampling` the phase and slice extents equal the recon ones |
| SimpleRd.ReadoutAxisRule | simplerd.py:23-26 | the readout size is `iNoOfFourierColumns` for a Cartesian trajectory, otherwise `DERIVED.imageColumns`; the recon readout is `DERIVED.ImageColumns` (line 75) |
| SimpleRd.PhaseAxisRule | simplerd.py:28-31 | the encoded phase size is halved `iPEFTLength` under 2D interpolation, otherwise `iPEFTLength` |
| SimpleRd.SliceAxisRule | simplerd.py:33-36 | with `i3DFTLength == 1`, the encoded slice size, the recon slice size (line 77) and `kspace_encoding_step2` (line 87) are all 1; otherwise they are `i3DFTLength`, `lImagesPerSlab` and `iNoOfFourierPartitions`, with 1 where the partitions entry is absent |
| SimpleRd.SegmentModeWithoutCount | simplerd.py:39-40 | with a segmentation mode but no `lSegments`, normalization fails |
| SimpleRd.DimensionDefaultsRule | simplerd.py:86-94 | absent average, contrast, phase, repetition, set and slice entries give 1; present ones (`lPhases` in `sPhysioImaging`, `lSize` in `sSliceArray`) are taken as they are |
| SimpleRd.ParameterDefaults | simplerd.py:98-107 | without `sPat` both acceleration factors are 1 and the ACS line count is 0; without `lFirstRefLine` the first ACS line is -1, otherwise its value; without `lSliceTurboFactor` the turbo factor is 1 |
| SimpleRd.ParameterDefaultsRule | simplerd.py:98-107 | the same defaults hold for the header of a successful normalization |
| SimpleRd.SequenceTimesRule | simplerd.py:106-112 | the header's TE, TR, TI and flip angles are the filtered source lists |
| SimpleRd.RequiredEntries | simplerd.py:3-111 | normalization fails unless every unconditionally subscripted path resolves; these include `tProtocolName`, `MeasUID`, `ucTrajectory` and `alTE` |
| SimpleRd.HalvedPhaseExample | simplerd.py:28-29 | 256 phase lines under 2D interpolation give 128.0 |
| SimpleRdExample.NormalizeExample | simplerd.py:2-112 | a raw tree with every required entry and no optional one normalizes, to a header whose optional fields hold their defaults: dimensions, acceleration factors, turbo factor and segment 1, first ACS line -1, ACS line count 0; the encoded FOV is scaled by the readout oversampling factor; the scan date is the eleventh field of the frame UID |
| SimpleRdExample.ScanDateDotted | simplerd.py:58 | for a UID made of ten one-character fields and an eight-character field, the scan date is that last field |
| Utils.FlattenUpTo | utils.py:11-18 | after any number of entries, the partial result holds no dictionary value and has distinct keys; the only error is `TypeError` |
| Utils.InsertPrefixedKeeps | utils.py:17-18 | storing the joined entries of a flat child keeps the result flat with distinct keys |
| Utils.Flatten | utils.py:9-19 | succeeds exactly on a dictionary whose entries all flatten; the result is a dictionary with no dictionary values and distinct keys |
| Utils.FlattenFailurePersists | utils.py:12-18 | once an entry fails, the whole flatten fails with that error |
| Utils.StorePrefixed | utils.py:17-18 | the inner loop stores every child entry under its joined key, or raises `TypeError` at the first non-string key |
| Utils.FlattenDict | utils.py:9-19 | the loop returns exactly `Flatten(obj, delim)`; the reader's `flatten_dict` (reader.py lines 26-36) is the same loop |
| Utils.FlatPairs | utils.py:16-18 | every leaf gets its path joined by the delimiter as key, with its value; this fails exactly when some path holds a non-string key |
| Utils.InsertPrefixedAsPutAll | utils.py:17-18 | the inner loop inserts the renamed child entries in order |
| Utils.FlattenUpToLeaves | utils.py:9-19 | the loop after `n` entries has inserted the flat pairs of the leaves of those entries, or raised `TypeError` when a key cannot be joined |
| Utils.FlattenAsLeaves | utils.py:9-19 | a non-dictionary raises `AttributeError`; otherwise the result is the empty dictionary with the (joined path, leaf) pairs inserted in order, or `TypeError` |
| Utils.FlattenLeafKeys | utils.py:16-18 | each leaf's joined path is a key of the result; each key holds the last value inserted under it; every entry of the result is such a pair |
| Utils.FlattenFlat | utils.py:13-14 | a dictionary without dictionary values flattens to itself |
| Utils.FlattenIdempotent | utils.py:9-19 | flattening a flattened dictionary changes nothing |
| Utils.LeavesEmptyChild | utils.py:15-18 | an empty nested dictionary has no leaves |
| Utils.FlattenEmptyChild | utils.py:15-18 | an empty nested dictionary contributes no keys to the result |
| Utils.Replace | utils.py:24-25 | no contract of its own: a store into a dictionary nested in the header; stated by ReplaceGet, ReplaceElsewhere and ReplaceReplace |
| Utils.ReplaceGet | utils.py:24-25 | after a store at a path, that path reads the stored value |
| Utils.ReplaceElsewhere | utils.py:24-25 | a store at a path leaves every path that is neither its prefix nor its extension unchanged |
| Utils.ReplaceReplace | utils.py:24-25 | a second store at the same path overrides the first |
| Utils.Squeeze | utils.py:40 | the list is no longer than the axis order, and no entry equals 1 |
| Utils.ValuesAt | utils.py:40 | the values are the subscripts of the axes, in order |
| Utils.DropOnesMembers | utils.py:40 | a value is in the filtered list exactly when it is in the input and is not equal to 1 |
| Utils.DropOnesAppend | utils.py:40 | filtering a concatenation concatenates the filtered parts, so order is kept |
| Utils.SqueezeValues | utils.py:27-40 | the list is the axis values in the fixed order with the ones dropped, or the error of the first axis lookup that fails |
| Utils.SqueezeIgnores | utils.py:27-40 | storing a key outside the axis order does not change the list |
| Utils.ShapeIgnoresPhase | utils.py:27-40 | `phase` never appears in the list |
| Utils.ValuesAtPresent | utils.py:40 | when every axis is present, no lookup raises |
| Utils.ExpectedDimensionsEffect | utils.py:21-42 | no contract of its own: the result and the new header of one call; stated by ExpectedDimensionsReads, ExpectedDimensionsStores, ExpectedDimensionsFailures and ExpectedDimensionsElsewhere |
| Utils.HeaderTree.ExpectedDimensions | utils.py:21-42 | the method's result and the new header are `ExpectedDimensionsEffect` of the old header: the stores, the failure points and the partial store left by a failing readout lookup |
| Utils.StoredDimensions | utils.py:24-25 | after both stores, `channel` and `readout` hold the read values, and every other key keeps its value |
| Utils.ExpectedDimensionsReads | utils.py:23-42 | a successful call read the three paths, left the header with the stored dimensions at `encoding.dimensions`, and returned that dictionary or the list squeezed from it |
| Utils.ReplaceDimensions | utils.py:24-25 | storing the dimensions changes that path only |
| Utils.ExpectedDimensionsStores | utils.py:23-25 | `channel` = receiver channels and `readout` = encoded matrix size [0] in the header's own dimensions; no other dimension changes and no other path of the header changes; with `as_dict` the result is that same dictionary |
| Utils.ExpectedDimensionsFailures | utils.py:23-25 | a missing dimensions dictionary or channel count, or non-dict dimensions, raises with the header unchanged; a missing readout length raises after the channel store, which stays in the header |
| Utils.ExpectedDimensionsElsewhere | utils.py:23-25 | whatever the outcome, the call changes no path of the header outside `encoding.dimensions` |
| Utils.ExpectedShapeBounds | utils.py:27-40 | the list result has at most 10 entries, none equal to 1 |
| Utils.ImageHeaderPaths | utils.py:23-25 | on the header `Image` builds, the three paths read the receiver channels, the encoded readout length and the dimensions |
| Utils.ExpectedDimensionsOfImage | utils.py:21-42 | on the header `Image` builds, the stored dimensions are its nine dimensions followed by `channel` and `readout`; the list is readout, channel, step 1, step 2, slice, repetition, set, segment, contrast and average, with the ones dropped |
| Reader.IsNamedTupleInstance | reader.py:4-12 | no contract of its own: the namedtuple variant test that stands for the type introspection; what it selects is stated by UnpackNamedTuple and UnpackScalar |
| Reader.Zip | reader.py:20 | `zip(_fields, self)` pairs each field name with the member in the same place, as far as both go |
| Reader.Unpack | reader.py:14-24 | the result is a dictionary exactly for a dictionary or namedtuple, a list exactly for a list, a tuple exactly for a plain tuple, and never a namedtuple |
| Reader.UnpackPlain | reader.py:14-24 | the output holds no namedtuple anywhere, and every dictionary in it has distinct keys |
| Reader.UnpackDict | reader.py:15-16 | a dictionary keeps exactly its keys, in place, each value unpacked |
| Reader.UnpackSequence | reader.py:17-22 | a list stays a list, and a plain tuple a tuple, of the same length, elementwise unpacked |
| Reader.UnpackNamedTuple | reader.py:19-20 | a namedtuple (tested before the tuple case) becomes the dictionary from its field names, in order, to its unpacked members |
| Reader.UnpackScalar | reader.py:23-24 | values other than containers are returned unchanged |
| Reader.UnpackFixes | reader.py:14-24 | a value without namedtuples and with distinct dictionary keys is left unchanged |
| Reader.UnpackIdempotent | reader.py:14-24 | `unpack(unpack(x)) == unpack(x)` |

## Left out

- Reading and writing files, twixreader, JSON, CSV and h5py are left out: `save_header`, `save_mdh`, `save_all`, both `json_to_csv`, `get_image`, `main`, `debug`, and the `__main__` blocks. All of these are I/O or foreign libraries. The raw parameter tree that twixreader produces is the parameter `raw` of `SimpleRd.Normalize`.
- `self.buffer` (`simplerd.py:115`) is stored unchanged. The raw data buffer is not part of the header, so it is not modelled.
- `redirect_stdout` and all printed diagnostics are left out.
- Floats are `real`. IEEE rounding of the field-of-view scaling, of `/ 1000.0` and of `/ 2` is not modelled.
- PyOps.Mul: only numeric multiplication is modelled. Python's sequence repetition (`str * int`, `list * int`) is a `TypeError` in the model.
- `bool` is not a variant of the value type. Python treats `True` as the int 1 in comparisons and arithmetic, and that is not modelled.
- Reader.IsNamedTupleInstance: Python type introspection (`__bases__`, `_fields`) is not modelled. A namedtuple is its own variant of the value type, with string field names, and the predicate is the variant test. A tuple subclass of another shape is a plain tuple.
- Value semantics: the model works on values, not on Python objects.
  - Aliasing is not captured.
  - With `as_dict=True`, `_expected_dimensions` returns the very dictionary that sits in the header. The model returns an equal value.
  - Two places in a raw tree that share one dictionary object are two equal values.
- Utils.FlattenFlat, Reader.UnpackDict, Reader.UnpackFixes: these require distinct dictionary keys. Python dictionaries always have distinct keys, but the association-list type does not enforce it, so the lemmas state it.
- Reader.UnpackNamedTuple: requires as many members as fields and distinct field names, which every Python namedtuple has. `Reader.Unpack` itself handles any variant value, pairing fields and members as `zip` does.
- Utils.ExpectedShapeBounds, Utils.ExpectedDimensionsReads, Utils.ExpectedDimensionsStores: these state the successful call. Each failure (a missing path, a non-dict dimensions entry, a missing axis) and the header it leaves behind are stated by `Utils.HeaderTree.ExpectedDimensions` through `Utils.ExpectedDimensionsEffect`, and by `Utils.ExpectedDimensionsFailures` and `Utils.ExpectedDimensionsElsewhere`.
- Python's recursion limit (`RecursionError`) on very deep trees is not modelled.
- Exceptions are modelled by their kind. `KeyError` carries its key; messages and tracebacks are not modelled.
