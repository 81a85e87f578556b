# Streamline LOD extraction and widget cylinder layout

This project models two bookkeeping parts of a streamline renderer written in JavaScript. It proves properties of the model.

**Level-of-detail data** (`lod_data.js`). `LODData.ExtractMultiPolyLines` walks the flat sample stream of the raw data, seed by seed. Each sample carries an integer flag:
- `-1` starts a backward piece;
- `0` skips the sample;
- `1` starts a forward piece;
- `2` is an interior point;
- `3` ends the open polyline.

The open polyline (`poly`), the open multi-polyline (`multi`) and the current direction carry over from seed to seed. `oldFlag` starts again at 1337 for every seed. At the end of a seed, `multi` is pushed in FORWARD and BACKWARD mode. In BOTH mode it is pushed only when the current direction is BACKWARD. At the end, the pushed multi-polylines are numbered by position. `LODData.GenerateLineSegments` then appends one segment record per pair of neighbouring indices of every polyline.

Module `LodData` (`lod_data.dfy`) holds the class `LODData` with its two list fields. Its methods carry the source's loops:
- `ExtractMultiPolyLines`, with the seed loop;
- `ScanSeed`, with the offset loop;
- `ProcessSample`, with the switch and the consecutive-flag check;
- `NumberMultiPolyLines`;
- `GenerateLineSegments` and `AppendPolySegments`, with the polyline and index loops.

Each method is proved against a specification function: `SampleStep`, `ScanOffsets`, `ScanSeeds`, `Extracted`, `ExtractWarnings`, `PolySegments`, `PolysSegments` or `Segments`. Module `LodDataProperties` (`lod_data_properties.dfy`) proves what those functions promise.

The console diagnostics are modelled as a returned list of `Warning` values:
- "Error size 1";
- "Error unknown flag";
- "Error consecutive flags".

Each warning is tagged with the seed and offset of its sample.

**Object manager** (`object_manager.js`). The constructor builds the scene's cylinder list in a fixed order:
- `AddAxes(true)`: the main movable-axes corner, then a second corner for the other camera orientation (both built alike), then the main window of eight cube corners plus the fat origin axes;
- `AddAxes(false)`: the same for the side window;
- `AddProjectionFrames`: three square frames.

Along the way it records the start indices 6, 39 and 66; the list then has 78 cylinders. `SetAxesParameters` stores twelve values behind an equality guard. It then rewrites both windows in place through `RecalculateAxes` and `RecalculateAxesCorner`. `Update` hands `cylinders[0..2]` and `cylinders[33..35]` to the two movable-axes states. A dirty state moves the three cylinders it is handed.

Module `Objects` (`object_manager.dfy`) holds the class `ObjectManager`. Its field `cylinders` is a `seq` that the methods extend or update, and its methods carry the nested x/y/z loops. The methods are proved against `CornerCylinders`, `Window`, `AxesBlock`, `ProjectionFrame(s)`, `Layout`, `RecalculatedCorner(s)` and `RecalculatedWindow`. `ObjectManager.Valid()` is the invariant that the constructor establishes and that `SetAxesParameters` and `Update` keep:
- the indices are 6, 39 and 66;
- the list has 78 cylinders;
- the two windows hold the cylinders of the sizes last stored, and the frames follow them.

`Valid()` leaves the front corners `cylinders[0..5]` and `[33..38]` free, because `Update` may move the movable axes among them. The helpers `AddAxesCorner`, `AddAxes`, `AddCubeCorners`, `AddProjectionFrame(s)`, `RecalculateAxes` and `RecalculateAxesCorner` build or rewrite the list piece by piece, and the source calls them only from the constructor and `SetAxesParameters`. They neither require nor keep `Valid()`. Their contracts state the list they leave instead.

Module `ObjectsProperties` (`object_manager_properties.dfy`) proves facts about the layout. Module `Wrappers` (`wrappers.dfy`) holds `Option`.

## Model

| member | source | states |
|---|---|---|
| LodData.SampleStepState | lod_data.js:77-109 | -1 and 1 set the direction to Backward/Forward, other flags keep it; -1, 1, 2 append the index to the open polyline; 3 appends it, pushes the polyline into multi and opens an empty one; 0 and unknown flags change nothing; no sample pushes a multi-polyline |
| LodData.SampleStepIndices | lod_data.js:77-109 | one sample appends its index to everything recorded (pushed, open multi, open poly) exactly when its flag is -1, 1, 2 or 3 |
| LodData.StepWarningsFacts | lod_data.js:99-116 | the diagnostics of one sample name that sample; a size-1 report iff flag 3 closes an empty open polyline; unknown-flag iff the flag is outside -1..3; consecutive iff flag equals oldFlag and is 3, 1 or -1 |
| LodData.SampleStepWarnings | lod_data.js:96-117 | one sample keeps the earlier diagnostics as a prefix and adds exactly the ones StepWarningsFacts describes, tagged with its seed, offset and flag |
| LodData.SampleIndexBound | lod_data.js:69-76 | every sample index seed * num_points_per_streamline + offset read by the loops is below num_seeds * num_points_per_streamline |
| LodData.SeedFlush | lod_data.js:119-126 | at seed end multi is pushed and replaced by an empty one exactly when the mode is not BOTH or the direction is Backward; poly, direction and diagnostics carry over; no index is lost |
| LodData.ScanSeedsStep | lod_data.js:69-127 | the state after k + 1 seeds is the seed-end decision applied to the scan of seed k from the state after k seeds |
| LodData.Numbered | lod_data.js:129-130 | the numbering pass keeps length and polylines and gives entry i the id i |
| LodData.ProcessSample | lod_data.js:77-117 | the switch and consecutive-flag check compute exactly SampleStep on multi, poly, direction and diagnostics |
| LodData.ScanSeed | lod_data.js:71-118 | the offset loop, with oldFlag starting at 1337, leaves exactly the state ScanOffsets gives for the whole seed |
| LodData.LODData.constructor | lod_data.js:28-32 | both result lists start empty and the raw data is kept |
| LodData.LODData.Reset | lod_data.js:57-60 | both result lists are empty |
| LodData.LODData.ExtractMultiPolyLines | lod_data.js:62-134 | vectorMultiPolyLines becomes Extracted (the numbered pushed multi-polylines), entry i has id i, vectorLineSegment is empty, and the returned diagnostics are ExtractWarnings |
| LodData.LODData.NumberMultiPolyLines | lod_data.js:129-130 | the list becomes Numbered of the old list; the segment list is untouched |
| LodData.LODData.GenerateLineSegments | lod_data.js:136-158 | the segment list becomes the old list followed by Segments of the multi-polylines (it appends, it does not reset) |
| LodData.LODData.AppendPolySegments | lod_data.js:143-153 | the innermost loop appends PolySegments of one polyline: indexA = p[k-1], indexB = p[k], the owner id, copy 0, isBeginning 1 exactly for k == 1 |
| LodDataProperties.IncreasingConcat | lod_data.js:69-76 | two bounded increasing runs over adjacent ranges concatenate to one increasing run |
| LodDataProperties.IncreasingSplit | lod_data.js:69-76 | both parts of an increasing bounded sequence are increasing and bounded |
| LodDataProperties.ScanOffsetsKeepsEmitted | lod_data.js:73-118 | the samples of a seed never push a multi-polyline |
| LodDataProperties.ScanOffsetsIndices | lod_data.js:73-118 | scanning n samples appends exactly the recorded indices among them to everything recorded |
| LodDataProperties.SeedRecordedIncreasing | lod_data.js:71-76 | the recorded indices of a seed are increasing and lie in its own range [seed * pps, seed * pps + n) |
| LodDataProperties.RecordedIncreasing | lod_data.js:69-76 | the recorded indices of the first k seeds are strictly increasing and lie in [0, k * pps) |
| LodDataProperties.ScanSeedsCount | lod_data.js:119-126 | after k seeds at most k multi-polylines are pushed, exactly k unless the mode is BOTH |
| LodDataProperties.ScanSeedCountStep | lod_data.js:119-126 | one seed pushes one multi-polyline or none, and always one unless the mode is BOTH |
| LodDataProperties.ExtractCount | lod_data.js:119-130 | at most num_seeds multi-polylines are extracted, exactly num_seeds in FORWARD or BACKWARD mode |
| LodDataProperties.ScanSeedsIndices | lod_data.js:66-127 | after k seeds the pushed, open-multi and open-poly indices together are exactly the recorded indices of the first k seeds, in order |
| LodDataProperties.ScanSeedIndicesStep | lod_data.js:69-127 | one seed and its flush decision append exactly that seed's recorded indices |
| LodDataProperties.AllIndicesIgnoresIds | lod_data.js:129-130 | renumbering does not change the indices |
| LodDataProperties.ExtractConservesIndices | lod_data.js:62-134 | every recorded index ends up, in order, in an extracted multi-polyline, in the unflushed multi or in the open polyline; the last two are dropped |
| LodDataProperties.SingleDirectionDropsOnlyOpenPolyLine | lod_data.js:119-126 | in FORWARD or BACKWARD mode nothing is left in multi, so only the trailing open polyline is lost |
| LodDataProperties.ExtractIndicesIncreasing | lod_data.js:62-134 | all extracted indices, concatenated, are strictly increasing and below num_seeds * pps |
| LodDataProperties.PolysIncreasing | lod_data.js:82-105 | an increasing concatenation of polylines has each polyline increasing |
| LodDataProperties.MultisIncreasing | lod_data.js:82-105 | an increasing concatenation of multi-polylines has each polyline increasing |
| LodDataProperties.ExtractedPolyLinesIncreasing | lod_data.js:62-134 | every extracted polyline is strictly increasing and indexes an existing sample |
| LodDataProperties.SampleAccounted | lod_data.js:96-117 | after one more sample a warning is logged only for a scanned sample whose condition holds, and every non-size-1 warning whose condition holds for a scanned sample is logged |
| LodDataProperties.OffsetStepAccounted | lod_data.js:73-118 | the same, across one offset of ScanOffsets |
| LodDataProperties.ScanOffsetsAccounted | lod_data.js:73-118 | the same, after n samples of a seed |
| LodDataProperties.AccountedAcrossSeedEnd | lod_data.js:119-126 | proof step for ScanSeedsAccounted: position (k, pps) and position (k + 1, 0) count the same scanned samples, so the accounting carries across the seed end |
| LodDataProperties.ScanSeedsWarningsStep | lod_data.js:119-126 | proof step for ScanSeedStepAccounted: unfolding ScanSeeds by one seed shows that the seed-end decision adds no diagnostic |
| LodDataProperties.SeedAccounted | lod_data.js:71-118 | scanning a whole seed keeps every warning accounted for |
| LodDataProperties.ScanSeedStepAccounted | lod_data.js:69-127 | one seed and its flush decision keep every warning accounted for |
| LodDataProperties.ScanSeedsAccounted | lod_data.js:69-127 | after k seeds every warning is accounted for over the first k seeds |
| LodDataProperties.ConsecutiveWarningsExact | lod_data.js:72-117 | a consecutive-flag warning is logged for a sample iff its flag is 3, 1 or -1 and equals the previous flag of the same seed; the first sample of a seed never gets one (oldFlag is reset to 1337) |
| LodDataProperties.UnknownFlagWarningsExact | lod_data.js:106-108 | an unknown-flag warning is logged exactly for the samples whose flag is outside -1..3 |
| LodDataProperties.SizeOneWarningsAtTerminals | lod_data.js:96-102 | a size-1 warning only comes from a sample with flag 3 |
| LodDataProperties.PolysSegmentsAppend | lod_data.js:141-154 | segments of polylines are grouped in polyline order |
| LodDataProperties.SegmentsAppend | lod_data.js:138-155 | segments are grouped by multi-polyline in list order |
| LodDataProperties.BeginningCountAppend | lod_data.js:151 | the number of beginning marks adds up over concatenation |
| LodDataProperties.PolySegmentBeginnings | lod_data.js:144-151 | among the segments of one polyline exactly the first is marked as its beginning |
| LodDataProperties.PolysSegmentsCounts | lod_data.js:141-154 | the polylines of one multi-polyline yield the sum of max(n - 1, 0) segments, with one beginning mark per polyline of two or more indices |
| LodDataProperties.SegmentCounts | lod_data.js:136-155 | the whole list yields the sum of max(n - 1, 0) segments, with one beginning mark per polyline of two or more indices |
| LodDataProperties.PolysSegmentsIds | lod_data.js:149 | every segment generated from the polylines of one multi-polyline carries that multi-polyline's id |
| LodDataProperties.PolysSegmentsWithin | lod_data.js:144-152 | segments of increasing in-range polylines have lo <= indexA < indexB < hi, copy 0, isBeginning 0 or 1, and an id equal to the owner's id, which lies below idBound |
| LodDataProperties.SegmentsWithin | lod_data.js:138-155 | every segment of a list of multi-polylines has lo <= indexA < indexB < hi, copy 0, isBeginning 0 or 1, and an id below idBound |
| LodDataProperties.SegmentsOwned | lod_data.js:138-155 | every segment of a list was generated from the polylines of one of its multi-polylines and carries that multi-polyline's id |
| LodDataProperties.ExtractedSegmentsValid | lod_data.js:129-158 | after extraction every segment has indexA < indexB, both below num_seeds * pps, and copy 0; its id is the position of the multi-polyline whose polylines produced it |
| LodDataProperties.ThreeSampleSeed | lod_data.js:71-118 | a seed of three samples is scanned with oldFlag 1337, then the first flag, then the second |
| LodDataProperties.RepeatedTerminatorExample | lod_data.js:96-117 | flags 1 3 3 in one seed log exactly a size-1 report and a consecutive-flag report, both at offset 2 |
| LodDataProperties.TracedSteps | lod_data.js:79-105 | samples f 2 3 (f = 1 or -1) from an empty open polyline push one polyline of three indices and set the direction by f |
| LodDataProperties.TracedSeed | lod_data.js:71-118 | the same for a whole seed of three samples |
| LodDataProperties.ForwardFirstSeed | lod_data.js:66-126 | a first seed traced 1 2 3 in BOTH mode pushes nothing and leaves its polyline in the open multi-polyline |
| LodDataProperties.SeedKeptOpen | lod_data.js:119-126 | in BOTH mode a seed that ends Forward is not flushed |
| LodDataProperties.PairScan | lod_data.js:66-127 | seeds traced 1 2 3 and -1 2 3 in BOTH mode push exactly one multi-polyline holding both polylines |
| LodDataProperties.BothModePairExample | lod_data.js:62-134 | for flags 1 2 3 -1 2 3 in BOTH mode the result is the one multi-polyline [0,1,2], [3,4,5] with id 0 |
| LodDataProperties.BothModeDropsUnpairedExample | lod_data.js:119-126 | for one forward seed in BOTH mode nothing is extracted: the unflushed multi-polyline is dropped |
| Objects.AxisTipMovesOneCoordinate | object_manager.js:203-209 | the tip of axis i moves the position by length * directions[i] along coordinate i only |
| Objects.CornerCylinders | object_manager.js:190-232 | a corner is three cylinders |
| Objects.CornerCylindersShape | object_manager.js:190-232 | the three cylinders of a corner start at the position, have the radius and the x/y/z colour, and the i-th ends at position + length * directions[i] * e_i |
| Objects.WindowCornerOfLoop | object_manager.js:43-50 | loop variables x, y, z address corner 4x + 2y + z, at (x, y, z) with directions (x == 0 ? 1 : -1, ...) |
| Objects.Window | object_manager.js:43-58 | a window is 27 cylinders |
| Objects.WindowPrefixStep | object_manager.js:43-58 | the first k + 1 corners of a window are the first k followed by corner k |
| Objects.AddCubeCornerStep | object_manager.js:43-52 | appending corner (x, y, z) as the loop does extends the default window prefix by one corner |
| Objects.AxesBlock | object_manager.js:30-59 | one AddAxes call appends 33 cylinders |
| Objects.AddOriginCornerStep | object_manager.js:54-58 | appending the fat origin axes completes the block |
| Objects.ProjectionFrame | object_manager.js:86-117 | four cylinders of radius 0.01 in grey, starting at p1..p4, each ending where the next starts and the last ending at p1 |
| Objects.ProjectionFrames | object_manager.js:61-84 | the three frames are 12 cylinders |
| Objects.Layout | object_manager.js:10-25 | the list has 78 cylinders |
| Objects.RecalculatedCorner | object_manager.js:234-271 | recalculating a corner keeps the list length |
| Objects.RecalculatedCornerFacts | object_manager.js:234-271 | only the three cylinders at start change: they get the radius, the position and the axis tips, and keep their colours |
| Objects.RecalculatedCorners | object_manager.js:171-180 | recalculating k corners keeps the list length |
| Objects.RecalculatedWindow | object_manager.js:157-188 | recalculating a window keeps the list length |
| Objects.RecalculatedWindowFacts | object_manager.js:157-188 | exactly the 27 cylinders from start are rewritten, each to the radius and ends of the window cylinder at the new sizes and with its colour and start point kept |
| Objects.RecalculatedCornersStep | object_manager.js:171-180 | recalculating corner k after the first k covers the first k + 1 |
| Objects.RecalculatedCornersNone | object_manager.js:168 | proof step for RecalculateCubeCorners: it unfolds RecalculatedCorners at zero corners, so the loop invariant holds on entry |
| Objects.RecalculateCubeCornerStep | object_manager.js:171-180 | the loop body for corner (x, y, z) covers one more corner, at the index 3 * (4x + 2y + z) after start |
| Objects.RecalculateOriginStep | object_manager.js:182-187 | recalculating the origin axes after the eight corners completes the window |
| Objects.ObjectManager.constructor | object_manager.js:10-25 | the list is the default layout of 78 cylinders with start indices 6, 39 and 66, and no parameters are stored |
| Objects.ObjectManager.AddAxesCorner | object_manager.js:190-232 | appends exactly CornerCylinders with length 0.25 |
| Objects.ObjectManager.AddAxes | object_manager.js:30-59 | appends the 33-cylinder block and records the list length at entry plus 6 as the main or side start, leaving the other |
| Objects.ObjectManager.AddCubeCorners | object_manager.js:43-52 | the x/y/z loop appends the first 24 cylinders of the default window |
| Objects.ObjectManager.AddProjectionFrames | object_manager.js:61-84 | records the list length as the frame start and appends the three frames |
| Objects.ObjectManager.AddProjectionFrame | object_manager.js:86-117 | appends exactly ProjectionFrame(p1, p2, p3, p4) |
| Objects.ObjectManager.SetAxesParameters | object_manager.js:119-155 | keeps Valid, also after Update has moved the movable axes; stores the twelve values; the list becomes both windows recalculated at 6 and 39 with the new sizes, so the front corners and frames stay as they were; nothing changes when the values equal the stored ones |
| Objects.ObjectManager.RecalculateAxes | object_manager.js:157-188 | the list becomes RecalculatedWindow of the old list at start with the given sizes |
| Objects.ObjectManager.RecalculateCubeCorners | object_manager.js:168-180 | the x/y/z loop recalculates the first eight corners and leaves the start index at start + 24 |
| Objects.ObjectManager.RecalculateAxesCorner | object_manager.js:234-271 | returns start + 3 and the list becomes RecalculatedCorner of the old list |
| Objects.ObjectManager.MainMovableAxes | object_manager.js:381 | cylinders[0..2], read by Update, are the three cylinders six before the main window's start index |
| Objects.ObjectManager.SideMovableAxes | object_manager.js:385 | cylinders[33..35], read by Update, are the three cylinders six before the side window's start index |
| Objects.ObjectManager.Update | object_manager.js:379-387 | keeps Valid; a dirty main or side state replaces exactly cylinders[0..2] or [33..35] with what it computes, and Main/SideMovableAxes then return it; the windows and frames are untouched |
| Objects.MovedAxes | object_manager.js:381 | replacing the three cylinders at start keeps the length, puts the moved ones at start..start + 2, and changes no other entry |
| Objects.MovedAxesKeepLayout | object_manager.js:379-387 | moving the main and side movable axes keeps the windows and frames of the list |
| Objects.LayoutKeptSplit | object_manager.js:10-25 | a list that keeps the layout is its two free front parts interleaved with the main window, the side window and the frames |
| Objects.LayoutIsKept | object_manager.js:10-25 | the constructor's layout keeps its windows and frames, and both of its front parts are two copies of the front corner |
| Objects.RecalculateKept | object_manager.js:153-154 | on a list that keeps the layout, recalculating both windows rewrites exactly the windows to the new sizes, whatever the front corners hold |
| Objects.RecalculateRewritesWindow | object_manager.js:157-188 | recalculating a window that holds the cylinders of some sizes yields the window of the new sizes and leaves the rest |
| Objects.LayoutRecalculateMain | object_manager.js:153 | recalculating at 6 turns the layout with main sizes a into the layout with main sizes c |
| Objects.LayoutRecalculateSide | object_manager.js:154 | recalculating at 39 turns the layout with side sizes b into the layout with side sizes c |
| ObjectsProperties.LayoutParts | object_manager.js:10-25 | the list is main movable axes, camera-orientation axes, main window, side movable axes, camera-orientation axes, side window, frames, at 0, 3, 6, 33, 36, 39 and 66 |
| ObjectsProperties.SideMovableAxesIndex | object_manager.js:23-41 | cylinders[33..35] are the first three cylinders appended by AddAxes(false), whose block starts at 33; Update reads them at line 385 |
| ObjectsProperties.ProjectionFramesClosed | object_manager.js:61-117 | the three frames are closed grey rings of radius 0.01 lying in the planes x = 0, y = 0 and z = 0 |
| ObjectsProperties.CubeCornerInward | object_manager.js:43-50 | at each cube corner every direction sign points into the unit cube |
| ObjectsProperties.InwardTipInsideCube | object_manager.js:203-209 | with a length in [0, 1] an inward axis from a cube corner ends inside the unit cube |
| ObjectsProperties.WindowTipsInsideCube | object_manager.js:43-52 | with a length in [0, 1] every cube-corner axis of a window starts and ends inside the unit cube |
| ObjectsProperties.WindowStartsAndColorsFixed | object_manager.js:43-58 | sizes decide only radii and far ends: start points and colours of the window are the same at all sizes |
| ObjectsProperties.RecalculateSameSizesIsIdentity | object_manager.js:125-154 | on any list that keeps the layout, recalculating both windows with the sizes in place changes nothing, so the guard only saves work |
| ObjectsProperties.RecalculateUndo | object_manager.js:153-154 | on any list that keeps the layout, recalculating with new sizes keeps the layout, and recalculating with the old ones then restores the list |
| ObjectsProperties.MovedFrontsAgree | object_manager.js:379-387 | proof step for MoveRecalculateCommute: moving the movable axes of two lists whose front parts agree leaves front parts that agree |
| ObjectsProperties.MoveRecalculateCommute | object_manager.js:119-155 | moving the movable axes as Update does and recalculating the windows as SetAxesParameters does give the same list in either order |
| ObjectsProperties.RecalculateKeepsMovableAxes | object_manager.js:157-188 | recalculating either window leaves cylinders[0..2] and [33..35], which Update reads, untouched |

## Left out

- `CalculateMatrices`/`CalculateMatrix` in both files: floating-point rotations and a foreign matrix inversion.
- `CalculateBVH`: the bounding-volume hierarchy is built by code that is not part of this model.
- The GPU side: `UpdateDataUnit`, `UpdateDataTextures`, `bind`, and the data units, data containers and textures created in the `LODData` constructor. The modelled constructor keeps only the two result lists and the raw data.
- `MovableAxesState` is not part of this model, so its `Update` and `SetSettings` are left out, as are the `dirty` flags. `ObjectManager.Update` takes the three cylinders each state would write as an optional argument, where `None` means the state is not dirty. The model then allows any replacement of `cylinders[0..2]` and `[33..35]`, including radius and colour, which the states may not in fact change.
- Console output: the three error messages become the returned `Warning` list, and every other log line is dropped.
- Flags are integers. A non-integer or NaN position component, which the JavaScript `switch` would send to its default branch, is not modelled.
- Coordinates are exact reals, and w = 1 of the homogeneous positions is dropped.
- The methods that read samples or cylinders require those indices to be in range. The JavaScript would throw on an out-of-range read.
- `ObjectManager.SetAxesParameters`: the guard compares all twelve values with strict equality of defined values. Looser JavaScript `==` between mixed types is not modelled, and neither are calls with `undefined` arguments. The fields start `undefined`, modelled as `None`, so the first call always recalculates.
- `ObjectManager.RecalculateAxes`: the unused `is_main` argument is dropped.
- Cylinders are values. The source shares one colour object and the corner points among the four cylinders of a frame, and it mutates cylinder objects in place. The model replaces whole list entries, so aliasing between cylinders is not captured.
- `ObjectManager.AddCubeCorners`, `ObjectManager.RecalculateCubeCorners`, `LODData.AppendPolySegments`, `ScanSeed` and `ProcessSample` are loops or bodies of the source split out as methods of their own. The order of operations is unchanged.
- Colours are stated only as fixed per axis and kept by recalculation. The `invert_color` and `use_axes_colors` settings are stored but never change a colour, as in the source.
- `SizeOneWarningsAtTerminals` states only that a size-1 warning implies flag 3. Whether it is logged depends on the open polyline, which carries over between seeds; that condition is stated per sample by `SampleStepWarnings`.
