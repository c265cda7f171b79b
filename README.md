# PhotonVision pipeline core in Dafny

This project models the pipeline-selection and stage-sequencing logic of
PhotonVision's vision core and proves properties of it:

- **PipelineManager** (`pipeline_manager.dfy`, with `pipeline_kinds.dfy`,
  `pipeline_settings.dfy`, `settings_order.dfy`, `unique_names.dfy` and
  `index_handoff.dfy`) is a class over the user pipeline-settings list and the
  indices `currentPipelineIndex`, `requestedIndex` and `lastUserPipelineIdx`.
  - Setters only record a request. `UpdatePipelineFromRequested` is the one
    place the active index moves. It is proved equal to the value function
    `IndexHandoff.Reconcile`, whose properties are separate lemmas.
  - Every list operation is proved against the reference definition
    `Reindexed(SortByIndex(...))`: a stable insertion sort by `pipelineIndex`,
    then renumbering to positions. Lemmas show what this means on a densely
    indexed list: add appends, remove keeps the order of the rest, and a type
    change keeps the slot.
  - `createUniqueName` is the imperative loop of the source. It is proved
    against the declarative `IsUniqueNameFor`: a free name is kept, a
    numbered name is renumbered from its number plus one, and otherwise
    " (n)" is appended with the smallest free n. The regex
    `.*\([0-9]*\)` is modelled character by character, including Java's
    rule that `.` does not match line terminators.
- **OutputStreamPipeline** (`output_stream_pipeline.dfy`) holds a 12-slot
  profile array. `SlotPlan` says declaratively which stage writes which slot
  for each frame and pipeline kind. `Process` is proved to write exactly that
  plan and to return the sum of the timed slots.
- **ReflectivePipeline** (`reflective_pipeline.dfy`):
  - The stage chain writes slots 2-9 of its profile. It is proved against
    `Trace`, and the lemma `TraceIsChain` shows that each stage consumes the
    previous stage's output.
  - `DeriveParams` is the parameter derivation.
- **HSVPipe** (`hsv_pipe.dfy`): the per-pixel threshold is the predicate
  `Passes`, including the hue-inverted split. `Process` patches copies of the
  bounds and OR-combines two masks; it is proved to compute `Passes` for every
  pixel.
- **AprilTagPoseEstimatorPipe** (`apriltag_pose_estimator_pipe.dfy`):
  - the configuration cache of `setParams`;
  - the two corner loops of `process`, proved against `Flatten`/`Unflatten`;
  - the rebuilt detection.
- **VisionSourceSettables** (`vision_source_settables.dfy`): the
  calibration lookup (`SelectCalibration` picks the first calibration whose
  size matches), plus the FOV, calibration, video-mode and connection
  bookkeeping.
- **TimedTaskManager** (`timed_task_manager.dfy`): the `activeTasks`
  registry. The executor is reduced to a log of scheduled and cancelled
  futures.

Stage run times, frame rates, OpenCV/native calls (undistortion) and
`CameraConfiguration.addCalibration` are parameters of the model, not
computed by it.

Hue wrap-around in `HSVPipe.process` is chosen by the `hueInverted` flag
alone, not by the order of the bounds: with the flag set, a pixel passes
when its hue lies in `[upperHue, 180] ∪ [0, lowerHue]`, and with it clear,
in `[lowerHue, upperHue]`. `Hsv.FlagAloneDecides` states what that means for
crossed bounds.

The user settings carry dense indices (each entry's `pipelineIndex` equal to
its position) only after `reassignIndexes` has run; the constructor keeps a
loaded list as it is. The model therefore specifies each list operation on
any list, with the dense case as a separate clause. A type change keeps its
slot only if `pipelineIndex` is among the copied base fields; otherwise the
new settings have index 0, and re-sorting can move them. Which fields are
copied depends on annotations in classes that are not part of this model,
so `ChangePipelineType` states both cases.

## Model

| member | source | states |
|---|---|---|
| PipelineKinds.BaseIndexInjective | photon-core/src/main/java/org/photonvision/vision/processes/PipelineManager.java:458-466 | two pipeline kinds share a base index only if they are the same kind, so the lookup by base index is unambiguous |
| PipelineKinds.KindOfBaseIndex | photon-core/src/main/java/org/photonvision/vision/processes/PipelineManager.java:458-466 | the lookup finds a kind with the requested base index, and finds none exactly when no kind has it |
| PipelineKinds.KindOfBaseIndexRoundTrip | photon-core/src/main/java/org/photonvision/vision/processes/PipelineManager.java:458-466 | looking up a kind's own base index returns that kind |
| PipelineSettings.CreateSettingsForType | photon-core/src/main/java/org/photonvision/vision/processes/PipelineManager.java:336-354 | user kinds get default settings of that kind carrying the given nickname; driver mode and calibration get none (null) |
| PipelineSettings.CopyBaseFields | photon-core/src/main/java/org/photonvision/vision/processes/PipelineManager.java:493-505 | the new settings keep their kind and field set; every field that is not copy-suppressed and that the old settings have takes the old value, and every other field keeps the new default |
| PipelineSettings.Nicknames | photon-core/src/main/java/org/photonvision/vision/processes/PipelineManager.java:414-415 | the names compared against are the settings' nicknames, position by position |
| PipelineSettings.FindByIndex | photon-core/src/main/java/org/photonvision/vision/processes/PipelineManager.java:96-100 | a settings entry is found only if its pipelineIndex equals the requested index; nothing is found exactly when no entry has that index |
| PipelineSettings.FindByIndexDense | photon-core/src/main/java/org/photonvision/vision/processes/PipelineManager.java:96-100 | on a densely indexed list the lookup by index is the list element at that position, and null outside the list |
| IndexHandoff.Request | photon-core/src/main/java/org/photonvision/vision/processes/PipelineManager.java:188-190 | a request changes only the requested index |
| IndexHandoff.DriverModeRequest | photon-core/src/main/java/org/photonvision/vision/processes/PipelineManager.java:293-295 | only the request changes: entering driver mode requests the driver-mode index and leaving it requests the last user pipeline, so a built-in index is requested exactly when entering |
| IndexHandoff.CalibrationRequest | photon-core/src/main/java/org/photonvision/vision/processes/PipelineManager.java:281-284 | only the request changes: entering calibration requests the calibration index and leaving it requests the last user pipeline, so a built-in index is requested exactly when entering |
| IndexHandoff.Reconcile | photon-core/src/main/java/org/photonvision/vision/processes/PipelineManager.java:198-226 | the request is kept; a request equal to the current index changes nothing; a request above the list is left pending; an acceptable request becomes current; the last user index is recorded only when leaving a user pipeline for a built-in one |
| IndexHandoff.ReconcileIdempotent | photon-core/src/main/java/org/photonvision/vision/processes/PipelineManager.java:198-226 | reconciling twice is the same as reconciling once |
| IndexHandoff.OutOfRangeStaysPending | photon-core/src/main/java/org/photonvision/vision/processes/PipelineManager.java:201-203 | a request beyond the last user pipeline leaves all indices unchanged |
| IndexHandoff.ReconcileSettlesIffInRange | photon-core/src/main/java/org/photonvision/vision/processes/PipelineManager.java:198-226 | after reconciling, the active index equals the request exactly when the request is within the list |
| IndexHandoff.DriverModeRoundTrip | photon-core/src/main/java/org/photonvision/vision/processes/PipelineManager.java:198-226 | entering driver mode then leaving it returns to the user pipeline that was active |
| IndexHandoff.CalibrationRoundTrip | photon-core/src/main/java/org/photonvision/vision/processes/PipelineManager.java:198-226 | entering calibration then leaving it returns to the user pipeline that was active |
| SettingsOrder.InsertCorrect | photon-core/src/main/java/org/photonvision/vision/processes/PipelineManager.java:314-319 | inserting one settings entry into a sorted list keeps it sorted, adds exactly that entry, and places it after every entry with an equal index |
| SettingsOrder.SortByIndexIsStableSort | photon-core/src/main/java/org/photonvision/vision/processes/PipelineManager.java:314-319 | the sort yields a list sorted by pipelineIndex in which entries with an equal index keep their relative order (List.sort is stable) |
| SettingsOrder.SortByIndexPermutes | photon-core/src/main/java/org/photonvision/vision/processes/PipelineManager.java:314-319 | sorting neither loses nor adds settings |
| SettingsOrder.SortSortedIsIdentity | photon-core/src/main/java/org/photonvision/vision/processes/PipelineManager.java:314-319 | sorting an already sorted list changes nothing |
| SettingsOrder.AppendLargestStaysLast | photon-core/src/main/java/org/photonvision/vision/processes/PipelineManager.java:314-319 | an entry whose index is at least every other index stays last after sorting |
| SettingsOrder.AppendLandsAt | photon-core/src/main/java/org/photonvision/vision/processes/PipelineManager.java:314-319 | after the stable sort, an appended entry sits right after the old entries whose index is at most its own |
| SettingsOrder.Reindexed | photon-core/src/main/java/org/photonvision/vision/processes/PipelineManager.java:316-318 | renumbering yields dense indices 0..n-1 and otherwise keeps each entry |
| SettingsOrder.ReindexDenseIsIdentity | photon-core/src/main/java/org/photonvision/vision/processes/PipelineManager.java:314-319 | reassigning indices on a densely indexed list changes nothing |
| SettingsOrder.AppendNextKeepsOrder | photon-core/src/main/java/org/photonvision/vision/processes/PipelineManager.java:325-334 | on a dense list, appending an entry with the next index and reassigning yields the old list followed by the entry |
| SettingsOrder.AppendLargestLandsLast | photon-core/src/main/java/org/photonvision/vision/processes/PipelineManager.java:356-360 | an appended entry with the largest index ends up last, renumbered to the old length |
| SettingsOrder.RemoveFromDenseKeepsOrder | photon-core/src/main/java/org/photonvision/vision/processes/PipelineManager.java:367-372 | removing one entry from a dense list and reassigning keeps the remaining entries in their order |
| SettingsOrder.ReplaceInDenseKeepsOrder | photon-core/src/main/java/org/photonvision/vision/processes/PipelineManager.java:509-512 | replacing one entry of a dense list by settings with the same index leaves the replacement in that slot |
| UniqueNames.LastIndexOf | photon-core/src/main/java/org/photonvision/vision/processes/PipelineManager.java:431 | the result is the last position holding the character, or -1 when there is none |
| UniqueNames.NumberSuffixIsRegex | photon-core/src/main/java/org/photonvision/vision/processes/PipelineManager.java:426 | the suffix test through the last '(' accepts exactly the names that match the regular expression .*\([0-9]*\) |
| UniqueNames.DigitsRoundTrip | photon-core/src/main/java/org/photonvision/vision/processes/PipelineManager.java:432-434 | parsing the decimal text of a number gives the number back |
| UniqueNames.Rewrite | photon-core/src/main/java/org/photonvision/vision/processes/PipelineManager.java:426-437 | one rename fails exactly on an empty "()" suffix with no line break before that '(', and appends " (1)" to a name without a number suffix |
| UniqueNames.CreateUniqueName | photon-core/src/main/java/org/photonvision/vision/processes/PipelineManager.java:410-440 | the name fails exactly when a taken nickname ends in "()" with no line break before that '(' (the regex `.` excludes line terminators); otherwise it is free, a free nickname is kept, a numbered nickname is renumbered with the least free number above its own, and any other taken nickname gets the least free " (n)" |
| UniqueNames.AnotherOneIsRenumbered | photon-core/src/test/java/org/photonvision/vision/processes/PipelineManagerTest.java:37-67 | a copy of "Another (1)" next to "Another" and "Another (1)" is named "Another (2)" |
| PipelineManagement.InstanceFor | photon-core/src/main/java/org/photonvision/vision/processes/PipelineManager.java:232-272 | a user kind gets a new pipeline of that kind built from the settings; a built-in kind keeps the previous pipeline |
| PipelineManagement.RemoveAt | photon-core/src/main/java/org/photonvision/vision/processes/PipelineManager.java:369 | removal drops exactly one position and shifts the later entries down |
| PipelineManagement.IndexOf | photon-core/src/main/java/org/photonvision/vision/processes/PipelineManager.java:407 | the result is the first position holding the value, or -1 exactly when the value is absent |
| PipelineManagement.TypeChanged | photon-core/src/main/java/org/photonvision/vision/processes/PipelineManager.java:487-505 | the replacement settings have the new kind and its field set, every copied base field the old settings carry keeps its old value, and the old pipelineIndex is kept only if that field is copied |
| PipelineManagement.PipelineManager.constructor | photon-core/src/main/java/org/photonvision/vision/processes/PipelineManager.java:62-80 | the loaded list is kept, an empty one becomes a single AprilTag pipeline named "New Pipeline", and the default index is requested and reconciled from driver mode; the schema and the driver-mode and calibration settings are the arguments; an accepted user index releases the initial driver-mode pipeline and builds the user pipeline from its settings, otherwise the driver-mode pipeline stays and nothing is released; one settings event is published exactly when the default index is accepted |
| PipelineManagement.PipelineManager.GetPipelineSettings | photon-core/src/main/java/org/photonvision/vision/processes/PipelineManager.java:92-103 | the two built-in indices give the built-in settings; any other index gives the first entry in list order with that pipelineIndex, or null when none has it; on a dense list that is the entry at that position |
| PipelineManagement.PipelineManager.SetIndex | photon-core/src/main/java/org/photonvision/vision/processes/PipelineManager.java:374-376 | only the requested index changes |
| PipelineManagement.PipelineManager.SetDriverMode | photon-core/src/main/java/org/photonvision/vision/processes/PipelineManager.java:293-295 | only the requested index changes, to driver mode or back to the last user pipeline |
| PipelineManagement.PipelineManager.SetCalibrationMode | photon-core/src/main/java/org/photonvision/vision/processes/PipelineManager.java:281-284 | the request changes as for driver mode, and leaving calibration tells the calibration pipeline to finish |
| PipelineManagement.PipelineManager.RecreateUserPipeline | photon-core/src/main/java/org/photonvision/vision/processes/PipelineManager.java:232-272 | the previous pipeline is released and replaced by one built from the current settings |
| PipelineManagement.PipelineManager.UpdatePipelineFromRequested | photon-core/src/main/java/org/photonvision/vision/processes/PipelineManager.java:198-226 | the indices move as Reconcile says; an accepted user index rebuilds the pipeline; a settings event is published exactly when the request was accepted |
| PipelineManagement.PipelineManager.GetCurrentPipeline | photon-core/src/main/java/org/photonvision/vision/processes/PipelineManager.java:151-159 | the pending request is reconciled first, then the calibration, driver-mode or current user pipeline is returned |
| PipelineManagement.PipelineManager.ReassignIndexes | photon-core/src/main/java/org/photonvision/vision/processes/PipelineManager.java:314-319 | the list becomes the stable sort by index, renumbered densely |
| PipelineManagement.PipelineManager.AddPipelineInternal | photon-core/src/main/java/org/photonvision/vision/processes/PipelineManager.java:356-360 | the list becomes the reassigned old list with the entry appended |
| PipelineManagement.PipelineManager.AddPipeline | photon-core/src/main/java/org/photonvision/vision/processes/PipelineManager.java:325-334 | driver mode and calibration add nothing; a user kind appends its default settings with the given nickname and the list is re-sorted and renumbered; the returned settings are the list entry where they landed, after every old entry whose index is at most the old size, carrying that position as index; on a dense list they land last |
| PipelineManagement.PipelineManager.AddNewPipeline | photon-core/src/main/java/org/photonvision/vision/processes/PipelineManager.java:321-323 | as AddPipeline with the nickname "New Pipeline": nothing for a built-in kind, otherwise the defaults appended, re-sorted and renumbered, and the returned settings are the list entry where they landed |
| PipelineManagement.PipelineManager.RemovePipelineInternal | photon-core/src/main/java/org/photonvision/vision/processes/PipelineManager.java:367-372 | an index past the list fails with nothing removed; otherwise that entry is removed, the rest reassigned, and the current index set to the removed position, lowered to the last position of the shorter list when the removed entry was last (min(index, size - 1)) |
| PipelineManagement.PipelineManager.RemovePipeline | photon-core/src/main/java/org/photonvision/vision/processes/PipelineManager.java:378-384 | a negative index removes nothing and reports the current index; an index past the list fails with nothing changed; otherwise that entry is removed, the rest re-sorted and renumbered, the current index set to min(index, size - 1) of the shorter list (the removed position, not the old current index) and returned, and on a dense list the other entries keep their order |
| PipelineManagement.PipelineManager.DuplicatePipeline | photon-core/src/main/java/org/photonvision/vision/processes/PipelineManager.java:396-408 | an index outside the list fails, and a nickname ending in an empty "()" with no line break before that '(' fails; both leave the list unchanged; otherwise the reassigned list is followed by a copy of that entry at the next index with a unique nickname, and its position is returned |
| PipelineManagement.PipelineManager.ReplaceCurrent | photon-core/src/main/java/org/photonvision/vision/processes/PipelineManager.java:509-513 | the active slot is replaced, the active index is re-requested, indices are reassigned and the pipeline rebuilt |
| PipelineManagement.PipelineManager.ChangePipelineType | photon-core/src/main/java/org/photonvision/vision/processes/PipelineManager.java:453-514 | an unknown type, a missing current settings entry, the same type or a built-in current pipeline end the call with nothing changed; a built-in target kind only re-requests the active index; otherwise the active slot holds the new kind's settings with the copied fields, the list is re-sorted and renumbered, the pipeline rebuilt, and on a dense list the slot keeps its position when the index field is copied |
| OutputStream.PlannedElapsedSlots | photon-core/src/main/java/org/photonvision/vision/pipeline/OutputStreamPipeline.java:117-238 | the elapsed total is the sum of what slots 0 to 8 record |
| OutputStream.EmptyOutputLeavesDrawSlots | photon-core/src/main/java/org/photonvision/vision/pipeline/OutputStreamPipeline.java:132-226 | an empty output image leaves every drawing slot untouched |
| OutputStream.InputSlotAndSpareSlots | photon-core/src/main/java/org/photonvision/vision/pipeline/OutputStreamPipeline.java:128-130 | slot 0 is timed exactly when the input image is non-empty and is never zeroed; slots past 8 are never written |
| OutputStream.ConvertAndCrosshairSlots | photon-core/src/main/java/org/photonvision/vision/pipeline/OutputStreamPipeline.java:139-148 | the colour conversion is zeroed exactly when the output is not single-channel; the input crosshair is always timed |
| OutputStream.CrosshairOutputOnlyGeneric | photon-core/src/main/java/org/photonvision/vision/pipeline/OutputStreamPipeline.java:150-175 | the output crosshair is timed only for the generic pipelines |
| OutputStream.GenericSlots | photon-core/src/main/java/org/photonvision/vision/pipeline/OutputStreamPipeline.java:150-175 | generic pipelines time the 3d targets with PnP and the 2d targets without, zeroing the others |
| OutputStream.CalibrationSlots | photon-core/src/main/java/org/photonvision/vision/pipeline/OutputStreamPipeline.java:176-183 | calibration times only its own drawing and does not depend on the PnP flag |
| OutputStream.MarkerSlots | photon-core/src/main/java/org/photonvision/vision/pipeline/OutputStreamPipeline.java:184-225 | AprilTag and Aruco pipelines time their 3d drawing with PnP and their 2d drawing without, zeroing the others |
| OutputStream.OutputStreamPipeline.constructor | photon-core/src/main/java/org/photonvision/vision/pipeline/OutputStreamPipeline.java:47 | the profile array has 12 zeroed slots |
| OutputStream.OutputStreamPipeline.SetPipeParams | photon-core/src/main/java/org/photonvision/vision/pipeline/OutputStreamPipeline.java:49-115 | the resize divisor always follows the settings; calibration drawing parameters change only for the calibration pipeline |
| OutputStream.OutputStreamPipeline.Process | photon-core/src/main/java/org/photonvision/vision/pipeline/OutputStreamPipeline.java:117-238 | every profile slot is written as the plan says and the rest kept; the elapsed total is the plan's sum; the result carries the frame's sequence id, the targets, the frame and the fps; the resize divisor follows the settings, and the calibration drawing parameters are set from calibration settings and kept otherwise |
| OutputStream.OutputStreamPipeline.DrawOverlays | photon-core/src/main/java/org/photonvision/vision/pipeline/OutputStreamPipeline.java:150-225 | slots 4 to 8 are written per the plan and their sum returned |
| Reflective.DeriveParams | photon-core/src/main/java/org/photonvision/vision/pipeline/ReflectivePipeline.java:58-112 | the filter is landscape exactly for landscape orientation; the sort keeps the multi-target maximum only when multiple targets are shown, else 1; the dual offsets come from the four offset fields; the calibration comes from the frame properties |
| Reflective.DeriveIgnoresSolvePNPFlag | photon-core/src/main/java/org/photonvision/vision/pipeline/ReflectivePipeline.java:58-112 | the stage parameters do not depend on the PnP flag |
| Reflective.SortLimitAtLeastOne | photon-core/src/main/java/org/photonvision/vision/pipeline/ReflectivePipeline.java:86-90 | the sort limit is at least one, and exactly one when multiple targets are not shown |
| Reflective.StageOrder | photon-core/src/main/java/org/photonvision/vision/pipeline/ReflectivePipeline.java:118-157 | six stages run, or eight exactly when PnP is enabled |
| Reflective.TraceIsChain | photon-core/src/main/java/org/photonvision/vision/pipeline/ReflectivePipeline.java:118-152 | the first stage consumes the frame's processed image and each later stage consumes its predecessor's output |
| Reflective.SumNanosAppend | photon-core/src/main/java/org/photonvision/vision/pipeline/ReflectivePipeline.java:118-152 | adding one stage adds its time to the total |
| Reflective.TracePrefix | photon-core/src/main/java/org/photonvision/vision/pipeline/ReflectivePipeline.java:145-157 | the PnP run starts with the six stages of the plain run, and its total adds the two PnP stages |
| Reflective.ReflectivePipeline.constructor | photon-core/src/main/java/org/photonvision/vision/pipeline/ReflectivePipeline.java:44-56 | the settings are stored, the profile array has the requested number of zeroed slots (at least the ten the stages write), and no stage parameters exist yet |
| Reflective.ReflectivePipeline.SetPipeParamsImpl | photon-core/src/main/java/org/photonvision/vision/pipeline/ReflectivePipeline.java:58-112 | the stage parameters become those derived from the settings and the frame properties |
| Reflective.ReflectivePipeline.Process | photon-core/src/main/java/org/photonvision/vision/pipeline/ReflectivePipeline.java:115-165 | slots 2 onward hold each stage's time, slots 8 and 9 are 0 without PnP, the rest are kept; the total is the sum of the stage times; the targets are the last stage's output |
| Hsv.FromCouples | photon-core/src/main/java/org/photonvision/vision/pipe/impl/HSVPipe.java:69-76 | the bounds built from three couples give back those couples and the flag |
| Hsv.CouplesRoundTrip | photon-core/src/main/java/org/photonvision/vision/pipe/impl/HSVPipe.java:69-76 | splitting bounds into couples and rebuilding them returns the same bounds |
| Hsv.Mask | photon-core/src/main/java/org/photonvision/vision/pipe/impl/HSVPipe.java:63 | each mask entry is set exactly when its pixel lies within the bounds |
| Hsv.Or | photon-core/src/main/java/org/photonvision/vision/pipe/impl/HSVPipe.java:59 | each combined entry is set exactly when either input entry is set |
| Hsv.Process | photon-core/src/main/java/org/photonvision/vision/pipe/impl/HSVPipe.java:29-67 | each mask entry is set exactly when its pixel passes the threshold, with the inverted-hue split when the flag is set |
| Hsv.PlainIsInRange | photon-core/src/main/java/org/photonvision/vision/pipe/impl/HSVPipe.java:63 | without the flag, passing is the plain range test |
| Hsv.InvertedBoundaryHuesPass | photon-core/src/main/java/org/photonvision/vision/pipe/impl/HSVPipe.java:35-59 | with the flag, hue 0, 180 and both bounds pass whenever saturation and value do |
| Hsv.InvertedGapRejected | photon-core/src/main/java/org/photonvision/vision/pipe/impl/HSVPipe.java:35-59 | with the flag, hues strictly between the two bounds are rejected |
| Hsv.FlagAloneDecides | photon-core/src/main/java/org/photonvision/vision/pipe/impl/HSVPipe.java:35-63 | with lower hue above upper hue, a clear flag rejects everything and a set flag accepts every hue in range |
| AprilTagPose.RepeatedConfigIsCached | photon-core/src/main/java/org/photonvision/vision/pipe/impl/AprilTagPoseEstimatorPipe.java:92-98 | the estimator is reconfigured on the first call and not again for an equal configuration |
| AprilTagPose.Flatten | photon-core/src/main/java/org/photonvision/vision/pipe/impl/AprilTagPoseEstimatorPipe.java:70-74 | point i goes to positions 2i and 2i+1 as x and y |
| AprilTagPose.Unflatten | photon-core/src/main/java/org/photonvision/vision/pipe/impl/AprilTagPoseEstimatorPipe.java:51-54 | positions 2i and 2i+1 become point i |
| AprilTagPose.FlattenRoundTrip | photon-core/src/main/java/org/photonvision/vision/pipe/impl/AprilTagPoseEstimatorPipe.java:51-74 | flattening points and reading them back returns the points |
| AprilTagPose.UnflattenRoundTrip | photon-core/src/main/java/org/photonvision/vision/pipe/impl/AprilTagPoseEstimatorPipe.java:51-74 | reading an even-length coordinate list as points and flattening returns the list |
| AprilTagPose.AprilTagPoseEstimatorPipe.constructor | photon-core/src/main/java/org/photonvision/vision/pipe/impl/AprilTagPoseEstimatorPipe.java:37-44 | no parameters are set yet and the estimator holds its initial configuration |
| AprilTagPose.AprilTagPoseEstimatorPipe.SetParams | photon-core/src/main/java/org/photonvision/vision/pipe/impl/AprilTagPoseEstimatorPipe.java:92-98 | the parameters are stored and the estimator reconfigured exactly when there were none or the configuration differs |
| AprilTagPose.AprilTagPoseEstimatorPipe.CollectCorners | photon-core/src/main/java/org/photonvision/vision/pipe/impl/AprilTagPoseEstimatorPipe.java:51-54 | the four corners are read from the detection's first eight coordinates |
| AprilTagPose.AprilTagPoseEstimatorPipe.FlattenCorners | photon-core/src/main/java/org/photonvision/vision/pipe/impl/AprilTagPoseEstimatorPipe.java:70-74 | the first four points become eight coordinates |
| AprilTagPose.AprilTagPoseEstimatorPipe.Process | photon-core/src/main/java/org/photonvision/vision/pipe/impl/AprilTagPoseEstimatorPipe.java:47-89 | before any params are set the raw corners are stored and the call fails; otherwise the scratch buffer holds the undistorted corners, fewer than four points fail, and the detection is rebuilt with the flattened undistorted corners and all other fields unchanged |
| VisionSource.SelectCalibration | photon-core/src/main/java/org/photonvision/vision/processes/VisionSourceSettables.java:128-135 | nothing is selected exactly when no calibration matches the mode's size; otherwise the first match is selected |
| VisionSource.FramePropsFor | photon-core/src/main/java/org/photonvision/vision/processes/VisionSourceSettables.java:123-136 | the frame properties carry the mode, the FOV and a calibration of matching size from the configuration, or none when no calibration matches |
| VisionSource.SelectSkipsMisfits | photon-core/src/main/java/org/photonvision/vision/processes/VisionSourceSettables.java:128-135 | calibrations of the wrong size before the first match do not change the selection |
| VisionSource.VisionSourceSettables.constructor | photon-core/src/main/java/org/photonvision/vision/processes/VisionSourceSettables.java:47 | camera properties start uncached and no frame properties are computed |
| VisionSource.VisionSourceSettables.OnCameraConnected | photon-core/src/main/java/org/photonvision/vision/processes/VisionSourceSettables.java:52-54 | the camera properties become cached |
| VisionSource.VisionSourceSettables.GetFOV | photon-core/src/main/java/org/photonvision/vision/processes/VisionSourceSettables.java:108-110 | the FOV is the configuration's |
| VisionSource.VisionSourceSettables.CalculateFrameStaticProps | photon-core/src/main/java/org/photonvision/vision/processes/VisionSourceSettables.java:123-136 | the frame properties are recomputed from the current mode, FOV and calibrations |
| VisionSource.VisionSourceSettables.SetFOV | photon-core/src/main/java/org/photonvision/vision/processes/VisionSourceSettables.java:112-116 | only the FOV in the configuration changes, and the frame properties follow |
| VisionSource.VisionSourceSettables.AddCalibration | photon-core/src/main/java/org/photonvision/vision/processes/VisionSourceSettables.java:118-121 | the configuration gains the calibration and the frame properties follow |
| VisionSource.VisionSourceSettables.SetVideoMode | photon-core/src/main/java/org/photonvision/vision/processes/VisionSourceSettables.java:84-97 | the mode becomes current and the frame properties follow |
| VisionSource.VisionSourceSettables.SetVideoModeByIndex | photon-core/src/main/java/org/photonvision/vision/processes/VisionSourceSettables.java:80-82 | no modes means nothing changes; a known index selects that mode; an unknown index fails with nothing changed |
| TimedTasks.TimedTaskManager.constructor | photon-core/src/main/java/org/photonvision/common/util/TimedTaskManager.java:99 | no task is registered or scheduled |
| TimedTasks.TimedTaskManager.TaskActive | photon-core/src/main/java/org/photonvision/common/util/TimedTaskManager.java:132-134 | a task is active exactly when its identifier is registered, and a registered task was scheduled at a fixed rate under that identifier |
| TimedTasks.TimedTaskManager.AddTask | photon-core/src/main/java/org/photonvision/common/util/TimedTaskManager.java:101-108 | a known identifier changes nothing (AlreadyActive); a new one with a period that is not positive is refused with nothing scheduled or registered (IllegalInterval, the executor's IllegalArgumentException); otherwise a periodic task without delay is scheduled and exactly that identifier registered (Added); the task is active afterwards exactly when the call was not refused |
| TimedTasks.TimedTaskManager.AddTaskWithDelay | photon-core/src/main/java/org/photonvision/common/util/TimedTaskManager.java:110-118 | as AddTask, with the given start delay: known identifiers change nothing, a new one with a period that is not positive is refused with nothing registered, otherwise it is scheduled and registered |
| TimedTasks.TimedTaskManager.AddOneShotTask | photon-core/src/main/java/org/photonvision/common/util/TimedTaskManager.java:120-122 | a one-shot task is scheduled and nothing is registered |
| TimedTasks.TimedTaskManager.CancelTask | photon-core/src/main/java/org/photonvision/common/util/TimedTaskManager.java:124-130 | the identifier is no longer registered; its future is cancelled only when it was registered |

## Left out

- PipelineManagement.PipelineManager.ChangePipelineType: when the target kind is driver mode or calibration, the code stores null in the active slot, requests that slot, and then throws a NullPointerException in `reassignIndexes`. The model ends that case with outcome `NullSettings`: the list is unchanged and only the request is recorded. A list holding null has no value model.
- PipelineManagement.PipelineManager.AddPipeline: in the code the returned settings object is shared with the list. The model returns the value of that list entry after the final reassignment. Later changes to the list do not reach the caller's value, and aliasing between the list and callers is not modelled anywhere.
- PipelineManagement.PipelineManager.DuplicatePipeline: `indexOf` uses the settings' `equals`, which is defined in `CVPipelineSettings`, a class that is not part of this model. The model compares by value. The copy is the only entry with its nickname, so the position found is the copy's own.
- PipelineManagement.PipelineManager.AddPipeline, AddNewPipeline and DuplicatePipeline require the list to have room below the largest Java int. The code would overflow `size()` at that point, which cannot happen with a list held in memory.
- UniqueNames.CreateUniqueName: `Integer.parseInt` overflow on a suffix longer than nine digits, and `number + 1` wrap-around at the largest int, are not modelled. Numbers are unbounded naturals.
- PipelineManagement.PipelineManager.constructor: the settings are loaded as given. Their indices are not reassigned, so later operations are specified on any list, and the list is dense only after the first structural change.
- Copy-suppressed fields: which base fields a type change copies depends on annotations in `CVPipelineSettings` and its subclasses. These are not part of this model, so the base fields and the suppressed ones are parameters (`SettingsSchema.baseFields`, `SettingsSchema.suppressed`). The per-kind default values are a parameter too (`SettingsSchema.defaults`). A valid schema gives every user kind all the base fields, as inheritance does.
- PipelineSettings.CopyBaseFields: a base field missing from the old settings' field map keeps the new default. Java settings objects always have every inherited field. The model does not carry that as an invariant of the loaded list.
- `renameCurrentPipeline`, `getCurrentPipelineSettings`, `getCurrentPipelineIndex`, `getPipelineNicknames`, `getRequestedIndex` and the other getters: these are one-line reads of the modelled state and are not separate members.
- The driver-mode and calibration pipeline objects, the pipeline constructors (`ReflectivePipeline`, `AprilTagPipeline`, ...) and their native resources: a pipeline instance is a value recording its kind and settings, and releasing one is recorded in the `released` log.
- `DataChangeService` UI events: reduced to a ghost count of published events.
- Logging, `System.out` output and `PipelineProfiler` printing: no effect on the state.
- Concurrency: the manager and the task manager run across threads in the system, and `activeTasks` is a concurrent map. The model is sequential.
- TimedTasks: the executor's real scheduling, timing and the running of tasks are not modelled. Scheduling appends to a log, and cancelling marks a future cancelled.
- OutputStream: the OpenCV drawing and resize pipes and their parameters other than the resize divisor and the calibration drawing parameters are not modelled. Each stage's run time is a parameter `nanos`.
- OutputStream.OutputStreamPipeline.Process: `PipelineProfiler.printPipeProfile` and the FPS pipe are left out; the FPS is a parameter.
- Reflective: the contour pipes themselves (find, speckle rejection, filter, group, sort, collect, corner detection, solvePNP) are a parameter `run` giving each stage's output and time. `FindContoursParams` and `CalculateFPSPipe` are not modelled; the enum settings are integer codes.
- Reflective.ReflectivePipeline.constructor: `PipelineProfiler.ReflectivePipeCount` and `MAX_MULTI_TARGET_RESULTS` are defined in files that are not part of this model. They become constructor parameters; the constructor requires at least the ten slots the code writes.
- Hsv.Process: the BGR-to-HSV conversion (`Imgproc.cvtColor`) is not modelled; the image is given as HSV pixels. Mats are sequences of pixels.
- AprilTagPose: `Calib3d.undistortImagePoints` is the parameter `undistort`, and `estimateOrthogonalIteration` is not run. The model returns the corrected detection with the iteration count as a `PoseRequest`.
- AprilTagPose.AprilTagPoseEstimatorPipe.Process: in the code, fewer than four undistorted points would throw `ArrayIndexOutOfBoundsException`. The model returns `MissingCorner` instead.
- VisionSource: the abstract camera operations (`setVideoModeInternal(VideoMode)`, `getCurrentVideoMode`, `getAllVideoModes`) are reduced to fields. Setting a mode is assumed to make it the current mode. Exposure, brightness, gain, white balance and the other camera settables are not modelled.
- VisionSource.VisionSourceSettables.AddCalibration: `CameraConfiguration.addCalibration` is not part of this model and is the function parameter `addToConfiguration`.
- VisionSource.VisionSourceSettables.SetVideoModeByIndex: an unknown index makes the code pass null to `setVideoMode`, which throws before changing anything. The model reports failure with nothing changed.
- `setVideoModeIndex` (the unused variant that reads the field map) is not modelled separately.
- `GstreamerFrameProvider`, `StatusLEDConsumer`, `RequestHandler` and the test classes other than the unique-name test are outside the modelled core.
- Floating-point FOV and calibration coefficients are reals or opaque integers, with no rounding.
