/**
 * PipelineManager: the list of user pipeline settings, the built-in driver
 * mode and calibration pipelines, and which pipeline the vision loop runs.
 */
module PipelineManagement {
  import opened Wrappers
  import opened PipelineKinds
  import opened PipelineSettings
  import opened SettingsOrder
  import opened UniqueNames
  import opened IndexHandoff

  /** The pipeline object handed to the vision loop; a user pipeline is built from its settings. */
  datatype PipelineInstance =
    | DriverModeInstance
    | CalibrationInstance
    | UserInstance(kind: PipelineKind, settings: Settings)

  /** The exceptions the list operations can throw. */
  datatype ManagerError =
    | IndexOutOfBounds  // List.get / List.remove outside the list
    | BadNumberSuffix   // createUniqueName's Integer.parseInt on an empty "()"

  /** How changePipelineType ended. */
  datatype ChangeOutcome =
    | UnknownType        // no kind has the requested base index
    | NoCurrentSettings  // the active index has no settings: getCurrentPipelineSettings() is null
    | SameType           // the active pipeline already has that kind
    | BuiltInCurrent     // the active pipeline is driver mode or calibration
    | NullSettings       // the new kind is a built-in one, so no settings are created
    | Replaced           // the active slot holds the new kind's settings

  const DefaultNickname: string := "New Pipeline"

  /** A Java int. */
  predicate InIntRange(n: int) {
    -IntMax - 1 <= n <= IntMax
  }

  predicate IndicesInIntRange(s: seq<Settings>) {
    forall i :: 0 <= i < |s| ==> InIntRange(s[i].pipelineIndex)
  }

  /**
   * The pipeline recreateUserPipeline leaves current: a new pipeline of the
   * settings' kind, or the previous one for the two built-in kinds.
   */
  function InstanceFor(prev: PipelineInstance, settings: Settings): (r: PipelineInstance)
    ensures IsUserKind(settings.kind) ==> r.UserInstance? && r.kind == settings.kind && r.settings == settings
    ensures !IsUserKind(settings.kind) ==> r == prev
  {
    if IsUserKind(settings.kind) then UserInstance(settings.kind, settings) else prev
  }

  /** The list without slot `index` (List.remove). */
  function RemoveAt(s: seq<Settings>, index: nat): (r: seq<Settings>)
    requires index < |s|
    ensures |r| == |s| - 1
    ensures forall i :: 0 <= i < |r| ==> r[i] == if i < index then s[i] else s[i + 1]
  {
    s[..index] + s[index + 1..]
  }

  /** List.indexOf: the first position holding `x`, or -1. */
  function IndexOf(s: seq<Settings>, x: Settings): (r: int)
    ensures -1 <= r < |s|
    ensures r >= 0 ==> s[r] == x && forall i :: 0 <= i < r ==> s[i] != x
    ensures r == -1 <==> x !in s
  {
    if s == [] then -1
    else if s[0] == x then 0
    else var r := IndexOf(s[1..], x);
      assert forall i :: 1 <= i < |s| ==> s[i] == s[1..][i - 1];
      if r == -1 then -1 else r + 1
  }

  /**
   * The settings a type change stores in the active slot: the new kind's
   * defaults named `name`, with every copied base field taken from `prev`.
   */
  function TypeChanged(schema: SettingsSchema, prev: Settings, kind: PipelineKind, name: string): (r: Settings)
    requires schema.Valid()
    ensures r.kind == kind
    ensures r.pipelineIndex == if IndexField in schema.Copied() then prev.pipelineIndex else 0
    ensures r.fields.Keys == schema.defaults(kind).Keys
    ensures IsUserKind(kind) ==>
              forall f :: f in schema.Copied() && f in prev.fields && f !in {IndexField, NicknameField} ==>
                f in r.fields && r.fields[f] == prev.fields[f]
  {
    CopyBaseFields(schema, prev, Settings(0, name, kind, schema.defaults(kind)))
  }

  class PipelineManager {
    /** Which settings fields exist and which a type change copies. */
    const schema: SettingsSchema
    const driverModeSettings: Settings
    const calibrationSettings: Settings

    var userPipelineSettings: seq<Settings>
    var currentPipelineIndex: int
    var requestedIndex: int
    var lastUserPipelineIdx: int
    var currentUserPipeline: PipelineInstance
    /** The pipelines whose native resources were released, oldest first. */
    var released: seq<PipelineInstance>
    /** How many times the calibration pipeline was told to finish. */
    var calibrationFinishes: nat
    /** How many settings events were published to the UI. */
    ghost var published: nat

    ghost predicate Valid()
      reads this
    {
      && schema.Valid()
      && driverModeSettings.kind == DriverMode
      && calibrationSettings.kind == Calib3d
      && currentPipelineIndex <= |userPipelineSettings| - 1
      && |userPipelineSettings| <= IntMax
      && IndicesInIntRange(userPipelineSettings)
    }

    /** The three indices of the hand-off. */
    function Handoff(): Indices
      reads this
    {
      Indices(currentPipelineIndex, requestedIndex, lastUserPipelineIdx)
    }

    /**
     * A manager over `userPipelines`; an empty list gets one AprilTag
     * pipeline named "New Pipeline". The default index is then requested
     * and reconciled.
     */
    constructor (schema: SettingsSchema, driverSettings: Settings, calibrationSettings: Settings,
                 userPipelines: seq<Settings>, defaultIndex: int)
      requires schema.Valid() && driverSettings.kind == DriverMode && calibrationSettings.kind == Calib3d
      requires |userPipelines| < IntMax && IndicesInIntRange(userPipelines)
      ensures Valid()
      ensures userPipelines != [] ==> userPipelineSettings == userPipelines
      ensures userPipelines == [] ==> userPipelineSettings == [Settings(0, DefaultNickname, AprilTag, schema.defaults(AprilTag))]
      ensures Handoff() == Reconcile(Indices(DriverModeIndex, defaultIndex, 0), |userPipelineSettings|)
      ensures this.schema == schema && driverModeSettings == driverSettings && this.calibrationSettings == calibrationSettings
      ensures currentPipelineIndex >= 0 ==>
                && currentUserPipeline == InstanceFor(DriverModeInstance, userPipelineSettings[currentPipelineIndex])
                && released == [DriverModeInstance]
      ensures currentPipelineIndex < 0 ==> currentUserPipeline == DriverModeInstance && released == []
      ensures published == if Accepts(Indices(DriverModeIndex, defaultIndex, 0), |userPipelineSettings|) then 1 else 0
      ensures calibrationFinishes == 0
    {
      this.schema := schema;
      this.driverModeSettings := driverSettings;
      this.calibrationSettings := calibrationSettings;
      userPipelineSettings := userPipelines;
      currentPipelineIndex := DriverModeIndex;
      requestedIndex := 0;
      lastUserPipelineIdx := 0;
      currentUserPipeline := DriverModeInstance;
      released := [];
      calibrationFinishes := 0;
      published := 0;
      new;
      if |userPipelines| == 0 {
        var added := AddPipeline(AprilTag, DefaultNickname);
        assert added.value == Settings(0, DefaultNickname, AprilTag, schema.defaults(AprilTag));
        assert userPipelineSettings == [] + [added.value];
      }
      SetIndex(defaultIndex);
      UpdatePipelineFromRequested();
    }

    /** getPipelineSettings: the built-in settings, or the first user settings carrying that index. */
    function GetPipelineSettings(index: int): (r: Option<Settings>)
      reads this
      ensures index == DriverModeIndex ==> r == Some(driverModeSettings)
      ensures index == Cal3dIndex ==> r == Some(calibrationSettings)
      ensures index >= 0 && Dense(userPipelineSettings) ==>
                (r.Some? <==> index < |userPipelineSettings|) && (r.Some? ==> r.value == userPipelineSettings[index])
      ensures index != DriverModeIndex && index != Cal3dIndex ==>
                (r.None? <==> forall i :: 0 <= i < |userPipelineSettings| ==> userPipelineSettings[i].pipelineIndex != index)
      ensures index != DriverModeIndex && index != Cal3dIndex && r.Some? ==>
                exists i :: && 0 <= i < |userPipelineSettings| && userPipelineSettings[i] == r.value
                            && r.value.pipelineIndex == index
                            && forall j :: 0 <= j < i ==> userPipelineSettings[j].pipelineIndex != index
    {
      if index == DriverModeIndex then Some(driverModeSettings)
      else if index == Cal3dIndex then Some(calibrationSettings)
      else if index >= 0 && Dense(userPipelineSettings) then
        FindByIndexDense(userPipelineSettings, index);
        FindByIndex(userPipelineSettings, index)
      else FindByIndex(userPipelineSettings, index)
    }

    /** setIndex (through setPipelineInternal): only the request changes. */
    method SetIndex(index: int)
      modifies this`requestedIndex
      ensures Handoff() == Request(old(Handoff()), index)
    {
      requestedIndex := index;
    }

    /** setDriverMode: request driver mode, or the last user pipeline when leaving it. */
    method SetDriverMode(state: bool)
      modifies this`requestedIndex
      ensures Handoff() == DriverModeRequest(old(Handoff()), state)
    {
      requestedIndex := if state then DriverModeIndex else lastUserPipelineIdx;
    }

    /** setCalibrationMode: leaving calibration finishes it; then the request is recorded. */
    method SetCalibrationMode(wantsCalibration: bool)
      modifies this`requestedIndex, this`calibrationFinishes
      ensures Handoff() == CalibrationRequest(old(Handoff()), wantsCalibration)
      ensures calibrationFinishes == old(calibrationFinishes) + if wantsCalibration then 0 else 1
    {
      if !wantsCalibration {
        calibrationFinishes := calibrationFinishes + 1;
      }
      requestedIndex := if wantsCalibration then Cal3dIndex else lastUserPipelineIdx;
    }

    /**
     * recreateUserPipeline: release the current user pipeline and build one
     * for the settings in the active slot (built-in kinds build nothing).
     */
    method RecreateUserPipeline()
      requires Valid() && currentPipelineIndex >= 0
      modifies this`currentUserPipeline, this`released
      ensures released == old(released) + [old(currentUserPipeline)]
      ensures currentUserPipeline == InstanceFor(old(currentUserPipeline), userPipelineSettings[currentPipelineIndex])
    {
      released := released + [currentUserPipeline];
      var desired := userPipelineSettings[currentPipelineIndex];
      match desired.kind
      case Calib3d =>
      case DriverMode =>
      case _ => currentUserPipeline := UserInstance(desired.kind, desired);
    }

    /**
     * updatePipelineFromRequested: the only place the active index moves.
     * An accepted user index recreates the user pipeline; every accepted
     * request publishes the settings.
     */
    method UpdatePipelineFromRequested()
      requires Valid()
      modifies this`currentPipelineIndex, this`lastUserPipelineIdx, this`currentUserPipeline, this`released, this`published
      ensures Valid()
      ensures Handoff() == Reconcile(old(Handoff()), |userPipelineSettings|)
      ensures Accepts(old(Handoff()), |userPipelineSettings|) && currentPipelineIndex >= 0 ==>
                && released == old(released) + [old(currentUserPipeline)]
                && currentUserPipeline == InstanceFor(old(currentUserPipeline), userPipelineSettings[currentPipelineIndex])
      ensures !(Accepts(old(Handoff()), |userPipelineSettings|) && currentPipelineIndex >= 0) ==>
                released == old(released) && currentUserPipeline == old(currentUserPipeline)
      ensures published == old(published) + if Accepts(old(Handoff()), |userPipelineSettings|) then 1 else 0
    {
      var newIndex := requestedIndex;
      if newIndex == currentPipelineIndex {
        return;
      }
      if newIndex < 0 && currentPipelineIndex >= 0 {
        lastUserPipelineIdx := currentPipelineIndex;
      }
      if |userPipelineSettings| - 1 < newIndex {
        return;
      }
      currentPipelineIndex := newIndex;
      if newIndex >= 0 {
        RecreateUserPipeline();
      }
      published := published + 1;
    }

    /** getCurrentPipeline: reconcile, then hand out the pipeline the active index names. */
    method GetCurrentPipeline() returns (p: PipelineInstance)
      requires Valid()
      modifies this`currentPipelineIndex, this`lastUserPipelineIdx, this`currentUserPipeline, this`released, this`published
      ensures Valid()
      ensures Handoff() == Reconcile(old(Handoff()), |userPipelineSettings|)
      ensures p == if currentPipelineIndex == Cal3dIndex then CalibrationInstance
                   else if currentPipelineIndex == DriverModeIndex then DriverModeInstance
                   else currentUserPipeline
      ensures currentPipelineIndex >= 0 ==> p.UserInstance? || p == old(currentUserPipeline)
    {
      UpdatePipelineFromRequested();
      p := if currentPipelineIndex == Cal3dIndex then CalibrationInstance
           else if currentPipelineIndex == DriverModeIndex then DriverModeInstance
           else currentUserPipeline;
    }

    /**
     * reassignIndexes: stable sort by pipelineIndex, then renumber every
     * settings to its position.
     */
    method ReassignIndexes()
      requires Valid()
      modifies this`userPipelineSettings
      ensures Valid()
      ensures userPipelineSettings == Reindexed(SortByIndex(old(userPipelineSettings)))
      ensures Dense(userPipelineSettings)
    {
      userPipelineSettings := SortByIndex(userPipelineSettings);
      ghost var sorted := userPipelineSettings;
      for i := 0 to |userPipelineSettings|
        invariant |userPipelineSettings| == |sorted|
        invariant forall j :: 0 <= j < i ==> userPipelineSettings[j] == sorted[j].(pipelineIndex := j)
        invariant forall j :: i <= j < |sorted| ==> userPipelineSettings[j] == sorted[j]
      {
        userPipelineSettings := userPipelineSettings[i := userPipelineSettings[i].(pipelineIndex := i)];
      }
      assert userPipelineSettings == Reindexed(sorted);
    }

    /** addPipelineInternal: append with the next index, then reassign. */
    method AddPipelineInternal(settings: Settings)
      requires Valid() && |userPipelineSettings| < IntMax
      modifies this`userPipelineSettings
      ensures Valid()
      ensures userPipelineSettings
              == Reindexed(SortByIndex(old(userPipelineSettings) + [settings.(pipelineIndex := |old(userPipelineSettings)|)]))
    {
      var added := settings.(pipelineIndex := |userPipelineSettings|);
      userPipelineSettings := userPipelineSettings + [added];
      ReassignIndexes();
    }

    /**
     * addPipeline: new settings of a user kind, appended and reassigned; the
     * built-in kinds add nothing. The settings object returned is the one in
     * the list, so it carries the index the reassignment gave it: the number
     * of old entries whose index is at most the old size. On a dense list the
     * new settings end up last.
     */
    method AddPipeline(kind: PipelineKind, nickname: string) returns (r: Option<Settings>)
      requires Valid() && |userPipelineSettings| < IntMax
      modifies this`userPipelineSettings
      ensures Valid()
      ensures r.None? <==> !IsUserKind(kind)
      ensures r.None? ==> userPipelineSettings == old(userPipelineSettings)
      ensures r.Some? ==>
                var landed := CountAtMost(old(userPipelineSettings), |old(userPipelineSettings)|);
                && landed < |userPipelineSettings|
                && r.value == userPipelineSettings[landed]
                && r.value == Settings(landed, nickname, kind, schema.defaults(kind))
      ensures r.Some? ==> && Dense(userPipelineSettings)
                          && userPipelineSettings
                             == Reindexed(SortByIndex(old(userPipelineSettings)
                                                      + [r.value.(pipelineIndex := |old(userPipelineSettings)|)]))
      ensures r.Some? && Dense(old(userPipelineSettings)) ==>
                && r.value.pipelineIndex == |old(userPipelineSettings)|
                && userPipelineSettings == old(userPipelineSettings) + [r.value]
    {
      var added := CreateSettingsForType(schema, kind, nickname);
      if added.None? {
        return None;
      }
      ghost var before := userPipelineSettings;
      var size := |userPipelineSettings|;
      var landed := CountAtMost(userPipelineSettings, size);
      AddPipelineInternal(added.value);
      ghost var afterInternal := userPipelineSettings;
      ReindexDenseIsIdentity(afterInternal);
      ReassignIndexes();
      ghost var appended := added.value.(pipelineIndex := size);
      AppendLandsAt(before, appended);
      r := Some(userPipelineSettings[landed]);
      if Dense(before) {
        DenseIsSorted(before);
        CountAtMostSortedAll(before, size);
        AppendNextKeepsOrder(before, appended);
      }
    }

    /** addPipeline(type): the one-argument overload, named "New Pipeline". */
    method AddNewPipeline(kind: PipelineKind) returns (r: Option<Settings>)
      requires Valid() && |userPipelineSettings| < IntMax
      modifies this`userPipelineSettings
      ensures Valid()
      ensures r.None? <==> !IsUserKind(kind)
      ensures r.None? ==> userPipelineSettings == old(userPipelineSettings)
      ensures r.Some? ==>
                var landed := CountAtMost(old(userPipelineSettings), |old(userPipelineSettings)|);
                && landed < |userPipelineSettings|
                && r.value == userPipelineSettings[landed]
                && r.value == Settings(landed, DefaultNickname, kind, schema.defaults(kind))
      ensures r.Some? ==> && Dense(userPipelineSettings)
                          && userPipelineSettings
                             == Reindexed(SortByIndex(old(userPipelineSettings)
                                                      + [r.value.(pipelineIndex := |old(userPipelineSettings)|)]))
      ensures r.Some? && Dense(old(userPipelineSettings)) ==>
                && r.value.pipelineIndex == |old(userPipelineSettings)|
                && userPipelineSettings == old(userPipelineSettings) + [r.value]
    {
      r := AddPipeline(kind, DefaultNickname);
    }

    /**
     * removePipelineInternal: remove the slot, point the active index at the
     * same position or the new last slot, and reassign. The request is not
     * touched and the user pipeline is not recreated.
     */
    method RemovePipelineInternal(index: int) returns (r: Result<int, ManagerError>)
      requires Valid() && index >= 0
      modifies this`userPipelineSettings, this`currentPipelineIndex
      ensures Valid()
      ensures index >= |old(userPipelineSettings)| ==>
                && r == Failure(IndexOutOfBounds)
                && userPipelineSettings == old(userPipelineSettings)
                && currentPipelineIndex == old(currentPipelineIndex)
      ensures index < |old(userPipelineSettings)| ==>
                && userPipelineSettings == Reindexed(SortByIndex(RemoveAt(old(userPipelineSettings), index)))
                && currentPipelineIndex == (if index < |userPipelineSettings| - 1 then index else |userPipelineSettings| - 1)
                && r == Success(currentPipelineIndex)
    {
      if index >= |userPipelineSettings| {
        return Failure(IndexOutOfBounds);
      }
      userPipelineSettings := RemoveAt(userPipelineSettings, index);
      currentPipelineIndex := if index < |userPipelineSettings| - 1 then index else |userPipelineSettings| - 1;
      ReassignIndexes();
      return Success(currentPipelineIndex);
    }

    /**
     * removePipeline: a negative index removes nothing and reports the
     * active index; otherwise one slot goes and the rest keep their order.
     */
    method RemovePipeline(index: int) returns (r: Result<int, ManagerError>)
      requires Valid()
      modifies this`userPipelineSettings, this`currentPipelineIndex
      ensures Valid()
      ensures requestedIndex == old(requestedIndex)
      ensures index < 0 ==> && r == Success(currentPipelineIndex)
                            && currentPipelineIndex == old(currentPipelineIndex)
                            && userPipelineSettings == old(userPipelineSettings)
      ensures index >= |old(userPipelineSettings)| ==>
                && r == Failure(IndexOutOfBounds)
                && userPipelineSettings == old(userPipelineSettings)
                && currentPipelineIndex == old(currentPipelineIndex)
      ensures 0 <= index < |old(userPipelineSettings)| ==>
                && userPipelineSettings == Reindexed(SortByIndex(RemoveAt(old(userPipelineSettings), index)))
                && |userPipelineSettings| == |old(userPipelineSettings)| - 1
                && currentPipelineIndex == (if index < |userPipelineSettings| - 1 then index else |userPipelineSettings| - 1)
                && r == Success(currentPipelineIndex)
      ensures 0 <= index < |old(userPipelineSettings)| && Dense(old(userPipelineSettings)) ==>
                userPipelineSettings == Reindexed(RemoveAt(old(userPipelineSettings), index))
    {
      if index < 0 {
        return Success(currentPipelineIndex);
      }
      ghost var before := userPipelineSettings;
      r := RemovePipelineInternal(index);
      if index < |before| && Dense(before) {
        RemoveFromDenseKeepsOrder(before, index);
      }
    }

    /**
     * duplicatePipeline: append a copy under a fresh nickname with the
     * largest int as its index, reassign, and report where the copy is.
     */
    method DuplicatePipeline(index: int) returns (r: Result<int, ManagerError>)
      requires Valid() && |userPipelineSettings| < IntMax
      modifies this`userPipelineSettings
      ensures Valid()
      ensures !(0 <= index < |old(userPipelineSettings)|) ==>
                r == Failure(IndexOutOfBounds) && userPipelineSettings == old(userPipelineSettings)
      ensures 0 <= index < |old(userPipelineSettings)| ==>
                var nickname := old(userPipelineSettings)[index].nickname;
                (r == Failure(BadNumberSuffix) <==> HasNumberSuffix(nickname) && SuffixDigits(nickname) == [])
      ensures r.Failure? ==> userPipelineSettings == old(userPipelineSettings)
      ensures r.Success? ==>
                var n := |old(userPipelineSettings)|;
                && 0 <= index < n
                && r.value == n
                && |userPipelineSettings| == n + 1
                && userPipelineSettings[..n] == Reindexed(SortByIndex(old(userPipelineSettings)))
                && userPipelineSettings[n]
                   == old(userPipelineSettings)[index].(pipelineIndex := n, nickname := userPipelineSettings[n].nickname)
                && IsUniqueNameFor(old(userPipelineSettings)[index].nickname, Nicknames(old(userPipelineSettings)),
                                   userPipelineSettings[n].nickname)
      ensures r.Success? && Dense(old(userPipelineSettings)) ==> userPipelineSettings[..r.value] == old(userPipelineSettings)
    {
      if !(0 <= index < |userPipelineSettings|) {
        return Failure(IndexOutOfBounds);
      }
      var settings := userPipelineSettings[index];
      var name := CreateUniqueName(settings.nickname, Nicknames(userPipelineSettings));
      if name.Failure? {
        return Failure(BadNumberSuffix);
      }
      var newSettings := settings.(nickname := name.value, pipelineIndex := IntMax);
      ghost var before := userPipelineSettings;
      var size := |userPipelineSettings|;
      userPipelineSettings := userPipelineSettings + [newSettings];
      ReassignIndexes();
      AppendLargestLandsLast(before, newSettings);
      if Dense(before) {
        ReindexDenseIsIdentity(before);
      }
      // the appended copy, as reassignIndexes left it
      var copy := newSettings.(pipelineIndex := size);
      assert userPipelineSettings[|before|] == copy;
      assert forall i :: 0 <= i < |before| ==> userPipelineSettings[i].pipelineIndex == i != |before|;
      r := Success(IndexOf(userPipelineSettings, copy));
    }

    /** The replacing tail of changePipelineType: store in the current slot, request it, re-index, recreate. */
    method ReplaceCurrent(replaced: Settings)
      requires Valid() && 0 <= currentPipelineIndex < |userPipelineSettings| && InIntRange(replaced.pipelineIndex)
      modifies this`userPipelineSettings, this`requestedIndex, this`currentUserPipeline, this`released
      ensures Valid()
      ensures |userPipelineSettings| == |old(userPipelineSettings)|
      ensures userPipelineSettings == Reindexed(SortByIndex(old(userPipelineSettings)[currentPipelineIndex := replaced]))
      ensures Dense(old(userPipelineSettings)) && replaced.pipelineIndex == currentPipelineIndex ==>
                userPipelineSettings == old(userPipelineSettings)[currentPipelineIndex := replaced]
      ensures requestedIndex == currentPipelineIndex
      ensures released == old(released) + [old(currentUserPipeline)]
      ensures currentUserPipeline == InstanceFor(old(currentUserPipeline), userPipelineSettings[currentPipelineIndex])
    {
      var idx := currentPipelineIndex;
      ghost var before := userPipelineSettings;
      userPipelineSettings := userPipelineSettings[idx := replaced];
      requestedIndex := idx;
      ReassignIndexes();
      if Dense(before) && replaced.pipelineIndex == idx {
        ReplaceInDenseKeepsOrder(before, idx, replaced);
      }
      RecreateUserPipeline();
    }

    /**
     * changePipelineType: replace the active user pipeline's settings by
     * fresh settings of the kind with base index `newType`, carrying over
     * every copied base field, then request that slot, reassign and rebuild.
     */
    method ChangePipelineType(newType: int) returns (outcome: ChangeOutcome)
      requires Valid()
      modifies this`userPipelineSettings, this`requestedIndex, this`currentUserPipeline, this`released
      ensures Valid()
      ensures outcome == UnknownType <==> KindOfBaseIndex(newType).None?
      ensures outcome == NoCurrentSettings <==>
                KindOfBaseIndex(newType).Some? && old(GetPipelineSettings(currentPipelineIndex)).None?
      ensures outcome == SameType <==>
                && KindOfBaseIndex(newType).Some? && old(GetPipelineSettings(currentPipelineIndex)).Some?
                && old(GetPipelineSettings(currentPipelineIndex)).value.kind == KindOfBaseIndex(newType).value
      ensures outcome == BuiltInCurrent ==> currentPipelineIndex < 0
      ensures outcome == NullSettings <==>
                && outcome !in {UnknownType, NoCurrentSettings, SameType}
                && currentPipelineIndex >= 0 && !IsUserKind(KindOfBaseIndex(newType).value)
      ensures outcome != Replaced ==>
                && userPipelineSettings == old(userPipelineSettings)
                && currentUserPipeline == old(currentUserPipeline) && released == old(released)
      ensures outcome != Replaced && outcome != NullSettings ==> requestedIndex == old(requestedIndex)
      ensures outcome == NullSettings ==> requestedIndex == currentPipelineIndex
      ensures outcome == Replaced ==>
                && 0 <= currentPipelineIndex < |userPipelineSettings| == |old(userPipelineSettings)|
                && old(GetPipelineSettings(currentPipelineIndex)).Some?
                && IsUserKind(KindOfBaseIndex(newType).value)
                && KindOfBaseIndex(newType).value != old(GetPipelineSettings(currentPipelineIndex)).value.kind
                && requestedIndex == currentPipelineIndex
                && released == old(released) + [old(currentUserPipeline)]
                && currentUserPipeline == InstanceFor(old(currentUserPipeline), userPipelineSettings[currentPipelineIndex])
      ensures outcome == Replaced && 0 <= currentPipelineIndex < |old(userPipelineSettings)| && old(GetPipelineSettings(currentPipelineIndex)).Some? ==>
                var idx := currentPipelineIndex;
                var replaced := TypeChanged(schema, old(userPipelineSettings)[idx], KindOfBaseIndex(newType).value,
                                            old(GetPipelineSettings(idx)).value.nickname);
                && userPipelineSettings == Reindexed(SortByIndex(old(userPipelineSettings)[idx := replaced]))
                && (Dense(old(userPipelineSettings)) && IndexField in schema.Copied() ==>
                      userPipelineSettings == old(userPipelineSettings)[idx := replaced])
    {
      var kind := KindOfBaseIndex(newType);
      if kind.None? {
        return UnknownType;
      }
      var currentSettings := GetPipelineSettings(currentPipelineIndex);
      if currentSettings.None? {
        // reading the type of null settings throws a NullPointerException
        return NoCurrentSettings;
      }
      BaseIndexInjective(kind.value, currentSettings.value.kind);
      if BaseIndex(kind.value) == BaseIndex(currentSettings.value.kind) {
        return SameType;
      }
      var idx := currentPipelineIndex;
      if idx < 0 {
        return BuiltInCurrent;
      }
      var oldSettings := userPipelineSettings[idx];
      var name := currentSettings.value.nickname;
      var newSettings := CreateSettingsForType(schema, kind.value, name);
      if newSettings.None? {
        // copying into null settings throws and is caught; storing null in the
        // slot then makes reassignIndexes throw, after the request was recorded
        requestedIndex := idx;
        return NullSettings;
      }
      var replaced := CopyBaseFields(schema, oldSettings, newSettings.value);
      assert replaced == TypeChanged(schema, oldSettings, kind.value, name);
      ReplaceCurrent(replaced);
      return Replaced;
    }
  }
}
