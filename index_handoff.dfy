/**
 * The index hand-off of PipelineManager as values: setters only record a
 * requested index, and reconciliation is the single place where the active
 * index moves.
 */
module IndexHandoff {
  import opened PipelineKinds

  /** The active index, the index a setter asked for, and the last active user index. */
  datatype Indices = Indices(current: int, requested: int, lastUser: int)

  /** setPipelineInternal: record a request and nothing else. */
  function Request(h: Indices, index: int): (r: Indices)
    ensures r.requested == index && r.current == h.current && r.lastUser == h.lastUser
  {
    h.(requested := index)
  }

  /** setDriverMode: request driver mode, or the saved user index when leaving it. */
  function DriverModeRequest(h: Indices, state: bool): (r: Indices)
    ensures r.current == h.current && r.lastUser == h.lastUser
    ensures state ==> r.requested == DriverModeIndex
    ensures !state ==> r.requested == h.lastUser
    ensures h.lastUser >= 0 ==> (r.requested < 0 <==> state)
  {
    Request(h, if state then DriverModeIndex else h.lastUser)
  }

  /** setCalibrationMode's request: calibration, or the saved user index when leaving it. */
  function CalibrationRequest(h: Indices, wantsCalibration: bool): (r: Indices)
    ensures r.current == h.current && r.lastUser == h.lastUser
    ensures wantsCalibration ==> r.requested == Cal3dIndex
    ensures !wantsCalibration ==> r.requested == h.lastUser
    ensures h.lastUser >= 0 ==> (r.requested < 0 <==> wantsCalibration)
  {
    Request(h, if wantsCalibration then Cal3dIndex else h.lastUser)
  }

  /** The request differs from the active index and names an existing slot or a negative index. */
  predicate Accepts(h: Indices, size: int) {
    h.requested != h.current && !(size - 1 < h.requested)
  }

  /**
   * updatePipelineFromRequested on the indices, for a list of `size` user
   * pipelines. Leaving a user index for a negative one saves it, even when
   * the request is then rejected as out of range.
   */
  function Reconcile(h: Indices, size: int): (r: Indices)
    ensures r.requested == h.requested
    ensures h.requested == h.current ==> r == h
    ensures h.requested > size - 1 ==> r.current == h.current
    ensures Accepts(h, size) ==> r.current == h.requested
    ensures r.lastUser == if h.requested != h.current && h.requested < 0 && h.current >= 0 then h.current else h.lastUser
  {
    if h.requested == h.current then h
    else
      var lastUser := if h.requested < 0 && h.current >= 0 then h.current else h.lastUser;
      if size - 1 < h.requested then h.(lastUser := lastUser)
      else h.(current := h.requested, lastUser := lastUser)
  }

  /** Reconciling twice is reconciling once. */
  lemma ReconcileIdempotent(h: Indices, size: int)
    ensures Reconcile(Reconcile(h, size), size) == Reconcile(h, size)
  {
  }

  /** An out-of-range request is rejected and stays pending, so every later call rejects it again. */
  lemma OutOfRangeStaysPending(h: Indices, size: int)
    requires h.current <= size - 1 < h.requested
    ensures Reconcile(h, size) == h
  {
  }

  /** When the active index names a slot or is negative, reconciliation settles iff the request is in range. */
  lemma ReconcileSettlesIffInRange(h: Indices, size: int)
    requires h.current <= size - 1
    ensures var r := Reconcile(h, size); r.current == r.requested <==> h.requested <= size - 1
  {
  }

  /** Entering and leaving driver mode from a settled user pipeline returns to it. */
  lemma DriverModeRoundTrip(h: Indices, size: int)
    requires h.current == h.requested && 0 <= h.current < size
    ensures var entered := Reconcile(DriverModeRequest(h, true), size);
            && entered.current == DriverModeIndex
            && entered.lastUser == h.current
            && Reconcile(DriverModeRequest(entered, false), size).current == h.current
  {
  }

  /** Entering and leaving calibration from a settled user pipeline returns to it. */
  lemma CalibrationRoundTrip(h: Indices, size: int)
    requires h.current == h.requested && 0 <= h.current < size
    ensures var entered := Reconcile(CalibrationRequest(h, true), size);
            && entered.current == Cal3dIndex
            && entered.lastUser == h.current
            && Reconcile(CalibrationRequest(entered, false), size).current == h.current
  {
  }
}
