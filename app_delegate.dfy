/**
 * The application delegate: it holds the volume and mute state and pushes
 * their combined gain to the engine on every change, reacts to media keys,
 * device-list changes and wake from sleep, and routes the system's audio
 * through BlackHole for the lifetime of the process, leaving a breadcrumb
 * so that a crashed run's routing can be repaired at the next launch.
 */
module App {
  import opened CoreAudio
  import opened Engine
  import opened Devices
  import opened Breadcrumb
  import opened MediaKeys

  /** The name fragments the devices are found by. */
  const BlackHoleName: string := "BlackHole 16ch"
  const MonitorName: string := "DELL U2725QE"

  /** `volumeStep` */
  const VolumeStep: real := 1.0 / 16.0

  /** The gain the engine applies: `muted ? 0 : volume`. */
  function EffectiveGain(volume: real, muted: bool): (g: real)
    ensures muted ==> g == 0.0
    ensures !muted ==> g == volume
    ensures 0.0 <= volume <= 1.0 ==> 0.0 <= g <= 1.0
  {
    if muted then 0.0 else volume
  }

  /** The volume after one step up or down, clamped into [0, 1]. */
  function SteppedVolume(volume: real, up: bool): (v: real)
    ensures 0.0 <= v <= 1.0
    ensures up && 0.0 <= volume <= 1.0 - VolumeStep ==> v == volume + VolumeStep
    ensures !up && VolumeStep <= volume <= 1.0 ==> v == volume - VolumeStep
    ensures up && volume >= 1.0 - VolumeStep ==> v == 1.0
    ensures !up && volume <= VolumeStep ==> v == 0.0
  {
    Clamp(if up then volume + VolumeStep else volume - VolumeStep)
  }

  /** Away from the ends of the range, a step down undoes a step up and vice versa. */
  lemma StepsUndoEachOther(volume: real)
    ensures 0.0 <= volume <= 1.0 - VolumeStep ==> SteppedVolume(SteppedVolume(volume, true), false) == volume
    ensures VolumeStep <= volume <= 1.0 ==> SteppedVolume(SteppedVolume(volume, false), true) == volume
  {
  }

  /** Stepping is monotone: up never lowers the volume, down never raises it. */
  lemma StepDirection(volume: real)
    requires 0.0 <= volume <= 1.0
    ensures SteppedVolume(volume, false) <= volume <= SteppedVolume(volume, true)
  {
  }

  /** A value written to `UserDefaults`. */
  datatype Preference = VolumePreference(volume: real) | MutedPreference(muted: bool)

  /** The preference writes of restoring a saved state: the volume, when one was saved, then the mute flag. */
  function SavedStateWrites(savedVolume: Option<real>, savedMuted: bool): (writes: seq<Preference>)
    ensures |writes| == if savedVolume.Some? then 2 else 1
    ensures writes[|writes| - 1] == MutedPreference(savedMuted)
    ensures savedVolume.Some? ==> writes[0] == VolumePreference(Clamp(savedVolume.value))
  {
    (if savedVolume.Some? then [VolumePreference(Clamp(savedVolume.value))] else []) + [MutedPreference(savedMuted)]
  }

  /** Why a launch ended in `NSApp.terminate`. */
  datatype LaunchFailure =
    | BlackHoleMissing
    | MonitorMissing
    | RedirectFailed
    | EngineFailed(error: EngineError)

  /** The text before the engine's error description in the alert for a failed start. */
  const EngineFailurePrefix: string := "Failed to start audio engine: "

  /** The alert shown before terminating; for a failed start, it carries the engine error's description. */
  function AlertText(reason: LaunchFailure): (t: string)
    ensures reason.EngineFailed? ==>
      && |EngineFailurePrefix| <= |t|
      && t[..|EngineFailurePrefix|] == EngineFailurePrefix
      && t[|EngineFailurePrefix|..] == ErrorDescription(reason.error)
  {
    match reason
    case BlackHoleMissing => "BlackHole 16ch not found. Please install BlackHole first."
    case MonitorMissing => "DELL U2725QE not found. Is the monitor connected?"
    case RedirectFailed => "Failed to set BlackHole as default output device."
    case EngineFailed(e) =>
      var t := EngineFailurePrefix + ErrorDescription(e);
      assert t[..|EngineFailurePrefix|] == EngineFailurePrefix && t[|EngineFailurePrefix|..] == ErrorDescription(e);
      t
  }

  /**
   * The alert tells the failures apart, except that a description thrown by
   * the engine's own `start()` is arbitrary text.
   */
  lemma AlertIdentifiesFailure(a: LaunchFailure, b: LaunchFailure)
    requires !(a.EngineFailed? && a.error.EngineStartFailed?) && !(b.EngineFailed? && b.error.EngineStartFailed?)
    ensures AlertText(a) == AlertText(b) ==> a == b
  {
    var ta, tb := AlertText(a), AlertText(b);
    if a.EngineFailed? && b.EngineFailed? {
      ErrorDescriptionIdentifiesError(a.error, b.error);
    } else if a != b {
      AlertEnding(a);
      AlertEnding(b);
    }
  }

  /** The last two characters of each alert, which tell the four kinds apart. */
  lemma AlertEnding(reason: LaunchFailure)
    requires !(reason.EngineFailed? && reason.error.EngineStartFailed?)
    ensures var t := AlertText(reason);
      && |t| >= 2
      && (reason.BlackHoleMissing? ==> t[|t| - 1] == '.' && t[|t| - 2] == 't')
      && (reason.MonitorMissing? ==> t[|t| - 1] == '?')
      && (reason.RedirectFailed? ==> t[|t| - 1] == '.' && t[|t| - 2] == 'e')
      && (reason.EngineFailed? ==> t[|t| - 1] == ')')
  {
    if reason.EngineFailed? {
      var t, d := AlertText(reason), ErrorDescription(reason.error);
      assert t[|t| - 1] == t[|EngineFailurePrefix|..][|d| - 1];
    }
  }

  datatype LaunchOutcome = Running | Terminated(reason: LaunchFailure)

  /**
   * What the system answers during one `shutdown`: destroying the engine's
   * aggregate, setting the original default back, removing the breadcrumb.
   */
  datatype ShutdownReplies = ShutdownReplies(destroyStatus: OSStatus, restoreStatus: OSStatus, removed: bool)

  /** What the system and the user defaults answer during one launch, in the order they are asked. */
  datatype LaunchReplies = LaunchReplies(
    savedVolume: Option<real>,
    savedMuted: bool,
    staleRestoreStatus: OSStatus,
    staleRemoved: bool,
    defaultQueryStatus: OSStatus,
    breadcrumbWriteOk: bool,
    redirectStatus: OSStatus,
    engine: StartReplies,
    fallbackRestoreStatus: OSStatus,
    tapCreated: bool,
    terminate: ShutdownReplies)

  /**
   * What the system answers while handling a wake: re-setting the default
   * output, destroying the old aggregate, then starting again.
   */
  datatype WakeReplies = WakeReplies(redirectStatus: OSStatus, destroyStatus: OSStatus, engine: StartReplies)

  /** The device id a stale breadcrumb file names, when it exists and parses. */
  function StaleBreadcrumbId(file: Option<string>): Option<DeviceId>
  {
    match file
    case None => None
    case Some(text) => ParseDeviceId(text)
  }

  /** The trace of consuming a stale breadcrumb: restore the id it names, then delete it. */
  function StaleRestoreEvents(file: Option<string>, status: OSStatus, removed: bool): seq<HostEvent>
  {
    match StaleBreadcrumbId(file)
    case None => []
    case Some(id) => [DefaultOutputSet(id, status == NoErr), BreadcrumbRemoved(removed)]
  }

  /** The default output after consuming a stale breadcrumb. */
  function DefaultAfterStaleRestore(default: DeviceId, file: Option<string>, status: OSStatus): DeviceId
  {
    match StaleBreadcrumbId(file)
    case Some(id) => if status == NoErr then id else default
    case None => default
  }

  /** The trace of writing the breadcrumb, which happens only when the original default is known. */
  function WriteEvents(original: Option<DeviceId>, written: bool): seq<HostEvent>
  {
    if original.Some? && written then [BreadcrumbWritten(BreadcrumbText(original.value))] else []
  }

  /** The trace of setting the default output back to the original, when there is one. */
  function RestoreEvents(original: Option<DeviceId>, status: OSStatus): seq<HostEvent>
  {
    if original.Some? then [DefaultOutputSet(original.value, status == NoErr)] else []
  }

  /** The trace of `shutdown`. */
  function ShutdownEvents(aggregate: DeviceId, original: Option<DeviceId>, s: ShutdownReplies): seq<HostEvent>
  {
    DestroyEvents(aggregate, s.destroyStatus) + RestoreEvents(original, s.restoreStatus) + [BreadcrumbRemoved(s.removed)]
  }

  /** Both required devices are among the output devices. */
  predicate BothPresent(hal: Hal)
  {
    FindDevice(hal, BlackHoleName).Some? && FindDevice(hal, MonitorName).Some?
  }

  /** The original default output the launch captures: none when the query fails. */
  function CapturedOriginal(default: DeviceId, r: LaunchReplies): (original: Option<DeviceId>)
    ensures original.Some? <==> r.defaultQueryStatus == NoErr
    ensures original.Some? ==> original.value == default
  {
    if r.defaultQueryStatus == NoErr then Some(default) else None
  }

  /** The default output after an attempt to set it back to the original, when there is one. */
  function AfterRestore(current: DeviceId, original: Option<DeviceId>, status: OSStatus): DeviceId
  {
    if original.Some? && status == NoErr then original.value else current
  }

  /** The breadcrumb file after `removeBreadcrumb`: gone unless the removal fails. */
  function AfterRemove(file: Option<string>, removed: bool): Option<string>
  {
    if removed then None else file
  }

  /** The breadcrumb file after `writeBreadcrumb`. */
  function WrittenBreadcrumb(original: Option<DeviceId>, written: bool, file: Option<string>): Option<string>
  {
    if original.Some? && written then Some(BreadcrumbText(original.value)) else file
  }

  /** The observed state after `restoreBreadcrumbIfNeeded`. */
  function StaleObserved(o: Observed, status: OSStatus, removed: bool): Observed
  {
    Observed(
      DefaultAfterStaleRestore(o.defaultOutput, o.breadcrumb, status),
      o.aggregates,
      if StaleBreadcrumbId(o.breadcrumb).Some? then AfterRemove(o.breadcrumb, removed) else o.breadcrumb)
  }

  /** How a launch ends once both devices are found. */
  function RouteOutcome(r: LaunchReplies): (outcome: LaunchOutcome)
    ensures outcome.Running? <==> r.redirectStatus == NoErr && r.engine.Succeeds()
  {
    if r.redirectStatus != NoErr then Terminated(RedirectFailed)
    else if !r.engine.Succeeds() then Terminated(EngineFailed(StartError(r.engine)))
    else Running
  }

  /** How `applicationDidFinishLaunching` ends. */
  function LaunchOutcomeFor(hal: Hal, r: LaunchReplies): (outcome: LaunchOutcome)
    ensures outcome.Running? <==> BothPresent(hal) && r.redirectStatus == NoErr && r.engine.Succeeds()
    ensures FindDevice(hal, BlackHoleName).None? ==> outcome == Terminated(BlackHoleMissing)
  {
    if FindDevice(hal, BlackHoleName).None? then Terminated(BlackHoleMissing)
    else if FindDevice(hal, MonitorName).None? then Terminated(MonitorMissing)
    else RouteOutcome(r)
  }

  /** The actions of the engine step of a launch: start, and on failure restore the original and terminate. */
  function EngineStepTrace(bh: AudioDevice, dell: AudioDevice, original: Option<DeviceId>, r: LaunchReplies): seq<HostEvent>
  {
    if r.engine.Succeeds() then CreateEvents(r.engine, bh.uid, dell.uid)
    else CreateEvents(r.engine, bh.uid, dell.uid) + RestoreEvents(original, r.fallbackRestoreStatus)
         + ShutdownEvents(CreatedId(r.engine), original, r.terminate)
  }

  /** The actions of a launch from the redirect on, once the original default is captured. */
  function RedirectTrace(bh: AudioDevice, dell: AudioDevice, original: Option<DeviceId>, r: LaunchReplies): seq<HostEvent>
  {
    [DefaultOutputSet(bh.id, r.redirectStatus == NoErr)]
    + if r.redirectStatus != NoErr then ShutdownEvents(UnknownObject, original, r.terminate)
      else EngineStepTrace(bh, dell, original, r)
  }

  /** The observed state after a launch's steps from the redirect on. */
  function RedirectObserved(bh: AudioDevice, original: Option<DeviceId>, o: Observed, r: LaunchReplies): Observed
  {
    if r.redirectStatus != NoErr then
      Observed(AfterRestore(o.defaultOutput, original, r.terminate.restoreStatus), o.aggregates,
               AfterRemove(o.breadcrumb, r.terminate.removed))
    else if !r.engine.Succeeds() then
      Observed(
        AfterRestore(AfterRestore(bh.id, original, r.fallbackRestoreStatus), original, r.terminate.restoreStatus),
        o.aggregates + Owned(CreatedId(r.engine)) - Destroyed(CreatedId(r.engine), r.terminate.destroyStatus),
        AfterRemove(o.breadcrumb, r.terminate.removed))
    else
      Observed(bh.id, o.aggregates + {r.engine.aggregateId as DeviceId}, o.breadcrumb)
  }

  /** The actions of a launch once both devices are found, starting from default output `default`. */
  function RouteTrace(bh: AudioDevice, dell: AudioDevice, default: DeviceId, r: LaunchReplies): seq<HostEvent>
  {
    var original := CapturedOriginal(default, r);
    WriteEvents(original, r.breadcrumbWriteOk) + RedirectTrace(bh, dell, original, r)
  }

  /** The observed state after a launch once both devices are found. */
  function RouteObserved(bh: AudioDevice, o: Observed, r: LaunchReplies): Observed
  {
    var original := CapturedOriginal(o.defaultOutput, r);
    RedirectObserved(bh, original, o.(breadcrumb := WrittenBreadcrumb(original, r.breadcrumbWriteOk, o.breadcrumb)), r)
  }

  /** The actions of a launch after the breadcrumb step, starting from default output `default`. */
  function DevicesTrace(hal: Hal, default: DeviceId, r: LaunchReplies): seq<HostEvent>
  {
    var bh := FindDevice(hal, BlackHoleName);
    var dell := FindDevice(hal, MonitorName);
    if bh.None? || dell.None? then ShutdownEvents(UnknownObject, None, r.terminate)
    else RouteTrace(bh.value, dell.value, default, r)
  }

  /** The observed state after a launch's steps that follow the breadcrumb step. */
  function DevicesObserved(hal: Hal, o: Observed, r: LaunchReplies): Observed
  {
    var bh := FindDevice(hal, BlackHoleName);
    var dell := FindDevice(hal, MonitorName);
    if bh.None? || dell.None? then o.(breadcrumb := AfterRemove(o.breadcrumb, r.terminate.removed))
    else RouteObserved(bh.value, o, r)
  }

  /** All actions of `applicationDidFinishLaunching`, from the observed state `o`. */
  function LaunchTrace(hal: Hal, o: Observed, r: LaunchReplies): seq<HostEvent>
  {
    StaleRestoreEvents(o.breadcrumb, r.staleRestoreStatus, r.staleRemoved)
    + DevicesTrace(hal, StaleObserved(o, r.staleRestoreStatus, r.staleRemoved).defaultOutput, r)
  }

  /** The observed state after `applicationDidFinishLaunching`, from the observed state `o`. */
  function LaunchObserved(hal: Hal, o: Observed, r: LaunchReplies): Observed
  {
    DevicesObserved(hal, StaleObserved(o, r.staleRestoreStatus, r.staleRemoved), r)
  }

  lemma AppendAssociates(a: seq<HostEvent>, b: seq<HostEvent>, c: seq<HostEvent>)
    ensures a + b + c == a + (b + c)
  {
  }

  /** Consuming a stale breadcrumb does what its actions say. */
  lemma StaleObservedIsReplay(o: Observed, status: OSStatus, removed: bool)
    ensures StaleObserved(o, status, removed) == Replay(o, StaleRestoreEvents(o.breadcrumb, status, removed))
  {
    var events := StaleRestoreEvents(o.breadcrumb, status, removed);
    if events != [] {
      assert events == [events[0]] + [events[1]];
      ReplayConcat(o, [events[0]], [events[1]]);
    }
  }

  lemma ReplaySingle(o: Observed, e: HostEvent)
    ensures Replay(o, [e]) == Apply(o, e)
  {
    assert [e][1..] == [];
  }

  /** Writing the breadcrumb, when it is written, replaces the file's content. */
  lemma ReplayWrite(o: Observed, original: Option<DeviceId>, written: bool)
    ensures Replay(o, WriteEvents(original, written)) == o.(breadcrumb := WrittenBreadcrumb(original, written, o.breadcrumb))
  {
    if original.Some? && written {
      ReplaySingle(o, BreadcrumbWritten(BreadcrumbText(original.value)));
    }
  }

  /** Setting the default back to the original changes only the default output. */
  lemma ReplayRestore(o: Observed, original: Option<DeviceId>, status: OSStatus)
    ensures Replay(o, RestoreEvents(original, status)) == o.(defaultOutput := AfterRestore(o.defaultOutput, original, status))
  {
    if original.Some? {
      ReplaySingle(o, DefaultOutputSet(original.value, status == NoErr));
    }
  }

  /** A `start` adds the aggregate it creates, if any. */
  lemma ReplayCreate(o: Observed, replies: StartReplies, inputUID: string, outputUID: string)
    ensures Replay(o, CreateEvents(replies, inputUID, outputUID)) == o.(aggregates := o.aggregates + Owned(CreatedId(replies)))
  {
    if replies.Creates() {
      ReplaySingle(o, AggregateCreated(replies.aggregateId, AggregateDescriptionFor(inputUID, outputUID)));
    }
  }

  /** A `stop` removes the aggregate it destroys, if any, when the system accepts. */
  lemma ReplayDestroy(o: Observed, aggregate: DeviceId, status: OSStatus)
    ensures Replay(o, DestroyEvents(aggregate, status)) == o.(aggregates := o.aggregates - Destroyed(aggregate, status))
  {
    if aggregate != UnknownObject {
      ReplaySingle(o, AggregateDestroyed(aggregate, status == NoErr));
    }
  }

  /** `shutdown`'s actions on any observed state: destroy, restore, remove, each as far as the system accepts. */
  lemma ShutdownReplayFrame(o: Observed, aggregate: DeviceId, original: Option<DeviceId>, s: ShutdownReplies)
    ensures Replay(o, ShutdownEvents(aggregate, original, s))
      == Observed(AfterRestore(o.defaultOutput, original, s.restoreStatus),
                  o.aggregates - Destroyed(aggregate, s.destroyStatus),
                  AfterRemove(o.breadcrumb, s.removed))
  {
    var destroy := DestroyEvents(aggregate, s.destroyStatus);
    var restore := RestoreEvents(original, s.restoreStatus);
    ReplayConcat(o, destroy + restore, [BreadcrumbRemoved(s.removed)]);
    ReplayConcat(o, destroy, restore);
    ReplayDestroy(o, aggregate, s.destroyStatus);
    ReplayRestore(Replay(o, destroy), original, s.restoreStatus);
    ReplaySingle(Replay(o, destroy + restore), BreadcrumbRemoved(s.removed));
  }

  /**
   * `shutdown` never leaves more aggregates alive than it found; when the
   * system accepts the destroy, none of this process remains; when it accepts
   * the removal, no breadcrumb remains; and the default output goes back to
   * the original when the system accepts that.
   */
  lemma ShutdownRestores(o: Observed, aggregate: DeviceId, original: Option<DeviceId>, s: ShutdownReplies)
    requires o.aggregates <= Owned(aggregate)
    ensures var o' := Replay(o, ShutdownEvents(aggregate, original, s));
      && o'.aggregates <= o.aggregates
      && (s.destroyStatus == NoErr ==> o'.aggregates == {})
      && (s.removed ==> o'.breadcrumb == None)
      && (!s.removed ==> o'.breadcrumb == o.breadcrumb)
      && o'.defaultOutput == AfterRestore(o.defaultOutput, original, s.restoreStatus)
  {
    ShutdownReplayFrame(o, aggregate, original, s);
  }

  /** The engine step of a launch does what its actions say. */
  lemma EngineStepIsReplay(bh: AudioDevice, dell: AudioDevice, o: Observed, original: Option<DeviceId>, r: LaunchReplies)
    ensures Replay(o, EngineStepTrace(bh, dell, original, r)) ==
      if r.engine.Succeeds() then o.(aggregates := o.aggregates + Owned(CreatedId(r.engine)))
      else Observed(
        AfterRestore(AfterRestore(o.defaultOutput, original, r.fallbackRestoreStatus), original, r.terminate.restoreStatus),
        o.aggregates + Owned(CreatedId(r.engine)) - Destroyed(CreatedId(r.engine), r.terminate.destroyStatus),
        AfterRemove(o.breadcrumb, r.terminate.removed))
  {
    var create := CreateEvents(r.engine, bh.uid, dell.uid);
    ReplayCreate(o, r.engine, bh.uid, dell.uid);
    if !r.engine.Succeeds() {
      var fallback := RestoreEvents(original, r.fallbackRestoreStatus);
      var shutdown := ShutdownEvents(CreatedId(r.engine), original, r.terminate);
      ReplayConcat(o, create + fallback, shutdown);
      ReplayConcat(o, create, fallback);
      ReplayRestore(Replay(o, create), original, r.fallbackRestoreStatus);
      ShutdownReplayFrame(Replay(o, create + fallback), CreatedId(r.engine), original, r.terminate);
    }
  }

  /** From the redirect on, the launch's observed effect is what its actions say. */
  lemma {:induction false} RedirectObservedIsReplay(bh: AudioDevice, dell: AudioDevice, original: Option<DeviceId>,
                                                    o: Observed, r: LaunchReplies)
    ensures RedirectObserved(bh, original, o, r) == Replay(o, RedirectTrace(bh, dell, original, r))
  {
    var redirect := DefaultOutputSet(bh.id, r.redirectStatus == NoErr);
    ReplaySingle(o, redirect);
    var o1 := Apply(o, redirect);
    if r.redirectStatus != NoErr {
      ReplayConcat(o, [redirect], ShutdownEvents(UnknownObject, original, r.terminate));
      ShutdownReplayFrame(o1, UnknownObject, original, r.terminate);
    } else {
      ReplayConcat(o, [redirect], EngineStepTrace(bh, dell, original, r));
      EngineStepIsReplay(bh, dell, o1, original, r);
    }
  }

  /** Once both devices are found, the launch's observed effect is what its actions say. */
  lemma {:induction false} RouteObservedIsReplay(bh: AudioDevice, dell: AudioDevice, o: Observed, r: LaunchReplies)
    ensures RouteObserved(bh, o, r) == Replay(o, RouteTrace(bh, dell, o.defaultOutput, r))
  {
    var original := CapturedOriginal(o.defaultOutput, r);
    var write := WriteEvents(original, r.breadcrumbWriteOk);
    ReplayWrite(o, original, r.breadcrumbWriteOk);
    ReplayConcat(o, write, RedirectTrace(bh, dell, original, r));
    RedirectObservedIsReplay(bh, dell, original, Replay(o, write), r);
  }

  /** The launch's observed effect is what its actions say. */
  lemma {:induction false} LaunchObservedIsReplay(hal: Hal, o: Observed, r: LaunchReplies)
    ensures LaunchObserved(hal, o, r) == Replay(o, LaunchTrace(hal, o, r))
  {
    var s := StaleObserved(o, r.staleRestoreStatus, r.staleRemoved);
    StaleObservedIsReplay(o, r.staleRestoreStatus, r.staleRemoved);
    ReplayConcat(o, StaleRestoreEvents(o.breadcrumb, r.staleRestoreStatus, r.staleRemoved), DevicesTrace(hal, s.defaultOutput, r));
    var bh := FindDevice(hal, BlackHoleName);
    var dell := FindDevice(hal, MonitorName);
    if bh.None? || dell.None? {
      ShutdownReplayFrame(s, UnknownObject, None, r.terminate);
    } else {
      RouteObservedIsReplay(bh.value, dell.value, s, r);
    }
  }

  /**
   * What a launch leaves behind, read off its actions. A terminated launch
   * leaves at most the aggregate its failed start created, and none when the
   * system accepts the destroy; no breadcrumb when the system accepts the
   * removal, and otherwise, once it was written, the breadcrumb naming the
   * original; and when it captured the original and the system accepts the
   * final restore, audio goes back there. A running one routes the system's
   * output into BlackHole through one aggregate, with the breadcrumb naming
   * the original default.
   */
  lemma LaunchLeavesConsistentRouting(hal: Hal, o: Observed, r: LaunchReplies)
    requires o.aggregates == {}
    ensures var o' := Replay(o, LaunchTrace(hal, o, r));
      var original := StaleObserved(o, r.staleRestoreStatus, r.staleRemoved).defaultOutput;
      && (LaunchOutcomeFor(hal, r).Terminated? ==>
            && o'.aggregates <= Owned(CreatedId(r.engine))
            && (r.terminate.destroyStatus == NoErr ==> o'.aggregates == {})
            && (r.terminate.removed ==> o'.breadcrumb == None))
      && (LaunchOutcomeFor(hal, r).Terminated? && BothPresent(hal) && r.defaultQueryStatus == NoErr ==>
            && (r.terminate.restoreStatus == NoErr ==> o'.defaultOutput == original)
            && (!r.terminate.removed && r.breadcrumbWriteOk ==> o'.breadcrumb == Some(BreadcrumbText(original))))
      && (LaunchOutcomeFor(hal, r).Running? ==>
            && o'.defaultOutput == FindDevice(hal, BlackHoleName).value.id
            && o'.aggregates == {r.engine.aggregateId as DeviceId}
            && (r.defaultQueryStatus == NoErr && r.breadcrumbWriteOk ==> o'.breadcrumb == Some(BreadcrumbText(original))))
  {
    LaunchObservedIsReplay(hal, o, r);
  }

  /**
   * The breadcrumb's purpose: when a launch captured the original and wrote
   * the breadcrumb, and either reached the running state and then died
   * without `shutdown`, or terminated without managing to remove the
   * breadcrumb, the next launch's breadcrumb step sets the default output
   * back to that original when the system accepts, and deletes the
   * breadcrumb when the system accepts that.
   */
  lemma CrashRecovery(hal: Hal, o: Observed, r: LaunchReplies, status: OSStatus, removed: bool)
    requires o.aggregates == {}
    requires BothPresent(hal) && r.defaultQueryStatus == NoErr && r.breadcrumbWriteOk
    requires LaunchOutcomeFor(hal, r).Running? || !r.terminate.removed
    ensures var crashed := Replay(o, LaunchTrace(hal, o, r));
      var next := StaleObserved(crashed, status, removed);
      && StaleRestoreEvents(crashed.breadcrumb, status, removed) != []
      && (removed ==> next.breadcrumb == None)
      && (status == NoErr ==> next.defaultOutput == StaleObserved(o, r.staleRestoreStatus, r.staleRemoved).defaultOutput)
  {
    LaunchLeavesConsistentRouting(hal, o, r);
    BreadcrumbRoundTrip(StaleObserved(o, r.staleRestoreStatus, r.staleRemoved).defaultOutput);
  }

  /** Once the original is captured and the breadcrumb written, a route's first two actions are that write and the redirect. */
  lemma RouteTraceHead(bh: AudioDevice, dell: AudioDevice, default: DeviceId, r: LaunchReplies)
    requires r.defaultQueryStatus == NoErr && r.breadcrumbWriteOk
    ensures var t := RouteTrace(bh, dell, default, r);
      && |t| >= 2
      && t[0] == BreadcrumbWritten(BreadcrumbText(default))
      && t[1] == DefaultOutputSet(bh.id, r.redirectStatus == NoErr)
  {
    assert WriteEvents(CapturedOriginal(default, r), r.breadcrumbWriteOk) == [BreadcrumbWritten(BreadcrumbText(default))];
  }

  /** The first two actions of `tail` keep their order after any `head`. */
  lemma HeadFollowsPrefix(head: seq<HostEvent>, tail: seq<HostEvent>)
    requires |tail| >= 2
    ensures exists i, j :: 0 <= i < j < |head + tail| && (head + tail)[i] == tail[0] && (head + tail)[j] == tail[1]
  {
    var n := |head|;
    assert (head + tail)[n] == tail[0] && (head + tail)[n + 1] == tail[1];
  }

  /** With both devices present, a launch consumes the stale breadcrumb and then routes to them. */
  lemma LaunchTraceRoutes(hal: Hal, o: Observed, r: LaunchReplies)
    requires BothPresent(hal)
    ensures LaunchTrace(hal, o, r)
      == StaleRestoreEvents(o.breadcrumb, r.staleRestoreStatus, r.staleRemoved)
         + RouteTrace(FindDevice(hal, BlackHoleName).value, FindDevice(hal, MonitorName).value,
                      StaleObserved(o, r.staleRestoreStatus, r.staleRemoved).defaultOutput, r)
  {
  }

  /** The breadcrumb naming the original default is written before the default output is redirected to BlackHole. */
  lemma BreadcrumbPrecedesRedirect(hal: Hal, o: Observed, r: LaunchReplies)
    requires BothPresent(hal) && r.defaultQueryStatus == NoErr && r.breadcrumbWriteOk
    ensures var t := LaunchTrace(hal, o, r);
      var original := StaleObserved(o, r.staleRestoreStatus, r.staleRemoved).defaultOutput;
      var bh := FindDevice(hal, BlackHoleName).value;
      exists i, j :: 0 <= i < j < |t| && t[i] == BreadcrumbWritten(BreadcrumbText(original))
                     && t[j] == DefaultOutputSet(bh.id, r.redirectStatus == NoErr)
  {
    var original := StaleObserved(o, r.staleRestoreStatus, r.staleRemoved).defaultOutput;
    var bh := FindDevice(hal, BlackHoleName).value;
    var stale := StaleRestoreEvents(o.breadcrumb, r.staleRestoreStatus, r.staleRemoved);
    var route := RouteTrace(bh, FindDevice(hal, MonitorName).value, original, r);
    LaunchTraceRoutes(hal, o, r);
    RouteTraceHead(bh, FindDevice(hal, MonitorName).value, original, r);
    HeadFollowsPrefix(stale, route);
  }

  class AppDelegate {
    const host: Host
    const devices: DeviceManager
    const engine: AudioEngine
    const keys: MediaKeyInterceptor

    var volume: real
    var muted: bool
    var blackHoleUID: Option<string>
    var dellUID: Option<string>
    var originalDefaultDeviceID: Option<DeviceId>
    /** `UserDefaults` writes, oldest first. */
    ghost var preferences: seq<Preference>

    /** The volume stays in [0, 1]; a running engine applies the effective gain. */
    ghost predicate Valid()
      reads this, engine, host
    {
      && devices.host == host && engine.host == host
      && engine.Valid()
      && 0.0 <= volume <= 1.0
      && (engine.IsRunning() ==> engine.Volume() == EffectiveGain(volume, muted))
    }

    /**
     * The only live aggregate of this process is the one the engine records.
     * It holds from launch on as long as every destroy is accepted.
     */
    ghost predicate OwnsOnlyRecorded()
      reads this, engine, host
    {
      host.aggregates <= Owned(engine.aggregateDeviceID)
    }

    /** Nothing found, captured or started yet. */
    ghost predicate Fresh()
      reads this, engine
    {
      && engine.engine.None? && engine.aggregateDeviceID == UnknownObject
      && blackHoleUID.None? && dellUID.None? && originalDefaultDeviceID.None?
    }

    constructor (host: Host)
      requires host.aggregates == {}
      ensures this.host == host && Valid() && Fresh() && OwnsOnlyRecorded()
      ensures volume == 1.0 && !muted && preferences == []
      ensures fresh(engine) && fresh(devices) && fresh(keys)
      ensures !keys.hasEventTap && !keys.tapEnabled
    {
      this.host := host;
      devices := new DeviceManager(host);
      engine := new AudioEngine(host);
      keys := new MediaKeyInterceptor();
      volume := 1.0;
      muted := false;
      blackHoleUID := None;
      dellUID := None;
      originalDefaultDeviceID := None;
      preferences := [];
    }

    // ---- the two observed properties --------------------------------------

    /** Assigning `volume`: its `didSet` clamps, pushes the gain and persists. */
    method SetVolume(v: real)
      requires Valid()
      modifies this`volume, this`preferences, engine`engine
      ensures Valid()
      ensures volume == Clamp(v) && muted == old(muted)
      ensures engine.engine.Some? ==> engine.Volume() == EffectiveGain(volume, muted)
      ensures engine.engine.None? == old(engine.engine).None? && engine.IsRunning() == old(engine.IsRunning())
      ensures preferences == old(preferences) + [VolumePreference(volume)]
    {
      volume := Clamp(v);
      engine.SetVolume(EffectiveGain(volume, muted));
      preferences := preferences + [VolumePreference(volume)];
    }

    /** Assigning `muted`: its `didSet` pushes the gain and persists. */
    method SetMuted(m: bool)
      requires Valid()
      modifies this`muted, this`preferences, engine`engine
      ensures Valid()
      ensures muted == m && volume == old(volume)
      ensures engine.engine.Some? ==> engine.Volume() == EffectiveGain(volume, muted)
      ensures engine.engine.None? == old(engine.engine).None? && engine.IsRunning() == old(engine.IsRunning())
      ensures preferences == old(preferences) + [MutedPreference(m)]
    {
      muted := m;
      engine.SetVolume(EffectiveGain(volume, muted));
      preferences := preferences + [MutedPreference(m)];
    }

    // ---- volume control ---------------------------------------------------

    /** `stepVolume(up:)`: stepping up while muted only unmutes; otherwise the volume moves one step. */
    method StepVolume(up: bool)
      requires Valid()
      modifies this`volume, this`muted, this`preferences, engine`engine
      ensures Valid()
      ensures old(muted) && up ==> !muted && volume == old(volume)
      ensures !(old(muted) && up) ==> muted == old(muted) && volume == SteppedVolume(old(volume), up)
      ensures preferences == old(preferences) + if old(muted) && up then [MutedPreference(false)] else [VolumePreference(volume)]
      ensures engine.engine.Some? ==> engine.Volume() == EffectiveGain(volume, muted)
      ensures engine.engine.None? == old(engine.engine).None? && engine.IsRunning() == old(engine.IsRunning())
    {
      if muted && up {
        SetMuted(false);
      } else {
        SetVolume(volume + (if up then VolumeStep else -VolumeStep));
      }
    }

    /** `toggleMute` */
    method ToggleMute()
      requires Valid()
      modifies this`muted, this`preferences, engine`engine
      ensures Valid()
      ensures muted == !old(muted) && volume == old(volume)
      ensures preferences == old(preferences) + [MutedPreference(muted)]
      ensures engine.engine.Some? ==> engine.Volume() == EffectiveGain(volume, muted)
      ensures engine.engine.None? == old(engine.engine).None? && engine.IsRunning() == old(engine.IsRunning())
    {
      SetMuted(!muted);
    }

    /** The status-bar volume callback: unmute, then take the slider's value. */
    method VolumeSliderMoved(v: real)
      requires Valid()
      modifies this`volume, this`muted, this`preferences, engine`engine
      ensures Valid()
      ensures !muted && volume == Clamp(v)
      ensures engine.engine.Some? ==> engine.Volume() == volume
      ensures engine.engine.None? == old(engine.engine).None? && engine.IsRunning() == old(engine.IsRunning())
      ensures preferences == old(preferences) + [MutedPreference(false), VolumePreference(volume)]
    {
      SetMuted(false);
      SetVolume(v);
    }

    /** The tap callback with the interceptor's callbacks wired to `stepVolume` and `toggleMute`. */
    method HandleMediaKeyEvent(e: TapEvent) returns (disposition: Disposition)
      requires Valid()
      modifies this`volume, this`muted, this`preferences, engine`engine
      ensures Valid()
      ensures disposition == HandleEvent(e).disposition
      ensures engine.engine.None? == old(engine.engine).None? && engine.IsRunning() == old(engine.IsRunning())
      ensures HandleEvent(e).fired.None? ==>
        && volume == old(volume) && muted == old(muted) && engine.engine == old(engine.engine)
        && preferences == old(preferences)
      ensures HandleEvent(e).fired == Some(SoundUp) ==>
        && (if old(muted) then !muted && volume == old(volume) else !muted && volume == SteppedVolume(old(volume), true))
        && preferences == old(preferences) + if old(muted) then [MutedPreference(false)] else [VolumePreference(volume)]
      ensures HandleEvent(e).fired == Some(SoundDown) ==>
        && muted == old(muted) && volume == SteppedVolume(old(volume), false)
        && preferences == old(preferences) + [VolumePreference(volume)]
      ensures HandleEvent(e).fired == Some(Mute) ==>
        && muted == !old(muted) && volume == old(volume)
        && preferences == old(preferences) + [MutedPreference(muted)]
    {
      var handling := HandleEvent(e);
      disposition := handling.disposition;
      match handling.fired
      case Some(SoundUp) => StepVolume(true);
      case Some(SoundDown) => StepVolume(false);
      case Some(Mute) => ToggleMute();
      case None =>
    }

    // ---- device changes and wake ------------------------------------------

    /**
     * `handleDeviceChange`: stop when either device is gone; when both are
     * there and the engine is not running, restart it from the cached UIDs,
     * ignore a failure, and push the gain again.
     */
    method HandleDeviceChange(destroyStatus: OSStatus, replies: StartReplies)
      requires Valid()
      modifies engine, host`aggregates, host`trace
      ensures Valid()
      ensures old(OwnsOnlyRecorded()) && destroyStatus == NoErr ==> OwnsOnlyRecorded()
      ensures !BothPresent(host.hal) ==>
        && engine.engine == None && engine.aggregateDeviceID == UnknownObject
        && host.aggregates == old(host.aggregates) - Destroyed(old(engine.aggregateDeviceID), destroyStatus)
        && host.trace == old(host.trace) + DestroyEvents(old(engine.aggregateDeviceID), destroyStatus)
      ensures BothPresent(host.hal) && (old(engine.IsRunning()) || blackHoleUID.None? || dellUID.None?) ==>
        && engine.engine == old(engine.engine) && engine.aggregateDeviceID == old(engine.aggregateDeviceID)
        && host.aggregates == old(host.aggregates) && host.trace == old(host.trace)
      ensures BothPresent(host.hal) && !old(engine.IsRunning()) && blackHoleUID.Some? && dellUID.Some? ==>
        && (engine.IsRunning() <==> replies.Succeeds())
        && engine.aggregateDeviceID == CreatedId(replies)
        && host.aggregates == old(host.aggregates) - Destroyed(old(engine.aggregateDeviceID), destroyStatus)
                              + Owned(engine.aggregateDeviceID)
        && host.trace == old(host.trace) + DestroyEvents(old(engine.aggregateDeviceID), destroyStatus)
                         + CreateEvents(replies, blackHoleUID.value, dellUID.value)
        && (engine.engine.Some? ==> engine.Volume() == EffectiveGain(volume, muted))
    {
      if !BothPresent(host.hal) {
        engine.Stop(destroyStatus);
        return;
      }
      if !engine.IsRunning() && blackHoleUID.Some? && dellUID.Some? {
        RestartFromCache(destroyStatus, replies);
      }
    }

    /** The restart branch of `handleDeviceChange`: restart from the cached UIDs, ignore a failure, push the gain. */
    method RestartFromCache(destroyStatus: OSStatus, replies: StartReplies)
      requires Valid() && blackHoleUID.Some? && dellUID.Some?
      modifies engine, host`aggregates, host`trace
      ensures Valid()
      ensures engine.IsRunning() <==> replies.Succeeds()
      ensures engine.aggregateDeviceID == CreatedId(replies)
      ensures host.aggregates == old(host.aggregates) - Destroyed(old(engine.aggregateDeviceID), destroyStatus)
                                 + Owned(engine.aggregateDeviceID)
      ensures old(OwnsOnlyRecorded()) && destroyStatus == NoErr ==> OwnsOnlyRecorded()
      ensures host.trace == old(host.trace) + DestroyEvents(old(engine.aggregateDeviceID), destroyStatus)
                            + CreateEvents(replies, blackHoleUID.value, dellUID.value)
      ensures engine.engine.Some? ==> engine.Volume() == EffectiveGain(volume, muted)
    {
      var _ := engine.Restart(blackHoleUID.value, dellUID.value, destroyStatus, replies);
      engine.SetVolume(EffectiveGain(volume, muted));
    }

    /**
     * The delayed body of `handleWake`: when both devices are found again,
     * refresh their UIDs, point the default output at BlackHole and restart;
     * otherwise change nothing.
     */
    method HandleWake(replies: WakeReplies)
      requires Valid()
      modifies this`blackHoleUID, this`dellUID, engine, host`defaultOutput, host`aggregates, host`trace
      ensures Valid()
      ensures old(OwnsOnlyRecorded()) && replies.destroyStatus == NoErr ==> OwnsOnlyRecorded()
      ensures !BothPresent(host.hal) ==>
        && blackHoleUID == old(blackHoleUID) && dellUID == old(dellUID)
        && host.defaultOutput == old(host.defaultOutput)
        && engine.engine == old(engine.engine) && engine.aggregateDeviceID == old(engine.aggregateDeviceID)
        && host.aggregates == old(host.aggregates) && host.trace == old(host.trace)
      ensures BothPresent(host.hal) ==>
        var bh := FindDevice(host.hal, BlackHoleName).value;
        var dell := FindDevice(host.hal, MonitorName).value;
        && blackHoleUID == Some(bh.uid) && dellUID == Some(dell.uid)
        && host.defaultOutput == (if replies.redirectStatus == NoErr then bh.id else old(host.defaultOutput))
        && (engine.IsRunning() <==> replies.engine.Succeeds())
        && engine.aggregateDeviceID == CreatedId(replies.engine)
        && host.aggregates == old(host.aggregates) - Destroyed(old(engine.aggregateDeviceID), replies.destroyStatus)
                              + Owned(engine.aggregateDeviceID)
        && host.trace == old(host.trace) + [DefaultOutputSet(bh.id, replies.redirectStatus == NoErr)]
                         + DestroyEvents(old(engine.aggregateDeviceID), replies.destroyStatus)
                         + CreateEvents(replies.engine, bh.uid, dell.uid)
    {
      var bh := FindDevice(host.hal, BlackHoleName);
      var dell := FindDevice(host.hal, MonitorName);
      if bh.None? || dell.None? {
        return;
      }
      Reconnect(bh.value, dell.value, replies);
    }

    /**
     * The body of `handleWake` once both devices are found again: cache their
     * UIDs, point the default output at BlackHole, restart, and push the gain
     * when the restart succeeds.
     */
    method Reconnect(bh: AudioDevice, dell: AudioDevice, replies: WakeReplies)
      requires Valid()
      modifies this`blackHoleUID, this`dellUID, engine, host`defaultOutput, host`aggregates, host`trace
      ensures Valid()
      ensures blackHoleUID == Some(bh.uid) && dellUID == Some(dell.uid)
      ensures host.defaultOutput == (if replies.redirectStatus == NoErr then bh.id else old(host.defaultOutput))
      ensures engine.IsRunning() <==> replies.engine.Succeeds()
      ensures engine.aggregateDeviceID == CreatedId(replies.engine)
      ensures host.aggregates == old(host.aggregates) - Destroyed(old(engine.aggregateDeviceID), replies.destroyStatus)
                                 + Owned(engine.aggregateDeviceID)
      ensures old(OwnsOnlyRecorded()) && replies.destroyStatus == NoErr ==> OwnsOnlyRecorded()
      ensures host.trace == old(host.trace) + [DefaultOutputSet(bh.id, replies.redirectStatus == NoErr)]
                            + DestroyEvents(old(engine.aggregateDeviceID), replies.destroyStatus)
                            + CreateEvents(replies.engine, bh.uid, dell.uid)
    {
      blackHoleUID := Some(bh.uid);
      dellUID := Some(dell.uid);
      var _ := devices.SetDefaultOutput(bh.id, replies.redirectStatus);
      var outcome := engine.Restart(bh.uid, dell.uid, replies.destroyStatus, replies.engine);
      if outcome.Started? {
        engine.SetVolume(EffectiveGain(volume, muted));
      }
    }

    // ---- breadcrumb -------------------------------------------------------

    /** `writeBreadcrumb`: only when the original default is known; a failed write is ignored. */
    method WriteBreadcrumb(written: bool)
      modifies host`breadcrumb, host`trace
      ensures host.breadcrumb ==
        if originalDefaultDeviceID.Some? && written then Some(BreadcrumbText(originalDefaultDeviceID.value))
        else old(host.breadcrumb)
      ensures host.trace == old(host.trace) + WriteEvents(originalDefaultDeviceID, written)
    {
      if originalDefaultDeviceID.None? {
        return;
      }
      if written {
        host.breadcrumb := Some(BreadcrumbText(originalDefaultDeviceID.value));
        host.trace := host.trace + [BreadcrumbWritten(BreadcrumbText(originalDefaultDeviceID.value))];
      }
    }

    /** `removeBreadcrumb`: the file is gone unless the system refuses the removal, which is ignored. */
    method RemoveBreadcrumb(removed: bool)
      modifies host`breadcrumb, host`trace
      ensures host.breadcrumb == AfterRemove(old(host.breadcrumb), removed)
      ensures removed ==> host.breadcrumb == None
      ensures !removed ==> host.breadcrumb == old(host.breadcrumb)
      ensures host.trace == old(host.trace) + [BreadcrumbRemoved(removed)]
    {
      if removed {
        host.breadcrumb := None;
      }
      host.trace := host.trace + [BreadcrumbRemoved(removed)];
    }

    /**
     * `restoreBreadcrumbIfNeeded`: a breadcrumb that parses is applied and
     * deleted; a missing or unparseable one is left alone.
     */
    method RestoreBreadcrumbIfNeeded(status: OSStatus, removed: bool)
      requires Valid()
      modifies host`defaultOutput, host`breadcrumb, host`trace
      ensures Valid()
      ensures host.defaultOutput == DefaultAfterStaleRestore(old(host.defaultOutput), old(host.breadcrumb), status)
      ensures host.breadcrumb ==
        if StaleBreadcrumbId(old(host.breadcrumb)).Some? then AfterRemove(old(host.breadcrumb), removed) else old(host.breadcrumb)
      ensures host.trace == old(host.trace) + StaleRestoreEvents(old(host.breadcrumb), status, removed)
    {
      var content := host.breadcrumb;
      if content.None? {
        return;
      }
      var deviceID := ParseDeviceId(content.value);
      if deviceID.None? {
        return;
      }
      var _ := devices.SetDefaultOutput(deviceID.value, status);
      RemoveBreadcrumb(removed);
    }

    // ---- shutdown ---------------------------------------------------------

    /**
     * `shutdown`: stop keys and engine, restore the captured default if any,
     * remove the breadcrumb; each system call may be refused, and a refusal
     * is ignored.
     */
    method Shutdown(s: ShutdownReplies)
      requires Valid()
      modifies keys, engine, host`defaultOutput, host`aggregates, host`breadcrumb, host`trace
      ensures Valid()
      ensures !keys.hasEventTap && !keys.hasRunLoopSource && !keys.hasHealthTimer
      ensures engine.engine == None && engine.aggregateDeviceID == UnknownObject
      ensures host.aggregates == old(host.aggregates) - Destroyed(old(engine.aggregateDeviceID), s.destroyStatus)
      ensures old(OwnsOnlyRecorded()) && s.destroyStatus == NoErr ==> host.aggregates == {}
      ensures host.breadcrumb == AfterRemove(old(host.breadcrumb), s.removed)
      ensures host.defaultOutput == AfterRestore(old(host.defaultOutput), originalDefaultDeviceID, s.restoreStatus)
      ensures originalDefaultDeviceID.Some? && s.restoreStatus == NoErr ==> host.defaultOutput == originalDefaultDeviceID.value
      ensures host.trace == old(host.trace) + ShutdownEvents(old(engine.aggregateDeviceID), originalDefaultDeviceID, s)
    {
      keys.Stop();
      engine.Stop(s.destroyStatus);
      if originalDefaultDeviceID.Some? {
        var _ := devices.SetDefaultOutput(originalDefaultDeviceID.value, s.restoreStatus);
      }
      RemoveBreadcrumb(s.removed);
    }

    /** The quit menu item: `shutdown`, then `terminate`, whose `applicationWillTerminate` shuts down again. */
    method Quit(first: ShutdownReplies, second: ShutdownReplies)
      requires Valid()
      modifies keys, engine, host`defaultOutput, host`aggregates, host`breadcrumb, host`trace
      ensures Valid()
      ensures engine.engine == None && engine.aggregateDeviceID == UnknownObject
      ensures host.aggregates == old(host.aggregates) - Destroyed(old(engine.aggregateDeviceID), first.destroyStatus)
      ensures host.breadcrumb == AfterRemove(AfterRemove(old(host.breadcrumb), first.removed), second.removed)
      ensures first.removed || second.removed ==> host.breadcrumb == None
      ensures originalDefaultDeviceID.Some? && (first.restoreStatus == NoErr || second.restoreStatus == NoErr) ==>
        host.defaultOutput == originalDefaultDeviceID.value
      ensures host.trace == old(host.trace) + ShutdownEvents(old(engine.aggregateDeviceID), originalDefaultDeviceID, first)
                            + RestoreEvents(originalDefaultDeviceID, second.restoreStatus) + [BreadcrumbRemoved(second.removed)]
    {
      Shutdown(first);
      Shutdown(second);
    }

    /** `NSApp.terminate`: `applicationWillTerminate` runs `shutdown` before the process exits. */
    method Terminate(reason: LaunchFailure, s: ShutdownReplies) returns (outcome: LaunchOutcome)
      requires Valid()
      modifies keys, engine, host`defaultOutput, host`aggregates, host`breadcrumb, host`trace
      ensures Valid()
      ensures outcome == Terminated(reason)
      ensures engine.engine == None && engine.aggregateDeviceID == UnknownObject
      ensures host.aggregates == old(host.aggregates) - Destroyed(old(engine.aggregateDeviceID), s.destroyStatus)
      ensures host.breadcrumb == AfterRemove(old(host.breadcrumb), s.removed)
      ensures host.defaultOutput == AfterRestore(old(host.defaultOutput), originalDefaultDeviceID, s.restoreStatus)
      ensures host.trace == old(host.trace) + ShutdownEvents(old(engine.aggregateDeviceID), originalDefaultDeviceID, s)
    {
      Shutdown(s);
      outcome := Terminated(reason);
    }

    // ---- launch -----------------------------------------------------------

    /** Capturing the original default output and writing the breadcrumb that names it. */
    method CaptureOriginal(r: LaunchReplies)
      requires Valid()
      modifies this`originalDefaultDeviceID, host`breadcrumb, host`trace
      ensures Valid()
      ensures originalDefaultDeviceID == CapturedOriginal(host.defaultOutput, r)
      ensures host.breadcrumb == WrittenBreadcrumb(originalDefaultDeviceID, r.breadcrumbWriteOk, old(host.breadcrumb))
      ensures host.trace == old(host.trace) + WriteEvents(originalDefaultDeviceID, r.breadcrumbWriteOk)
    {
      originalDefaultDeviceID := devices.DefaultOutputDeviceID(r.defaultQueryStatus);
      WriteBreadcrumb(r.breadcrumbWriteOk);
    }

    /**
     * The engine step of a launch: start the engine and push the gain; on
     * failure, put the original default back and terminate.
     */
    method StartEngineOrTerminate(bh: AudioDevice, dell: AudioDevice, r: LaunchReplies) returns (outcome: LaunchOutcome)
      requires Valid() && engine.engine.None? && engine.aggregateDeviceID == UnknownObject && r.redirectStatus == NoErr
      modifies engine, keys, host`defaultOutput, host`aggregates, host`breadcrumb, host`trace
      ensures Valid()
      ensures outcome == RouteOutcome(r)
      ensures host.trace == old(host.trace) + EngineStepTrace(bh, dell, originalDefaultDeviceID, r)
      ensures outcome.Terminated? ==>
        && engine.engine == None && engine.aggregateDeviceID == UnknownObject
        && host.aggregates == old(host.aggregates) + Owned(CreatedId(r.engine)) - Destroyed(CreatedId(r.engine), r.terminate.destroyStatus)
        && host.breadcrumb == AfterRemove(old(host.breadcrumb), r.terminate.removed)
        && host.defaultOutput == AfterRestore(AfterRestore(old(host.defaultOutput), originalDefaultDeviceID, r.fallbackRestoreStatus),
                                              originalDefaultDeviceID, r.terminate.restoreStatus)
      ensures outcome.Running? ==>
        && engine.IsRunning() && engine.Volume() == EffectiveGain(volume, muted)
        && host.aggregates == old(host.aggregates) + {r.engine.aggregateId as DeviceId}
        && host.breadcrumb == old(host.breadcrumb) && host.defaultOutput == old(host.defaultOutput)
    {
      var started := engine.Start(bh.uid, dell.uid, r.engine);
      if started.Failed? {
        ghost var created := host.trace;
        if originalDefaultDeviceID.Some? {
          var _ := devices.SetDefaultOutput(originalDefaultDeviceID.value, r.fallbackRestoreStatus);
        }
        assert host.trace == created + RestoreEvents(originalDefaultDeviceID, r.fallbackRestoreStatus);
        outcome := Terminate(EngineFailed(started.error), r.terminate);
        return;
      }
      engine.SetVolume(EffectiveGain(volume, muted));
      outcome := Running;
    }

    /**
     * The steps of a launch from the redirect on: point the default output
     * at BlackHole (terminating when the system refuses), run the engine
     * step, start the media keys.
     */
    method RedirectAndStart(bh: AudioDevice, dell: AudioDevice, r: LaunchReplies) returns (outcome: LaunchOutcome)
      requires Valid() && engine.engine.None? && engine.aggregateDeviceID == UnknownObject
      modifies engine, keys, host`defaultOutput, host`aggregates, host`breadcrumb, host`trace
      ensures Valid()
      ensures outcome == RouteOutcome(r)
      ensures host.trace == old(host.trace) + RedirectTrace(bh, dell, originalDefaultDeviceID, r)
      ensures host.Observe() == RedirectObserved(bh, originalDefaultDeviceID, old(host.Observe()), r)
      ensures outcome.Terminated? ==> engine.engine == None && engine.aggregateDeviceID == UnknownObject
      ensures outcome.Running? ==>
        && engine.IsRunning() && engine.Volume() == EffectiveGain(volume, muted)
        && (r.tapCreated ==> keys.hasEventTap && keys.tapEnabled)
    {
      var redirected := devices.SetDefaultOutput(bh.id, r.redirectStatus);
      ghost var redirectedTrace := host.trace;
      if !redirected {
        outcome := Terminate(RedirectFailed, r.terminate);
        assert host.trace == redirectedTrace + ShutdownEvents(UnknownObject, originalDefaultDeviceID, r.terminate);
        return;
      }
      outcome := StartEngineOrTerminate(bh, dell, r);
      assert host.trace == redirectedTrace + EngineStepTrace(bh, dell, originalDefaultDeviceID, r);
      if outcome.Running? {
        keys.Start(r.tapCreated);
      }
    }

    /**
     * The part of `applicationDidFinishLaunching` after both devices are
     * found: cache their UIDs, capture the original default and write the
     * breadcrumb, then redirect and start.
     */
    method Route(bh: AudioDevice, dell: AudioDevice, r: LaunchReplies) returns (outcome: LaunchOutcome)
      requires Valid() && engine.engine.None? && engine.aggregateDeviceID == UnknownObject
      modifies this`blackHoleUID, this`dellUID, this`originalDefaultDeviceID, engine, keys
      modifies host`defaultOutput, host`aggregates, host`breadcrumb, host`trace
      ensures Valid()
      ensures outcome == RouteOutcome(r)
      ensures blackHoleUID == Some(bh.uid) && dellUID == Some(dell.uid)
      ensures originalDefaultDeviceID == CapturedOriginal(old(host.defaultOutput), r)
      ensures host.trace == old(host.trace) + RouteTrace(bh, dell, old(host.defaultOutput), r)
      ensures host.Observe() == RouteObserved(bh, old(host.Observe()), r)
      ensures outcome.Terminated? ==> engine.engine == None && engine.aggregateDeviceID == UnknownObject
      ensures outcome.Running? ==>
        && engine.IsRunning() && engine.Volume() == EffectiveGain(volume, muted)
        && (r.tapCreated ==> keys.hasEventTap && keys.tapEnabled)
    {
      blackHoleUID := Some(bh.uid);
      dellUID := Some(dell.uid);
      CaptureOriginal(r);
      ghost var captured := host.Observe();
      assert captured == old(host.Observe()).(breadcrumb := WrittenBreadcrumb(originalDefaultDeviceID, r.breadcrumbWriteOk, old(host.breadcrumb)));
      outcome := RedirectAndStart(bh, dell, r);
      AppendAssociates(old(host.trace), WriteEvents(originalDefaultDeviceID, r.breadcrumbWriteOk),
                       RedirectTrace(bh, dell, originalDefaultDeviceID, r));
    }

    /**
     * The steps of `applicationDidFinishLaunching` after the saved state is
     * restored: find both devices, terminating when one is missing, then
     * `Route`.
     */
    method FindDevicesAndRoute(r: LaunchReplies) returns (outcome: LaunchOutcome)
      requires Valid() && Fresh()
      modifies this`blackHoleUID, this`dellUID, this`originalDefaultDeviceID, engine, keys
      modifies host`defaultOutput, host`aggregates, host`breadcrumb, host`trace
      ensures Valid()
      ensures outcome == LaunchOutcomeFor(host.hal, r)
      ensures host.trace == old(host.trace) + DevicesTrace(host.hal, old(host.defaultOutput), r)
      ensures host.Observe() == DevicesObserved(host.hal, old(host.Observe()), r)
      ensures BothPresent(host.hal) ==>
        && blackHoleUID == Some(FindDevice(host.hal, BlackHoleName).value.uid)
        && dellUID == Some(FindDevice(host.hal, MonitorName).value.uid)
        && originalDefaultDeviceID == CapturedOriginal(old(host.defaultOutput), r)
      ensures outcome.Terminated? ==> engine.engine == None && engine.aggregateDeviceID == UnknownObject
      ensures outcome.Running? ==>
        && engine.IsRunning() && engine.Volume() == EffectiveGain(volume, muted)
        && (r.tapCreated ==> keys.hasEventTap && keys.tapEnabled)
    {
      var blackHole := FindDevice(host.hal, BlackHoleName);
      var dell := FindDevice(host.hal, MonitorName);
      if blackHole.None? || dell.None? {
        outcome := Terminate(if blackHole.None? then BlackHoleMissing else MonitorMissing, r.terminate);
        return;
      }
      outcome := Route(blackHole.value, dell.value, r);
    }

    /**
     * `applicationDidFinishLaunching`: consume a stale breadcrumb, restore
     * the saved volume and mute, then find the devices and route.
     */
    method ApplicationDidFinishLaunching(r: LaunchReplies) returns (outcome: LaunchOutcome)
      requires Valid() && Fresh()
      modifies this, engine, keys, host`defaultOutput, host`aggregates, host`breadcrumb, host`trace
      ensures Valid()
      ensures outcome == LaunchOutcomeFor(host.hal, r)
      ensures volume == (if r.savedVolume.Some? then Clamp(r.savedVolume.value) else old(volume))
      ensures muted == r.savedMuted
      ensures preferences == old(preferences) + SavedStateWrites(r.savedVolume, r.savedMuted)
      ensures host.trace == old(host.trace) + LaunchTrace(host.hal, old(host.Observe()), r)
      ensures host.Observe() == LaunchObserved(host.hal, old(host.Observe()), r)
      ensures BothPresent(host.hal) ==>
        && blackHoleUID == Some(FindDevice(host.hal, BlackHoleName).value.uid)
        && dellUID == Some(FindDevice(host.hal, MonitorName).value.uid)
        && originalDefaultDeviceID == CapturedOriginal(StaleObserved(old(host.Observe()), r.staleRestoreStatus, r.staleRemoved).defaultOutput, r)
      ensures outcome.Terminated? ==> engine.engine == None && engine.aggregateDeviceID == UnknownObject
      ensures outcome.Running? ==>
        && engine.IsRunning() && engine.Volume() == EffectiveGain(volume, muted)
        && (r.tapCreated ==> keys.hasEventTap && keys.tapEnabled)
    {
      RestoreBreadcrumbIfNeeded(r.staleRestoreStatus, r.staleRemoved);
      RestoreSavedState(r.savedVolume, r.savedMuted);
      outcome := FindDevicesAndRoute(r);
      AppendAssociates(old(host.trace), StaleRestoreEvents(old(host.breadcrumb), r.staleRestoreStatus, r.staleRemoved),
                       DevicesTrace(host.hal, StaleObserved(old(host.Observe()), r.staleRestoreStatus, r.staleRemoved).defaultOutput, r));
    }

    /** Restoring the saved volume, when one was saved, and the saved mute flag. */
    method RestoreSavedState(savedVolume: Option<real>, savedMuted: bool)
      requires Valid()
      modifies this`volume, this`muted, this`preferences, engine`engine
      ensures Valid()
      ensures volume == (if savedVolume.Some? then Clamp(savedVolume.value) else old(volume))
      ensures muted == savedMuted
      ensures preferences == old(preferences) + SavedStateWrites(savedVolume, savedMuted)
      ensures engine.engine.None? == old(engine.engine).None?
    {
      if savedVolume.Some? {
        SetVolume(savedVolume.value);
      }
      SetMuted(savedMuted);
    }
  }
}
