/**
 * The audio engine: it owns at most one aggregate device (the BlackHole
 * capture device joined with the monitor) and one `AVAudioEngine` rendering
 * from it. `engine` and `aggregateDeviceID` record what is owned; `Stop`
 * releases both and `Restart` is `Stop` followed by `Start`.
 */
module Engine {
  import opened CoreAudio
  import opened Decimal

  /** The UID every aggregate of this program carries. */
  const ReservedAggregateUID: string := "com.local.VolumeBuddy.Aggregate"
  const AggregateName: string := "VolumeBuddy Aggregate"

  /** `max(0, min(1, v))`. */
  function Clamp(v: real): (r: real)
    ensures 0.0 <= r <= 1.0
    ensures 0.0 <= v <= 1.0 ==> r == v
    ensures v < 0.0 ==> r == 0.0
    ensures v > 1.0 ==> r == 1.0
  {
    var upper := if v < 1.0 then v else 1.0;
    if upper < 0.0 then 0.0 else upper
  }

  lemma ClampIdempotent(v: real)
    ensures Clamp(Clamp(v)) == Clamp(v)
  {
  }

  /** The description `createAggregateDevice` hands to CoreAudio. */
  function AggregateDescriptionFor(inputUID: string, outputUID: string): (d: AggregateDescription)
    ensures d.uid == ReservedAggregateUID && d.isPrivate
    ensures d.subDevices == [inputUID, outputUID]
    ensures d.masterSubDevice == outputUID && d.clockDevice == outputUID
  {
    AggregateDescription(ReservedAggregateUID, AggregateName, true, [inputUID, outputUID], outputUID, outputUID)
  }

  /** The description lists the capture member first and puts clock and timing on the other member. */
  lemma ClockFollowsOutputMember(inputUID: string, outputUID: string)
    ensures var d := AggregateDescriptionFor(inputUID, outputUID);
      && |d.subDevices| == 2
      && d.subDevices[0] == inputUID
      && d.masterSubDevice in d.subDevices && d.clockDevice == d.masterSubDevice
      && (inputUID != outputUID ==> d.masterSubDevice != d.subDevices[0])
  {
  }

  /** An `AVAudioEngine` as far as this program observes it: its running flag and the mixer's output volume. */
  datatype RenderEngine = RenderEngine(running: bool, outputVolume: real)

  /** A newly created `AVAudioEngine`: stopped, mixer at full volume. */
  const NewRenderEngine := RenderEngine(false, 1.0)

  /**
   * Errors `start` throws: the two `EngineError` cases, and the error
   * `AVAudioEngine.start()` itself may throw, with its own description.
   */
  datatype EngineError =
    | CannotCreateAggregate(status: OSStatus)
    | CannotSetDevice(status: OSStatus)
    | EngineStartFailed(description: string)

  /** The text before the status in `errorDescription` of each `EngineError` case. */
  function StatusPrefix(e: EngineError): string
    requires !e.EngineStartFailed?
  {
    if e.CannotCreateAggregate? then "Failed to create aggregate device (OSStatus "
    else "Failed to set audio device (OSStatus "
  }

  /** The two prefixes differ in their eleventh character, where the case's verb begins. */
  lemma StatusPrefixesDiffer(a: EngineError, b: EngineError)
    requires !a.EngineStartFailed? && !b.EngineStartFailed? && a.CannotCreateAggregate? != b.CannotCreateAggregate?
    ensures |StatusPrefix(a)| > 10 && |StatusPrefix(b)| > 10 && StatusPrefix(a)[10] != StatusPrefix(b)[10]
  {
  }

  /**
   * `localizedDescription` of a thrown error: for the two `EngineError`
   * cases, `errorDescription`, which names the case and reads back as the
   * status; for an `AVAudioEngine` error, that error's own description.
   */
  function ErrorDescription(e: EngineError): (d: string)
    ensures e.EngineStartFailed? ==> d == e.description
    ensures !e.EngineStartFailed? ==>
      var p := StatusPrefix(e);
      && |p| < |d| - 1 && d[..|p|] == p && d[|d| - 1] == ')'
      && IsSignedDecimal(d[|p|..|d| - 1]) && SignedValue(d[|p|..|d| - 1]) == e.status
  {
    match e
    case EngineStartFailed(description) => description
    case _ =>
      var p, status := StatusPrefix(e), FormatSigned(e.status);
      var d := p + status + ")";
      assert d[..|p|] == p && d[|p|..|d| - 1] == status;
      d
  }

  /** The description of an `EngineError` names its case and its status, so distinct errors read differently. */
  lemma ErrorDescriptionIdentifiesError(a: EngineError, b: EngineError)
    requires !a.EngineStartFailed? && !b.EngineStartFailed?
    ensures ErrorDescription(a) == ErrorDescription(b) ==> a == b
  {
    var da, db := ErrorDescription(a), ErrorDescription(b);
    var p := StatusPrefix(a);
    if a.CannotCreateAggregate? != b.CannotCreateAggregate? {
      StatusPrefixesDiffer(a, b);
      assert da[10] == p[10] && db[10] == StatusPrefix(b)[10];
    } else if da == db {
      assert da[|p|..|da| - 1] == db[|p|..|db| - 1];
    }
  }

  datatype StartOutcome = Started | Failed(error: EngineError)

  /**
   * What the system answers during one `start`: the status of
   * `AudioHardwareCreateAggregateDevice` and the id it assigns, the status of
   * binding the output unit to that id, and the error `AVAudioEngine.start()`
   * throws, if it throws.
   */
  datatype StartReplies = StartReplies(
    createStatus: OSStatus,
    aggregateId: LiveId,
    bindStatus: OSStatus,
    engineStartError: Option<string>)
  {
    predicate Creates() { createStatus == NoErr }
    predicate Succeeds() { Creates() && bindStatus == NoErr && engineStartError.None? }
  }

  /** The error a failed `start` throws: the first step that fails decides it. */
  function StartError(replies: StartReplies): (e: EngineError)
    requires !replies.Succeeds()
    ensures e.CannotCreateAggregate? <==> !replies.Creates()
    ensures e.CannotSetDevice? <==> replies.Creates() && replies.bindStatus != NoErr
    ensures e.EngineStartFailed? ==> replies.engineStartError == Some(e.description)
  {
    if !replies.Creates() then CannotCreateAggregate(replies.createStatus)
    else if replies.bindStatus != NoErr then CannotSetDevice(replies.bindStatus)
    else EngineStartFailed(replies.engineStartError.value)
  }

  /** The aggregate a `start` leaves recorded: the one it created, or `kAudioObjectUnknown`. */
  function CreatedId(replies: StartReplies): DeviceId
  {
    if replies.Creates() then replies.aggregateId else UnknownObject
  }

  /** The trace of destroying the owned aggregate `id`, if there is one, with the status the system answers. */
  function DestroyEvents(id: DeviceId, status: OSStatus): seq<HostEvent>
  {
    if id != UnknownObject then [AggregateDestroyed(id, status == NoErr)] else []
  }

  /** The trace of one `start`: the aggregate it creates, if it creates one. */
  function CreateEvents(replies: StartReplies, inputUID: string, outputUID: string): seq<HostEvent>
  {
    if replies.Creates() then [AggregateCreated(replies.aggregateId, AggregateDescriptionFor(inputUID, outputUID))] else []
  }

  /** The aggregate set `{id}`, or empty when `id` is `kAudioObjectUnknown`. */
  function Owned(id: DeviceId): set<DeviceId>
  {
    if id != UnknownObject then {id} else {}
  }

  /** The aggregates a destroy of `id` removes: `Owned(id)` when the system accepts, nothing otherwise. */
  function Destroyed(id: DeviceId, status: OSStatus): (gone: set<DeviceId>)
    ensures gone <= Owned(id)
    ensures status == NoErr ==> gone == Owned(id)
    ensures status != NoErr ==> gone == {}
  {
    if status == NoErr then Owned(id) else {}
  }

  class AudioEngine {
    const host: Host
    var engine: Option<RenderEngine>
    var aggregateDeviceID: DeviceId

    /** A render engine exists only over a recorded aggregate, and a recorded aggregate is alive. */
    ghost predicate Valid()
      reads this, host
    {
      && (engine.Some? ==> aggregateDeviceID != UnknownObject)
      && (aggregateDeviceID != UnknownObject ==> aggregateDeviceID in host.aggregates)
    }

    constructor (host: Host)
      ensures this.host == host && engine == None && aggregateDeviceID == UnknownObject
      ensures Valid()
    {
      this.host := host;
      engine := None;
      aggregateDeviceID := UnknownObject;
    }

    /** The `volume` getter: the mixer's output volume, or 1.0 with no engine. */
    function Volume(): (v: real)
      reads this
      ensures engine.None? ==> v == 1.0
      ensures engine.Some? ==> v == engine.value.outputVolume
    {
      match engine
      case None => 1.0
      case Some(e) => e.outputVolume
    }

    /** `isRunning`: false whenever there is no engine. */
    function IsRunning(): (running: bool)
      reads this
      ensures running <==> engine.Some? && engine.value.running
      ensures engine.None? ==> !running
    {
      engine.Some? && engine.value.running
    }

    /** The `volume` setter: clamps into [0, 1]; does nothing without an engine. */
    method SetVolume(v: real)
      modifies this`engine
      ensures old(engine).None? ==> engine == None
      ensures old(engine).Some? ==> engine == Some(old(engine).value.(outputVolume := Clamp(v)))
      ensures engine.Some? ==> 0.0 <= Volume() <= 1.0
    {
      if engine.Some? {
        engine := Some(engine.value.(outputVolume := Clamp(v)));
      }
    }

    /** `createAggregateDevice`: asks CoreAudio for the aggregate; on success it is alive and recorded in the trace. */
    method CreateAggregateDevice(inputUID: string, outputUID: string, replies: StartReplies)
      returns (id: Option<LiveId>)
      modifies host`aggregates, host`trace
      ensures id.Some? <==> replies.Creates()
      ensures id.Some? ==> id.value == replies.aggregateId
      ensures host.aggregates == old(host.aggregates) + (if replies.Creates() then {replies.aggregateId as DeviceId} else {})
      ensures host.trace == old(host.trace) + CreateEvents(replies, inputUID, outputUID)
    {
      if replies.createStatus != NoErr {
        return None;
      }
      host.aggregates := host.aggregates + {replies.aggregateId as DeviceId};
      host.trace := host.trace + [AggregateCreated(replies.aggregateId, AggregateDescriptionFor(inputUID, outputUID))];
      id := Some(replies.aggregateId);
    }

    /**
     * `start`: create the aggregate, record it, make a new engine, bind its
     * output unit to the aggregate, then start it. A failed creation changes
     * nothing; a later failure leaves the aggregate recorded, so `Stop`
     * destroys it.
     */
    method Start(inputUID: string, outputUID: string, replies: StartReplies) returns (outcome: StartOutcome)
      requires Valid()
      modifies this, host`aggregates, host`trace
      ensures Valid()
      ensures outcome == if replies.Succeeds() then Started else Failed(StartError(replies))
      ensures host.trace == old(host.trace) + CreateEvents(replies, inputUID, outputUID)
      ensures !replies.Creates() ==>
        && engine == old(engine) && aggregateDeviceID == old(aggregateDeviceID)
        && host.aggregates == old(host.aggregates)
      ensures replies.Creates() ==>
        && aggregateDeviceID == replies.aggregateId
        && host.aggregates == old(host.aggregates) + {replies.aggregateId as DeviceId}
        && engine == Some(NewRenderEngine.(running := replies.Succeeds()))
    {
      var created := CreateAggregateDevice(inputUID, outputUID, replies);
      if created.None? {
        return Failed(CannotCreateAggregate(replies.createStatus));
      }
      aggregateDeviceID := created.value;
      engine := Some(NewRenderEngine);
      if replies.bindStatus != NoErr {
        return Failed(CannotSetDevice(replies.bindStatus));
      }
      if replies.engineStartError.Some? {
        return Failed(EngineStartFailed(replies.engineStartError.value));
      }
      engine := Some(engine.value.(running := true));
      outcome := Started;
    }

    /**
     * `stop`: drop the engine, ask the system to destroy the recorded
     * aggregate when there is one, and forget it whatever the system answers
     * (`destroyStatus`). A refused destroy leaves that aggregate alive and no
     * longer recorded. A second call finds nothing to destroy.
     */
    method Stop(destroyStatus: OSStatus)
      requires Valid()
      modifies this, host`aggregates, host`trace
      ensures Valid()
      ensures engine == None && aggregateDeviceID == UnknownObject && !IsRunning()
      ensures host.aggregates == old(host.aggregates) - Destroyed(old(aggregateDeviceID), destroyStatus)
      ensures old(host.aggregates) <= Owned(old(aggregateDeviceID)) && destroyStatus == NoErr ==> host.aggregates == {}
      ensures host.trace == old(host.trace) + DestroyEvents(old(aggregateDeviceID), destroyStatus)
    {
      engine := None;
      if aggregateDeviceID != UnknownObject {
        if destroyStatus == NoErr {
          host.aggregates := host.aggregates - {aggregateDeviceID};
        }
        host.trace := host.trace + [AggregateDestroyed(aggregateDeviceID, destroyStatus == NoErr)];
        aggregateDeviceID := UnknownObject;
      }
    }

    /**
     * `restart`: `Stop` then `Start`. The previous session's aggregate is
     * destroyed when the system accepts; only the new one, if created, is
     * recorded.
     */
    method Restart(inputUID: string, outputUID: string, destroyStatus: OSStatus, replies: StartReplies)
      returns (outcome: StartOutcome)
      requires Valid()
      modifies this, host`aggregates, host`trace
      ensures Valid()
      ensures outcome == if replies.Succeeds() then Started else Failed(StartError(replies))
      ensures IsRunning() <==> replies.Succeeds()
      ensures aggregateDeviceID == CreatedId(replies)
      ensures engine == if replies.Creates() then Some(NewRenderEngine.(running := replies.Succeeds())) else None
      ensures host.aggregates == old(host.aggregates) - Destroyed(old(aggregateDeviceID), destroyStatus) + Owned(aggregateDeviceID)
      ensures old(host.aggregates) <= Owned(old(aggregateDeviceID)) && destroyStatus == NoErr ==>
        host.aggregates == Owned(aggregateDeviceID)
      ensures host.trace == old(host.trace) + DestroyEvents(old(aggregateDeviceID), destroyStatus)
                            + CreateEvents(replies, inputUID, outputUID)
    {
      Stop(destroyStatus);
      outcome := Start(inputUID, outputUID, replies);
    }
  }
}
