/**
 * The operating system as VolumeBuddy sees it: the CoreAudio hardware
 * object (its device list and per-device properties, the two default-output
 * settings, the aggregate devices this process created) and the one file
 * the program keeps in the temporary directory, the crash breadcrumb.
 *
 * Every call the program makes into CoreAudio can fail; the model passes the
 * status such a call returns as a parameter, so the verified contracts hold
 * for every answer the system may give.
 */
module CoreAudio {

  datatype Option<+T> = None | Some(value: T)

  /** `AudioDeviceID` / `AudioObjectID`: an unsigned 32-bit handle. */
  type DeviceId = x: int | 0 <= x < 0x1_0000_0000

  /** A handle CoreAudio hands out for an object it created; never `kAudioObjectUnknown`. */
  type LiveId = x: DeviceId | x != UnknownObject witness 1

  /** `kAudioObjectUnknown`. */
  const UnknownObject: DeviceId := 0

  /** `MemoryLayout<AudioDeviceID>.size`, in bytes. */
  const DeviceIdSize: nat := 4

  /** `OSStatus`; `noErr` is zero. */
  type OSStatus = int
  const NoErr: OSStatus := 0

  /**
   * One audio object as the property queries see it. A property whose query
   * fails is `None`; `volumeScalarElements` lists the elements on which an
   * output-scope `kAudioDevicePropertyVolumeScalar` exists.
   */
  datatype DeviceObject = DeviceObject(
    id: DeviceId,
    uid: Option<string>,
    name: Option<string>,
    outputStreamBytes: Option<nat>,
    volumeScalarElements: set<nat>)

  /**
   * The answers of the system object to `kAudioHardwarePropertyDevices`:
   * the byte size reported by the size query (`None` when it fails), whether
   * the data query succeeds, and the objects it lists, in order.
   */
  datatype Hal = Hal(
    deviceListBytes: Option<nat>,
    deviceListReadable: bool,
    objects: seq<DeviceObject>)

  /** The dictionary passed to `AudioHardwareCreateAggregateDevice`. */
  datatype AggregateDescription = AggregateDescription(
    uid: string,
    name: string,
    isPrivate: bool,
    subDevices: seq<string>,
    masterSubDevice: string,
    clockDevice: string)

  /** What the program did to the system, in the order it did it. */
  datatype HostEvent =
    | DefaultOutputSet(device: DeviceId, accepted: bool)
    | DefaultSystemOutputSet(device: DeviceId, accepted: bool)
    | AggregateCreated(aggregate: LiveId, description: AggregateDescription)
    | AggregateDestroyed(destroyed: DeviceId, accepted: bool)
    | BreadcrumbWritten(text: string)
    | BreadcrumbRemoved(removed: bool)

  /** The part of the machine the program's actions change: default output, its aggregates, the breadcrumb. */
  datatype Observed = Observed(defaultOutput: DeviceId, aggregates: set<DeviceId>, breadcrumb: Option<string>)

  /**
   * The effect of one action on the observed state. An action the system
   * refuses (a default-output change, a destroy, a file removal) has none.
   */
  function Apply(o: Observed, e: HostEvent): (o': Observed)
    ensures e.DefaultOutputSet? && e.accepted ==> o'.defaultOutput == e.device
    ensures !(e.DefaultOutputSet? && e.accepted) ==> o'.defaultOutput == o.defaultOutput
    ensures e.AggregateCreated? ==> o'.aggregates == o.aggregates + {e.aggregate as DeviceId}
    ensures e.AggregateDestroyed? && e.accepted ==> o'.aggregates == o.aggregates - {e.destroyed}
    ensures !e.AggregateCreated? && !(e.AggregateDestroyed? && e.accepted) ==> o'.aggregates == o.aggregates
    ensures e.BreadcrumbWritten? ==> o'.breadcrumb == Some(e.text)
    ensures e.BreadcrumbRemoved? && e.removed ==> o'.breadcrumb == None
    ensures !e.BreadcrumbWritten? && !(e.BreadcrumbRemoved? && e.removed) ==> o'.breadcrumb == o.breadcrumb
  {
    match e
    case DefaultOutputSet(d, accepted) => if accepted then o.(defaultOutput := d) else o
    case DefaultSystemOutputSet(_, _) => o
    case AggregateCreated(a, _) => o.(aggregates := o.aggregates + {a})
    case AggregateDestroyed(a, accepted) => if accepted then o.(aggregates := o.aggregates - {a}) else o
    case BreadcrumbWritten(text) => o.(breadcrumb := Some(text))
    case BreadcrumbRemoved(removed) => if removed then o.(breadcrumb := None) else o
  }

  /** The observed state after a sequence of actions, oldest first. */
  function Replay(o: Observed, events: seq<HostEvent>): Observed
    decreases |events|
  {
    if events == [] then o else Replay(Apply(o, events[0]), events[1..])
  }

  /** Replaying two stretches of actions one after the other is replaying them joined. */
  lemma {:induction false} ReplayConcat(o: Observed, a: seq<HostEvent>, b: seq<HostEvent>)
    ensures Replay(o, a + b) == Replay(Replay(o, a), b)
    decreases |a|
  {
    if a == [] {
      assert a + b == b;
    } else {
      assert (a + b)[1..] == a[1..] + b;
      ReplayConcat(Apply(o, a[0]), a[1..], b);
    }
  }

  /**
   * The machine. `aggregates` holds the aggregate devices this process has
   * created and the system has not destroyed; `breadcrumb` is the content of
   * the breadcrumb file, `None` when it is absent or unreadable; `trace` records every
   * change the program makes, for stating the order of its actions.
   */
  class Host {
    var hal: Hal
    var defaultOutput: DeviceId
    var defaultSystemOutput: DeviceId
    ghost var aggregates: set<DeviceId>
    var breadcrumb: Option<string>
    ghost var trace: seq<HostEvent>

    /** The observed part of the machine. */
    ghost function Observe(): Observed
      reads this
    {
      Observed(defaultOutput, aggregates, breadcrumb)
    }

    constructor (hal: Hal, defaultOutput: DeviceId, defaultSystemOutput: DeviceId, breadcrumb: Option<string>)
      ensures this.hal == hal && this.defaultOutput == defaultOutput
      ensures this.defaultSystemOutput == defaultSystemOutput && this.breadcrumb == breadcrumb
      ensures aggregates == {} && trace == []
    {
      this.hal := hal;
      this.defaultOutput := defaultOutput;
      this.defaultSystemOutput := defaultSystemOutput;
      this.breadcrumb := breadcrumb;
      aggregates := {};
      trace := [];
    }
  }
}
