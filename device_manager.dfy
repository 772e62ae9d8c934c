/**
 * The device catalog: the output devices CoreAudio enumerates, searched and
 * filtered in enumeration order, and the default-output settings.
 */
module Devices {
  import opened CoreAudio
  import Engine

  /** `AudioDevice`: a device that has output streams, a UID and a name. */
  datatype AudioDevice = AudioDevice(id: DeviceId, uid: string, name: string)

  /** `s` contains `pattern` as a contiguous substring. */
  predicate Contains(s: string, pattern: string)
    decreases |s|
  {
    (|pattern| <= |s| && s[..|pattern|] == pattern) || (|s| > 0 && Contains(s[1..], pattern))
  }

  /** `xs` occurs in `ys` in the same order, possibly with gaps. */
  ghost predicate IsSubsequence<T>(xs: seq<T>, ys: seq<T>)
    decreases |ys|
  {
    || xs == []
    || (ys != [] && ((xs[0] == ys[0] && IsSubsequence(xs[1..], ys[1..])) || IsSubsequence(xs, ys[1..])))
  }

  // ---- per-device property queries --------------------------------------

  /** The object a property query on `id` reaches; a handle no object has answers every query with an error. */
  function Lookup(objects: seq<DeviceObject>, id: DeviceId): (r: Option<DeviceObject>)
    ensures r.Some? ==> r.value in objects && r.value.id == id
    ensures r.None? ==> forall o :: o in objects ==> o.id != id
  {
    if objects == [] then None
    else if objects[0].id == id then Some(objects[0])
    else Lookup(objects[1..], id)
  }

  /** `hasOutputStreams`: false when the size query fails, otherwise whether the size is positive. */
  function HasOutputStreams(hal: Hal, id: DeviceId): (has: bool)
    ensures has <==> Lookup(hal.objects, id).Some? && Lookup(hal.objects, id).value.outputStreamBytes.Some?
                     && Lookup(hal.objects, id).value.outputStreamBytes.value > 0
  {
    match Lookup(hal.objects, id)
    case None => false
    case Some(o) => o.outputStreamBytes.Some? && o.outputStreamBytes.value > 0
  }

  /** `deviceUID`: the UID of the object `id` names, none when no object answers or the query fails. */
  function DeviceUID(hal: Hal, id: DeviceId): (r: Option<string>)
    ensures r.Some? ==> exists o :: o in hal.objects && o.id == id && o.uid == r
    ensures (forall o :: o in hal.objects ==> o.id != id) ==> r.None?
    ensures forall o :: o in hal.objects && o.id == id && (forall p :: p in hal.objects && p.id == id ==> p == o) ==> r == o.uid
    ensures Lookup(hal.objects, id).Some? ==> r == Lookup(hal.objects, id).value.uid
  {
    match Lookup(hal.objects, id)
    case None => None
    case Some(o) => o.uid
  }

  /** `deviceName`: the name of the object `id` names, none when no object answers or the query fails. */
  function DeviceName(hal: Hal, id: DeviceId): (r: Option<string>)
    ensures r.Some? ==> exists o :: o in hal.objects && o.id == id && o.name == r
    ensures (forall o :: o in hal.objects ==> o.id != id) ==> r.None?
    ensures forall o :: o in hal.objects && o.id == id && (forall p :: p in hal.objects && p.id == id ==> p == o) ==> r == o.name
    ensures Lookup(hal.objects, id).Some? ==> r == Lookup(hal.objects, id).value.name
  {
    match Lookup(hal.objects, id)
    case None => None
    case Some(o) => o.name
  }

  /** An output-scope volume scalar exists on `element` of `id`. */
  predicate HasVolumeScalar(hal: Hal, id: DeviceId, element: nat)
  {
    match Lookup(hal.objects, id)
    case None => false
    case Some(o) => element in o.volumeScalarElements
  }

  /** The property `hasVolumeControl` probes for: a volume scalar on element 0 or element 1. */
  predicate VolumeControlPresent(hal: Hal, id: DeviceId)
  {
    HasVolumeScalar(hal, id, 0) || HasVolumeScalar(hal, id, 1)
  }

  // ---- enumeration -------------------------------------------------------

  /**
   * The id buffer after the data query: `count` slots, initialised to zero,
   * filled with the ids of the listed objects in order.
   */
  function ReadDeviceIds(objects: seq<DeviceObject>, count: nat): (ids: seq<DeviceId>)
  {
    seq(count, k requires 0 <= k < count => if k < |objects| then objects[k].id else UnknownObject)
  }

  /** The ids `allOutputDevices` reads: none when either query fails, else byte size / id size of them. */
  function EnumeratedIds(hal: Hal): (ids: Option<seq<DeviceId>>)
    ensures hal.deviceListBytes.None? || !hal.deviceListReadable ==> ids.None?
    ensures hal.deviceListBytes.Some? && hal.deviceListReadable ==>
      ids.Some? && |ids.value| == hal.deviceListBytes.value / DeviceIdSize
    ensures ids.Some? ==> forall k :: 0 <= k < |ids.value| && k < |hal.objects| ==> ids.value[k] == hal.objects[k].id
    ensures ids.Some? ==> forall k :: |hal.objects| <= k < |ids.value| ==> ids.value[k] == UnknownObject
  {
    match hal.deviceListBytes
    case None => None
    case Some(bytes) =>
      if !hal.deviceListReadable then None
      else Some(ReadDeviceIds(hal.objects, bytes / DeviceIdSize))
  }

  /** The `compactMap` closure: the device for `id`, when it has output streams, a UID and a name. */
  function Describe(hal: Hal, id: DeviceId): (r: Option<AudioDevice>)
    ensures r.Some? <==> Listed(hal, id)
    ensures r.Some? ==> r.value == AudioDevice(id, DeviceUID(hal, id).value, DeviceName(hal, id).value)
  {
    if !HasOutputStreams(hal, id) then None
    else match (DeviceUID(hal, id), DeviceName(hal, id))
      case (Some(uid), Some(name)) => Some(AudioDevice(id, uid, name))
      case _ => None
  }

  /** The ids `allOutputDevices` keeps. */
  predicate Listed(hal: Hal, id: DeviceId)
  {
    HasOutputStreams(hal, id) && DeviceUID(hal, id).Some? && DeviceName(hal, id).Some?
  }

  /** The ids of `devices`, in order. */
  function IdsOf(devices: seq<AudioDevice>): (ids: seq<DeviceId>)
    ensures |ids| == |devices|
    ensures forall k :: 0 <= k < |devices| ==> ids[k] == devices[k].id
  {
    seq(|devices|, k requires 0 <= k < |devices| => devices[k].id)
  }

  lemma IdsOfCons(d: AudioDevice, rest: seq<AudioDevice>)
    ensures IdsOf([d] + rest) == [d.id] + IdsOf(rest)
  {
    assert forall k :: 1 <= k <= |rest| ==> ([d] + rest)[k] == rest[k - 1];
  }

  /** `compactMap` over the read ids with the `Describe` closure. */
  function CompactMap(hal: Hal, ids: seq<DeviceId>): (r: seq<AudioDevice>)
    ensures |r| <= |ids|
    ensures multiset(IdsOf(r)) <= multiset(ids)
  {
    if ids == [] then []
    else
      var rest := CompactMap(hal, ids[1..]);
      assert ids == [ids[0]] + ids[1..];
      match Describe(hal, ids[0])
      case Some(d) =>
        IdsOfCons(d, rest);
        [d] + rest
      case None => rest
  }

  /** Every device `compactMap` keeps is the closure's answer for one of the read ids. */
  lemma {:induction false} CompactMapSound(hal: Hal, ids: seq<DeviceId>)
    ensures forall d :: d in CompactMap(hal, ids) ==> d.id in ids && Describe(hal, d.id) == Some(d)
  {
    if ids != [] {
      CompactMapSound(hal, ids[1..]);
      assert forall id :: id in ids[1..] ==> id in ids;
    }
  }

  /** Every listed id among the read ids has a device in the result of `compactMap`. */
  lemma {:induction false} CompactMapComplete(hal: Hal, ids: seq<DeviceId>)
    ensures forall id :: id in ids && Listed(hal, id) ==> exists d :: d in CompactMap(hal, ids) && d.id == id
  {
    if ids != [] {
      CompactMapComplete(hal, ids[1..]);
      assert forall id :: id in ids ==> id == ids[0] || id in ids[1..];
      match Describe(hal, ids[0])
      case Some(d) =>
        assert d in CompactMap(hal, ids) && d.id == ids[0];
      case None =>
    }
  }

  /** `compactMap` keeps enumeration order. */
  lemma {:induction false} CompactMapOrdered(hal: Hal, ids: seq<DeviceId>)
    ensures IsSubsequence(IdsOf(CompactMap(hal, ids)), ids)
  {
    if ids == [] {
      assert IdsOf(CompactMap(hal, ids)) == [];
    } else {
      var rest := CompactMap(hal, ids[1..]);
      CompactMapOrdered(hal, ids[1..]);
      match Describe(hal, ids[0])
      case Some(d) =>
        IdsOfCons(d, rest);
      case None =>
    }
  }

  /**
   * `compactMap` keeps enumeration order and keeps exactly the listed ids,
   * each with its own UID and name.
   */
  lemma CompactMapKeepsListed(hal: Hal, ids: seq<DeviceId>)
    ensures var r := CompactMap(hal, ids);
      && (forall d :: d in r ==>
            d.id in ids && Listed(hal, d.id) && DeviceUID(hal, d.id) == Some(d.uid) && DeviceName(hal, d.id) == Some(d.name))
      && (forall id :: id in ids && Listed(hal, id) ==> exists d :: d in r && d.id == id)
      && IsSubsequence(IdsOf(r), ids)
  {
    CompactMapSound(hal, ids);
    CompactMapComplete(hal, ids);
    CompactMapOrdered(hal, ids);
  }

  /** `compactMap` keeps `id` as many times as the enumeration lists it when it is listed, and never otherwise. */
  lemma {:induction false} CompactMapCountsAt(hal: Hal, ids: seq<DeviceId>, id: DeviceId)
    ensures multiset(IdsOf(CompactMap(hal, ids)))[id] == if Listed(hal, id) then multiset(ids)[id] else 0
  {
    if ids != [] {
      var rest := CompactMap(hal, ids[1..]);
      CompactMapCountsAt(hal, ids[1..], id);
      assert ids == [ids[0]] + ids[1..];
      assert multiset(ids) == multiset{ids[0]} + multiset(ids[1..]);
      match Describe(hal, ids[0])
      case Some(d) =>
        IdsOfCons(d, rest);
        assert multiset(IdsOf(CompactMap(hal, ids))) == multiset{ids[0]} + multiset(IdsOf(rest));
      case None =>
        assert !Listed(hal, ids[0]);
    }
  }

  /** `compactMap` keeps each listed id as many times as the enumeration lists it, and no other id. */
  lemma CompactMapCounts(hal: Hal, ids: seq<DeviceId>)
    ensures forall id :: multiset(IdsOf(CompactMap(hal, ids)))[id] == if Listed(hal, id) then multiset(ids)[id] else 0
  {
    forall id {
      CompactMapCountsAt(hal, ids, id);
    }
  }

  /** `allOutputDevices`: empty when the device list cannot be read. */
  function AllOutputDevices(hal: Hal): (r: seq<AudioDevice>)
    ensures EnumeratedIds(hal).None? ==> r == []
  {
    match EnumeratedIds(hal)
    case None => []
    case Some(ids) => CompactMap(hal, ids)
  }

  /**
   * The result of `allOutputDevices` is, in enumeration order, exactly the
   * read ids that have output streams, a UID and a name.
   */
  lemma AllOutputDevicesSpec(hal: Hal)
    ensures hal.deviceListBytes.None? || !hal.deviceListReadable ==> AllOutputDevices(hal) == []
    ensures EnumeratedIds(hal).Some? ==>
      var ids := EnumeratedIds(hal).value;
      var r := AllOutputDevices(hal);
      && (forall d :: d in r ==>
            d.id in ids && Listed(hal, d.id) && DeviceUID(hal, d.id) == Some(d.uid) && DeviceName(hal, d.id) == Some(d.name))
      && (forall id :: id in ids && Listed(hal, id) ==> exists d :: d in r && d.id == id)
      && (forall id :: multiset(IdsOf(r))[id] == if Listed(hal, id) then multiset(ids)[id] else 0)
      && IsSubsequence(IdsOf(r), ids)
  {
    if EnumeratedIds(hal).Some? {
      CompactMapKeepsListed(hal, EnumeratedIds(hal).value);
      CompactMapCounts(hal, EnumeratedIds(hal).value);
    }
  }

  // ---- search and filter -------------------------------------------------

  /** `k` is the first position of `devices` whose name contains `pattern`. */
  ghost predicate FirstMatchAt(devices: seq<AudioDevice>, pattern: string, k: int)
  {
    && 0 <= k < |devices|
    && Contains(devices[k].name, pattern)
    && forall j :: 0 <= j < k ==> !Contains(devices[j].name, pattern)
  }

  /** `first(where:)` on the name predicate, as a position. */
  function FirstMatchIndex(devices: seq<AudioDevice>, pattern: string): (r: Option<nat>)
    ensures r.Some? ==> FirstMatchAt(devices, pattern, r.value)
    ensures r.None? ==> forall j :: 0 <= j < |devices| ==> !Contains(devices[j].name, pattern)
  {
    if devices == [] then None
    else if Contains(devices[0].name, pattern) then Some(0)
    else match FirstMatchIndex(devices[1..], pattern)
      case None => None
      case Some(k) => Some(k + 1)
  }

  /** `findDevice(named:)`: the first output device whose name contains `name`, or none. */
  function FindDevice(hal: Hal, name: string): (r: Option<AudioDevice>)
    ensures var all := AllOutputDevices(hal);
      && (r.None? <==> forall d :: d in all ==> !Contains(d.name, name))
      && (r.Some? ==> exists k :: FirstMatchAt(all, name, k) && all[k] == r.value)
  {
    var all := AllOutputDevices(hal);
    match FirstMatchIndex(all, name)
    case None => None
    case Some(k) => Some(all[k])
  }

  /** The filter of `fixedVolumeOutputDevices`. */
  predicate FixedVolumeCandidate(hal: Hal, d: AudioDevice)
  {
    !Contains(d.name, "BlackHole") && d.uid != Engine.ReservedAggregateUID && !VolumeControlPresent(hal, d.id)
  }

  /** `filter` with `FixedVolumeCandidate`. */
  function KeepFixedVolume(hal: Hal, devices: seq<AudioDevice>): (r: seq<AudioDevice>)
    ensures forall d :: d in r <==> d in devices && FixedVolumeCandidate(hal, d)
    ensures forall d :: multiset(r)[d] == if FixedVolumeCandidate(hal, d) then multiset(devices)[d] else 0
    ensures IsSubsequence(r, devices)
  {
    if devices == [] then []
    else
      var rest := KeepFixedVolume(hal, devices[1..]);
      assert devices == [devices[0]] + devices[1..];
      assert forall d :: d in devices <==> d == devices[0] || d in devices[1..];
      if FixedVolumeCandidate(hal, devices[0]) then
        assert ([devices[0]] + rest)[1..] == rest;
        [devices[0]] + rest
      else
        rest
  }

  /**
   * `fixedVolumeOutputDevices`: the output devices, in order, other than
   * BlackHole, the program's own aggregate and devices with a volume control.
   */
  function FixedVolumeOutputDevices(hal: Hal): (r: seq<AudioDevice>)
    ensures IsSubsequence(r, AllOutputDevices(hal))
    ensures forall d :: d in r ==>
      && d in AllOutputDevices(hal)
      && !Contains(d.name, "BlackHole")
      && d.uid != Engine.ReservedAggregateUID
      && !VolumeControlPresent(hal, d.id)
    ensures forall d :: d in AllOutputDevices(hal) && FixedVolumeCandidate(hal, d) ==> d in r
    ensures forall d :: multiset(r)[d] == if FixedVolumeCandidate(hal, d) then multiset(AllOutputDevices(hal))[d] else 0
  {
    KeepFixedVolume(hal, AllOutputDevices(hal))
  }

  // ---- the manager object ------------------------------------------------

  class DeviceManager {
    const host: Host
    var listenerRegistered: bool

    /** `init` registers the device-list listener once. */
    constructor (host: Host)
      ensures this.host == host && listenerRegistered
    {
      this.host := host;
      listenerRegistered := true;
    }

    /** `hasVolumeControl`: probes elements 0 and 1 in turn and stops at the first hit. */
    method HasVolumeControl(id: DeviceId) returns (has: bool)
      ensures has <==> VolumeControlPresent(host.hal, id)
    {
      var elements: seq<nat> := [0, 1];
      for i := 0 to |elements|
        invariant forall j :: 0 <= j < i ==> !HasVolumeScalar(host.hal, id, elements[j])
      {
        if HasVolumeScalar(host.hal, id, elements[i]) {
          return true;
        }
      }
      assert elements[0] == 0 && elements[1] == 1;
      return false;
    }

    /** `defaultOutputDeviceID`: none when the query fails. */
    method DefaultOutputDeviceID(status: OSStatus) returns (id: Option<DeviceId>)
      ensures id.Some? <==> status == NoErr
      ensures id.Some? ==> id.value == host.defaultOutput
    {
      if status != NoErr {
        return None;
      }
      return Some(host.defaultOutput);
    }

    /** `setDefaultOutput`: true exactly when the system accepts. */
    method SetDefaultOutput(id: DeviceId, status: OSStatus) returns (ok: bool)
      modifies host`defaultOutput, host`trace
      ensures ok <==> status == NoErr
      ensures host.defaultOutput == if ok then id else old(host.defaultOutput)
      ensures host.trace == old(host.trace) + [DefaultOutputSet(id, ok)]
    {
      ok := status == NoErr;
      if ok {
        host.defaultOutput := id;
      }
      host.trace := host.trace + [DefaultOutputSet(id, ok)];
    }

    /** `defaultSystemOutputDeviceID`: none when the query fails. */
    method DefaultSystemOutputDeviceID(status: OSStatus) returns (id: Option<DeviceId>)
      ensures id.Some? <==> status == NoErr
      ensures id.Some? ==> id.value == host.defaultSystemOutput
    {
      if status != NoErr {
        return None;
      }
      return Some(host.defaultSystemOutput);
    }

    /** `setDefaultSystemOutput`: true exactly when the system accepts. */
    method SetDefaultSystemOutput(id: DeviceId, status: OSStatus) returns (ok: bool)
      modifies host`defaultSystemOutput, host`trace
      ensures ok <==> status == NoErr
      ensures host.defaultSystemOutput == if ok then id else old(host.defaultSystemOutput)
      ensures host.trace == old(host.trace) + [DefaultSystemOutputSet(id, ok)]
    {
      ok := status == NoErr;
      if ok {
        host.defaultSystemOutput := id;
      }
      host.trace := host.trace + [DefaultSystemOutputSet(id, ok)];
    }
  }
}
