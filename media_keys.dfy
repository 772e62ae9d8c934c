/**
 * Media-key interception: an event tap sees every system-defined event;
 * `HandleEvent` decodes the media-key ones and decides whether the event
 * goes on to the rest of the system and which callback fires.
 */
module MediaKeys {
  import opened CoreAudio

  /** `MediaKey` and its raw values (`Int` in the source, as a 64-bit pattern here). */
  datatype MediaKey = SoundUp | SoundDown | Mute

  /** `rawValue`: the key code the system reports for `key`. */
  function RawValue(key: MediaKey): (code: bv64)
    ensures code < 8
    ensures KeyFromRawValue(code) == Some(key)
  {
    match key
    case SoundUp => 0
    case SoundDown => 1
    case Mute => 7
  }

  /** `MediaKey(rawValue:)` */
  function KeyFromRawValue(code: bv64): (key: Option<MediaKey>)
    ensures key.Some? <==> code == 0 || code == 1 || code == 7
  {
    if code == 0 then Some(SoundUp)
    else if code == 1 then Some(SoundDown)
    else if code == 7 then Some(Mute)
    else None
  }

  /** `MediaKey(rawValue:)` yields a key only from that key's own raw value. */
  lemma RawValueRoundTrip(key: MediaKey, code: bv64)
    ensures KeyFromRawValue(code) == Some(key) ==> code == RawValue(key)
  {
  }

  /** `CGEventType` of system-defined events (`NX_SYSDEFINED`). */
  const SystemDefinedType: int := 14
  /** The `NSEvent` subtype of auxiliary control buttons, which carries media keys. */
  const MediaKeySubtype: int := 8

  /** The fields of the `NSEvent` built from a tapped event. */
  datatype NSEventFields = NSEventFields(subtype: int, data1: bv64)

  /** A tapped `CGEvent`: its type, and its `NSEvent` view when `NSEvent(cgEvent:)` succeeds. */
  datatype TapEvent = TapEvent(eventType: int, nsEvent: Option<NSEventFields>)

  /** `(data1 & 0xFFFF0000) >> 16` */
  function KeyCode(data1: bv64): (code: bv64)
    ensures code < 0x1_0000
  {
    (data1 & 0xFFFF_0000) >> 16
  }

  /** `data1 & 0x0000FFFF` */
  function KeyFlags(data1: bv64): (flags: bv64)
    ensures flags < 0x1_0000
  {
    data1 & 0xFFFF
  }

  /** `(flags & 0x0A00) == 0x0A00`: key-down, which needs both bit 0x0800 and bit 0x0200. */
  function IsKeyDown(flags: bv64): (down: bool)
    ensures down <==> flags & 0x0800 != 0 && flags & 0x0200 != 0
  {
    flags & 0x0A00 == 0x0A00
  }

  /** The `data1` word the system builds from a key code and its flags. */
  function Data1(code: bv64, flags: bv64): bv64
  {
    (code << 16) | flags
  }

  /** Decoding a `data1` word recovers the key code and flags it was built from. */
  lemma DecodeData1(code: bv64, flags: bv64)
    requires code < 0x1_0000 && flags < 0x1_0000
    ensures KeyCode(Data1(code, flags)) == code && KeyFlags(Data1(code, flags)) == flags
  {
  }

  /** The decoded pair determines the low 32 bits of `data1`; the rest is ignored. */
  lemma EncodeDecodedData1(data1: bv64)
    ensures Data1(KeyCode(data1), KeyFlags(data1)) == data1 & 0xFFFF_FFFF
  {
  }

  /** Whether the tap hands the event on (`passUnretained(event)`) or swallows it (`nil`). */
  datatype Disposition = PassThrough | Swallow

  /** What `handleEvent` does: the event's fate and the callback it fires, if any. */
  datatype Handling = Handling(disposition: Disposition, fired: Option<MediaKey>)

  /** The media-key event this is, when it is one: a system-defined event of the media-key subtype. */
  function MediaKeyData(e: TapEvent): Option<bv64>
  {
    if e.eventType != SystemDefinedType then None
    else match e.nsEvent
      case None => None
      case Some(ns) => if ns.subtype != MediaKeySubtype then None else Some(ns.data1)
  }

  /** `handleEvent` */
  function HandleEvent(e: TapEvent): (h: Handling)
    ensures e.eventType != SystemDefinedType ==> h == Handling(PassThrough, None)
    ensures e.nsEvent.None? || e.nsEvent.value.subtype != MediaKeySubtype ==> h == Handling(PassThrough, None)
    ensures MediaKeyData(e).Some? && KeyFromRawValue(KeyCode(MediaKeyData(e).value)).None? ==>
      h == Handling(PassThrough, None)
    ensures h.disposition == Swallow <==>
      MediaKeyData(e).Some? && KeyFromRawValue(KeyCode(MediaKeyData(e).value)).Some?
    ensures h.disposition == PassThrough ==> h.fired.None?
    ensures forall key :: h.fired == Some(key) <==>
      && MediaKeyData(e).Some?
      && KeyCode(MediaKeyData(e).value) == RawValue(key)
      && IsKeyDown(KeyFlags(MediaKeyData(e).value))
  {
    if e.eventType != SystemDefinedType then Handling(PassThrough, None)
    else if e.nsEvent.None? || e.nsEvent.value.subtype != MediaKeySubtype then Handling(PassThrough, None)
    else
      var data1 := e.nsEvent.value.data1;
      var keyCode := KeyCode(data1);
      var flags := KeyFlags(data1);
      match KeyFromRawValue(keyCode)
      case None => Handling(PassThrough, None)
      case Some(key) =>
        if !IsKeyDown(flags) then Handling(Swallow, None)
        else Handling(Swallow, Some(key))
  }

  /**
   * The interceptor's resources: the event tap, its run-loop source, and the
   * health-check timer. `tapEnabled` is the tap's enabled flag.
   */
  class MediaKeyInterceptor {
    var hasEventTap: bool
    var tapEnabled: bool
    var hasRunLoopSource: bool
    var hasHealthTimer: bool

    constructor ()
      ensures !hasEventTap && !tapEnabled && !hasRunLoopSource && !hasHealthTimer
    {
      hasEventTap, tapEnabled, hasRunLoopSource, hasHealthTimer := false, false, false, false;
    }

    /** `start`: without a tap (no Input Monitoring permission) nothing is installed. */
    method Start(tapCreated: bool)
      modifies this
      ensures tapCreated ==> hasEventTap && tapEnabled && hasRunLoopSource && hasHealthTimer
      ensures !tapCreated ==>
        && hasEventTap == old(hasEventTap) && tapEnabled == old(tapEnabled)
        && hasRunLoopSource == old(hasRunLoopSource) && hasHealthTimer == old(hasHealthTimer)
    {
      if !tapCreated {
        return;
      }
      hasEventTap := true;
      hasRunLoopSource := true;
      tapEnabled := true;
      hasHealthTimer := true;
    }

    /** `stop`: invalidates the timer, removes the source, disables and drops the tap. */
    method Stop()
      modifies this
      ensures !hasEventTap && !hasRunLoopSource && !hasHealthTimer
      ensures tapEnabled == (old(tapEnabled) && !old(hasEventTap))
    {
      hasHealthTimer := false;
      if hasRunLoopSource {
        hasRunLoopSource := false;
      }
      if hasEventTap {
        tapEnabled := false;
        hasEventTap := false;
      }
    }
  }
}
