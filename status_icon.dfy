/**
 * The menu-bar icon: `updateIcon` picks one of four SF Symbols from the
 * volume and the mute flag.
 */
module StatusIcon {

  datatype Symbol = SpeakerSlash | Wave1 | Wave2 | Wave3

  /**
   * The SF Symbol name: a filled speaker, slashed when silent, otherwise
   * with its number of waves.
   */
  function SymbolName(s: Symbol): (n: string)
    ensures |n| > 13 && n[..8] == "speaker." && n[|n| - 5..] == ".fill"
    ensures s == SpeakerSlash ==> n[8..13] == "slash"
    ensures s != SpeakerSlash ==> n[8..13] == "wave." && n[13] as int - '0' as int == Waves(s)
  {
    match s
    case SpeakerSlash => "speaker.slash.fill"
    case Wave1 => "speaker.wave.1.fill"
    case Wave2 => "speaker.wave.2.fill"
    case Wave3 => "speaker.wave.3.fill"
  }

  /** Distinct symbols have distinct names, so the name identifies the choice. */
  lemma SymbolNamesDistinct(a: Symbol, b: Symbol)
    ensures SymbolName(a) == SymbolName(b) ==> a == b
  {
  }

  /** The number of sound waves a symbol shows. */
  function Waves(s: Symbol): nat
  {
    match s
    case SpeakerSlash => 0
    case Wave1 => 1
    case Wave2 => 2
    case Wave3 => 3
  }

  const LowThreshold: real := 0.33
  const HighThreshold: real := 0.66

  /** The symbol `updateIcon(volume:muted:)` shows. */
  function IconFor(volume: real, muted: bool): (s: Symbol)
    ensures s == SpeakerSlash <==> muted || volume == 0.0
    ensures s == Wave1 <==> !muted && volume != 0.0 && volume < LowThreshold
    ensures s == Wave2 <==> !muted && LowThreshold <= volume < HighThreshold
    ensures s == Wave3 <==> !muted && volume >= HighThreshold
  {
    if muted || volume == 0.0 then SpeakerSlash
    else if volume < LowThreshold then Wave1
    else if volume < HighThreshold then Wave2
    else Wave3
  }

  /** Unmuted, a louder volume never shows fewer waves. */
  lemma IconMonotone(v1: real, v2: real)
    requires 0.0 < v1 <= v2
    ensures Waves(IconFor(v1, false)) <= Waves(IconFor(v2, false))
  {
  }

  /** `setup` draws the icon for full volume, unmuted. */
  function SetupIcon(): (s: Symbol)
    ensures s == Wave3 && SymbolName(s) == "speaker.wave.3.fill"
  {
    IconFor(1.0, false)
  }
}
