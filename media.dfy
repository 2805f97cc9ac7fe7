/**
 * The browser's audio element as the players use it: a mutable handle
 * created per track, which the controller plays, pauses, rewinds, and
 * subscribes to or unsubscribes from.
 */
module Media {
  /** The events the players listen to on a handle. */
  datatype AudioEvent = TimeUpdate | LoadedMetadata | Ended | Error

  /** The readable state of a handle, for stating what an operation changed. */
  datatype AudioState = AudioState(
    paused: bool, volume: nat, muted: bool, currentTime: nat, duration: nat,
    listeners: set<AudioEvent>)

  class AudioElement {
    const src: string
    var paused: bool
    var volume: nat                    // percent
    var muted: bool
    var currentTime: nat               // whole seconds
    var duration: nat                  // whole seconds; 0 until the metadata is known
    var listeners: set<AudioEvent>

    /** `new Audio(src)`: paused at the start, full volume, no listeners. */
    constructor (src: string)
      ensures this.src == src
      ensures State() == AudioState(true, 100, false, 0, 0, {})
    {
      this.src := src;
      paused, volume, muted := true, 100, false;
      currentTime, duration := 0, 0;
      listeners := {};
    }

    ghost function State(): AudioState
      reads this
    {
      AudioState(paused, volume, muted, currentTime, duration, listeners)
    }
  }
}
