/** The GeckoView media session, seen from the audio-focus delegate: an external object
    that the delegate never owns. Its liveness may change between any two calls into the
    delegate (the session is deactivated, or its weak reference is cleared by the
    collector); the delegate only ever asks whether it is still active. */
module GeckoMedia {

  class MediaSession {
    var isActive: bool

    constructor (active: bool)
      ensures isActive == active
    {
      isActive := active;
    }
  }
}
