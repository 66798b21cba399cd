/**
  `server.py`: the registry of assistants, one per browser session, and
  the socket and page handlers that add and remove entries. The lock,
  Flask and Socket.IO are left to the host: a handler is a function from
  the registry before to the registry after, plus the status it emits.
*/
module Server {
  import opened Wrappers
  import Constants
  import opened VoiceAssistant

  /** The `assistants` dict: session id to assistant. */
  type Registry = map<string, Assistant>

  /** The payload of a `status` event. */
  datatype Status = Status(state: string, message: string)

  /** `cleanup_session`: a present session has its assistant cleaned up and
      its entry deleted; an absent one is left alone. The cleaned-up
      assistant is returned with the registry, since it is no longer
      reachable from it. */
  function CleanupSession(registry: Registry, sessionId: string): (r: (Registry, Option<Assistant>))
    ensures sessionId !in r.0
    ensures r.0.Keys == registry.Keys - {sessionId}
    ensures forall s :: s in r.0 ==> r.0[s] == registry[s]
    ensures sessionId in registry <==> r.1.Some?
    ensures sessionId in registry ==> r.1 == Some(Cleanup(registry[sessionId])) && !IsActive(r.1.value)
  {
    if sessionId in registry then (registry - {sessionId}, Some(Cleanup(registry[sessionId])))
    else (registry, None)
  }

  /** An absent session leaves the registry as it is. */
  lemma CleanupAbsent(registry: Registry, sessionId: string)
    requires sessionId !in registry
    ensures CleanupSession(registry, sessionId).0 == registry
  {
  }

  /** A second cleanup of the same session is a no-op. */
  lemma CleanupIdempotent(registry: Registry, sessionId: string)
    ensures var once := CleanupSession(registry, sessionId).0;
      CleanupSession(once, sessionId).0 == once
  {
  }

  /** Cleaning up two sessions gives the same registry in either order. */
  lemma CleanupCommutes(registry: Registry, a: string, b: string)
    ensures CleanupSession(CleanupSession(registry, a).0, b).0 == CleanupSession(CleanupSession(registry, b).0, a).0
  {
  }

  /** `handle_connect`: any old assistant of the session is cleaned up and
      replaced by a fresh one. */
  function HandleConnect(registry: Registry, sessionId: string): (r: Registry)
    ensures sessionId in r && r[sessionId] == NewAssistant()
    ensures r.Keys == registry.Keys + {sessionId}
    ensures forall s :: s in registry && s != sessionId ==> r[s] == registry[s]
  {
    CleanupSession(registry, sessionId).0[sessionId := NewAssistant()]
  }

  /** `handle_disconnect` */
  function HandleDisconnect(registry: Registry, sessionId: string): (r: Registry)
    ensures r == CleanupSession(registry, sessionId).0
    ensures sessionId !in r
  {
    CleanupSession(registry, sessionId).0
  }

  /** `handle_stop_listening`: the session's entry is removed and the
      client is told the assistant is idle. */
  function HandleStopListening(registry: Registry, sessionId: string): (r: (Registry, Status))
    ensures sessionId !in r.0 && r.0 == CleanupSession(registry, sessionId).0
    ensures r.1 == Status("idle", Constants.IdleMessage)
  {
    (CleanupSession(registry, sessionId).0, Status("idle", "Click to start"))
  }

  /** A connect followed by a disconnect leaves the other sessions as they
      were and the session itself gone. */
  lemma ConnectThenDisconnect(registry: Registry, sessionId: string)
    ensures HandleDisconnect(HandleConnect(registry, sessionId), sessionId) == CleanupSession(registry, sessionId).0
  {
  }

  /** The `index` route: every session is cleaned up, one at a time, in the
      order of `list(assistants.keys())`, here any order. The page itself
      is static. */
  method Index(registry: Registry) returns (r: Registry)
    ensures r == map[]
  {
    r := registry;
    var pending := registry.Keys;
    while pending != {}
      invariant r.Keys == pending
      decreases |pending|
    {
      var sessionId :| sessionId in pending;
      r := CleanupSession(r, sessionId).0;
      pending := pending - {sessionId};
    }
  }
}
