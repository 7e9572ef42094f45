/** The intents the engine consumes and the cache it edits. */
module Types {
  import opened Resources

  /** Routing conditions of an intent. `path` and `regex` are read by the
      v3 attribute resolver. */
  datatype Conditions = Conditions(hostname: string, prefix: string, path: string, regex: string)

  datatype ListenerParams = ListenerParams(
    name: string,
    protocol: string,
    targetHostname: string,
    conditions: Conditions)

  /** TLS material for a listener; an empty `certBundle` means plaintext. */
  datatype TLSParams = TLSParams(name: string, certBundle: string, privateKey: string)

  /** An ACME HTTP-01 challenge to serve. */
  datatype ChallengeParams = ChallengeParams(
    name: string,
    domain: string,
    uri: string,
    token: string,
    body: string,
    authzUri: string)

  /** The work-queue cache: the listener resources in order, and the
      version the snapshot publisher uses. */
  class WorkQueueCache {
    var listeners: seq<Listener>
    var version: int

    /** The zero value of the Go struct. */
    constructor ()
      ensures listeners == [] && version == 0
    {
      listeners := [];
      version := 0;
    }
  }
}
