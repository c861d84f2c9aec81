/** What the rate limiter and the lock assume of the Redis server that they share. */
module RedisModel {

  /** Whether a command reached the server and its reply came back. */
  datatype Fate = Answered | Unreachable | ReplyLost

  /** The keys at the server, live and expired; an expired key counts as absent. */
  class RedisServer<V> {
    var entries: map<string, V>

    constructor ()
      ensures entries == map[]
    {
      entries := map[];
    }
  }
}
