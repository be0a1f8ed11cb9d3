/** The Redis-backed cache of src/services/redis/CacheService.js, with the
    client's key space as a map from key to value and expiry.

    The connection is not modelled beyond one flag fixed when the service is
    built: a service whose client is not connected fails every command with
    `Unavailable`, the way a closed Redis client rejects commands. Expiry is
    recorded but the clock that would evict a key is not modelled. */
module Cache {

  import opened Common

  /** The expiry `set` uses when its caller gives none. */
  const DefaultExpirationInSecond: nat := 1800

  datatype CacheEntry = CacheEntry(value: string, expirationInSecond: nat)

  /** A failed command: the service's own missing-key error, a client that
      is not connected, or the server's refusal of a command. */
  datatype CacheError =
    | KeyNotFound(message: string)
    | Unavailable
    | Rejected(message: string)

  /** What the server answers to `SET ... EX n` when `n` is not positive. */
  const InvalidExpireTime := "ERR invalid expire time in 'set' command"

  function NotFoundMessage(key: string): string {
    "Cache key \"" + key + "\" not found"
  }

  class CacheService {
    var entries: map<string, CacheEntry>
    const connected: bool

    constructor (connected: bool)
      ensures this.connected == connected && entries == map[]
    {
      this.connected := connected;
      entries := map[];
    }

    /** `SET key value EX expirationInSecond`: the server refuses an expiry
        that is not positive and then stores nothing. */
    method Set(key: string, value: string, expirationInSecond: int := DefaultExpirationInSecond)
      returns (r: Outcome<CacheError>)
      modifies this
      ensures !connected ==> r == Fail(Unavailable)
      ensures connected && expirationInSecond <= 0 ==> r == Fail(Rejected(InvalidExpireTime))
      ensures r == Pass <==> connected && expirationInSecond > 0
      ensures r == Pass ==> entries == old(entries)[key := CacheEntry(value, expirationInSecond as nat)]
      ensures r != Pass ==> entries == old(entries)
    {
      if !connected {
        return Fail(Unavailable);
      }
      if expirationInSecond <= 0 {
        return Fail(Rejected(InvalidExpireTime));
      }
      entries := entries[key := CacheEntry(value, expirationInSecond as nat)];
      return Pass;
    }

    /** `GET key`, turning the client's null for a missing key into an error. */
    method Get(key: string) returns (r: Result<string, CacheError>)
      ensures !connected ==> r == Failure(Unavailable)
      ensures connected && key !in entries ==> r == Failure(KeyNotFound(NotFoundMessage(key)))
      ensures connected && key in entries ==> r == Success(entries[key].value)
    {
      if !connected {
        return Failure(Unavailable);
      }
      var result: Option<string> := if key in entries then Some(entries[key].value) else None;
      if result == None {
        return Failure(KeyNotFound(NotFoundMessage(key)));
      }
      return Success(result.value);
    }

    /** `DEL key`, answering how many keys it removed. */
    method Delete(key: string) returns (r: Result<nat, CacheError>)
      modifies this
      ensures !connected ==> r == Failure(Unavailable) && entries == old(entries)
      ensures connected ==> r == Success(if key in old(entries) then 1 else 0)
      ensures connected ==> entries == old(entries) - {key}
    {
      if !connected {
        return Failure(Unavailable);
      }
      r := Success(if key in entries then 1 else 0);
      entries := entries - {key};
    }
  }

  /** On a connected cache: `get` after `set(k, v)` gives `v`, `get` after
      `delete(k)` fails, and every other key reads as before. */
  method SetGetDelete(key: string, other: string, value: string)
    returns (afterSet: Result<string, CacheError>, afterDelete: Result<string, CacheError>,
             otherBefore: Result<string, CacheError>, otherAfter: Result<string, CacheError>)
    requires key != other
    ensures afterSet == Success(value)
    ensures afterDelete == Failure(KeyNotFound(NotFoundMessage(key)))
    ensures otherBefore == otherAfter
  {
    var cache := new CacheService(true);
    var ok := cache.Set(other, "x");
    ok := cache.Set(key, value);
    assert cache.entries[key] == CacheEntry(value, DefaultExpirationInSecond);
    afterSet := cache.Get(key);
    otherBefore := cache.Get(other);
    var removed := cache.Delete(key);
    afterDelete := cache.Get(key);
    otherAfter := cache.Get(other);
  }
}
