/**
  The Redis client (src/utils/connectRedis.ts connects it; the core uses
  get, set with EX/NX, setEx and del). One key space holds both sessions
  (keyed by user id) and cached collections (keyed by collection id). A key
  whose expiry time has passed reads as absent; `now` is in seconds.
 */
module Redis {
  import opened Wrappers
  import opened Models

  datatype Entry = Entry(value: Stored, expiresAt: Option<int>)

  type Entries = map<string, Entry>

  /** GET: the value under `key`, if there is one that has not expired. */
  function Get(entries: Entries, key: string, now: int): (r: Option<Stored>)
    ensures r.Some? <==> key in entries && (entries[key].expiresAt.None? || now < entries[key].expiresAt.value)
    ensures r.Some? ==> r.value == entries[key].value
  {
    if key in entries && (entries[key].expiresAt.None? || now < entries[key].expiresAt.value)
    then Some(entries[key].value)
    else None
  }

  /** SETEX key seconds value: overwrites whatever was there. */
  function WithSetEx(entries: Entries, key: string, seconds: nat, value: Stored, now: int): Entries {
    entries[key := Entry(value, Some(now + seconds))]
  }

  /** SET key value EX seconds NX: writes only when the key is absent. */
  function WithSetNx(entries: Entries, key: string, seconds: nat, value: Stored, now: int): Entries {
    if Get(entries, key, now).Some? then entries else WithSetEx(entries, key, seconds, value, now)
  }

  /** DEL key */
  function WithoutKey(entries: Entries, key: string): Entries {
    entries - {key}
  }

  /** After SETEX the key reads back its value until the lifetime ends, and no other key changes. */
  lemma GetAfterSetEx(entries: Entries, key: string, seconds: nat, value: Stored, now: int, other: string, t: int)
    ensures Get(WithSetEx(entries, key, seconds, value, now), key, t) == (if t < now + seconds then Some(value) else None)
    ensures other != key ==> Get(WithSetEx(entries, key, seconds, value, now), other, t) == Get(entries, other, t)
  {
  }

  /** The last SETEX on a key wins. */
  lemma SetExLastWriteWins(entries: Entries, key: string, seconds: nat, v1: Stored, t1: int, v2: Stored, t2: int)
    ensures WithSetEx(WithSetEx(entries, key, seconds, v1, t1), key, seconds, v2, t2)
         == WithSetEx(entries, key, seconds, v2, t2)
  {
  }

  /** SET ... NX never replaces a live value; on an absent key it is SETEX. */
  lemma SetNxKeepsLiveValue(entries: Entries, key: string, seconds: nat, value: Stored, now: int)
    ensures Get(entries, key, now).Some? ==> WithSetNx(entries, key, seconds, value, now) == entries
    ensures Get(entries, key, now).None? ==>
      Get(WithSetNx(entries, key, seconds, value, now), key, now) == (if seconds > 0 then Some(value) else None)
  {
  }

  /** After DEL the key reads as absent at every time, other keys are untouched, and a second DEL changes nothing. */
  lemma DelRemoves(entries: Entries, key: string, other: string, t: int)
    ensures Get(WithoutKey(entries, key), key, t).None?
    ensures other != key ==> Get(WithoutKey(entries, key), other, t) == Get(entries, other, t)
    ensures WithoutKey(WithoutKey(entries, key), key) == WithoutKey(entries, key)
  {
  }

  class RedisClient {
    var entries: Entries

    constructor ()
      ensures entries == map[]
    {
      entries := map[];
    }

    method GetValue(key: string, now: int) returns (r: Option<Stored>)
      ensures r == Get(entries, key, now)
    {
      r := Get(entries, key, now);
    }

    method SetEx(key: string, seconds: nat, value: Stored, now: int)
      modifies this
      ensures entries == WithSetEx(old(entries), key, seconds, value, now)
    {
      entries := entries[key := Entry(value, Some(now + seconds))];
    }

    /** SET key value EX seconds NX; reports whether it wrote. */
    method SetNx(key: string, seconds: nat, value: Stored, now: int) returns (written: bool)
      modifies this
      ensures written <==> Get(old(entries), key, now).None?
      ensures entries == WithSetNx(old(entries), key, seconds, value, now)
    {
      var current := GetValue(key, now);
      written := current.None?;
      if written {
        SetEx(key, seconds, value, now);
      }
    }

    method Del(key: string)
      modifies this
      ensures entries == WithoutKey(old(entries), key)
    {
      entries := entries - {key};
    }
  }
}
