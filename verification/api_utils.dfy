/**
 * The client helpers of `client/Nuxt/app/composables/api/core/utils.js`:
 * the error-message picker `handleApiError`, the response normaliser
 * `normalizeApiResponse` and the TTL cache `CacheManager`. A JavaScript
 * value is a `Value`; an object is a `VArray` of its properties in order,
 * and a missing property is `undefined`. `Date.now()` is the parameter `now`.
 */
module ApiUtils {
  import opened Common

  // ---------------------------------------------------------------------------
  // JavaScript values
  // ---------------------------------------------------------------------------

  /** JavaScript truthiness: `null`, `false`, `0` and `""` are falsy, every object is truthy. */
  predicate Truthy(v: Value) {
    match v
    case VNull => false
    case VBool(b) => b
    case VInt(i) => i != 0
    case VStr(s) => s != ""
    case VArray(_) => true
  }

  /** `obj[k]`: the last assignment of `k` wins, as in an object literal or `JSON.parse`. */
  function Prop(obj: seq<(string, Value)>, k: string): Option<Value> {
    LastValue(obj, k)
  }

  /** `a || b` on a property that may be `undefined`. */
  function OrElse(a: Option<Value>, b: Value): (r: Value)
    ensures a.Some? && Truthy(a.value) ==> r == a.value
    ensures (a.None? || !Truthy(a.value)) ==> r == b
  {
    if a.Some? && Truthy(a.value) then a.value else b
  }

  /** A thrown `Error`: its `name`, its `message` and its `cause` (null when none). */
  datatype JsError = JsError(name: string, message: string, cause: Value)

  /** The test both `handleApiError` and the retry delay apply: a timeout or a failed fetch. */
  function IsNetworkError(e: JsError): (r: bool)
    ensures e.name == "AbortError" ==> r
    ensures r ==> e.name == "AbortError" || Contains(e.message, "Failed to fetch")
  {
    e.name == "AbortError" || Contains(e.message, "Failed to fetch")
  }

  /** `Failed to fetch` anywhere in the message marks a network error, whatever the error's name. */
  lemma FailedFetchIsNetworkError(e: JsError, i: nat)
    requires i + 15 <= |e.message| && e.message[i..i + 15] == "Failed to fetch"
    ensures IsNetworkError(e)
  {
    ContainsWithin(e.message, "Failed to fetch", i);
  }

  // ---------------------------------------------------------------------------
  // handleApiError
  // ---------------------------------------------------------------------------

  const TimeoutMessage: string := "请求超时，请检查网络连接"
  const NetworkMessage: string := "网络连接失败，请检查网络设置"
  const UnknownMessage: string := "未知错误"

  /**
   * `handleApiError(error, defaultMessage)`: a timeout first, then a failed
   * fetch, then the first non-empty of the caller's message and the error's
   * own message, else the unknown-error text. `None` is an omitted message.
   */
  function HandleApiError(error: JsError, defaultMessage: Option<string>): (r: string)
    ensures r != ""
    ensures error.name == "AbortError" ==> r == TimeoutMessage
    ensures error.name != "AbortError" && Contains(error.message, "Failed to fetch") ==> r == NetworkMessage
    ensures !IsNetworkError(error) && defaultMessage.Some? && defaultMessage.value != "" ==>
              r == defaultMessage.value
    ensures !IsNetworkError(error) && (defaultMessage.None? || defaultMessage.value == "") ==>
              r == if error.message != "" then error.message else UnknownMessage
  {
    if error.name == "AbortError" then TimeoutMessage
    else if Contains(error.message, "Failed to fetch") then NetworkMessage
    else if defaultMessage.Some? && defaultMessage.value != "" then defaultMessage.value
    else if error.message != "" then error.message
    else UnknownMessage
  }

  /** A caller's message never hides a timeout or a failed fetch. */
  lemma NetworkErrorsIgnoreDefault(error: JsError, m1: Option<string>, m2: Option<string>)
    requires IsNetworkError(error)
    ensures HandleApiError(error, m1) == HandleApiError(error, m2)
    ensures HandleApiError(error, m1) in {TimeoutMessage, NetworkMessage}
  {
  }

  // ---------------------------------------------------------------------------
  // normalizeApiResponse
  // ---------------------------------------------------------------------------

  const NoResponseMessage: string := "服务器无响应"

  /**
   * `{ success: r.success ?? false, message: r.message || r.error || null, ...r }`.
   * The spread assigns the response's properties in order over the two
   * defaults: a default's key keeps its slot, other keys follow.
   */
  function Normalized(response: seq<(string, Value)>): seq<(string, Value)> {
    var success := Prop(response, "success");
    var successDefault := if success.Some? && !success.value.VNull? then success.value else VBool(false);
    var messageDefault := OrElse(Prop(response, "message"), OrElse(Prop(response, "error"), VNull));
    PutAll([("success", successDefault), ("message", messageDefault)], response)
  }

  /** `normalizeApiResponse`: `None` is a missing (`null`/`undefined`) response. */
  function NormalizeApiResponse(response: Option<seq<(string, Value)>>): (r: seq<(string, Value)>)
    ensures response.None? ==> r == [("success", VBool(false)), ("message", VStr(NoResponseMessage))]
    ensures |r| >= 2 && KeysOf(r)[..2] == ["success", "message"]
    ensures DistinctKeys(r)
  {
    match response
    case None => [("success", VBool(false)), ("message", VStr(NoResponseMessage))]
    case Some(obj) =>
      NormalizedLeadingKeys(obj);
      Normalized(obj)
  }

  lemma NormalizedLeadingKeys(obj: seq<(string, Value)>)
    ensures |Normalized(obj)| >= 2 && KeysOf(Normalized(obj))[..2] == ["success", "message"]
    ensures DistinctKeys(Normalized(obj))
  {
    var success := Prop(obj, "success");
    var successDefault := if success.Some? && !success.value.VNull? then success.value else VBool(false);
    var messageDefault := OrElse(Prop(obj, "message"), OrElse(Prop(obj, "error"), VNull));
    var e := [("success", successDefault), ("message", messageDefault)];
    PutAllKeepsLeadingKeys(e, obj);
    assert KeysOf(e) == ["success", "message"];
  }

  /** Successive assignments never move or drop a key already present. */
  lemma {:induction false} PutAllKeepsLeadingKeys(e: seq<(string, Value)>, pairs: seq<(string, Value)>)
    ensures |PutAll(e, pairs)| >= |e| && KeysOf(PutAll(e, pairs))[..|e|] == KeysOf(e)
    decreases |pairs|
  {
    if |pairs| > 0 {
      var before := PutAll(e, pairs[..|pairs| - 1]);
      PutAllKeepsLeadingKeys(e, pairs[..|pairs| - 1]);
      var last := pairs[|pairs| - 1];
      var after := Put(before, last.0, last.1);
      assert PutAll(e, pairs) == after;
      if !HasKey(before, last.0) {
        assert KeysOf(after)[..|before|] == KeysOf(before);
        assert KeysOf(after)[..|e|] == KeysOf(before)[..|e|];
      }
    }
  }

  /**
   * Every property of the response survives with its own value, even a falsy
   * one; `success` falls back to `false` and `message` to the response's
   * truthy `error` (else null) only when the response lacks them.
   */
  lemma NormalizeLookup(obj: seq<(string, Value)>, k: string)
    ensures Lookup(NormalizeApiResponse(Some(obj)), k) ==
            if HasKey(obj, k) then Prop(obj, k)
            else if k == "success" then Some(VBool(false))
            else if k == "message" then Some(OrElse(Prop(obj, "error"), VNull))
            else None
  {
    var success := Prop(obj, "success");
    var successDefault := if success.Some? && !success.value.VNull? then success.value else VBool(false);
    var messageDefault := OrElse(Prop(obj, "message"), OrElse(Prop(obj, "error"), VNull));
    var e := [("success", successDefault), ("message", messageDefault)];
    PutAllLookup(e, obj, k);
    LookupConsAll(e[0], e[1..]);
    LookupConsAll(e[1], []);
  }

  /** An empty `message` is kept as it is: the response's `error` does not replace it. */
  lemma EmptyMessageIsKept(error: string)
    ensures Lookup(NormalizeApiResponse(Some([("message", VStr("")), ("error", VStr(error))])), "message") ==
            Some(VStr(""))
  {
    var obj := [("message", VStr("")), ("error", VStr(error))];
    assert HasKey(obj, "message") && Prop(obj, "message") == Some(VStr("")) by {
      LookupConsAll(obj[0], obj[1..]);
      assert LastValue(obj[..1], "message") == Some(VStr(""));
    }
    NormalizeLookup(obj, "message");
  }

  // ---------------------------------------------------------------------------
  // CacheManager
  // ---------------------------------------------------------------------------

  /** The default lifetime of a cache entry: five minutes in milliseconds. */
  const DefaultCacheDuration: int := 5 * 60 * 1000

  /** A cache entry: the value and the time after which it is stale. */
  datatype CacheEntry = CacheEntry(value: Value, expireTime: int)

  /** True when `key` holds an entry that has not expired at `now` (the expiry instant itself still counts). */
  predicate Fresh(cache: map<string, CacheEntry>, key: string, now: int) {
    key in cache && now <= cache[key].expireTime
  }

  /** What `get(key)` returns at `now`: the stored value while fresh, null otherwise. */
  function CachedValue(cache: map<string, CacheEntry>, key: string, now: int): (r: Value)
    ensures Fresh(cache, key, now) ==> r == cache[key].value
    ensures !Fresh(cache, key, now) ==> r == VNull
  {
    if Fresh(cache, key, now) then cache[key].value else VNull
  }

  /** What `get(key)` leaves behind at `now`: a stale entry for `key` is deleted, nothing else changes. */
  function Evicted(cache: map<string, CacheEntry>, key: string, now: int): (r: map<string, CacheEntry>)
    ensures key in cache && !Fresh(cache, key, now) ==> r == cache - {key}
    ensures Fresh(cache, key, now) || key !in cache ==> r == cache
  {
    if key in cache && now > cache[key].expireTime then cache - {key} else cache
  }

  /** `set(key, value, duration)` then `get(key)` at time `t`: the value until the expiry time, null after. */
  lemma SetThenGet(cache: map<string, CacheEntry>, key: string, value: Value, duration: int, now: int, t: int)
    ensures CachedValue(cache[key := CacheEntry(value, now + duration)], key, t) ==
            if t <= now + duration then value else VNull
  {
  }

  /** The eviction `get` performs changes no answer at that time or later. */
  lemma EvictionIsInvisible(cache: map<string, CacheEntry>, key: string, now: int, k: string, t: int)
    requires now <= t
    ensures CachedValue(Evicted(cache, key, now), k, t) == CachedValue(cache, k, t)
  {
  }

  /** Class model of `CacheManager`; its `Map` is `cache`. */
  class CacheManager {
    var cache: map<string, CacheEntry>

    constructor()
      ensures cache == map[]
    {
      cache := map[];
    }

    /** `set`: the entry expires `duration` (default five minutes) after `now`. */
    method Set(key: string, value: Value, duration: Option<int>, now: int)
      modifies this
      ensures cache == old(cache)[key := CacheEntry(value, now + duration.GetOr(DefaultCacheDuration))]
    {
      var expireTime := now + duration.GetOr(DefaultCacheDuration);
      cache := cache[key := CacheEntry(value, expireTime)];
    }

    /** `get`: the fresh value, or null; a stale entry is deleted on the way. */
    method Get(key: string, now: int) returns (r: Value)
      modifies this
      ensures r == CachedValue(old(cache), key, now)
      ensures cache == Evicted(old(cache), key, now)
    {
      if key !in cache {
        return VNull;
      }
      var cached := cache[key];
      if now > cached.expireTime {
        cache := cache - {key};
        return VNull;
      }
      r := cached.value;
    }

    /** `delete`. */
    method Delete(key: string)
      modifies this
      ensures cache == old(cache) - {key}
    {
      cache := cache - {key};
    }

    /** `clear`. */
    method Clear()
      modifies this
      ensures cache == map[]
    {
      cache := map[];
    }

    /**
     * `has`: `get(key) !== null`, eviction included; so a fresh entry whose
     * value is null counts as absent.
     */
    method Has(key: string, now: int) returns (b: bool)
      modifies this
      ensures b <==> Fresh(old(cache), key, now) && !old(cache)[key].value.VNull?
      ensures cache == Evicted(old(cache), key, now)
    {
      var v := Get(key, now);
      b := v != VNull;
    }
  }
}
