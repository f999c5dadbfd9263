/** Which payment methods the processor offers for the store's current
    currency, cached per currency for 60 seconds.

    The processor's answer, whether the `Mobile_Detect` class is loaded and
    the store's current currency are inputs of the model. */
module AvailablePaymentMethods {
  import opened Wrappers

  const CACHE_NAME: string := "airwallex_payment_methods"
  /** Lifetime, in seconds, of a cache entry. */
  const CACHE_TIME: nat := 60
  /** Method codes of this module that the processor knows under another name. */
  const METHOD_MAPPING: map<string, string> := map["wechat" := "wechatpay"]

  /** The processor's name for a method code. */
  function ResolveAlias(code: string): (r: string)
    ensures code == "wechat" ==> r == "wechatpay"
    ensures code != "wechat" ==> r == code
  {
    if code in METHOD_MAPPING then METHOD_MAPPING[code] else code
  }

  /** The store's currency code; `current` is None when reading it throws an `Exception`. */
  function CurrencyCode(current: Option<string>): string {
    match current
    case Some(code) => code
    case None => ""
  }

  /** The cache key for the store's currency. */
  function CacheName(current: Option<string>): (r: string)
    ensures |r| >= |CACHE_NAME| && r[..|CACHE_NAME|] == CACHE_NAME
    ensures current.Some? ==> r[|CACHE_NAME|..] == current.value
    ensures current.None? ==> r == CACHE_NAME
  {
    CACHE_NAME + CurrencyCode(current)
  }

  /** Two currencies share a cache entry only if their codes are equal. */
  lemma CacheNameSeparatesCurrencies(a: Option<string>, b: Option<string>)
    ensures CacheName(a) == CacheName(b) <==> CurrencyCode(a) == CurrencyCode(b)
  {
    if CacheName(a) == CacheName(b) {
      assert CurrencyCode(a) == CacheName(a)[|CACHE_NAME|..];
      assert CurrencyCode(b) == CacheName(b)[|CACHE_NAME|..];
    }
  }

  /** PHP's `in_array($needle, $haystack, true)`: a scan comparing with `===`. */
  function InArray(needle: string, haystack: seq<string>): bool
    decreases |haystack|
  {
    if haystack == [] then false
    else haystack[0] == needle || InArray(needle, haystack[1..])
  }

  lemma {:induction false} InArrayIsMembership(needle: string, haystack: seq<string>)
    ensures InArray(needle, haystack) <==> needle in haystack
    decreases |haystack|
  {
    if haystack != [] {
      InArrayIsMembership(needle, haystack[1..]);
      assert haystack == [haystack[0]] + haystack[1..];
    }
  }

  /** What the processor's available-methods request yields: the list of
      method codes, a transport (Guzzle) failure, or any other exception. */
  datatype FetchOutcome = Fetched(methods: seq<string>) | TransportFailure | OtherFailure(message: string)

  /** A cache entry: the stored list and the lifetime it was saved with. */
  datatype CacheEntry = CacheEntry(methods: seq<string>, lifetime: nat)

  /** One call of getAllMethods: what it returns, the cache after it, and
      whether it asked the processor. */
  datatype Lookup = Lookup(methods: Result<seq<string>, string>, cache: map<string, CacheEntry>, fetched: bool)

  /** getAllMethods on cache `cache` under key `key`, where `response` is what
      the processor would answer if asked. */
  function AllMethods(cache: map<string, CacheEntry>, key: string, response: FetchOutcome): Lookup {
    if key in cache then Lookup(Success(cache[key].methods), cache, false)
    else match response
      case Fetched(methods) => Lookup(Success(methods), cache[key := CacheEntry(methods, CACHE_TIME)], true)
      case TransportFailure => Lookup(Success([]), cache[key := CacheEntry([], CACHE_TIME)], true)
      case OtherFailure(message) => Lookup(Failure(message), cache, true)
  }

  /** The strict membership test of isAvailable, after alias resolution. */
  function Listed(code: string, methods: seq<string>): bool {
    InArray(ResolveAlias(code), methods)
  }

  /** isAvailable's answer from the environment check and the method list. */
  function Availability(initialized: bool, code: string, methods: seq<string>): bool {
    initialized && Listed(code, methods)
  }

  /** One call of isAvailable: its answer, the cache after it, and whether it
      asked the processor. */
  datatype Answer = Answer(available: Result<bool, string>, cache: map<string, CacheEntry>, fetched: bool)

  /** One call of isAvailable: the environment check is evaluated first, and
      the method list is only looked up when it holds. */
  function IsAvailableLookup(initialized: bool, code: string, cache: map<string, CacheEntry>, key: string,
                             response: FetchOutcome): Answer
  {
    if !initialized then Answer(Success(false), cache, false)
    else
      var l := AllMethods(cache, key, response);
      match l.methods
      case Success(methods) => Answer(Success(Availability(initialized, code, methods)), l.cache, l.fetched)
      case Failure(message) => Answer(Failure(message), l.cache, l.fetched)
  }

  /** A method code is available exactly when the environment check holds and
      its processor name is in the list. */
  lemma AvailabilityIsMembership(initialized: bool, code: string, methods: seq<string>)
    ensures Availability(initialized, code, methods) <==> initialized && ResolveAlias(code) in methods
  {
    InArrayIsMembership(ResolveAlias(code), methods);
  }

  /** When the environment check holds, isAvailable answers whether the
      alias-resolved code is in the list getAllMethods returns, and passes on
      the exception getAllMethods raises; the cache and the fetch are
      getAllMethods' own. */
  lemma IsAvailableAnswersMembership(code: string, cache: map<string, CacheEntry>, key: string, response: FetchOutcome)
    ensures var l := AllMethods(cache, key, response);
      var a := IsAvailableLookup(true, code, cache, key, response);
      && a.cache == l.cache && a.fetched == l.fetched
      && (l.methods.Success? ==> a.available == Success(ResolveAlias(code) in l.methods.value))
      && (l.methods.Failure? ==> a.available == Failure(l.methods.error))
  {
    var l := AllMethods(cache, key, response);
    if l.methods.Success? {
      AvailabilityIsMembership(true, code, l.methods.value);
    }
  }

  /** An exception other than a transport failure escapes isAvailable too. */
  lemma IsAvailablePassesOnOtherFailure(code: string, cache: map<string, CacheEntry>, key: string, message: string)
    requires key !in cache
    ensures IsAvailableLookup(true, code, cache, key, OtherFailure(message)) == Answer(Failure(message), cache, true)
  {
  }

  /** `wechat` is looked up as `wechatpay`. */
  lemma WechatIsLookedUpAsWechatpay(methods: seq<string>)
    ensures Availability(true, "wechat", methods) <==> "wechatpay" in methods
  {
    AvailabilityIsMembership(true, "wechat", methods);
  }

  /** Without the environment check, nothing is available, nothing is fetched
      and the cache is untouched. */
  lemma UninitializedIsNeverAvailable(code: string, cache: map<string, CacheEntry>, key: string, response: FetchOutcome)
    ensures IsAvailableLookup(false, code, cache, key, response) == Answer(Success(false), cache, false)
  {
  }

  /** A hit returns the stored list, does not fetch and keeps the cache. */
  lemma HitDoesNotFetch(cache: map<string, CacheEntry>, key: string, response: FetchOutcome)
    requires key in cache
    ensures AllMethods(cache, key, response) == Lookup(Success(cache[key].methods), cache, false)
  {
  }

  /** A transport failure on a miss makes every code unavailable, raises
      nothing, and caches the empty list for 60 seconds. */
  lemma TransportFailureMakesNothingAvailable(initialized: bool, code: string, cache: map<string, CacheEntry>, key: string)
    requires key !in cache
    ensures var a := IsAvailableLookup(initialized, code, cache, key, TransportFailure);
      a.available == Success(false) && (initialized ==> a.fetched && a.cache == cache[key := CacheEntry([], CACHE_TIME)])
  {
  }

  /** A miss that does not raise stores the list under the key; the next
      lookup with that key is a hit returning the same list. */
  lemma MissThenHit(cache: map<string, CacheEntry>, key: string, first: FetchOutcome, second: FetchOutcome)
    requires key !in cache && !first.OtherFailure?
    ensures var l := AllMethods(cache, key, first);
      && l.fetched
      && l.methods == Success(if first.Fetched? then first.methods else [])
      && l.cache == cache[key := CacheEntry(l.methods.value, CACHE_TIME)]
      && AllMethods(l.cache, key, second) == Lookup(l.methods, l.cache, false)
  {
  }

  /** An exception other than a transport failure escapes and nothing is cached. */
  lemma OtherFailureEscapes(cache: map<string, CacheEntry>, key: string, message: string)
    requires key !in cache
    ensures AllMethods(cache, key, OtherFailure(message)) == Lookup(Failure(message), cache, true)
  {
  }

  /** The cache after the entry under `key` expires or is cleaned. */
  function Expire(cache: map<string, CacheEntry>, key: string): map<string, CacheEntry> {
    cache - {key}
  }

  /** Once the entry has expired, the next lookup fetches again. */
  lemma ExpiredEntryIsFetchedAgain(cache: map<string, CacheEntry>, key: string, response: FetchOutcome)
    ensures AllMethods(Expire(cache, key), key, response).fetched
  {
  }

  /** The number of fetches over successive getAllMethods calls under one key;
      `responses[i]` is what the processor would answer at call i. */
  function FetchCount(cache: map<string, CacheEntry>, key: string, responses: seq<FetchOutcome>): nat
    decreases |responses|
  {
    if responses == [] then 0
    else
      var l := AllMethods(cache, key, responses[0]);
      (if l.fetched then 1 else 0) + FetchCount(l.cache, key, responses[1..])
  }

  /** While the entry lives, no call fetches. */
  lemma {:induction false} CachedKeyIsNeverFetched(cache: map<string, CacheEntry>, key: string, responses: seq<FetchOutcome>)
    requires key in cache
    ensures FetchCount(cache, key, responses) == 0
    decreases |responses|
  {
    if responses != [] {
      CachedKeyIsNeverFetched(cache, key, responses[1..]);
    }
  }

  /** Until the entry is evicted, at most one call fetches, provided no fetch
      raises an exception other than a transport failure. */
  lemma {:induction false} AtMostOneFetch(cache: map<string, CacheEntry>, key: string, responses: seq<FetchOutcome>)
    requires forall i :: 0 <= i < |responses| ==> !responses[i].OtherFailure?
    ensures FetchCount(cache, key, responses) <= 1
    decreases |responses|
  {
    if responses != [] {
      var l := AllMethods(cache, key, responses[0]);
      assert key in l.cache;
      CachedKeyIsNeverFetched(l.cache, key, responses[1..]);
    }
  }

  class AvailablePaymentMethodsHelper {
    /** Whether `class_exists('Mobile_Detect')` holds. */
    const mobileDetectLoaded: bool
    /** The store's current currency; None when reading it throws an `Exception`. */
    const storeCurrency: Option<string>
    /** The application cache, restricted to this helper's entries. */
    var cache: map<string, CacheEntry>
    /** How many requests have been sent to the processor. */
    ghost var fetches: nat

    constructor (mobileDetectLoaded: bool, storeCurrency: Option<string>, cache: map<string, CacheEntry>)
      ensures this.mobileDetectLoaded == mobileDetectLoaded && this.storeCurrency == storeCurrency
      ensures this.cache == cache && fetches == 0
    {
      this.mobileDetectLoaded := mobileDetectLoaded;
      this.storeCurrency := storeCurrency;
      this.cache := cache;
      fetches := 0;
    }

    function CanInitialize(): bool {
      mobileDetectLoaded
    }

    function GetCurrencyCode(): string {
      CurrencyCode(storeCurrency)
    }

    function GetCacheName(): string {
      CacheName(storeCurrency)
    }

    /** Sends the available-methods request for `currency`; `processor` gives
        the processor's answer per currency. */
    method Send(processor: string -> FetchOutcome, currency: string) returns (response: FetchOutcome)
      modifies this`fetches
      ensures response == processor(currency) && fetches == old(fetches) + 1
    {
      response := processor(currency);
      fetches := fetches + 1;
    }

    /** The stored list on a hit; on a miss, the processor's list (empty on a
        transport failure), saved under the currency's key. */
    method GetAllMethods(processor: string -> FetchOutcome) returns (r: Result<seq<string>, string>)
      modifies this
      ensures var l := AllMethods(old(cache), GetCacheName(), processor(GetCurrencyCode()));
        && r == l.methods && cache == l.cache
        && fetches == old(fetches) + (if l.fetched then 1 else 0)
    {
      if GetCacheName() in cache {
        return Success(cache[GetCacheName()].methods);
      }
      var response := Send(processor, GetCurrencyCode());
      var methods: seq<string>;
      match response {
        case Fetched(list) =>
          methods := list;
        case TransportFailure =>
          methods := [];
        case OtherFailure(message) =>
          return Failure(message);
      }
      cache := cache[GetCacheName() := CacheEntry(methods, CACHE_TIME)];
      return Success(methods);
    }

    method IsAvailable(code: string, processor: string -> FetchOutcome) returns (r: Result<bool, string>)
      modifies this
      ensures var a := IsAvailableLookup(CanInitialize(), code, old(cache), GetCacheName(), processor(GetCurrencyCode()));
        && r == a.available && cache == a.cache
        && fetches == old(fetches) + (if a.fetched then 1 else 0)
    {
      var mapped := ResolveAlias(code);
      if !CanInitialize() {
        return Success(false);
      }
      var methods := GetAllMethods(processor);
      match methods {
        case Success(list) =>
          return Success(InArray(mapped, list));
        case Failure(message) =>
          return Failure(message);
      }
    }

    /** The entry expires or is cleaned: the cache forgets it. */
    method Evict(key: string)
      modifies this`cache
      ensures cache == Expire(old(cache), key)
    {
      cache := cache - {key};
    }
  }
}
