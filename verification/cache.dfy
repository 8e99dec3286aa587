/**
 * `fetcher` and the process-wide `memory-cache` store: a key-value store
 * keyed by the exact request, in front of a network that is modelled as a
 * fixed oracle from request to answer.  The key type `K` is left open; the
 * pagination uses page requests, whose URLs are one-to-one with them.
 */
module Cache {
  import opened Samples

  /**
   * A decoded response body.  A body of the page shape carries the results
   * and the continuation cursor (0 for a missing or falsy `nextStartTime`);
   * any other JSON value is Malformed, with its JavaScript truthiness.
   */
  datatype Body = Page(results: seq<Sample>, nextStartTime: int) | Malformed(truthy: bool)

  predicate Truthy(b: Body) {
    b.Page? || b.truthy
  }

  /** `fetch` rejecting, or `response.json()` rejecting. */
  datatype FetchError = NetworkFailure | DecodeFailure

  datatype Answer = Decoded(body: Body) | Failed(error: FetchError)

  /** What the server answers for each URL; a URL it does not answer fails to connect. */
  type Network<K(==)> = map<K, Answer>

  function Ask<K>(network: Network<K>, url: K): Answer {
    if url in network then network[url] else Failed(NetworkFailure)
  }

  /** `if (cachedData)`: a stored but falsy value counts as absent. */
  predicate Hit<K>(entries: map<K, Body>, url: K) {
    url in entries && Truthy(entries[url])
  }

  /** What `fetcher(url)` resolves to. */
  function Resolve<K>(entries: map<K, Body>, network: Network<K>, url: K): (a: Answer)
    ensures Hit(entries, url) ==> a.Decoded? && Truthy(a.body)
    ensures a.Failed? ==> !Hit(entries, url)
  {
    if Hit(entries, url) then Decoded(entries[url]) else Ask(network, url)
  }

  /** The store after `fetcher(url)`: a miss that decodes puts the body under the URL. */
  function Store<K>(entries: map<K, Body>, network: Network<K>, url: K): (s: map<K, Body>)
    ensures entries.Keys <= s.Keys <= entries.Keys + {url}
    ensures forall k :: k in entries && k != url ==> s[k] == entries[k]
  {
    if Hit(entries, url) then entries
    else match Ask(network, url)
      case Decoded(b) => entries[url := b]
      case Failed(_) => entries
  }

  /** The store after fetching `urls` one after the other. */
  function StoreAll<K>(entries: map<K, Body>, network: Network<K>, urls: seq<K>): (s: map<K, Body>)
    ensures entries.Keys <= s.Keys
    ensures forall k :: k in s && k !in entries ==> k in urls
    decreases |urls|
  {
    if urls == [] then entries
    else Store(StoreAll(entries, network, urls[..|urls| - 1]), network, urls[|urls| - 1])
  }

  /** The URLs that fetching `urls` one after the other sends to the network, in order. */
  function Misses<K>(entries: map<K, Body>, network: Network<K>, urls: seq<K>): (m: seq<K>)
    ensures |m| <= |urls|
    decreases |urls|
  {
    if urls == [] then []
    else
      var before := urls[..|urls| - 1];
      var url := urls[|urls| - 1];
      Misses(entries, network, before) + (if Hit(StoreAll(entries, network, before), url) then [] else [url])
  }

  /** Fetching one more URL extends the store and the request log by that fetch alone. */
  lemma FetchOneMore<K>(entries: map<K, Body>, network: Network<K>, urls: seq<K>, url: K)
    ensures StoreAll(entries, network, urls + [url]) == Store(StoreAll(entries, network, urls), network, url)
    ensures Misses(entries, network, urls + [url]) ==
      Misses(entries, network, urls) + (if Hit(StoreAll(entries, network, urls), url) then [] else [url])
  {
    assert (urls + [url])[..|urls|] == urls;
  }

  /**
   * Caching is transparent: after any fetch every URL resolves to what it
   * resolved to before.
   */
  lemma StoreTransparent<K>(entries: map<K, Body>, network: Network<K>, url: K, other: K)
    ensures Resolve(Store(entries, network, url), network, other) == Resolve(entries, network, other)
  {
  }

  /**
   * A URL is served from the store after a fetch exactly when it was before,
   * or it is the fetched URL and the server sent a truthy body: then the
   * stored value is that body, so an immediate repeat issues no request.
   */
  lemma StoreHits<K>(entries: map<K, Body>, network: Network<K>, url: K, other: K)
    ensures Hit(Store(entries, network, url), other) <==>
      Hit(entries, other) ||
      (other == url && Ask(network, url).Decoded? && Truthy(Ask(network, url).body))
    ensures Hit(entries, other) ==> Store(entries, network, url)[other] == entries[other]
    ensures Hit(Store(entries, network, url), url) ==>
      Decoded(Store(entries, network, url)[url]) == Resolve(entries, network, url)
  {
  }

  lemma {:induction false} StoreAllTransparent<K>(entries: map<K, Body>, network: Network<K>, urls: seq<K>, other: K)
    ensures Resolve(StoreAll(entries, network, urls), network, other) == Resolve(entries, network, other)
    decreases |urls|
  {
    if urls != [] {
      var before := urls[..|urls| - 1];
      StoreAllTransparent(entries, network, before, other);
      StoreTransparent(StoreAll(entries, network, before), network, urls[|urls| - 1], other);
    }
  }

  /** Entries served before a run of fetches are still served, unchanged, after it. */
  lemma {:induction false} StoreAllKeepsHits<K>(entries: map<K, Body>, network: Network<K>, urls: seq<K>, other: K)
    requires Hit(entries, other)
    ensures Hit(StoreAll(entries, network, urls), other)
    ensures StoreAll(entries, network, urls)[other] == entries[other]
    decreases |urls|
  {
    if urls != [] {
      var before := urls[..|urls| - 1];
      StoreAllKeepsHits(entries, network, before, other);
      StoreHits(StoreAll(entries, network, before), network, urls[|urls| - 1], other);
    }
  }

  /** A run of fetches only adds entries for the URLs it fetched. */
  lemma {:induction false} StoreAllHitsOnly<K>(entries: map<K, Body>, network: Network<K>, urls: seq<K>, other: K)
    requires Hit(StoreAll(entries, network, urls), other)
    ensures Hit(entries, other) || other in urls
    decreases |urls|
  {
    if urls != [] {
      var before := urls[..|urls| - 1];
      StoreHits(StoreAll(entries, network, before), network, urls[|urls| - 1], other);
      if Hit(StoreAll(entries, network, before), other) {
        StoreAllHitsOnly(entries, network, before, other);
      }
    }
  }

  /** Every fetched URL whose answer is a truthy body is served from the store afterwards. */
  lemma {:induction false} StoreAllCaches<K>(entries: map<K, Body>, network: Network<K>, urls: seq<K>, k: nat)
    requires k < |urls|
    requires Resolve(entries, network, urls[k]).Decoded? && Truthy(Resolve(entries, network, urls[k]).body)
    ensures Hit(StoreAll(entries, network, urls), urls[k])
    decreases |urls|
  {
    var before := urls[..|urls| - 1];
    var last := urls[|urls| - 1];
    if k < |urls| - 1 {
      assert urls[k] == before[k];
      StoreAllCaches(entries, network, before, k);
      StoreHits(StoreAll(entries, network, before), network, last, urls[k]);
    } else {
      StoreAllTransparent(entries, network, before, last);
      StoreHits(StoreAll(entries, network, before), network, last, last);
    }
  }

  /** The network is asked at most once per fetch, and only for fetched URLs. */
  lemma {:induction false} MissesBounded<K>(entries: map<K, Body>, network: Network<K>, urls: seq<K>)
    ensures |Misses(entries, network, urls)| <= |urls|
    ensures forall u :: u in Misses(entries, network, urls) ==> u in urls
    decreases |urls|
  {
    if urls != [] {
      var before := urls[..|urls| - 1];
      MissesBounded(entries, network, before);
      assert forall u :: u in before ==> u in urls;
    }
  }

  /** Fetching URLs that are all served from the store sends nothing and stores nothing. */
  lemma {:induction false} MissesAllCached<K>(entries: map<K, Body>, network: Network<K>, urls: seq<K>)
    requires forall i :: 0 <= i < |urls| ==> Hit(entries, urls[i])
    ensures Misses(entries, network, urls) == []
    ensures StoreAll(entries, network, urls) == entries
    decreases |urls|
  {
    if urls != [] {
      MissesAllCached(entries, network, urls[..|urls| - 1]);
    }
  }

  /** Fetching distinct URLs none of which is stored sends every one of them, in order. */
  lemma {:induction false} MissesAllUncached<K>(entries: map<K, Body>, network: Network<K>, urls: seq<K>)
    requires forall i :: 0 <= i < |urls| ==> !Hit(entries, urls[i])
    requires forall i, j :: 0 <= i < j < |urls| ==> urls[i] != urls[j]
    ensures Misses(entries, network, urls) == urls
    decreases |urls|
  {
    if urls != [] {
      var before := urls[..|urls| - 1];
      var last := urls[|urls| - 1];
      MissesAllUncached(entries, network, before);
      if Hit(StoreAll(entries, network, before), last) {
        StoreAllHitsOnly(entries, network, before, last);
        assert false;
      }
      assert before + [last] == urls;
    }
  }

  /**
   * `fetcher` over the shared store.  `requests` is a log of the URLs sent
   * to the network, kept only for the proofs.
   */
  class Fetcher<K(==)> {
    var entries: map<K, Body>
    const network: Network<K>
    ghost var requests: seq<K>

    constructor (network: Network<K>)
      ensures this.network == network
      ensures entries == map[] && requests == []
    {
      this.network := network;
      entries := map[];
      requests := [];
    }

    /**
     * A hit returns the stored body and asks nothing; a miss asks the network
     * once and, when the body decodes, stores it under the exact URL.
     */
    method Fetch(url: K) returns (answer: Answer)
      modifies this
      ensures answer == Resolve(old(entries), network, url)
      ensures entries == Store(old(entries), network, url)
      ensures requests == if Hit(old(entries), url) then old(requests) else old(requests) + [url]
    {
      if url in entries && Truthy(entries[url]) {
        return Decoded(entries[url]);
      }
      requests := requests + [url];
      answer := Ask(network, url);
      if answer.Decoded? {
        entries := entries[url := answer.body];
      }
    }

    ghost predicate Replayed(entries0: map<K, Body>, requests0: seq<K>, urls: seq<K>)
      reads this
    {
      entries == StoreAll(entries0, network, urls) && requests == requests0 + Misses(entries0, network, urls)
    }

    /** `mcache.clear()` from the refresh button: every later fetch misses. */
    method Clear()
      modifies this
      ensures entries == map[]
      ensures forall url :: !Hit(entries, url)
      ensures requests == old(requests)
    {
      entries := map[];
    }
  }
}
