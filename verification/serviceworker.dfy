/** The service worker of public/sw.js: which fetches it answers and how
    (cache first, network fallback, offline answers), which responses it
    stores in which cache, and the cache clean-up on activation. The browser's
    cache storage is a class; the network's answer is a parameter. */
module ServiceWorker {
  import opened Common

  const StaticCache: string := "static-v3"
  const DynamicCache: string := "dynamic-v3"
  const ImageCache: string := "images-v3"

  /** The three caches of the current version (public/sw.js:2-5). */
  predicate IsCurrent(name: string) {
    name == StaticCache || name == DynamicCache || name == ImageCache
  }

  datatype Request = Request(httpMethod: string, url: string, origin: string, destination: string, accept: Option<string>)

  /** A response; `kind` is `response.type` ('basic', 'cors', ...). */
  datatype Response = Response(status: int, kind: string, body: string)

  /** What the network does with the request. */
  datatype Network = Online(response: Response) | Offline

  /** How the worker answers: it leaves the request to the browser, answers
      with a response, or answers with nothing (an offline page missing from
      the caches). */
  datatype Outcome = NotIntercepted | Respond(response: Response) | NoResponse

  const NotFound: Response := Response(404, "default", "")
  const Unavailable: Response := Response(503, "default", "")

  /** Requests the worker leaves alone (public/sw.js:59-70). */
  predicate Bypassed(req: Request) {
    req.httpMethod != "GET"
    || Contains(req.origin, "firebase") || Contains(req.origin, "googleapis") || Contains(req.origin, "gstatic")
  }

  /** The cache a fresh page or asset response goes to (public/sw.js:120-122). */
  function CacheFor(req: Request): (name: string)
    ensures IsCurrent(name) && name != ImageCache
    ensures name == StaticCache <==> req.destination == "document" || EndsWith(req.url, ".html")
  {
    if req.destination == "document" || EndsWith(req.url, ".html") then StaticCache else DynamicCache
  }

  /** The worker's answer and the cache, if any, that the network response is
      stored in. */
  datatype Decision = Decision(outcome: Outcome, storeIn: Option<string>)

  /** The fetch handler (public/sw.js:54-141) given what the caches hold:
      `imageHit` is the image cache's entry for the request, `anyHit` the
      first entry over all caches, `offlinePage` the cached '/index.html'. */
  function Decide(req: Request, net: Network, imageHit: Option<Response>, anyHit: Option<Response>,
                  offlinePage: Option<Response>): Decision
  {
    if Bypassed(req) then Decision(NotIntercepted, None)
    else if req.destination == "image" then
      if imageHit.Some? then Decision(Respond(imageHit.value), None)
      else match net
        case Online(r) => Decision(Respond(r), if r.status == 200 then Some(ImageCache) else None)
        case Offline => Decision(Respond(NotFound), None)
    else if anyHit.Some? then Decision(Respond(anyHit.value), None)
    else match net
      case Online(r) =>
        if r.status != 200 || r.kind != "basic" then Decision(Respond(r), None)
        else Decision(Respond(r), Some(CacheFor(req)))
      case Offline =>
        if req.accept.Some? && Contains(req.accept.value, "text/html") then
          Decision(if offlinePage.Some? then Respond(offlinePage.value) else NoResponse, None)
        else Decision(Respond(Unavailable), None)
  }

  /** Non-GET requests and requests to the Firebase and Google origins are
      never intercepted and never stored. */
  lemma {:induction false} BypassedNeverIntercepted(req: Request, net: Network, imageHit: Option<Response>,
                                                    anyHit: Option<Response>, offlinePage: Option<Response>)
    requires Bypassed(req)
    ensures Decide(req, net, imageHit, anyHit, offlinePage) == Decision(NotIntercepted, None)
  {
  }

  /** Only a network response is stored: with status 200 for images, with
      status 200 and type 'basic' otherwise; images go to the image cache,
      documents and '.html' URLs to the static cache, the rest to the dynamic one. */
  lemma {:induction false} StoresOnlyGoodResponses(req: Request, net: Network, imageHit: Option<Response>,
                                                   anyHit: Option<Response>, offlinePage: Option<Response>)
    ensures var d := Decide(req, net, imageHit, anyHit, offlinePage);
            d.storeIn.Some? ==>
              && !Bypassed(req) && net.Online? && net.response.status == 200
              && d.outcome == Respond(net.response)
              && IsCurrent(d.storeIn.value)
              && (req.destination == "image" ==> d.storeIn.value == ImageCache && imageHit.None?)
              && (req.destination != "image" ==> d.storeIn.value == CacheFor(req) && net.response.kind == "basic" && anyHit.None?)
  {
  }

  /** Cache first: when the relevant cache holds the request, the answer is
      the cached response whatever the network would do, and nothing is stored. */
  lemma {:induction false} CacheHitIgnoresNetwork(req: Request, net1: Network, net2: Network, imageHit: Option<Response>,
                                                  anyHit: Option<Response>, offlinePage: Option<Response>)
    requires !Bypassed(req)
    requires if req.destination == "image" then imageHit.Some? else anyHit.Some?
    ensures Decide(req, net1, imageHit, anyHit, offlinePage) == Decide(req, net2, imageHit, anyHit, offlinePage)
    ensures Decide(req, net1, imageHit, anyHit, offlinePage).storeIn.None?
    ensures Decide(req, net1, imageHit, anyHit, offlinePage).outcome ==
            Respond(if req.destination == "image" then imageHit.value else anyHit.value)
  {
  }

  /** Offline and not cached: images get a 404, pages that accept HTML get the
      cached '/index.html' (or nothing), everything else gets a 503. */
  lemma {:induction false} OfflineAnswers(req: Request, imageHit: Option<Response>, anyHit: Option<Response>,
                                          offlinePage: Option<Response>)
    requires !Bypassed(req)
    requires if req.destination == "image" then imageHit.None? else anyHit.None?
    ensures var d := Decide(req, Offline, imageHit, anyHit, offlinePage);
            && d.storeIn.None?
            && (req.destination == "image" ==> d.outcome == Respond(NotFound))
            && (req.destination != "image" && req.accept.Some? && Contains(req.accept.value, "text/html") ==>
                  d.outcome == (if offlinePage.Some? then Respond(offlinePage.value) else NoResponse))
            && (req.destination != "image" && !(req.accept.Some? && Contains(req.accept.value, "text/html")) ==>
                  d.outcome == Respond(Unavailable))
  {
  }

  /** The names kept by activation, in order. */
  function KeepCurrent(names: seq<string>): (r: seq<string>)
    ensures forall n :: n in r <==> n in names && IsCurrent(n)
  {
    if names == [] then [] else (if IsCurrent(names[0]) then [names[0]] else []) + KeepCurrent(names[1..])
  }

  lemma {:induction false} KeepCurrentSnoc(names: seq<string>, n: string)
    ensures KeepCurrent(names + [n]) == KeepCurrent(names) + (if IsCurrent(n) then [n] else [])
  {
    if names == [] {
      assert [n][1..] == [];
    } else {
      assert (names + [n])[1..] == names[1..] + [n];
      KeepCurrentSnoc(names[1..], n);
    }
  }

  lemma {:induction false} RemoveFirstAfterPrefix(p: seq<string>, n: string, rest: seq<string>)
    requires n !in p
    ensures RemoveFirst(p + [n] + rest, n) == p + rest
  {
    RemoveFirstSkips(p, [n] + rest, n);
    assert p + [n] + rest == p + ([n] + rest);
    assert RemoveFirst([n] + rest, n) == rest;
  }

  /** The first entry for `url` over the caches, in creation order. */
  function MatchIn(names: seq<string>, store: map<string, map<string, Response>>, url: string): Option<Response>
  {
    if names == [] then None
    else if names[0] in store && url in store[names[0]] then Some(store[names[0]][url])
    else MatchIn(names[1..], store, url)
  }

  /** Every cache of `a` is a cache of `b` with the same entries. */
  ghost predicate Within(a: map<string, map<string, Response>>, b: map<string, map<string, Response>>) {
    forall n :: n in a ==> n in b && a[n] == b[n]
  }

  class CacheStorage {
    /** Cache names in creation order, as `caches.keys()` lists them. */
    var names: seq<string>
    var store: map<string, map<string, Response>>

    ghost predicate Valid()
      reads this
    {
      NoDup(names) && forall n :: n in store <==> n in names
    }

    constructor()
      ensures Valid() && names == [] && store == map[]
    {
      names := [];
      store := map[];
    }

    /** The response stored under `url` in cache `name`, if any. */
    function Lookup(name: string, url: string): Option<Response>
      reads this
    {
      if name in store && url in store[name] then Some(store[name][url]) else None
    }

    /** `caches.match(url)`: the first cache holding the URL. */
    function MatchAll(url: string): Option<Response>
      reads this
    {
      MatchIn(names, store, url)
    }

    /** `caches.open(name)`: the cache is created, empty, when missing. */
    method Open(name: string)
      requires Valid()
      modifies this
      ensures Valid() && name in store
      ensures forall n, u :: Lookup(n, u) == old(Lookup(n, u))
      ensures old(name in store) ==> names == old(names) && store == old(store)
    {
      if name !in store {
        names := names + [name];
        store := store[name := map[]];
      }
    }

    /** `cache.put(url, response)` on an open cache. */
    method Put(name: string, url: string, r: Response)
      requires Valid() && name in store
      modifies this
      ensures Valid() && names == old(names)
      ensures Lookup(name, url) == Some(r)
      ensures forall n, u :: (n != name || u != url) ==> Lookup(n, u) == old(Lookup(n, u))
    {
      store := store[name := store[name][url := r]];
    }

    /** `caches.delete(name)`. */
    method Delete(name: string)
      requires Valid()
      modifies this
      ensures Valid()
      ensures names == RemoveFirst(old(names), name) && store == old(store) - {name}
    {
      RemoveFirstOfNoDup(names, name);
      names := RemoveFirst(names, name);
      store := store - {name};
    }

    /** One round of the activation loop: the `i`-th name is deleted unless
        it is current. */
    method DropIfStale(all: seq<string>, i: nat)
      requires Valid() && i < |all| && names == KeepCurrent(all[..i]) + all[i..]
      modifies this
      ensures Valid() && names == KeepCurrent(all[..i + 1]) + all[i + 1..]
      ensures Within(store, old(store))
    {
      ActivateStep(all, i, names);
      if !IsCurrent(all[i]) {
        Delete(all[i]);
      }
    }

    /** The activate handler (public/sw.js:37-51): every cache whose name is
        not one of the three current names is deleted, one by one. */
    method Activate()
      requires Valid()
      modifies this
      ensures Valid()
      ensures names == KeepCurrent(old(names))
      ensures forall n :: n in store <==> n in old(store) && IsCurrent(n)
      ensures Within(store, old(store))
    {
      var cacheNames := names;
      var i := 0;
      assert cacheNames[..0] == [];
      while i < |cacheNames|
        invariant 0 <= i <= |cacheNames|
        invariant Valid()
        invariant names == KeepCurrent(cacheNames[..i]) + cacheNames[i..]
        invariant Within(store, old(store))
      {
        DropIfStale(cacheNames, i);
        i := i + 1;
      }
      assert cacheNames[..|cacheNames|] == cacheNames;
      forall n ensures n in store <==> n in old(store) && IsCurrent(n) {
        assert n in store <==> n in KeepCurrent(cacheNames);
        assert n in old(store) <==> n in cacheNames;
      }
    }

    /** The fetch handler (public/sw.js:54-141). */
    method Fetch(req: Request, net: Network) returns (out: Outcome)
      requires Valid()
      modifies this
      ensures Valid()
      ensures var d := Decide(req, net, old(Lookup(ImageCache, req.url)), old(MatchAll(req.url)), old(MatchAll("/index.html")));
              && out == d.outcome
              && (d.storeIn.Some? ==> Lookup(d.storeIn.value, req.url) == Some(net.response))
              && forall n, u :: (d.storeIn.None? || n != d.storeIn.value || u != req.url) ==> Lookup(n, u) == old(Lookup(n, u))
    {
      if req.httpMethod != "GET" {
        return NotIntercepted;
      }
      if Contains(req.origin, "firebase") || Contains(req.origin, "googleapis") || Contains(req.origin, "gstatic") {
        return NotIntercepted;
      }
      if req.destination == "image" {
        Open(ImageCache);
        var cached := Lookup(ImageCache, req.url);
        if cached.Some? {
          return Respond(cached.value);
        }
        match net {
          case Online(r) =>
            if r.status == 200 {
              Put(ImageCache, req.url, r);
            }
            out := Respond(r);
          case Offline =>
            out := Respond(NotFound);
        }
        return;
      }
      var cachedResponse := MatchAll(req.url);
      if cachedResponse.Some? {
        return Respond(cachedResponse.value);
      }
      match net {
        case Online(r) =>
          if r.status != 200 || r.kind != "basic" {
            return Respond(r);
          }
          var cacheName := CacheFor(req);
          Open(cacheName);
          Put(cacheName, req.url, r);
          out := Respond(r);
        case Offline =>
          if req.accept.Some? && Contains(req.accept.value, "text/html") {
            var page := MatchAll("/index.html");
            out := if page.Some? then Respond(page.value) else NoResponse;
          } else {
            out := Respond(Unavailable);
          }
      }
    }
  }

  /** One step of the activation loop: the name at `i` is kept when it is
      current and removed otherwise. */
  lemma {:induction false} ActivateStep(all: seq<string>, i: nat, names: seq<string>)
    requires i < |all| && NoDup(names)
    requires names == KeepCurrent(all[..i]) + all[i..]
    ensures IsCurrent(all[i]) ==> names == KeepCurrent(all[..i + 1]) + all[i + 1..]
    ensures !IsCurrent(all[i]) ==> RemoveFirst(names, all[i]) == KeepCurrent(all[..i + 1]) + all[i + 1..]
  {
    var name := all[i];
    var kept := KeepCurrent(all[..i]);
    assert all[..i + 1] == all[..i] + [name];
    KeepCurrentSnoc(all[..i], name);
    assert all[i..] == [name] + all[i + 1..];
    assert names == kept + [name] + all[i + 1..];
    if !IsCurrent(name) {
      assert name !in kept;
      RemoveFirstAfterPrefix(kept, name, all[i + 1..]);
    }
  }

  /** After activation only current caches remain. */
  lemma {:induction false} ActivationLeavesCurrentOnly(names: seq<string>)
    ensures forall n :: n in KeepCurrent(names) ==> IsCurrent(n)
    ensures forall n :: n in names && IsCurrent(n) ==> n in KeepCurrent(names)
  {
  }
}
