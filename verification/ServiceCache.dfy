/** The generated Service seen through the controller's cache, whose copy the update changes in place before it is
    written. */
module ServiceCache {
  import opened Gateway

  /** The cached Services, the API server's, and what the step reports. */
  datatype Cached = Cached(cache: map<string, Service>, stored: map<string, Service>, step: Step)

  predicate UpToDate(existing: Service, r: Record) {
    && existing.labels == GeneratedLabels(r) && existing.kind == ServiceKind(r) && existing.ports == ServicePorts(r)
    && !(ServiceKind(r) == CLUSTER_IP && existing.clusterIP != "None")
  }

  function Updated(existing: Service, r: Record): Service {
    existing.(kind := ServiceKind(r), selector := map[], ports := ServicePorts(r), labels := GeneratedLabels(r))
  }

  /** ensureGeneratedService: decides by the cached copy; an update changes that copy whatever becomes of the write. */
  function EnsureThroughCache(cache: map<string, Service>, stored: map<string, Service>, r: Record,
                              calls: Calls): Cached {
    var key := Key(r);
    if !calls.serviceAnswers then Cached(cache, stored, Error)
    else if key !in cache then
      var created := Service([r.uid], GeneratedLabels(r), ServiceKind(r), calls.clusterIP, map[], ServicePorts(r));
      Cached(cache, if Written(calls.serviceWrite) then stored[key := created] else stored, StepOf(calls.serviceWrite))
    else if r.uid !in cache[key].owners then Cached(cache, stored, Conflict)
    else if UpToDate(cache[key], r) then Cached(cache, stored, Done)
    else
      var updated := Updated(cache[key], r);
      Cached(cache[key := updated], if Written(calls.serviceWrite) then stored[key := updated] else stored,
             StepOf(calls.serviceWrite))
  }

  /** With a cache that is up to date, the API server's part is EnsureService. */
  lemma FreshCacheIsEnsure(stored: map<string, Service>, r: Record, calls: Calls)
    ensures var c := EnsureThroughCache(stored, stored, r, calls); (c.stored, c.step) == EnsureService(stored, r, calls)
  {
  }

  /** The update leaves nothing to update in the cached copy: so for a NodePort service, and for a headless one. */
  predicate LooksDone(existing: Service, r: Record) {
    ServiceKind(r) == NODE_PORT || existing.clusterIP == "None"
  }

  /** An update whose write failed. */
  predicate FailedUpdate(stored: map<string, Service>, r: Record, calls: Calls) {
    && calls.serviceAnswers && Key(r) in stored && r.uid in stored[Key(r)].owners && !UpToDate(stored[Key(r)], r)
    && calls.serviceWrite == Failed
  }

  /** The retry after a failed update repairs the Service exactly if it looks outdated in the cache. Otherwise it
      reports success at once, and the API server keeps the outdated Service. */
  lemma RetryAfterFailure(stored: map<string, Service>, r: Record, calls: Calls, retry: Calls)
    requires FailedUpdate(stored, r, calls) && retry.serviceAnswers
    ensures var c := EnsureThroughCache(stored, stored, r, calls);
      var d := EnsureThroughCache(c.cache, c.stored, r, retry);
      && c.step == Error && c.stored == stored
      && (if LooksDone(stored[Key(r)], r) then d.step == Done && d.stored == stored
          else (d.stored, d.step) == EnsureService(stored, r, retry))
  {
    var c := EnsureThroughCache(stored, stored, r, calls);
    assert UpToDate(c.cache[Key(r)], r) <==> LooksDone(stored[Key(r)], r);
    assert Updated(c.cache[Key(r)], r) == Updated(stored[Key(r)], r);
  }

  /** Turns with the same record, one after the other, with no news from the API server in between. */
  function Retries(c: Cached, r: Record, turns: seq<Calls>): Cached
    decreases |turns|
  {
    if turns == [] then c else Retries(EnsureThroughCache(c.cache, c.stored, r, turns[0]), r, turns[1..])
  }

  /** However many turns follow: until the API server sends the Service again, a NodePort Service whose update failed
      stays outdated, and every turn whose lister answers reports success. */
  lemma {:induction false} OutdatedForGood(stored: map<string, Service>, r: Record, calls: Calls, turns: seq<Calls>)
    requires FailedUpdate(stored, r, calls) && LooksDone(stored[Key(r)], r)
    requires turns != [] && turns[|turns| - 1].serviceAnswers
    ensures var c := Retries(EnsureThroughCache(stored, stored, r, calls), r, turns);
      c.stored == stored && c.step == Done && !UpToDate(c.stored[Key(r)], r)
  {
    var c := EnsureThroughCache(stored, stored, r, calls);
    DoneStays(c, r, turns);
  }

  lemma {:induction false} DoneStays(c: Cached, r: Record, turns: seq<Calls>)
    requires Key(r) in c.cache && r.uid in c.cache[Key(r)].owners && UpToDate(c.cache[Key(r)], r)
    requires turns != [] && turns[|turns| - 1].serviceAnswers
    ensures var d := Retries(c, r, turns); d.cache == c.cache && d.stored == c.stored && d.step == Done
    decreases |turns|
  {
    var d := EnsureThroughCache(c.cache, c.stored, r, turns[0]);
    if |turns| == 1 {
      assert Retries(d, r, turns[1..]) == d;
    } else {
      DoneStays(d, r, turns[1..]);
    }
  }
}
