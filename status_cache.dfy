/** The stateful switch's result cache: when the last successful status
    query happened and how long its answer stays fresh. */
module StatusCache {
  import opened Options
  import opened JsValue

  /** `window` is the cache time in milliseconds: 0 means "always query
      again", a negative window is the "infinite" sentinel. `lastQueried` is
      the time of the last successful query, None before the first. */
  datatype Cache = Cache(window: int, lastQueried: Option<int>) {

    predicate IsInfinite() {
      window < 0
    }

    /** Whether a get at time `now` must ask the device. */
    predicate ShouldQuery(now: int) {
      if window == 0 then true
      else if lastQueried.None? then true
      else if IsInfinite() then false
      else now - lastQueried.value > window
    }

    /** Marks a successful query at time `now`. */
    function Queried(now: int): (c: Cache)
      ensures c.window == window
      ensures !c.ShouldQuery(now) <==> window != 0
    {
      this.(lastQueried := Some(now))
    }
  }

  /** `new Cache(config.statusCache, defaultTime)`: the configured time when
      it is a number, the default otherwise; never queried yet. */
  function NewCache(configured: Option<Value>, defaultTime: int): (c: Cache)
    ensures c.lastQueried.None? && c.ShouldQuery(0)
    ensures c.window == if IsNumber(configured) then configured.value.n else defaultTime
  {
    Cache(if IsNumber(configured) then configured.value.n else defaultTime, None)
  }

  /** After a successful query at `t`, a get at `later` asks the device again
      exactly when: the window is 0; or the window is finite and more than
      `window` milliseconds have passed. An infinite window pins the value. */
  lemma QueryAgainIff(c: Cache, t: int, later: int)
    ensures c.Queried(t).ShouldQuery(later) <==>
              c.window == 0 || (c.window > 0 && later - t > c.window)
  {
  }

  /** Two gets within one positive window: the first (on an empty cache)
      queries, its success marks the cache, and the second is served from the
      cache; a second get after the window queries again. */
  lemma TwoGetsWithinWindow(window: int, t: int, later: int)
    requires window > 0 && t <= later
    ensures Cache(window, None).ShouldQuery(t)
    ensures !Cache(window, None).Queried(t).ShouldQuery(later) <==> later - t <= window
  {
  }
}
