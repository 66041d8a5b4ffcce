/**
 * The service's cached capabilities and status. Both are read from the
 * device class the first time they are needed and never again; the status is
 * then subscribed to, so its property changes reach StatusChangedEvent.
 */
module CommonService {
  import opened Wrappers

  /**
   * One load of a cached value: a value already held is kept and the device is
   * not consulted; otherwise the device's report is stored, and a null report
   * fails the IsNotNull check after it has been stored.
   */
  function LoadOnce<T>(cached: Option<T>, reported: Option<T>): (r: (Option<T>, Option<Fault>))
    ensures cached.Some? ==> r == (cached, None)
    ensures cached.None? ==> r.0 == reported
    ensures r.1.Some? <==> cached.None? && reported.None?
  {
    if cached.Some? then (cached, None)
    else if reported.None? then (None, Some(AssertionFault("The device class must report")))
    else (reported, None)
  }

  /** Once a value is held, no later report replaces it, whatever the device says. */
  lemma {:induction false} LoadOnceIsStable<T>(cached: Option<T>, first: Option<T>, later: seq<Option<T>>)
    requires LoadOnce(cached, first).0.Some?
    ensures Replay(LoadOnce(cached, first).0, later) == LoadOnce(cached, first).0
    decreases |later|
  {
    if later != [] {
      var held := LoadOnce(cached, first).0;
      assert LoadOnce(held, later[0]).0 == held;
      LoadOnceIsStable(held, later[0], later[1..]);
    }
  }

  /** The cached value after one load per report, in order. */
  function Replay<T>(cached: Option<T>, reports: seq<Option<T>>): (r: Option<T>)
    ensures cached.Some? ==> r == cached
    ensures ReportedFirst(reports).Some? && cached.None? ==> r.Some?
    decreases |reports|
  {
    if reports == [] then cached else Replay(LoadOnce(cached, reports[0]).0, reports[1..])
  }

  /** The first non-null report, if any. */
  function ReportedFirst<T>(reports: seq<Option<T>>): Option<T>
    decreases |reports|
  {
    if reports == [] then None else if reports[0].Some? then reports[0] else ReportedFirst(reports[1..])
  }

  /** From an empty cache, the value held after a series of loads is the first non-null report. */
  lemma {:induction false} ReplayKeepsFirstReport<T>(reports: seq<Option<T>>)
    ensures Replay(None, reports) == ReportedFirst(reports)
    decreases |reports|
  {
    if reports != [] {
      if reports[0].Some? {
        assert Replay(None, reports) == Replay(reports[0], reports[1..]);
      } else {
        ReplayKeepsFirstReport(reports[1..]);
      }
    }
  }

  /**
   * The cached part of CommonServiceClass. `C` stands for the capabilities
   * record and `S` for the status record, both as the device class reports them.
   */
  class ServiceCache<C, S> {
    var commonCapabilities: Option<C>
    var commonStatus: Option<S>
    /** How many times StatusChangedEventFowarder was attached to the status's PropertyChanged. */
    var subscriptions: nat

    constructor()
      ensures commonCapabilities.None? && commonStatus.None? && subscriptions == 0
    {
      commonCapabilities := None;
      commonStatus := None;
      subscriptions := 0;
    }

    /** The status is subscribed to exactly once it is held. */
    predicate Valid()
      reads this
    {
      subscriptions == (if commonStatus.Some? then 1 else 0)
    }

    /**
     * GetCapabilities: reads the device's capabilities only while none are
     * held. The message discovery that follows a successful load is not part
     * of this model.
     */
    method GetCapabilities(reported: Option<C>) returns (fault: Option<Fault>)
      modifies this
      ensures (commonCapabilities, fault) == LoadOnce(old(commonCapabilities), reported)
      ensures commonStatus == old(commonStatus) && subscriptions == old(subscriptions)
    {
      if commonCapabilities.Some? {
        return None;
      }
      commonCapabilities := reported;
      if commonCapabilities.None? {
        return Some(AssertionFault("The device class must report"));
      }
      fault := None;
    }

    /**
     * GetStatus: reads the device's status only while none is held, and
     * subscribes to it once it passes the null check.
     */
    method GetStatus(reported: Option<S>) returns (fault: Option<Fault>)
      requires Valid()
      modifies this
      ensures Valid()
      ensures (commonStatus, fault) == LoadOnce(old(commonStatus), reported)
      ensures commonCapabilities == old(commonCapabilities)
      ensures subscriptions == old(subscriptions) + (if old(commonStatus).None? && reported.Some? then 1 else 0)
    {
      fault := None;
      if commonStatus.None? {
        commonStatus := reported;
        if commonStatus.None? {
          return Some(AssertionFault("The device class must report"));
        }
        subscriptions := subscriptions + 1;
      }
    }
  }

  /** The constructor's two loads, in order: a second construction step would reuse the cache. */
  method Construct<C, S>(capabilities: Option<C>, status: Option<S>) returns (cache: ServiceCache<C, S>, fault: Option<Fault>)
    ensures fresh(cache) && cache.Valid()
    ensures fault.Some? <==> capabilities.None? || status.None?
    ensures cache.commonCapabilities == capabilities
    ensures cache.commonStatus == (if capabilities.None? then None else status)
  {
    cache := new ServiceCache();
    fault := cache.GetCapabilities(capabilities);
    if fault.Some? {
      return;
    }
    fault := cache.GetStatus(status);
  }
}
