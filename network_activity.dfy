/**
 * The network activity counter of `UIApplication (YYAdd)`: a count of active
 * requests and the status bar indicator, which starts when the count leaves
 * zero and stops when it returns to zero. In an app extension both calls do
 * nothing.
 */
module NetworkActivity {
  /** The count of active requests and whether the indicator is animating. */
  datatype Indicator = Indicator(count: int, animating: bool)

  datatype Call = Increment | Decrement

  /** Whether `call` may be made in state `s`: a decrement needs a request to be active (outside an extension). */
  predicate CanStep(s: Indicator, call: Call, isAppExtension: bool)
  {
    call == Decrement && !isAppExtension ==> s.count > 0
  }

  /** One call, as the interface describes it. */
  function Step(s: Indicator, call: Call, isAppExtension: bool): (r: Indicator)
    requires CanStep(s, call, isAppExtension)
    ensures isAppExtension ==> r == s
    ensures !isAppExtension ==> r.count == if call == Increment then s.count + 1 else s.count - 1
    ensures !isAppExtension && call == Increment && s.count == 0 ==> r.animating
    ensures !isAppExtension && call == Decrement && r.count == 0 ==> !r.animating
  {
    if isAppExtension then s
    else
      match call
      case Increment => Indicator(s.count + 1, if s.count == 0 then true else s.animating)
      case Decrement => Indicator(s.count - 1, if s.count - 1 == 0 then false else s.animating)
  }

  /** The indicator state keeps this: it animates exactly while a request is active. */
  predicate Consistent(s: Indicator)
  {
    s.count >= 0 && (s.animating <==> s.count > 0)
  }

  /** Every permitted call keeps the indicator consistent with the count. */
  lemma StepKeepsConsistent(s: Indicator, call: Call, isAppExtension: bool)
    requires Consistent(s) && CanStep(s, call, isAppExtension)
    ensures Consistent(Step(s, call, isAppExtension))
  {
  }

  /** A sequence of calls none of which decrements an idle count. */
  predicate Allowed(s: Indicator, calls: seq<Call>, isAppExtension: bool)
    decreases |calls|
  {
    calls == [] ||
      (CanStep(s, calls[0], isAppExtension) && Allowed(Step(s, calls[0], isAppExtension), calls[1..], isAppExtension))
  }

  /** The state after the calls, in order. */
  function Replay(s: Indicator, calls: seq<Call>, isAppExtension: bool): Indicator
    requires Allowed(s, calls, isAppExtension)
    decreases |calls|
  {
    if calls == [] then s else Replay(Step(s, calls[0], isAppExtension), calls[1..], isAppExtension)
  }

  /** The number of increments minus the number of decrements. */
  function NetCalls(calls: seq<Call>): int
  {
    if calls == [] then 0 else (if calls[0] == Increment then 1 else -1) + NetCalls(calls[1..])
  }

  /**
   * Starting from a consistent state (such as no requests and no indicator),
   * the indicator animates after any permitted sequence of calls exactly when
   * the count is positive.
   */
  lemma {:induction false} IndicatorTracksCount(s: Indicator, calls: seq<Call>, isAppExtension: bool)
    requires Consistent(s) && Allowed(s, calls, isAppExtension)
    ensures Consistent(Replay(s, calls, isAppExtension))
    decreases |calls|
  {
    if calls != [] {
      StepKeepsConsistent(s, calls[0], isAppExtension);
      IndicatorTracksCount(Step(s, calls[0], isAppExtension), calls[1..], isAppExtension);
    }
  }

  /** The count moves by one per call, and not at all in an app extension. */
  lemma {:induction false} ReplayCount(s: Indicator, calls: seq<Call>, isAppExtension: bool)
    requires Allowed(s, calls, isAppExtension)
    ensures Replay(s, calls, isAppExtension).count == if isAppExtension then s.count else s.count + NetCalls(calls)
    ensures isAppExtension ==> Replay(s, calls, isAppExtension) == s
    decreases |calls|
  {
    if calls != [] {
      ReplayCount(Step(s, calls[0], isAppExtension), calls[1..], isAppExtension);
    }
  }

  /** The application object, as far as the counter is concerned. */
  class Application {
    /** `isAppExtension`. */
    const isAppExtension: bool
    var networkActivityCount: int
    var networkActivityIndicatorVisible: bool

    function State(): Indicator
      reads this
    {
      Indicator(networkActivityCount, networkActivityIndicatorVisible)
    }

    constructor (isAppExtension: bool)
      ensures this.isAppExtension == isAppExtension
      ensures State() == Indicator(0, false) && Consistent(State())
    {
      this.isAppExtension := isAppExtension;
      networkActivityCount := 0;
      networkActivityIndicatorVisible := false;
    }

    /** `incrementNetworkActivityCount`. */
    method IncrementNetworkActivityCount()
      modifies this
      ensures State() == Step(old(State()), Increment, isAppExtension)
      ensures old(Consistent(State())) ==> Consistent(State())
    {
      if isAppExtension {
        return;
      }
      if networkActivityCount == 0 {
        networkActivityIndicatorVisible := true;
      }
      networkActivityCount := networkActivityCount + 1;
    }

    /** `decrementNetworkActivityCount`. */
    method DecrementNetworkActivityCount()
      requires CanStep(State(), Decrement, isAppExtension)
      modifies this
      ensures State() == Step(old(State()), Decrement, isAppExtension)
      ensures old(Consistent(State())) ==> Consistent(State())
    {
      if isAppExtension {
        return;
      }
      networkActivityCount := networkActivityCount - 1;
      if networkActivityCount == 0 {
        networkActivityIndicatorVisible := false;
      }
    }
  }
}
