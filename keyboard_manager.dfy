/**
 * The observer registry of `YYTextKeyboardManager`: observers are kept as a
 * set, and adding or removing `nil`, adding an observer already there, or
 * removing one that is not there does nothing.
 */
module KeyboardManager {
  import opened Wrappers

  /** The identity of an observer object. */
  type ObserverId = nat

  /** The observers after `addObserver:`. */
  function Added(observers: set<ObserverId>, observer: Option<ObserverId>): (r: set<ObserverId>)
    ensures observer.None? ==> r == observers
    ensures observer.Some? ==> forall x :: x in r <==> x == observer.value || x in observers
  {
    if observer.None? || observer.value in observers then observers else observers + {observer.value}
  }

  /** The observers after `removeObserver:`. */
  function Removed(observers: set<ObserverId>, observer: Option<ObserverId>): (r: set<ObserverId>)
    ensures observer.None? ==> r == observers
    ensures observer.Some? ==> forall x :: x in r <==> x != observer.value && x in observers
  {
    if observer.None? || observer.value !in observers then observers else observers - {observer.value}
  }

  /** Adding an observer that is already there changes nothing, so adding twice is adding once. */
  lemma AddIdempotent(observers: set<ObserverId>, observer: Option<ObserverId>)
    ensures observer.Some? && observer.value in observers ==> Added(observers, observer) == observers
    ensures Added(Added(observers, observer), observer) == Added(observers, observer)
  {
  }

  /** Removing an observer that is not there changes nothing, so removing twice is removing once. */
  lemma RemoveIdempotent(observers: set<ObserverId>, observer: Option<ObserverId>)
    ensures observer.Some? && observer.value !in observers ==> Removed(observers, observer) == observers
    ensures Removed(Removed(observers, observer), observer) == Removed(observers, observer)
  {
  }

  /** Adding a fresh observer and then removing it restores the registry; so does removing a present one and adding it back. */
  lemma AddRemoveInverse(observers: set<ObserverId>, observer: ObserverId)
    ensures observer !in observers ==> Removed(Added(observers, Some(observer)), Some(observer)) == observers
    ensures observer in observers ==> Added(Removed(observers, Some(observer)), Some(observer)) == observers
  {
  }

  class YYTextKeyboardManager {
    /** The registered observers. */
    var observers: set<ObserverId>

    /** The manager `defaultManager` gives: no observers registered yet. */
    constructor ()
      ensures observers == {}
    {
      observers := {};
    }

    /** `addObserver:`. */
    method AddObserver(observer: Option<ObserverId>)
      modifies this
      ensures observers == Added(old(observers), observer)
    {
      if observer.None? {
        return;
      }
      if observer.value !in observers {
        observers := observers + {observer.value};
      }
    }

    /** `removeObserver:`. */
    method RemoveObserver(observer: Option<ObserverId>)
      modifies this
      ensures observers == Removed(old(observers), observer)
    {
      if observer.None? {
        return;
      }
      if observer.value in observers {
        observers := observers - {observer.value};
      }
    }
  }
}
