/**
 * The progress-bar registry: one printer per process, holding trackers by key,
 * each a counter that IncrementTracker advances in place.
 */
module ProgressPrinter {
  /** The fields of a go-pretty tracker that this package sets and advances. */
  class Tracker {
    var Message: string
    var Total: int
    var Value: int

    constructor (message: string, total: int)
      ensures Message == message && Total == total && Value == 0
    {
      Message := message;
      Total := total;
      Value := 0;
    }

    /** Tracker.Increment, without go-pretty's own stop-at-total bookkeeping. */
    method Increment(delta: int)
      modifies this`Value
      ensures Value == old(Value) + delta
    {
      Value := Value + delta;
    }
  }

  /** progressPrinter: the tracker map and the trackers appended to the progress writer. */
  class Printer {
    var Trackers: map<string, Tracker>
    var appended: seq<Tracker>

    /**
     * Every registered tracker was appended to the writer, and no two keys
     * share a tracker, because AddTracker creates a new one each time.
     */
    ghost predicate Valid()
      reads this
    {
      (forall k :: k in Trackers ==> Trackers[k] in appended) &&
      (forall k1, k2 :: k1 in Trackers && k2 in Trackers && k1 != k2 ==> Trackers[k1] != Trackers[k2])
    }

    /** The first GetInstance: an empty map and a new writer. */
    constructor ()
      ensures Valid() && Trackers == map[] && appended == []
    {
      Trackers := map[];
      appended := [];
    }

    /** The value of every registered tracker, by key. */
    ghost function Counts(): map<string, int>
      reads this, set k | k in Trackers :: Trackers[k]
    {
      map k | k in Trackers :: Trackers[k].Value
    }

    /** CreateTracker: a new tracker with the given title and total, appended to the writer. */
    method CreateTracker(title: string, total: int) returns (tracker: Tracker)
      requires Valid()
      modifies this`appended
      ensures Valid() && fresh(tracker)
      ensures tracker.Message == title && tracker.Total == total && tracker.Value == 0
      ensures appended == old(appended) + [tracker]
    {
      tracker := new Tracker(title, total);
      appended := appended + [tracker];
    }

    /** AddTracker: registers a new tracker under `key`, replacing any earlier one, and returns the key. */
    method AddTracker(key: string, title: string, total: int) returns (k: string)
      requires Valid()
      modifies this
      ensures Valid() && k == key
      ensures key in Trackers && fresh(Trackers[key])
      ensures Trackers[key].Message == title && Trackers[key].Total == total && Trackers[key].Value == 0
      ensures appended == old(appended) + [Trackers[key]]
      ensures Trackers.Keys == old(Trackers.Keys) + {key}
      ensures forall other :: other in old(Trackers) && other != key ==> Trackers[other] == old(Trackers[other])
      ensures TotalOfTrackers() == old(TotalOfTrackers()) + (if key in old(Trackers) then 0 else 1)
    {
      var tracker := CreateTracker(title, total);
      Trackers := Trackers[key := tracker];
      return key;
    }

    /** TotalOfTrackers: the number of distinct registered keys. */
    function TotalOfTrackers(): (n: nat)
      reads this
      ensures n == |Trackers.Keys|
    {
      |Trackers|
    }

    /**
     * IncrementTracker: the tracker under `key` advances by exactly one,
     * whatever `value` is, and keeps its message and total; every other
     * tracker keeps its value. An unknown key
     * is a nil dereference, so the key must be registered.
     */
    method IncrementTracker(key: string, value: int)
      requires Valid() && key in Trackers
      modifies Trackers[key]
      ensures Valid() && Trackers == old(Trackers)
      ensures Counts() == old(Counts())[key := old(Counts())[key] + 1]
      ensures Trackers[key].Message == old(Trackers[key].Message) && Trackers[key].Total == old(Trackers[key].Total)
    {
      Trackers[key].Increment(1);
    }
  }

  /** The package-level singleton and its sync.Once. */
  class Package {
    var instance: Printer?

    constructor ()
      ensures instance == null
    {
      instance := null;
    }

    /** GetInstance: the first call creates the printer, every later call returns that same one. */
    method GetInstance() returns (p: Printer)
      modifies this
      ensures instance == p
      ensures old(instance) != null ==> p == old(instance)
      ensures old(instance) == null ==> fresh(p) && p.Valid() && p.Trackers == map[] && p.appended == []
    {
      if instance == null {
        instance := new Printer();
      }
      return instance;
    }
  }
}
