/**
 * `JfrFilterClassClosure`: the walk over all loaded classes that collects
 * the classes to retransform when a new filter is installed.  A class is
 * collected when the previous filter (whose instrumentation must be removed)
 * or the new filter (whose instrumentation must be added) matches it.
 */
module ClassFilterClosures {
  import opened Wrappers
  import opened Vm
  import opened Filters

  /** What `match` decides for a class. */
  predicate ClosureMatches(previousFilter: Option<Filter>, newFilter: Filter, ik: Klass)
    reads ik, ik.methods
  {
    CanInstrumentClass(ik)
    && ((previousFilter.Some? && Matches(previousFilter.value, ik)) || Matches(newFilter, ik))
  }

  /** The methods of the classes `ks`. */
  function MethodsOf(ks: seq<Klass>): set<Method> {
    set k, m | k in ks && m in k.methods :: m
  }

  /** The classes among the first `n` of `ks`, in order, that `do_klass` collects. */
  function MatchingClasses(previousFilter: Option<Filter>, newFilter: Filter, ks: seq<Klass>, n: nat): seq<Klass>
    requires n <= |ks|
    reads ks, MethodsOf(ks)
  {
    if n == 0 then []
    else
      var k := ks[n - 1];
      assert k in ks && forall m :: m in k.methods ==> m in MethodsOf(ks);
      MatchingClasses(previousFilter, newFilter, ks, n - 1)
      + (if k.isInstance && ClosureMatches(previousFilter, newFilter, k) then [k] else [])
  }

  /**
   * Exactly the instance classes that match are collected, each from a
   * position of `ks`, in the order of `ks`.
   */
  lemma {:induction false} MatchingClassesMeaning(previousFilter: Option<Filter>, newFilter: Filter, ks: seq<Klass>, n: nat)
    requires n <= |ks|
    ensures var r := MatchingClasses(previousFilter, newFilter, ks, n);
      |r| <= n
      && (forall k :: k in r <==> exists i :: 0 <= i < n && ks[i] == k && k.isInstance && ClosureMatches(previousFilter, newFilter, k))
  {
    if n > 0 {
      MatchingClassesMeaning(previousFilter, newFilter, ks, n - 1);
      var k := ks[n - 1];
      var prior := MatchingClasses(previousFilter, newFilter, ks, n - 1);
      forall x
        ensures x in MatchingClasses(previousFilter, newFilter, ks, n) <==>
          exists i :: 0 <= i < n && ks[i] == x && x.isInstance && ClosureMatches(previousFilter, newFilter, x)
      {
        if x in prior {
          var i :| 0 <= i < n - 1 && ks[i] == x && x.isInstance && ClosureMatches(previousFilter, newFilter, x);
          assert 0 <= i < n;
        }
      }
    }
  }

  /** With no previous filter only the new filter decides. */
  lemma NoPreviousFilter(newFilter: Filter, ik: Klass)
    ensures ClosureMatches(None, newFilter, ik) <==> CanInstrumentClass(ik) && Matches(newFilter, ik)
  {
  }

  /** A class the new filter would take is collected whatever the previous filter. */
  lemma NewFilterSuffices(previousFilter: Option<Filter>, newFilter: Filter, ik: Klass)
    requires CanInstrumentClass(ik) && Matches(newFilter, ik)
    ensures ClosureMatches(previousFilter, newFilter, ik)
  {
  }

  class FilterClassClosure {
    /** `None` when there is no instrumentation to remove. */
    const previousFilter: Option<Filter>
    const newFilter: Filter
    var classesToModify: seq<Klass>

    constructor (previousFilter: Option<Filter>, newFilter: Filter)
      ensures this.previousFilter == previousFilter && this.newFilter == newFilter
      ensures classesToModify == []
    {
      this.previousFilter := previousFilter;
      this.newFilter := newFilter;
      classesToModify := [];
    }

    method Match(ik: Klass) returns (matched: bool)
      ensures matched == ClosureMatches(previousFilter, newFilter, ik)
    {
      if previousFilter.Some? {
        var previousMatch := Filters.Match(previousFilter.value, ik);
        if CanInstrumentClass(ik) && previousMatch {
          return true;
        }
      }
      var newMatch := Filters.Match(newFilter, ik);
      return CanInstrumentClass(ik) && newMatch;
    }

    /** `do_klass`: an instance class that matches is appended. */
    method DoKlass(k: Klass)
      modifies this
      ensures classesToModify ==
        old(classesToModify) + (if k.isInstance && ClosureMatches(previousFilter, newFilter, k) then [k] else [])
    {
      if k.isInstance {
        var matched := Match(k);
        if matched {
          classesToModify := classesToModify + [k];
        }
      }
    }

    /** `iterate_all_classes` over the loaded classes `loaded`, in the order given. */
    method IterateAllClasses(loaded: seq<Klass>)
      modifies this
      ensures classesToModify == old(classesToModify) + MatchingClasses(previousFilter, newFilter, loaded, |loaded|)
    {
      for i := 0 to |loaded|
        invariant classesToModify == old(classesToModify) + MatchingClasses(previousFilter, newFilter, loaded, i)
      {
        // The closure is neither a class nor a method, so appending leaves the decisions unchanged.
        assert forall o: object :: o in loaded ==> o != this;
        assert forall o: object :: o in MethodsOf(loaded) ==> o != this;
        DoKlass(loaded[i]);
      }
    }
  }
}
