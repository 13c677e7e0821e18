/**
 * `JfrMethodTracer`: the global state of method tracing (the current and
 * previous filter, the list of instrumented classes and the ids of unloaded
 * instrumented classes) and the operations that install filters and keep the
 * list.  The static fields become the fields of one `MethodTracer` object;
 * the JVMTI retransformation, the class-file rewriting and the unloading and
 * recording queries of the runtime are parameters or are left to the caller.
 */
module MethodTracers {
  import opened Wrappers
  import opened Vm
  import opened Filters
  import opened ClassFilterClosures
  import opened TracedMethods
  import opened InstrumentedClasses
  import opened TraceTagging

  // ---------------------------------------------------------------------
  // What collect_new_timing_entries and trim_instrumented_classes compute

  /** The ids, in list order, of the live entries among the first `n` whose class has the timing bit. */
  function TimingIds(entries: seq<InstrumentedClass>, unloadedIds: set<int>, n: nat): seq<int>
    requires n <= |entries|
    reads EntryKlasses(entries)
  {
    if n == 0 then []
    else
      var e := entries[n - 1];
      assert e.klass in EntryKlasses(entries);
      TimingIds(entries, unloadedIds, n - 1) + (if IsLive(e, unloadedIds) && e.klass.timing then [e.traceId] else [])
  }

  /** An id is collected exactly when a live entry with that id has a timed class. */
  lemma {:induction false} TimingIdsMeaning(entries: seq<InstrumentedClass>, unloadedIds: set<int>, n: nat)
    requires n <= |entries|
    ensures forall id :: id in TimingIds(entries, unloadedIds, n) <==>
      exists i :: 0 <= i < n && entries[i].traceId == id && IsLive(entries[i], unloadedIds) && entries[i].klass.timing
  {
    if n > 0 {
      TimingIdsMeaning(entries, unloadedIds, n - 1);
      var prior := TimingIds(entries, unloadedIds, n - 1);
      forall id | id in prior
        ensures exists i :: 0 <= i < n && entries[i].traceId == id && IsLive(entries[i], unloadedIds) && entries[i].klass.timing
      {
        var i :| 0 <= i < n - 1 && entries[i].traceId == id && IsLive(entries[i], unloadedIds) && entries[i].klass.timing;
        assert 0 <= i < n;
      }
    }
  }

  /** With no live timed class nothing is collected: the second of two calls returns nothing. */
  lemma {:induction false} NoTimingNoIds(entries: seq<InstrumentedClass>, unloadedIds: set<int>, n: nat)
    requires n <= |entries|
    requires forall i :: 0 <= i < n && IsLive(entries[i], unloadedIds) ==> !entries[i].klass.timing
    ensures TimingIds(entries, unloadedIds, n) == []
  {
    if n > 0 {
      NoTimingNoIds(entries, unloadedIds, n - 1);
    }
  }

  /** The entries among the first `n` whose class is not unloaded, in order. */
  function LiveEntries(entries: seq<InstrumentedClass>, n: nat): seq<InstrumentedClass>
    requires n <= |entries|
  {
    if n == 0 then []
    else LiveEntries(entries, n - 1) + (if entries[n - 1].unloaded then [] else [entries[n - 1]])
  }

  /** The trace ids of the unloaded entries among the first `n`, in order. */
  function UnloadedIds(entries: seq<InstrumentedClass>, n: nat): seq<int>
    requires n <= |entries|
  {
    if n == 0 then []
    else UnloadedIds(entries, n - 1) + (if entries[n - 1].unloaded then [entries[n - 1].traceId] else [])
  }

  /** The kept entries are exactly the live ones among the first `n`; the count adds up. */
  lemma {:induction false} LiveEntriesMeaning(entries: seq<InstrumentedClass>, n: nat)
    requires n <= |entries|
    ensures |LiveEntries(entries, n)| + |UnloadedIds(entries, n)| == n
    ensures forall e :: e in LiveEntries(entries, n) ==> e in entries[..n] && !e.unloaded
    ensures forall i :: 0 <= i < n && !entries[i].unloaded ==> entries[i] in LiveEntries(entries, n)
  {
    if n > 0 {
      LiveEntriesMeaning(entries, n - 1);
      assert entries[..n] == entries[..n - 1] + [entries[n - 1]];
    }
  }

  /** The moved ids are exactly those of the unloaded entries among the first `n`. */
  lemma {:induction false} UnloadedIdsMeaning(entries: seq<InstrumentedClass>, n: nat)
    requires n <= |entries|
    ensures forall id :: id in UnloadedIds(entries, n) <==>
      exists i :: 0 <= i < n && entries[i].unloaded && entries[i].traceId == id
  {
    if n > 0 {
      UnloadedIdsMeaning(entries, n - 1);
      var prior := UnloadedIds(entries, n - 1);
      forall id | id in prior
        ensures exists i :: 0 <= i < n && entries[i].unloaded && entries[i].traceId == id
      {
        var i :| 0 <= i < n - 1 && entries[i].unloaded && entries[i].traceId == id;
        assert 0 <= i < n;
      }
    }
  }

  /**
   * Trimming partitions the list: every entry is either kept or has its id
   * moved to the unloaded ids, the kept entries are exactly the live ones,
   * and the moved ids are exactly those of the unloaded ones.
   */
  lemma TrimPartitions(entries: seq<InstrumentedClass>, n: nat)
    requires n <= |entries|
    ensures |LiveEntries(entries, n)| + |UnloadedIds(entries, n)| == n
    ensures forall e :: e in LiveEntries(entries, n) ==> e in entries[..n] && !e.unloaded
    ensures forall i :: 0 <= i < n && !entries[i].unloaded ==> entries[i] in LiveEntries(entries, n)
    ensures forall id :: id in UnloadedIds(entries, n) <==>
      exists i :: 0 <= i < n && entries[i].unloaded && entries[i].traceId == id
  {
    LiveEntriesMeaning(entries, n);
    UnloadedIdsMeaning(entries, n);
  }

  /** The kept entries of a well-formed list form a well-formed list. */
  lemma {:induction false} LiveEntriesWellFormed(entries: seq<InstrumentedClass>, n: nat)
    requires n <= |entries| && WellFormed(entries)
    ensures WellFormed(LiveEntries(entries, n))
  {
    if n > 0 {
      LiveEntriesWellFormed(entries, n - 1);
      var e := entries[n - 1];
      if !e.unloaded {
        var prior := LiveEntries(entries, n - 1);
        LiveEntriesMeaning(entries, n - 1);
        forall k | 0 <= k < |prior|
          ensures !SameClass(prior[k], e)
        {
          assert prior[k] in prior;
          var j :| 0 <= j < n - 1 && entries[..n - 1][j] == prior[k];
          assert entries[j] == prior[k];
        }
        AppendKeepsWellFormed(prior, e);
      }
    }
  }

  // ---------------------------------------------------------------------
  // The tracer

  class MethodTracer {
    var filter: Option<Filter>
    var previousFilter: Option<Filter>
    /** `_instrumented_classes`, allocated on first use. */
    var instrumented: InstrumentedList?
    /** `_unloaded_class_ids`, allocated together with the list. */
    var unloadedClassIds: Option<seq<int>>
    /** The tag state kept by `JfrTraceIdEpoch`. */
    const epoch: EpochState

    constructor (epoch: EpochState)
      ensures filter == None && previousFilter == None
      ensures instrumented == null && unloadedClassIds == None
      ensures this.epoch == epoch
    {
      filter := None;
      previousFilter := None;
      instrumented := null;
      unloadedClassIds := None;
      this.epoch := epoch;
    }

    /** Both lists exist or neither does, and the instrumented list has no class twice. */
    predicate Valid()
      reads this, instrumented
    {
      (instrumented == null <==> unloadedClassIds.None?)
      && (instrumented != null ==> WellFormed(instrumented.elements))
    }

    /** The instrumented classes; none before the list exists. */
    function Entries(): seq<InstrumentedClass>
      reads this, instrumented
    {
      if instrumented == null then [] else instrumented.elements
    }

    /** Every live instrumented class carries the sticky bit. */
    predicate LiveEntriesSticky(unloadedIds: set<int>)
      reads this, instrumented, EntryKlasses(Entries())
    {
      forall i :: 0 <= i < |Entries()| && IsLive(Entries()[i], unloadedIds) ==> Entries()[i].klass.sticky
    }

    /** `in_use`: a filter has been installed. */
    predicate InUse()
      reads this
    {
      filter.Some?
    }

    /** `current_filter`. */
    function CurrentFilter(): (f: Option<Filter>)
      reads this
      ensures f.Some? <==> InUse()
    {
      filter
    }

    /**
     * `_unloaded_class_ids` changed at most by the lazy allocation of
     * `instrumented_classes`: kept when the lists existed, otherwise empty.
     */
    twostate predicate UnloadedIdsKept()
      reads this
    {
      (old(instrumented) != null ==> unloadedClassIds == old(unloadedClassIds))
      && (old(instrumented) == null ==> unloadedClassIds == Some([]))
    }

    /** `instrumented_classes`: allocates both lists on first use. */
    method InstrumentedClasses() returns (list: InstrumentedList)
      requires Valid()
      modifies this
      ensures Valid() && list == instrumented
      ensures old(instrumented) != null ==> list == old(instrumented) && unloadedClassIds == old(unloadedClassIds)
      ensures old(instrumented) == null ==> fresh(list) && list.elements == [] && unloadedClassIds == Some([])
      ensures Entries() == old(Entries())
      ensures filter == old(filter) && previousFilter == old(previousFilter)
    {
      if instrumented == null {
        instrumented := new InstrumentedList();
        unloadedClassIds := Some([]);
      }
      list := instrumented;
    }

    /** The private `set_filters`: the new filter becomes current. */
    method SetFilterPair(previous: Option<Filter>, newFilter: Filter)
      modifies this
      ensures previousFilter == previous && filter == Some(newFilter)
      ensures instrumented == old(instrumented) && unloadedClassIds == old(unloadedClassIds)
    {
      previousFilter := previous;
      if filter != Some(newFilter) {
        filter := Some(newFilter);
      }
    }

    /**
     * The first step of `set_filters`: a `JfrFilterClassClosure` visits every
     * loaded class and collects those the previous or the new filter matches;
     * nothing but the fresh closure changes.
     */
    method CollectMatchingClasses(previous: Option<Filter>, newFilter: Filter, loaded: seq<Klass>)
      returns (classes: seq<Klass>)
      ensures classes == old(MatchingClasses(previous, newFilter, loaded, |loaded|))
    {
      ghost var toModify := MatchingClasses(previous, newFilter, loaded, |loaded|);
      var closure := new FilterClassClosure(previous, newFilter);
      // The closure is neither a class nor a method, so collecting leaves the decisions unchanged.
      assert forall o: object :: o in loaded ==> o != closure;
      assert forall o: object :: o in ClassFilterClosures.MethodsOf(loaded) ==> o != closure;
      closure.IterateAllClasses(loaded);
      assert closure.classesToModify == toModify;
      classes := closure.classesToModify;
    }

    /** The part of `set_filters` after the matching classes are collected: clear the list and install the filter pair. */
    method ClearAndInstall(previous: Option<Filter>, newFilter: Filter, unloadedIds: set<int>, dynamicTag: bool)
      requires Valid() && LiveEntriesSticky(unloadedIds)
      requires |Entries()| == 0 ==> !epoch.methodTracerTagState
      modifies this, instrumented, epoch, EntryKlasses(Entries()), EntryMethods(Entries())
      ensures filter == Some(newFilter) && previousFilter == previous
      ensures Valid() && Entries() == [] && !epoch.methodTracerTagState
      ensures UnloadedIdsKept()
      ensures forall i :: 0 <= i < |old(Entries())| && IsLive(old(Entries())[i], unloadedIds)
                ==> Cleared(old(Entries())[i].klass)
      ensures forall i :: 0 <= i < |old(Entries())| ==>
                var k := old(Entries())[i].klass;
                k.dynamicTagged == (old(k.dynamicTagged) || (dynamicTag && IsLive(old(Entries())[i], unloadedIds)))
      ensures forall i, m :: 0 <= i < |old(Entries())| && m in old(Entries())[i].klass.methods ==>
                m.dynamicTagged
                == (old(m.dynamicTagged) || (dynamicTag && IsLive(old(Entries())[i], unloadedIds) && old(m.sticky)))
      ensures forall i :: 0 <= i < |old(Entries())| && !IsLive(old(Entries())[i], unloadedIds) ==>
                var k := old(Entries())[i].klass;
                k.sticky == old(k.sticky) && k.timing == old(k.timing)
                && forall m :: m in k.methods ==> m.sticky == old(m.sticky)
    {
      var list := InstrumentedClasses();
      Clear(list, dynamicTag, epoch, unloadedIds);
      SetFilterPair(previous, newFilter);
    }

    /**
     * The public `set_filters` up to the retransformation.  `newFilter` is what
     * `JfrFilter::from` built, `None` when it failed; `loaded` is the order in
     * which the runtime visits the loaded classes, `unloadedIds` the classes it
     * reports unloaded, and `dynamicTag` the argument `clear` receives.  On
     * success the classes matched by the old or the new filter are returned for
     * retransformation, the instrumented classes have had their sticky bits
     * cleared, the list is empty and the new filter is current.
     */
    method BeginSetFilters(newFilter: Option<Filter>, loaded: seq<Klass>, unloadedIds: set<int>, dynamicTag: bool)
      returns (classesToModify: Option<seq<Klass>>)
      requires Valid() && LiveEntriesSticky(unloadedIds)
      requires |Entries()| == 0 ==> !epoch.methodTracerTagState
      modifies this, instrumented, epoch, EntryKlasses(Entries()), EntryMethods(Entries())
      ensures newFilter.None? ==>
                && classesToModify.None? && unchanged(this, epoch) && Entries() == old(Entries())
                && unchanged(EntryKlasses(Entries())) && unchanged(EntryMethods(Entries()))
      ensures newFilter.Some? ==>
                && classesToModify == Some(old(MatchingClasses(filter, newFilter.value, loaded, |loaded|)))
                && filter == newFilter && previousFilter == old(filter)
                && Valid() && Entries() == [] && !epoch.methodTracerTagState && UnloadedIdsKept()
                && (forall i :: 0 <= i < |old(Entries())| && IsLive(old(Entries())[i], unloadedIds)
                      ==> Cleared(old(Entries())[i].klass))
                && (forall i :: 0 <= i < |old(Entries())| ==>
                      var k := old(Entries())[i].klass;
                      k.dynamicTagged == (old(k.dynamicTagged) || (dynamicTag && IsLive(old(Entries())[i], unloadedIds))))
                && (forall i, m :: 0 <= i < |old(Entries())| && m in old(Entries())[i].klass.methods ==>
                      m.dynamicTagged
                      == (old(m.dynamicTagged) || (dynamicTag && IsLive(old(Entries())[i], unloadedIds) && old(m.sticky))))
                && (forall i :: 0 <= i < |old(Entries())| && !IsLive(old(Entries())[i], unloadedIds) ==>
                      var k := old(Entries())[i].klass;
                      k.sticky == old(k.sticky) && k.timing == old(k.timing)
                      && forall m :: m in k.methods ==> m.sticky == old(m.sticky))
    {
      if newFilter.None? {
        return None;
      }
      var previous := CurrentFilter();
      var classes := CollectMatchingClasses(previous, newFilter.value, loaded);
      ClearAndInstall(previous, newFilter.value, unloadedIds, dynamicTag);
      return Some(classes);
    }

    /**
     * The public `set_filters` after the retransformation: the previous filter
     * is dropped and the ids of the classes that became timed are collected,
     * or `None` when there are none.
     */
    method FinishSetFilters(newFilter: Filter, unloadedIds: set<int>) returns (published: Option<seq<int>>)
      requires Valid() && LiveEntriesSticky(unloadedIds)
      modifies this, EntryKlasses(Entries())
      ensures filter == Some(newFilter) && previousFilter == None
      ensures Valid() && Entries() == old(Entries()) && UnloadedIdsKept()
      ensures forall i :: 0 <= i < |Entries()| ==>
                var k := Entries()[i].klass;
                k.timing == (old(k.timing) && !IsLive(Entries()[i], unloadedIds))
                && k.sticky == old(k.sticky) && k.dynamicTagged == old(k.dynamicTagged)
      ensures var ids := old(TimingIds(Entries(), unloadedIds, |Entries()|));
        published == if ids == [] then None else Some(ids)
      ensures TimingIds(Entries(), unloadedIds, |Entries()|) == []
    {
      SetFilterPair(None, newFilter);
      var toBePublished := CollectNewTimingEntries(unloadedIds);
      if |toBePublished| > 0 {
        return Some(toBePublished);
      }
      return None;
    }

    /**
     * `collect_new_timing_entries`: the ids of the live classes with the timing
     * bit, in list order; their timing bits are cleared, so that a second call
     * collects nothing.
     */
    method CollectNewTimingEntries(unloadedIds: set<int>) returns (result: seq<int>)
      requires Valid() && LiveEntriesSticky(unloadedIds)
      modifies this, EntryKlasses(Entries())
      ensures result == old(TimingIds(Entries(), unloadedIds, |Entries()|))
      ensures Valid() && Entries() == old(Entries()) && UnloadedIdsKept()
      ensures filter == old(filter) && previousFilter == old(previousFilter)
      ensures forall i :: 0 <= i < |Entries()| ==>
                var k := Entries()[i].klass;
                k.timing == (old(k.timing) && !IsLive(Entries()[i], unloadedIds))
                && k.sticky == old(k.sticky) && k.dynamicTagged == old(k.dynamicTagged)
      ensures TimingIds(Entries(), unloadedIds, |Entries()|) == []
    {
      result := [];
      var list := InstrumentedClasses();
      var entries := list.elements;
      if |entries| == 0 {
        return;
      }
      for i := 0 to |entries|
        invariant Valid() && instrumented == list && list.elements == entries && UnloadedIdsKept()
        invariant filter == old(filter) && previousFilter == old(previousFilter)
        invariant result == old(TimingIds(entries, unloadedIds, i))
        invariant forall j :: 0 <= j < |entries| ==>
                    var k := entries[j].klass;
                    k.sticky == old(k.sticky) && k.dynamicTagged == old(k.dynamicTagged)
                    && k.timing == (old(k.timing) && !(j < i && IsLive(entries[j], unloadedIds)))
      {
        var e := entries[i];
        if IsLive(e, unloadedIds) {
          forall j | 0 <= j < |entries| && j != i
            ensures entries[j].klass != e.klass
          {
            if j < i { WellFormedKlassesDistinct(entries, j, i); } else { WellFormedKlassesDistinct(entries, i, j); }
          }
          if e.klass.timing {
            e.klass.timing := false;
            result := result + [e.traceId];
          }
        }
      }
      NoTimingNoIds(entries, unloadedIds, |entries|);
    }

    /**
     * `on_klass_redefinition`, once a sticky class has received its rewritten
     * methods.  When not `recording`, the class loses its sticky bits and the
     * list is not touched.  Otherwise the class is appended unless already
     * present; the first entry sets the tag state, and an appended class and
     * its sticky methods are dynamically tagged.
     */
    method OnKlassRedefinition(ik: Klass, recording: bool)
      requires ik.sticky && InUse() && Valid() && OwnsMethods(ik)
      requires recording && |Entries()| == 0 ==> !epoch.methodTracerTagState
      modifies this, instrumented, epoch, ik, set m | m in ik.methods
      ensures Valid() && filter == old(filter) && previousFilter == old(previousFilter)
      ensures !recording ==>
                && instrumented == old(instrumented) && Entries() == old(Entries())
                && unloadedClassIds == old(unloadedClassIds)
                && unchanged(epoch) && !ik.sticky && !ik.timing && ik.dynamicTagged == old(ik.dynamicTagged)
                && forall m :: m in ik.methods ==> !m.sticky && m.dynamicTagged == old(m.dynamicTagged)
      ensures recording ==>
                var jic := InstrumentedClass(ik.traceId, ik, false);
                var added := !Contains(old(Entries()), jic);
                && Entries() == old(Entries()) + (if added then [jic] else [])
                && Contains(Entries(), jic) && UnloadedIdsKept()
                && epoch.methodTracerTagState == (old(epoch.methodTracerTagState) || (added && |old(Entries())| == 0))
                && ik.sticky && ik.timing == old(ik.timing)
                && ik.dynamicTagged == (old(ik.dynamicTagged) || added)
                && forall m :: m in ik.methods ==>
                     m.sticky == old(m.sticky) && m.dynamicTagged == (old(m.dynamicTagged) || (added && old(m.sticky)))
    {
      if !recording {
        ClearStickyBit(ik, false);
        return;
      }
      AddRedefinedClass(ik);
    }

    /** The recording branch of `on_klass_redefinition`: an absent class is appended and dynamically tagged. */
    method AddRedefinedClass(ik: Klass)
      requires ik.sticky && Valid() && OwnsMethods(ik)
      requires |Entries()| == 0 ==> !epoch.methodTracerTagState
      modifies this, instrumented, epoch, ik`dynamicTagged, set m | m in ik.methods
      ensures Valid() && filter == old(filter) && previousFilter == old(previousFilter)
      ensures var jic := InstrumentedClass(ik.traceId, ik, false);
              var added := !Contains(old(Entries()), jic);
              && Entries() == old(Entries()) + (if added then [jic] else [])
              && Contains(Entries(), jic) && UnloadedIdsKept()
              && epoch.methodTracerTagState == (old(epoch.methodTracerTagState) || (added && |old(Entries())| == 0))
              && ik.dynamicTagged == (old(ik.dynamicTagged) || added)
              && forall m :: m in ik.methods ==>
                   m.sticky == old(m.sticky) && m.dynamicTagged == (old(m.dynamicTagged) || (added && old(m.sticky)))
    {
      var list := InstrumentedClasses();
      var jic := InstrumentedClass(ik.traceId, ik, false);
      var found := list.Find(jic);
      if found == -1 {
        AppendClass(ik);
        SetDynamicTagForStickyBit(ik);
      }
    }

    /**
     * `add_instrumented_class`, on the initial load of a class whose records
     * `methods` are set: the records' methods and the class are dynamically
     * tagged and get the sticky bit, and the class, which must be absent, is
     * appended; the first entry sets the tag state.
     */
    method AddInstrumentedClass(ik: Klass, methods: seq<TracedMethod>)
      requires |methods| > 0 && MethodsSet(methods)
      requires DistinctMethods(RecordMethods(methods))
      requires forall i :: 0 <= i < |methods| ==> !methods[i].tracedMethod.value.sticky
      requires !ik.sticky && Valid() && OwnsMethods(ik)
      requires !Contains(Entries(), InstrumentedClass(ik.traceId, ik, false))
      modifies this, instrumented, epoch, ik`dynamicTagged, ik`sticky, set i | 0 <= i < |methods| :: methods[i].tracedMethod.value
      ensures Valid() && filter == old(filter) && previousFilter == old(previousFilter)
      ensures Entries() == old(Entries()) + [InstrumentedClass(ik.traceId, ik, false)]
      ensures Contains(Entries(), InstrumentedClass(ik.traceId, ik, false))
      ensures epoch.methodTracerTagState == (old(epoch.methodTracerTagState) || |old(Entries())| == 0)
      ensures UnloadedIdsKept()
      ensures ik.sticky && ik.dynamicTagged && ik.timing == old(ik.timing)
      ensures forall i :: 0 <= i < |methods| ==>
                methods[i].tracedMethod.value.sticky && methods[i].tracedMethod.value.dynamicTagged
    {
      TagNewClass(ik, methods);
      AppendClass(ik);
    }

    /** The two tagging calls of `add_instrumented_class`: dynamic tag, then sticky bit. */
    static method TagNewClass(ik: Klass, methods: seq<TracedMethod>)
      requires |methods| > 0 && MethodsSet(methods)
      requires DistinctMethods(RecordMethods(methods))
      requires forall i :: 0 <= i < |methods| ==> !methods[i].tracedMethod.value.sticky
      requires !ik.sticky
      modifies ik`dynamicTagged, ik`sticky, set i | 0 <= i < |methods| :: methods[i].tracedMethod.value
      ensures ik.sticky && ik.dynamicTagged
      ensures forall i :: 0 <= i < |methods| ==>
                methods[i].tracedMethod.value.sticky && methods[i].tracedMethod.value.dynamicTagged
    {
      SetDynamicTag(ik, methods);
      SetStickyBit(ik, methods);
    }

    /** Appends an absent class to the list; the first entry sets the tag state. */
    method AppendClass(ik: Klass)
      requires Valid() && !Contains(Entries(), InstrumentedClass(ik.traceId, ik, false)) && OwnsMethods(ik)
      modifies this, instrumented, epoch
      ensures Valid() && filter == old(filter) && previousFilter == old(previousFilter)
      ensures Entries() == old(Entries()) + [InstrumentedClass(ik.traceId, ik, false)]
      ensures Contains(Entries(), InstrumentedClass(ik.traceId, ik, false))
      ensures epoch.methodTracerTagState == (old(epoch.methodTracerTagState) || |old(Entries())| == 0)
      ensures UnloadedIdsKept()
    {
      var list := InstrumentedClasses();
      var jic := InstrumentedClass(ik.traceId, ik, false);
      AppendKeepsWellFormed(list.elements, jic);
      var index := list.Append(jic);
      if index == 0 {
        epoch.methodTracerTagState := true;
      }
      assert Entries()[index] == jic;
    }

    /**
     * `drain_stale_class_ids`: the unloaded ids, or `None` when the tracer is
     * not in use or there are none; the list itself is left as it is.
     */
    method DrainStaleClassIds() returns (ids: Option<seq<int>>)
      ensures ids.Some? <==> InUse() && unloadedClassIds.Some? && |unloadedClassIds.value| > 0
      ensures ids.Some? ==> ids.value == unloadedClassIds.value
    {
      if !InUse() {
        return None;
      }
      if unloadedClassIds.None? || |unloadedClassIds.value| == 0 {
        return None;
      }
      return Some(unloadedClassIds.value);
    }

    /**
     * `trim_instrumented_classes`: the list is rebuilt from its live entries,
     * in order, and the ids of the unloaded ones are appended to the unloaded ids.
     */
    method TrimInstrumentedClasses()
      requires Valid() && instrumented != null && epoch.methodTracerTagState
      modifies this
      ensures Valid() && instrumented != null && fresh(instrumented)
      ensures var before := old(instrumented.elements);
        instrumented.elements == LiveEntries(before, |before|)
        && unloadedClassIds == Some(old(unloadedClassIds.value) + UnloadedIds(before, |before|))
      ensures filter == old(filter) && previousFilter == old(previousFilter)
    {
      var entries := instrumented.elements;
      var trimmed := new InstrumentedList();
      assert old(unloadedClassIds.value) + UnloadedIds(entries, 0) == old(unloadedClassIds.value);
      for i := 0 to |entries|
        invariant trimmed.elements == LiveEntries(entries, i)
        invariant unloadedClassIds == Some(old(unloadedClassIds.value) + UnloadedIds(entries, i))
        invariant instrumented == old(instrumented) && filter == old(filter) && previousFilter == old(previousFilter)
      {
        var jic := entries[i];
        if jic.unloaded {
          assert old(unloadedClassIds.value) + UnloadedIds(entries, i + 1)
              == old(unloadedClassIds.value) + UnloadedIds(entries, i) + [jic.traceId];
          unloadedClassIds := Some(unloadedClassIds.value + [jic.traceId]);
        } else {
          assert UnloadedIds(entries, i + 1) == UnloadedIds(entries, i);
          var _ := trimmed.Append(jic);
        }
      }
      LiveEntriesWellFormed(entries, |entries|);
      instrumented := trimmed;
    }

    /**
     * `clear_instrumented_classes`, outside a recording: the list, if it exists,
     * is cleared without dynamic tagging.
     */
    method ClearInstrumentedClasses(unloadedIds: set<int>)
      requires Valid() && LiveEntriesSticky(unloadedIds)
      requires |Entries()| == 0 ==> !epoch.methodTracerTagState
      modifies instrumented, epoch, EntryKlasses(Entries()), EntryMethods(Entries())
      ensures Valid() && Entries() == []
      ensures old(instrumented) != null ==> !epoch.methodTracerTagState
      ensures forall i :: 0 <= i < |old(Entries())| && IsLive(old(Entries())[i], unloadedIds)
                ==> Cleared(old(Entries())[i].klass)
      ensures forall i :: 0 <= i < |old(Entries())| ==>
                var k := old(Entries())[i].klass;
                k.dynamicTagged == old(k.dynamicTagged)
      ensures forall i, m :: 0 <= i < |old(Entries())| && m in old(Entries())[i].klass.methods ==>
                m.dynamicTagged == old(m.dynamicTagged)
      ensures forall i :: 0 <= i < |old(Entries())| && !IsLive(old(Entries())[i], unloadedIds) ==>
                var k := old(Entries())[i].klass;
                k.sticky == old(k.sticky) && k.timing == old(k.timing)
                && forall m :: m in k.methods ==> m.sticky == old(m.sticky)
    {
      if instrumented != null {
        Clear(instrumented, false, epoch, unloadedIds);
      }
    }
  }
}
