/**
 * `PlatformTracer`, the Java side of method tracing: the registry of timed
 * methods and classes that instrumented code reports into, and the trace and
 * timing filter lists that are flattened into the arrays the JVM installs.
 * `Instrumentation`, `Filter.of`, `TimedClass` and `TimedMethod` are not part of
 * this model; what the shown code relies on of them is stated here.
 */
module PlatformTracers {
  import opened Wrappers

  // ---------------------------------------------------------------------
  // Java long arithmetic

  const MinLong: int := -0x8000_0000_0000_0000
  const MaxLong: int := 0x7FFF_FFFF_FFFF_FFFF
  const LongRange: int := 0x1_0000_0000_0000_0000

  type Long = x: int | MinLong <= x <= MaxLong

  /** Two's complement addition of Java `long`s (`AtomicLong.addAndGet`). */
  function AddLong(a: Long, b: Long): (r: Long)
    ensures MinLong <= a + b <= MaxLong ==> r == a + b
    ensures (r - (a + b)) % LongRange == 0
  {
    var s := a + b;
    if s > MaxLong then s - LongRange
    else if s < MinLong then s + LongRange
    else s
  }

  /** The counter wraps from the largest long to the smallest. */
  lemma AddLongWraps()
    ensures AddLong(MaxLong, 1) == MinLong
  {
  }

  // ---------------------------------------------------------------------
  // The registry

  /** A method reported by `Instrumentation.getMethods()`. */
  datatype MethodInfo = MethodInfo(methodId: int, classId: int, name: string, timing: bool)

  /** A `TimedMethod`: the method and its invocation count and accumulated time. */
  datatype TimedMethod = TimedMethod(info: MethodInfo, invocations: Long, time: Long)

  /** A `TimedClass`: the ids of its timed methods, and whether it has been published. */
  datatype TimedClass = TimedClass(methodIds: set<int>, published: bool)

  const NewTimedClass := TimedClass({}, false)

  datatype Registry = Registry(timedMethods: map<int, TimedMethod>, timedClasses: map<int, TimedClass>)

  /** Method ids are keyed consistently and every timed method is listed exactly by its class. */
  predicate Consistent(r: Registry) {
    (forall id :: id in r.timedMethods ==>
       r.timedMethods[id].info.methodId == id
       && r.timedMethods[id].info.classId in r.timedClasses
       && id in r.timedClasses[r.timedMethods[id].info.classId].methodIds)
    && (forall c, id :: c in r.timedClasses && id in r.timedClasses[c].methodIds ==>
          id in r.timedMethods && r.timedMethods[id].info.classId == c)
  }

  /** What `updateTiming` does to the registry. */
  function AfterUpdate(r: Registry, m: MethodInfo): Registry {
    if m.methodId !in r.timedMethods then
      if m.timing then
        var tc := if m.classId in r.timedClasses then r.timedClasses[m.classId] else NewTimedClass;
        Registry(r.timedMethods[m.methodId := TimedMethod(m, 0, 0)],
                 r.timedClasses[m.classId := tc.(methodIds := tc.methodIds + {m.methodId})])
      else r
    else if !m.timing then
      Registry(r.timedMethods - {m.methodId},
               if m.classId in r.timedClasses
               then r.timedClasses[m.classId := r.timedClasses[m.classId].(methodIds := r.timedClasses[m.classId].methodIds - {m.methodId})]
               else r.timedClasses)
    else r
  }

  /**
   * After an update the method is timed exactly when the update asked for
   * timing; an entry that stays keeps its counters, and no other method changes.
   */
  lemma UpdateTimingMeaning(r: Registry, m: MethodInfo)
    ensures var r' := AfterUpdate(r, m);
      (m.methodId in r'.timedMethods <==> m.timing)
      && (m.methodId in r.timedMethods && m.timing ==> r'.timedMethods[m.methodId] == r.timedMethods[m.methodId])
      && (m.methodId !in r.timedMethods && m.timing ==>
            r'.timedMethods[m.methodId].invocations == 0 && r'.timedMethods[m.methodId].time == 0
            && m.classId in r'.timedClasses && m.methodId in r'.timedClasses[m.classId].methodIds)
      && (forall id :: id != m.methodId ==>
            (id in r'.timedMethods <==> id in r.timedMethods)
            && (id in r.timedMethods ==> r'.timedMethods[id] == r.timedMethods[id]))
      && (!m.timing && m.methodId !in r.timedMethods ==> r' == r)
  {
  }

  /** An update keeps the registry consistent, provided a known method id stays with its class. */
  lemma UpdateKeepsConsistent(r: Registry, m: MethodInfo)
    requires Consistent(r)
    requires m.methodId in r.timedMethods ==> r.timedMethods[m.methodId].info.classId == m.classId
    ensures Consistent(AfterUpdate(r, m))
  {
  }

  /** The registry after the first `n` updates of `ms`. */
  function AfterUpdates(r: Registry, ms: seq<MethodInfo>, n: nat): Registry
    requires n <= |ms|
  {
    if n == 0 then r else AfterUpdate(AfterUpdates(r, ms, n - 1), ms[n - 1])
  }

  /**
   * The `OBJECT` entry after the first `n` updates of `ms`, starting from
   * `obj`: an update that newly times `java.lang.Object::<init>` replaces it.
   */
  function ObjectAfterUpdates(obj: Option<int>, r: Registry, ms: seq<MethodInfo>, n: nat): (o: Option<int>)
    requires n <= |ms|
    ensures o == obj || exists i :: 0 <= i < n && o == Some(ms[i].methodId)
                                    && ms[i].timing && ms[i].name == "java.lang.Object::<init>"
  {
    if n == 0 then obj
    else
      var m := ms[n - 1];
      if m.methodId !in AfterUpdates(r, ms, n - 1).timedMethods && m.timing && m.name == "java.lang.Object::<init>"
      then Some(m.methodId)
      else ObjectAfterUpdates(obj, r, ms, n - 1)
  }

  /** The last of the first `n` updates that concerns method `id` is at `i`. */
  predicate LastUpdateAt(ms: seq<MethodInfo>, n: nat, id: int, i: nat)
    requires n <= |ms|
  {
    i < n && ms[i].methodId == id && forall j :: i < j < n ==> ms[j].methodId != id
  }

  /**
   * The latest update wins: a method is timed after a series of updates
   * exactly when the last update concerning it asked for timing, and a
   * method no update concerns keeps its entry.
   */
  lemma {:induction false} LatestUpdateWins(r: Registry, ms: seq<MethodInfo>, n: nat)
    requires n <= |ms|
    ensures forall id, i: nat :: LastUpdateAt(ms, n, id, i) ==> (id in AfterUpdates(r, ms, n).timedMethods <==> ms[i].timing)
    ensures forall id :: (forall i :: 0 <= i < n ==> ms[i].methodId != id) ==>
              (id in AfterUpdates(r, ms, n).timedMethods <==> id in r.timedMethods)
              && (id in r.timedMethods ==> AfterUpdates(r, ms, n).timedMethods[id] == r.timedMethods[id])
  {
    if n > 0 {
      LatestUpdateWins(r, ms, n - 1);
      var prior := AfterUpdates(r, ms, n - 1);
      UpdateTimingMeaning(prior, ms[n - 1]);
      forall id, i: nat | LastUpdateAt(ms, n, id, i)
        ensures id in AfterUpdates(r, ms, n).timedMethods <==> ms[i].timing
      {
        if i < n - 1 {
          assert LastUpdateAt(ms, n - 1, id, i);
          assert ms[n - 1].methodId != id;
        }
      }
    }
  }

  /** What `removeClasses` does with the first `n` ids. */
  function AfterRemovals(r: Registry, classIds: seq<int>, n: nat): Registry
    requires n <= |classIds|
  {
    if n == 0 then r
    else
      var prior := AfterRemovals(r, classIds, n - 1);
      var c := classIds[n - 1];
      if c in prior.timedClasses
      then Registry(prior.timedMethods - prior.timedClasses[c].methodIds, prior.timedClasses - {c})
      else prior
  }

  /** A method is removed with its class: by the ids of its class in the original registry. */
  predicate RemovedWith(r: Registry, classIds: seq<int>, n: nat, id: int)
    requires n <= |classIds|
  {
    exists i :: 0 <= i < n && classIds[i] in r.timedClasses && id in r.timedClasses[classIds[i]].methodIds
  }

  /**
   * Removing classes drops exactly the listed classes and the methods they
   * list; everything else keeps its entry.
   */
  lemma {:induction false} RemoveClassesMeaning(r: Registry, classIds: seq<int>, n: nat)
    requires n <= |classIds|
    ensures var r' := AfterRemovals(r, classIds, n);
      (forall c :: c in r'.timedClasses <==> c in r.timedClasses && c !in classIds[..n])
      && (forall c :: c in r'.timedClasses ==> r'.timedClasses[c] == r.timedClasses[c])
      && (forall id :: id in r'.timedMethods <==> id in r.timedMethods && !RemovedWith(r, classIds, n, id))
      && (forall id :: id in r'.timedMethods ==> r'.timedMethods[id] == r.timedMethods[id])
  {
    if n > 0 {
      RemoveClassesMeaning(r, classIds, n - 1);
      assert classIds[..n] == classIds[..n - 1] + [classIds[n - 1]];
      var prior := AfterRemovals(r, classIds, n - 1);
      var c := classIds[n - 1];
      forall id
        ensures id in AfterRemovals(r, classIds, n).timedMethods <==> id in r.timedMethods && !RemovedWith(r, classIds, n, id)
      {
        if RemovedWith(r, classIds, n, id) && !RemovedWith(r, classIds, n - 1, id) {
          var i :| 0 <= i < n && classIds[i] in r.timedClasses && id in r.timedClasses[classIds[i]].methodIds;
          assert i == n - 1;
          assert c in prior.timedClasses;
        }
        if RemovedWith(r, classIds, n - 1, id) {
          var i :| 0 <= i < n - 1 && classIds[i] in r.timedClasses && id in r.timedClasses[classIds[i]].methodIds;
          assert 0 <= i < n;
        }
      }
    }
  }

  /** Removing classes from a consistent registry leaves it consistent. */
  lemma RemovalKeepsConsistent(r: Registry, c: int)
    requires Consistent(r) && c in r.timedClasses
    ensures Consistent(Registry(r.timedMethods - r.timedClasses[c].methodIds, r.timedClasses - {c}))
  {
    var r' := Registry(r.timedMethods - r.timedClasses[c].methodIds, r.timedClasses - {c});
    forall c2, id | c2 in r'.timedClasses && id in r'.timedClasses[c2].methodIds
      ensures id in r'.timedMethods
    {
      assert r.timedMethods[id].info.classId == c2;
    }
  }

  /** Removing any series of classes from a consistent registry leaves it consistent. */
  lemma {:induction false} RemovalsKeepConsistent(r: Registry, classIds: seq<int>, n: nat)
    requires n <= |classIds| && Consistent(r)
    ensures Consistent(AfterRemovals(r, classIds, n))
  {
    if n > 0 {
      RemovalsKeepConsistent(r, classIds, n - 1);
      var prior := AfterRemovals(r, classIds, n - 1);
      if classIds[n - 1] in prior.timedClasses {
        RemovalKeepsConsistent(prior, classIds[n - 1]);
      }
    }
  }

  // ---------------------------------------------------------------------
  // Filters

  /** A `Modification`: which of the two axes a filter list stands for. */
  datatype Modification = Modification(tracing: bool, timing: bool)

  /** `Modification.toInt()`, in the bits the native filter reads: timing 1, tracing 2. */
  function ToInt(m: Modification): (v: int)
    ensures 0 <= v <= 3
    ensures v % 2 == 1 <==> m.timing
    ensures v / 2 == 1 <==> m.tracing
  {
    (if m.timing then 1 else 0) + (if m.tracing then 2 else 0)
  }

  /** A parsed `Filter`. */
  datatype TextFilter = TextFilter(className: Option<string>, methodName: Option<string>,
                                   annotationName: Option<string>, modification: Modification)

  /** `Filter.of(text, modification)`: `None` for a text that is not a valid filter. */
  type FilterParser = (string, Option<Modification>) -> Option<TextFilter>

  /** `isValidFilter`: the text parses when no modification is given. */
  predicate IsValidFilter(parse: FilterParser, text: string) {
    parse(text, None).Some?
  }

  /** The filters parsed from the first `n` texts, skipping the invalid ones. */
  function ParsedFilters(texts: seq<string>, modification: Modification, parse: FilterParser, n: nat): seq<TextFilter>
    requires n <= |texts|
  {
    if n == 0 then []
    else
      var parsed := parse(texts[n - 1], Some(modification));
      ParsedFilters(texts, modification, parse, n - 1) + (if parsed.Some? then [parsed.value] else [])
  }

  /**
   * When a text's validity does not depend on the modification it is parsed
   * with, a valid text is exactly one that `makeFilters` keeps a filter for.
   */
  lemma ValidFilterKept(parse: FilterParser, text: string, modification: Modification)
    requires parse(text, None).Some? == parse(text, Some(modification)).Some?
    ensures IsValidFilter(parse, text) <==> |ParsedFilters([text], modification, parse, 1)| == 1
    ensures !IsValidFilter(parse, text) <==> ParsedFilters([text], modification, parse, 1) == []
  {
    assert ParsedFilters([text], modification, parse, 0) == [];
  }

  /** Exactly the filters of the valid texts are kept, at most one per text. */
  lemma {:induction false} ParsedFiltersMeaning(texts: seq<string>, modification: Modification, parse: FilterParser, n: nat)
    requires n <= |texts|
    ensures var fs := ParsedFilters(texts, modification, parse, n);
      |fs| <= n
      && forall f :: f in fs <==> exists i :: 0 <= i < n && parse(texts[i], Some(modification)) == Some(f)
  {
    if n > 0 {
      ParsedFiltersMeaning(texts, modification, parse, n - 1);
      var prior := ParsedFilters(texts, modification, parse, n - 1);
      forall f | f in prior
        ensures exists i :: 0 <= i < n && parse(texts[i], Some(modification)) == Some(f)
      {
        var i :| 0 <= i < n - 1 && parse(texts[i], Some(modification)) == Some(f);
        assert 0 <= i < n;
      }
    }
  }

  /** The four parallel arrays `setMethodTraceFilters` receives. */
  datatype FilterArrays = FilterArrays(classes: seq<Option<string>>, methods: seq<Option<string>>,
                                       annotations: seq<Option<string>>, modifications: seq<int>)

  /** Entry `k` of the arrays describes filter `f`. */
  predicate DescribesAt(a: FilterArrays, k: nat, f: TextFilter)
    requires k < |a.classes| && k < |a.methods| && k < |a.annotations| && k < |a.modifications|
  {
    a.classes[k] == f.className && a.methods[k] == f.methodName
    && a.annotations[k] == f.annotationName && a.modifications[k] == ToInt(f.modification)
  }

  // ---------------------------------------------------------------------
  // The tracer

  class PlatformTracer {
    var timedMethods: map<int, TimedMethod>
    var timedClasses: map<int, TimedClass>
    var traceFilters: seq<TextFilter>
    var timingFilters: seq<TextFilter>
    /** `OBJECT`: the id of the entry for `java.lang.Object::<init>`, once timed. */
    var objectEntry: Option<int>

    constructor ()
      ensures timedMethods == map[] && timedClasses == map[]
      ensures traceFilters == [] && timingFilters == [] && objectEntry == None
    {
      timedMethods := map[];
      timedClasses := map[];
      traceFilters := [];
      timingFilters := [];
      objectEntry := None;
    }

    function Snapshot(): Registry
      reads this
    {
      Registry(timedMethods, timedClasses)
    }

    /**
     * `onMethodTrace`.  A class of the boot loader (`bootLoader`) that is on
     * the exclude list is skipped.  Otherwise `outcome` is what the bytecode
     * generation gave: on an error nothing is instrumented and `None` is
     * returned; on success each reported method has its timing updated and the
     * new bytecode, `None` when unchanged, is returned.
     */
    method OnMethodTrace(bootLoader: bool, className: string, excludeList: set<string>, outcome: Outcome)
      returns (bytecode: Option<seq<bv8>>)
      modifies this
      ensures bootLoader && className in excludeList ==> bytecode.None? && unchanged(this)
      ensures !(bootLoader && className in excludeList) && outcome.Failed? ==> bytecode.None? && unchanged(this)
      ensures !(bootLoader && className in excludeList) && outcome.Generated? ==>
                bytecode == outcome.bytecode
                && Snapshot() == AfterUpdates(old(Snapshot()), outcome.methods, |outcome.methods|)
                && objectEntry == ObjectAfterUpdates(old(objectEntry), old(Snapshot()), outcome.methods, |outcome.methods|)
      ensures traceFilters == old(traceFilters) && timingFilters == old(timingFilters)
    {
      if bootLoader && className in excludeList {
        return None;
      }
      if outcome.Failed? {
        return None;
      }
      var methods := outcome.methods;
      for i := 0 to |methods|
        invariant Snapshot() == AfterUpdates(old(Snapshot()), methods, i)
        invariant objectEntry == ObjectAfterUpdates(old(objectEntry), old(Snapshot()), methods, i)
        invariant traceFilters == old(traceFilters) && timingFilters == old(timingFilters)
      {
        UpdateTiming(methods[i]);
      }
      return outcome.bytecode;
    }

    /** `updateTiming`. */
    method UpdateTiming(m: MethodInfo)
      modifies this
      ensures Snapshot() == AfterUpdate(old(Snapshot()), m)
      ensures old(Consistent(Snapshot())) && (m.methodId in old(timedMethods) ==> old(timedMethods)[m.methodId].info.classId == m.classId)
              ==> Consistent(Snapshot())
      ensures objectEntry == if m.methodId !in old(timedMethods) && m.timing && m.name == "java.lang.Object::<init>"
                             then Some(m.methodId) else old(objectEntry)
      ensures traceFilters == old(traceFilters) && timingFilters == old(timingFilters)
    {
      if Consistent(Snapshot()) && (m.methodId in timedMethods ==> timedMethods[m.methodId].info.classId == m.classId) {
        UpdateKeepsConsistent(Snapshot(), m);
      }
      var isTiming := m.timing;
      var classId := m.classId;
      if m.methodId !in timedMethods {
        if isTiming {
          var timedClass := if classId in timedClasses then timedClasses[classId] else NewTimedClass;
          timedClass := timedClass.(methodIds := timedClass.methodIds + {m.methodId});
          timedClasses := timedClasses[classId := timedClass];
          timedMethods := timedMethods[m.methodId := TimedMethod(m, 0, 0)];
          if m.name == "java.lang.Object::<init>" {
            objectEntry := Some(m.methodId);
          }
        }
        return;
      }
      if !isTiming {
        if classId in timedClasses {
          var timedClass := timedClasses[classId];
          timedClasses := timedClasses[classId := timedClass.(methodIds := timedClass.methodIds - {m.methodId})];
        }
        timedMethods := timedMethods - {m.methodId};
      }
    }

    /**
     * `addTiming`: a known method counts one more invocation and `duration`
     * more time, with `long` wrap-around; an unknown id changes nothing.
     */
    method AddTiming(id: int, duration: Long)
      modifies this
      ensures id !in old(timedMethods) ==> timedMethods == old(timedMethods)
      ensures id in old(timedMethods) ==>
                var e := old(timedMethods)[id];
                timedMethods == old(timedMethods)[id := e.(invocations := AddLong(e.invocations, 1),
                                                           time := AddLong(e.time, duration))]
      ensures timedClasses == old(timedClasses) && objectEntry == old(objectEntry)
      ensures traceFilters == old(traceFilters) && timingFilters == old(timingFilters)
    {
      if id in timedMethods {
        var entry := timedMethods[id];
        timedMethods := timedMethods[id := entry.(invocations := AddLong(entry.invocations, 1),
                                                  time := AddLong(entry.time, duration))];
      }
    }

    /** `removeClasses`: `None` stands for a null array. */
    method RemoveClasses(classIds: Option<seq<int>>)
      modifies this
      ensures classIds.None? ==> unchanged(this)
      ensures classIds.Some? ==> Snapshot() == AfterRemovals(old(Snapshot()), classIds.value, |classIds.value|)
      ensures old(Consistent(Snapshot())) ==> Consistent(Snapshot())
      ensures objectEntry == old(objectEntry)
      ensures traceFilters == old(traceFilters) && timingFilters == old(timingFilters)
    {
      if classIds.None? {
        return;
      }
      var ids := classIds.value;
      for i := 0 to |ids|
        invariant Snapshot() == AfterRemovals(old(Snapshot()), ids, i)
        invariant old(Consistent(Snapshot())) ==> Consistent(Snapshot())
        invariant objectEntry == old(objectEntry)
        invariant traceFilters == old(traceFilters) && timingFilters == old(timingFilters)
      {
        if ids[i] in timedClasses && Consistent(Snapshot()) {
          RemovalKeepsConsistent(Snapshot(), ids[i]);
        }
        if ids[i] in timedClasses {
          var timedClass := timedClasses[ids[i]];
          timedClasses := timedClasses - {ids[i]};
          timedMethods := timedMethods - timedClass.methodIds;
        }
      }
    }

    /** `publishClass`: a known class is marked published; an unknown id changes nothing. */
    method PublishClass(classId: int)
      modifies this
      ensures classId !in old(timedClasses) ==> timedClasses == old(timedClasses)
      ensures classId in old(timedClasses) ==>
                timedClasses == old(timedClasses)[classId := old(timedClasses)[classId].(published := true)]
      ensures timedMethods == old(timedMethods) && objectEntry == old(objectEntry)
      ensures traceFilters == old(traceFilters) && timingFilters == old(timingFilters)
    {
      if classId in timedClasses {
        timedClasses := timedClasses[classId := timedClasses[classId].(published := true)];
      }
    }

    /** `publishClasses`: every listed class that is known becomes published; nothing else changes. */
    method PublishClasses(classIds: Option<seq<int>>)
      modifies this
      ensures timedClasses.Keys == old(timedClasses.Keys)
      ensures forall c :: c in timedClasses ==>
                timedClasses[c].methodIds == old(timedClasses[c].methodIds)
                && timedClasses[c].published == (old(timedClasses[c].published) || (classIds.Some? && c in classIds.value))
      ensures timedMethods == old(timedMethods) && objectEntry == old(objectEntry)
      ensures traceFilters == old(traceFilters) && timingFilters == old(timingFilters)
    {
      if classIds.None? {
        return;
      }
      var ids := classIds.value;
      for i := 0 to |ids|
        invariant timedClasses.Keys == old(timedClasses.Keys)
        invariant forall c :: c in timedClasses ==>
                    timedClasses[c].methodIds == old(timedClasses[c].methodIds)
                    && timedClasses[c].published == (old(timedClasses[c].published) || c in ids[..i])
        invariant timedMethods == old(timedMethods) && objectEntry == old(objectEntry)
        invariant traceFilters == old(traceFilters) && timingFilters == old(timingFilters)
      {
        assert ids[..i + 1] == ids[..i] + [ids[i]];
        PublishClass(ids[i]);
      }
      assert ids[..|ids|] == ids;
    }

    /** `reset`: both maps become empty. */
    method Reset()
      modifies this
      ensures timedMethods == map[] && timedClasses == map[]
      ensures objectEntry == old(objectEntry)
      ensures traceFilters == old(traceFilters) && timingFilters == old(timingFilters)
    {
      timedMethods := map[];
      timedClasses := map[];
    }

    /** `filterCount`. */
    function FilterCount(): (n: nat)
      reads this
      ensures n == |traceFilters + timingFilters|
    {
      |traceFilters| + |timingFilters|
    }

    /** `hasFilters`: one of the two lists is not empty. */
    predicate HasFilters(): (has: bool)
      reads this
      ensures has <==> traceFilters != [] || timingFilters != []
    {
      FilterCount() > 0
    }

    /** `makeFilters`: the valid filters among `texts`, in order. */
    static method MakeFilters(texts: seq<string>, modification: Modification, parse: FilterParser)
      returns (filters: seq<TextFilter>)
      ensures filters == ParsedFilters(texts, modification, parse, |texts|)
    {
      filters := [];
      for i := 0 to |texts|
        invariant filters == ParsedFilters(texts, modification, parse, i)
      {
        var filter := parse(texts[i], Some(modification));
        if filter.Some? {
          filters := filters + [filter.value];
        }
      }
    }

    /**
     * `applyFilter`: the list of each axis `modification` names is replaced by
     * the valid filters of `texts`.  The JVM is not called (`None`) when there
     * were no filters before and none after; otherwise it receives one array
     * entry per filter, the trace filters first.
     */
    method ApplyFilter(modification: Modification, texts: seq<string>, parse: FilterParser)
      returns (arrays: Option<FilterArrays>)
      modifies this
      ensures traceFilters == if modification.tracing then ParsedFilters(texts, modification, parse, |texts|) else old(traceFilters)
      ensures timingFilters == if modification.timing then ParsedFilters(texts, modification, parse, |texts|) else old(timingFilters)
      ensures arrays.None? <==> |old(traceFilters)| + |old(timingFilters)| == 0 && FilterCount() == 0
      ensures arrays.Some? ==>
                var a := arrays.value;
                && |a.classes| == FilterCount() && |a.methods| == FilterCount()
                && |a.annotations| == FilterCount() && |a.modifications| == FilterCount()
                && forall k :: 0 <= k < FilterCount() ==> DescribesAt(a, k, (traceFilters + timingFilters)[k])
      ensures timedMethods == old(timedMethods) && timedClasses == old(timedClasses) && objectEntry == old(objectEntry)
    {
      var hadFilters := HasFilters();
      if modification.tracing {
        traceFilters := MakeFilters(texts, modification, parse);
      }
      if modification.timing {
        timingFilters := MakeFilters(texts, modification, parse);
      }
      if hadFilters || HasFilters() {
        var size := FilterCount();
        var allFilters := traceFilters + timingFilters;
        var classes, methods, annotations, modifications := [], [], [], [];
        for index := 0 to size
          invariant |classes| == index && |methods| == index && |annotations| == index && |modifications| == index
          invariant forall k :: 0 <= k < index ==>
                      DescribesAt(FilterArrays(classes, methods, annotations, modifications), k, allFilters[k])
        {
          var filter := allFilters[index];
          classes := classes + [filter.className];
          methods := methods + [filter.methodName];
          annotations := annotations + [filter.annotationName];
          modifications := modifications + [ToInt(filter.modification)];
        }
        return Some(FilterArrays(classes, methods, annotations, modifications));
      }
      return None;
    }
  }

  /** What the bytecode generation of `Instrumentation` gave. */
  datatype Outcome =
    | Generated(bytecode: Option<seq<bv8>>, methods: seq<MethodInfo>)
    | Failed
}
