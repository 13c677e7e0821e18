/**
 * `JfrTraceTagging`: setting and clearing the trace bits the method tracer
 * uses on classes and methods.  The sticky bit keeps a class or method
 * tagged across epochs while its instrumentation is installed; the timing bit
 * marks a class with timed methods; the dynamic tag (the trace-id load
 * barrier) makes the class or method part of the current epoch.
 */
module TraceTagging {
  import opened Wrappers
  import opened Vm
  import opened TracedMethods
  import opened InstrumentedClasses

  /** The methods of a list of records whose methods are all set. */
  function RecordMethods(records: seq<TracedMethod>): (ms: seq<Method>)
    requires forall i :: 0 <= i < |records| ==> records[i].tracedMethod.Some?
    reads records
    ensures |ms| == |records|
    ensures forall i :: 0 <= i < |records| ==> records[i].tracedMethod == Some(ms[i])
  {
    seq(|records|, i requires 0 <= i < |records| && records[i].tracedMethod.Some? reads records => records[i].GetMethod())
  }

  predicate MethodsSet(records: seq<TracedMethod>)
    reads records
  {
    forall i :: 0 <= i < |records| ==> records[i].tracedMethod.Some?
  }

  predicate DistinctMethods(ms: seq<Method>) {
    forall i, j :: 0 <= i < j < |ms| ==> ms[i] != ms[j]
  }

  // Single-object tagging

  /** `tag_dynamic(ik)`: the load barrier tags the class. */
  method TagDynamicKlass(ik: Klass)
    modifies ik`dynamicTagged
    ensures ik.dynamicTagged
  {
    ik.dynamicTagged := true;
  }

  /** `tag_dynamic(method)`. */
  method TagDynamicMethod(m: Method)
    modifies m`dynamicTagged
    ensures m.dynamicTagged
  {
    m.dynamicTagged := true;
  }

  /** `tag_sticky(ik)`: the class must not carry the sticky bit yet. */
  method TagStickyKlass(ik: Klass)
    requires !ik.sticky
    modifies ik`sticky
    ensures ik.sticky
  {
    ik.sticky := true;
  }

  /** `tag_sticky(method)`: the method must not carry the sticky bit yet. */
  method TagStickyMethod(m: Method)
    requires !m.sticky
    modifies m`sticky
    ensures m.sticky
  {
    m.sticky := true;
  }

  /** `tag_timing(ik)`: the class must not carry the timing bit yet. */
  method TagTiming(ik: Klass)
    requires !ik.timing
    modifies ik`timing
    ensures ik.timing
  {
    ik.timing := true;
  }

  // Tagging the methods of a list of records

  /** `tag_dynamic(methods)`: every record's method is tagged; nothing else changes. */
  method TagDynamicMethods(records: seq<TracedMethod>)
    requires MethodsSet(records)
    modifies set i | 0 <= i < |records| :: records[i].tracedMethod.value
    ensures forall i :: 0 <= i < |records| ==> records[i].tracedMethod.value.dynamicTagged
    ensures forall i :: 0 <= i < |records| ==> records[i].tracedMethod.value.sticky == old(records[i].tracedMethod.value.sticky)
  {
    for i := 0 to |records|
      invariant forall j :: 0 <= j < i ==> records[j].tracedMethod.value.dynamicTagged
      invariant forall j :: 0 <= j < |records| ==> records[j].tracedMethod.value.sticky == old(records[j].tracedMethod.value.sticky)
    {
      TagDynamicMethod(records[i].GetMethod());
    }
  }

  /**
   * `tag_sticky(methods)`: each record's method gets the sticky bit, which none
   * of them may carry yet, so no method may appear in two records.
   */
  method TagStickyMethods(records: seq<TracedMethod>)
    requires MethodsSet(records)
    requires DistinctMethods(RecordMethods(records))
    requires forall i :: 0 <= i < |records| ==> !records[i].tracedMethod.value.sticky
    modifies set i | 0 <= i < |records| :: records[i].tracedMethod.value
    ensures forall i :: 0 <= i < |records| ==> records[i].tracedMethod.value.sticky
    ensures forall i :: 0 <= i < |records| ==>
              records[i].tracedMethod.value.dynamicTagged == old(records[i].tracedMethod.value.dynamicTagged)
  {
    ghost var ms := RecordMethods(records);
    for i := 0 to |records|
      invariant forall j :: 0 <= j < i ==> ms[j].sticky
      invariant forall j :: i <= j < |records| ==> !ms[j].sticky
      invariant forall j :: 0 <= j < |records| ==> ms[j].dynamicTagged == old(ms[j].dynamicTagged)
    {
      TagStickyMethod(records[i].GetMethod());
    }
  }

  // The operations

  /** `set_dynamic_tag`: the records' methods, then the class. */
  method SetDynamicTag(ik: Klass, records: seq<TracedMethod>)
    requires MethodsSet(records)
    modifies ik`dynamicTagged, set i | 0 <= i < |records| :: records[i].tracedMethod.value
    ensures ik.dynamicTagged
    ensures forall i :: 0 <= i < |records| ==> records[i].tracedMethod.value.dynamicTagged
    ensures forall i :: 0 <= i < |records| ==> records[i].tracedMethod.value.sticky == old(records[i].tracedMethod.value.sticky)
  {
    TagDynamicMethods(records);
    TagDynamicKlass(ik);
  }

  /**
   * `set_dynamic_tag_for_sticky_bit`: of a sticky class, exactly the methods
   * carrying the sticky bit are tagged, and then the class.
   */
  method SetDynamicTagForStickyBit(ik: Klass)
    requires ik.sticky
    modifies ik`dynamicTagged, set m | m in ik.methods
    ensures ik.dynamicTagged
    ensures forall m :: m in ik.methods ==>
              m.sticky == old(m.sticky) && m.dynamicTagged == (old(m.dynamicTagged) || old(m.sticky))
  {
    for i := 0 to |ik.methods|
      invariant forall m :: m in ik.methods ==> m.sticky == old(m.sticky)
      invariant forall m :: m in ik.methods[..i] ==> m.dynamicTagged == (old(m.dynamicTagged) || old(m.sticky))
      invariant forall m :: m in ik.methods && m !in ik.methods[..i] ==> m.dynamicTagged == old(m.dynamicTagged)
    {
      var m := ik.methods[i];
      assert ik.methods[..i + 1] == ik.methods[..i] + [m];
      if m.sticky {
        TagDynamicMethod(m);
      }
    }
    TagDynamicKlass(ik);
  }

  /** `set_sticky_bit`: the records' methods and the class get the sticky bit. */
  method SetStickyBit(ik: Klass, records: seq<TracedMethod>)
    requires MethodsSet(records)
    requires DistinctMethods(RecordMethods(records))
    requires forall i :: 0 <= i < |records| ==> !records[i].tracedMethod.value.sticky
    requires !ik.sticky
    modifies ik`sticky, set i | 0 <= i < |records| :: records[i].tracedMethod.value
    ensures ik.sticky
    ensures forall i :: 0 <= i < |records| ==> records[i].tracedMethod.value.sticky
    ensures forall i :: 0 <= i < |records| ==>
              records[i].tracedMethod.value.dynamicTagged == old(records[i].tracedMethod.value.dynamicTagged)
  {
    TagStickyMethods(records);
    TagStickyKlass(ik);
  }

  /**
   * `install_sticky_bit_for_retransform_klass`: as `set_sticky_bit`, and the
   * timing bit when the class has timed methods.
   */
  method InstallStickyBitForRetransformKlass(ik: Klass, records: seq<TracedMethod>, timing: bool)
    requires MethodsSet(records)
    requires DistinctMethods(RecordMethods(records))
    requires forall i :: 0 <= i < |records| ==> !records[i].tracedMethod.value.sticky
    requires !ik.sticky
    requires timing ==> !ik.timing
    modifies ik`sticky, ik`timing, set i | 0 <= i < |records| :: records[i].tracedMethod.value
    ensures ik.sticky && ik.timing == (old(ik.timing) || timing)
    ensures forall i :: 0 <= i < |records| ==> records[i].tracedMethod.value.sticky
    ensures forall i :: 0 <= i < |records| ==>
              records[i].tracedMethod.value.dynamicTagged == old(records[i].tracedMethod.value.dynamicTagged)
  {
    TagStickyMethods(records);
    TagStickyKlass(ik);
    if timing {
      TagTiming(ik);
    }
  }

  /**
   * `clear_sticky_bit`: a sticky class and all its methods lose the sticky
   * bit and the class its timing bit; with `dynamicTag`, the class and
   * exactly the methods that were sticky are tagged first.
   */
  method ClearStickyBit(ik: Klass, dynamicTag: bool)
    requires ik.sticky
    modifies ik, set m | m in ik.methods
    ensures !ik.sticky && !ik.timing
    ensures ik.dynamicTagged == (old(ik.dynamicTagged) || dynamicTag)
    ensures forall m :: m in ik.methods ==>
              !m.sticky && m.dynamicTagged == (old(m.dynamicTagged) || (dynamicTag && old(m.sticky)))
  {
    for i := 0 to |ik.methods|
      invariant unchanged(ik)
      invariant forall m :: m in ik.methods[..i] ==>
                  !m.sticky && m.dynamicTagged == (old(m.dynamicTagged) || (dynamicTag && old(m.sticky)))
      invariant forall m :: m in ik.methods && m !in ik.methods[..i] ==>
                  m.sticky == old(m.sticky) && m.dynamicTagged == old(m.dynamicTagged)
    {
      var m := ik.methods[i];
      assert ik.methods[..i + 1] == ik.methods[..i] + [m];
      if m.sticky {
        if dynamicTag {
          TagDynamicMethod(m);
        }
        m.sticky := false;
      }
    }
    assert ik.methods[..|ik.methods|] == ik.methods;
    if dynamicTag {
      TagDynamicKlass(ik);
    }
    ik.sticky := false;
    if ik.timing {
      ik.timing := false;
    }
  }

  /** `JfrKlassUnloading::is_unloaded`: the unloaded trace ids are a parameter. */
  predicate IsLive(e: InstrumentedClass, unloadedIds: set<int>) {
    e.traceId !in unloadedIds
  }

  /** The classes of the entries and the methods of those classes. */
  function EntryKlasses(entries: seq<InstrumentedClass>): set<Klass> {
    set i | 0 <= i < |entries| :: entries[i].klass
  }

  function EntryMethods(entries: seq<InstrumentedClass>): set<Method> {
    set i, m | 0 <= i < |entries| && m in entries[i].klass.methods :: m
  }

  /** The state `clear` leaves a live entry's class in. */
  predicate Cleared(k: Klass)
    reads k, k.methods
  {
    !k.sticky && !k.timing && forall m :: m in k.methods ==> !m.sticky
  }

  /** Entry `e` has had `clear_sticky_bit` applied to its class since the previous state. */
  twostate predicate EntryCleared(e: InstrumentedClass, dynamicTag: bool)
    reads e.klass, e.klass.methods
  {
    && Cleared(e.klass)
    && e.klass.dynamicTagged == (old(e.klass.dynamicTagged) || dynamicTag)
    && forall m :: m in e.klass.methods ==> m.dynamicTagged == (old(m.dynamicTagged) || (dynamicTag && old(m.sticky)))
  }

  /** Neither the class of entry `e` nor any of its methods changed since the previous state. */
  twostate predicate EntryUntouched(e: InstrumentedClass)
    reads e.klass, e.klass.methods
  {
    unchanged(e.klass) && forall m :: m in e.klass.methods ==> unchanged(m)
  }

  /**
   * One turn of the loop of `clear`: `clear_sticky_bit` on the class of entry
   * `i`.  The classes and methods of the other entries are not touched.
   */
  method ClearEntry(entries: seq<InstrumentedClass>, i: nat, dynamicTag: bool)
    requires WellFormed(entries) && i < |entries| && entries[i].klass.sticky
    modifies entries[i].klass, set m | m in entries[i].klass.methods
    ensures Cleared(entries[i].klass)
    ensures entries[i].klass.dynamicTagged == (old(entries[i].klass.dynamicTagged) || dynamicTag)
    ensures forall m :: m in entries[i].klass.methods ==>
              m.dynamicTagged == (old(m.dynamicTagged) || (dynamicTag && old(m.sticky)))
    ensures forall j :: 0 <= j < |entries| && j != i ==> unchanged(entries[j].klass)
    ensures forall j, m :: 0 <= j < |entries| && j != i && m in entries[j].klass.methods ==> unchanged(m)
  {
    var e := entries[i];
    forall j | 0 <= j < |entries| && j != i
      ensures entries[j].klass != e.klass
    {
      if j < i {
        WellFormedKlassesDistinct(entries, j, i);
      } else {
        WellFormedKlassesDistinct(entries, i, j);
      }
    }
    forall j, m | 0 <= j < |entries| && j != i && m in entries[j].klass.methods
      ensures m !in e.klass.methods
    {
      WellFormedMethodsDistinct(entries, j, i, m);
    }
    ClearStickyBit(e.klass, dynamicTag);
  }

  /**
   * `clear`: every live entry's class has its sticky bits cleared (the trace id
   * of an entry is that of its class), tagging the class and its sticky methods
   * when `dynamicTag` is set; entries of unloaded classes are skipped and keep
   * their bits.  The list is emptied and the tag state is reset.  An empty list
   * requires the tag state to be reset already and is left as it is.
   */
  method Clear(instrumented: InstrumentedList, dynamicTag: bool, epoch: EpochState, unloadedIds: set<int>)
    requires WellFormed(instrumented.elements)
    requires instrumented.IsEmpty() ==> !epoch.methodTracerTagState
    requires forall i :: 0 <= i < |instrumented.elements| && IsLive(instrumented.elements[i], unloadedIds)
               ==> instrumented.elements[i].klass.sticky
    modifies instrumented, epoch, EntryKlasses(instrumented.elements), EntryMethods(instrumented.elements)
    ensures instrumented.elements == []
    ensures !epoch.methodTracerTagState
    ensures forall i :: 0 <= i < |old(instrumented.elements)| && IsLive(old(instrumented.elements)[i], unloadedIds)
              ==> Cleared(old(instrumented.elements)[i].klass)
    ensures forall i :: 0 <= i < |old(instrumented.elements)| ==>
              var k := old(instrumented.elements)[i].klass;
              k.dynamicTagged == (old(k.dynamicTagged) || (dynamicTag && IsLive(old(instrumented.elements)[i], unloadedIds)))
    ensures forall i, m :: 0 <= i < |old(instrumented.elements)| && m in old(instrumented.elements)[i].klass.methods ==>
              m.dynamicTagged
              == (old(m.dynamicTagged) || (dynamicTag && IsLive(old(instrumented.elements)[i], unloadedIds) && old(m.sticky)))
    ensures forall i :: 0 <= i < |old(instrumented.elements)| && !IsLive(old(instrumented.elements)[i], unloadedIds) ==>
              var k := old(instrumented.elements)[i].klass;
              k.sticky == old(k.sticky) && k.timing == old(k.timing)
              && forall m :: m in k.methods ==> m.sticky == old(m.sticky)
  {
    if instrumented.IsEmpty() {
      return;
    }
    epoch.methodTracerTagState := false;
    var entries := instrumented.elements;
    for i := 0 to |entries|
      invariant instrumented.elements == entries && !epoch.methodTracerTagState
      invariant forall j :: 0 <= j < |entries| ==>
                  if j < i && IsLive(entries[j], unloadedIds) then EntryCleared(entries[j], dynamicTag)
                  else EntryUntouched(entries[j])
    {
      if IsLive(entries[i], unloadedIds) {
        ClearEntry(entries, i, dynamicTag);
      }
    }
    instrumented.Clear();
  }
}
