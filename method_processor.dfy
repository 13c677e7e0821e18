/**
 * `JfrMethodProcessor`: for one class, decides which of its methods get a
 * traced-method record under a new filter, keeping the methods that the
 * previous filter matched so that their instrumentation can be removed, and
 * notes whether any selected method asks for timing.
 */
module MethodProcessors {
  import opened Wrappers
  import opened Vm
  import opened Modifications
  import opened Filters
  import opened TracedMethods

  // ---------------------------------------------------------------------
  // is_timing / is_tracing

  predicate IsTiming(m: Mod) {
    if m == NoMatch then false else m & TimingBit != 0
  }

  predicate IsTracing(m: Mod) {
    if m == NoMatch then false else m & TracingBit != 0
  }

  /** On -1 and non-negative words, combining ORs the timing and tracing requests. */
  lemma CombinedRequests(a: Mod, b: Mod)
    requires ValidOrNoMatch(a) && ValidOrNoMatch(b)
    ensures IsTiming(CombineBits(a, b)) <==> IsTiming(a) || IsTiming(b)
    ensures IsTracing(CombineBits(a, b)) <==> IsTracing(a) || IsTracing(b)
  {
  }

  /** The test of `set_timing`: a positive modification with bit 0 set. */
  predicate SetsTiming(m: Mod) {
    IsPositive(m) && m & TimingBit != 0
  }

  /** `set_timing` agrees with `is_timing` on non-negative words, but not on negative ones other than -1. */
  lemma SetsTimingMeaning(m: Mod)
    ensures SetsTiming(m) <==> IsTiming(m) && IsValid(m)
    ensures IsTiming(0xFFFF_FFFD) && !SetsTiming(0xFFFF_FFFD)
  {
  }

  // ---------------------------------------------------------------------
  // What process selects

  /** The modification `process` computes for method `m` under the new filter. */
  function NewModification(filter: Filter, ik: Klass, m: Method): Mod
    reads m
  {
    CombineBits(ClassBits(filter, ik), MethodBits(filter, ik, m))
  }

  /**
   * The modification `process` attributes to the previous filter.  It starts
   * from the class modifications of the new filter; the previous filter's
   * own class modifications are never used.
   */
  function PreviousModification(previous: Option<Filter>, filter: Filter, ik: Klass, m: Method): Mod
    reads m
  {
    match previous
    case None => ClassBits(filter, ik)
    case Some(p) => CombineBits(ClassBits(filter, ik), MethodBits(p, ik, m))
  }

  /** Method `m` of `ik` gets a record. */
  predicate IsSelected(previous: Option<Filter>, filter: Filter, ik: Klass, m: Method)
    reads m
  {
    CanInstrumentMethod(m)
    && CombineBits(PreviousModification(previous, filter, ik, m), NewModification(filter, ik, m)) != NoMatch
  }

  /** The modification stored in a record: -1 is stored as 0. */
  function RecordModification(newModification: Mod): Mod {
    if newModification == NoMatch then 0 else newModification
  }

  /** What a record holds apart from its method. */
  datatype RecordValue = RecordValue(id: int, name: Option<Symbol>, signature: Option<Symbol>,
                                     modification: Mod, methodsArrayIndex: int)

  function ValueOf(r: TracedMethod): RecordValue {
    RecordValue(r.id, r.name, r.signature, r.modification, r.methodsArrayIndex)
  }

  function ValuesOf(records: seq<TracedMethod>): (values: seq<RecordValue>)
    ensures |values| == |records|
    ensures forall k :: 0 <= k < |records| ==> values[k] == ValueOf(records[k])
  {
    seq(|records|, k requires 0 <= k < |records| => ValueOf(records[k]))
  }

  lemma ValuesOfAppend(records: seq<TracedMethod>, r: TracedMethod)
    ensures ValuesOf(records + [r]) == ValuesOf(records) + [ValueOf(r)]
  {
  }

  /** Appending to a list that extends `prior` keeps `prior` and adds one value after it. */
  lemma AppendKeepsPrefix(prior: seq<TracedMethod>, current: seq<TracedMethod>, r: TracedMethod)
    requires |prior| <= |current| && current[..|prior|] == prior
    ensures (current + [r])[..|prior|] == prior
    ensures ValuesOf((current + [r])[|prior|..]) == ValuesOf(current[|prior|..]) + [ValueOf(r)]
  {
    assert (current + [r])[|prior|..] == current[|prior|..] + [r];
    ValuesOfAppend(current[|prior|..], r);
  }

  /** The record `process` makes for method `i` of `ik`. */
  function ExpectedRecord(filter: Filter, ik: Klass, i: nat): RecordValue
    requires i < |ik.methods|
    reads ik.methods
  {
    var m := ik.methods[i];
    RecordValue(MethodId(ik, m), Some(m.name), Some(m.signature),
                RecordModification(NewModification(filter, ik, m)), i)
  }

  /** The records `process` appends for the first `n` methods, in methods-array order. */
  function Expected(previous: Option<Filter>, filter: Filter, ik: Klass, n: nat): seq<RecordValue>
    requires n <= |ik.methods|
    reads ik.methods
  {
    if n == 0 then []
    else
      Expected(previous, filter, ik, n - 1)
      + (if IsSelected(previous, filter, ik, ik.methods[n - 1]) then [ExpectedRecord(filter, ik, n - 1)] else [])
  }

  /** Some of the first `n` methods is selected with a new modification that sets timing. */
  predicate TimingUpTo(previous: Option<Filter>, filter: Filter, ik: Klass, n: nat)
    requires n <= |ik.methods|
    reads ik.methods
  {
    n > 0
    && (TimingUpTo(previous, filter, ik, n - 1)
        || (IsSelected(previous, filter, ik, ik.methods[n - 1])
            && SetsTiming(NewModification(filter, ik, ik.methods[n - 1]))))
  }

  // ---------------------------------------------------------------------
  // Properties of the selection

  lemma ClassBitsInDomain(f: Filter, ik: Klass)
    requires ValidModifications(f)
    ensures ValidOrNoMatch(ClassBits(f, ik))
  {
    FoldInDomain(f.modifications, AllClassFlags(f, ik), Count(f));
  }

  lemma MethodBitsInDomain(f: Filter, holder: Klass, m: Method)
    requires ValidModifications(f)
    ensures ValidOrNoMatch(MethodBits(f, holder, m))
  {
    FoldInDomain(f.modifications, AllMethodFlags(f, holder, m), Count(f));
  }

  /**
   * An instrumentable method is selected exactly when the new filter matches
   * its class or the method, or the previous filter matches the method.
   */
  lemma SelectionMeaning(previous: Option<Filter>, filter: Filter, ik: Klass, m: Method)
    requires ValidModifications(filter)
    requires previous.Some? ==> ValidModifications(previous.value)
    ensures IsSelected(previous, filter, ik, m) <==>
      CanInstrumentMethod(m)
      && (ClassBits(filter, ik) != NoMatch || MethodBits(filter, ik, m) != NoMatch
          || (previous.Some? && MethodBits(previous.value, ik, m) != NoMatch))
  {
    var c, n := ClassBits(filter, ik), MethodBits(filter, ik, m);
    ClassBitsInDomain(filter, ik);
    MethodBitsInDomain(filter, ik, m);
    CombineBitsNoMatch(c, n);
    var p := c;
    if previous.Some? {
      var pm := MethodBits(previous.value, ik, m);
      MethodBitsInDomain(previous.value, ik, m);
      CombineBitsNoMatch(c, pm);
      p := CombineBits(c, pm);
    }
    CombineBitsNoMatch(p, CombineBits(c, n));
  }

  /** A method the previous filter matched keeps its record even when the new filter drops it. */
  lemma PreviousMatchKept(previous: Filter, filter: Filter, ik: Klass, m: Method)
    requires ValidModifications(filter) && ValidModifications(previous)
    requires CanInstrumentMethod(m) && MethodBits(previous, ik, m) != NoMatch
    ensures IsSelected(Some(previous), filter, ik, m)
  {
    SelectionMeaning(Some(previous), filter, ik, m);
  }

  /**
   * A class-annotation match of the previous filter alone does not select a
   * method: with no method-level match in either filter and no class match
   * in the new one, the method gets no record.
   */
  lemma PreviousClassMatchIgnored(previous: Filter, filter: Filter, ik: Klass, m: Method)
    requires ValidModifications(filter) && ValidModifications(previous)
    requires ClassBits(filter, ik) == NoMatch && MethodBits(filter, ik, m) == NoMatch
    requires MethodBits(previous, ik, m) == NoMatch
    ensures !IsSelected(Some(previous), filter, ik, m)
  {
    SelectionMeaning(Some(previous), filter, ik, m);
  }

  /**
   * The appended records are exactly the selected methods' records, one per
   * selected method, in strictly increasing methods-array order.
   */
  lemma {:induction false} ExpectedShape(previous: Option<Filter>, filter: Filter, ik: Klass, n: nat)
    requires n <= |ik.methods|
    ensures var e := Expected(previous, filter, ik, n);
      && (forall k :: 0 <= k < |e| ==>
            0 <= e[k].methodsArrayIndex < n
            && IsSelected(previous, filter, ik, ik.methods[e[k].methodsArrayIndex])
            && e[k] == ExpectedRecord(filter, ik, e[k].methodsArrayIndex))
      && (forall k, l :: 0 <= k < l < |e| ==> e[k].methodsArrayIndex < e[l].methodsArrayIndex)
      && (forall i :: 0 <= i < n && IsSelected(previous, filter, ik, ik.methods[i]) ==>
            exists k :: 0 <= k < |e| && e[k].methodsArrayIndex == i)
  {
    if n > 0 {
      ExpectedShape(previous, filter, ik, n - 1);
      var e0 := Expected(previous, filter, ik, n - 1);
      var e := Expected(previous, filter, ik, n);
      assert forall k :: 0 <= k < |e0| ==> e[k] == e0[k];
      if IsSelected(previous, filter, ik, ik.methods[n - 1]) {
        assert e[|e0|].methodsArrayIndex == n - 1;
      }
    }
  }

  /**
   * `has_timing` is raised exactly when some appended record's modification
   * is positive with bit 0 set: the -1 stored as 0 never counts.
   */
  lemma {:induction false} TimingMeaning(previous: Option<Filter>, filter: Filter, ik: Klass, n: nat)
    requires n <= |ik.methods|
    ensures var e := Expected(previous, filter, ik, n);
      TimingUpTo(previous, filter, ik, n) <==> exists k :: 0 <= k < |e| && SetsTiming(e[k].modification)
  {
    if n > 0 {
      TimingMeaning(previous, filter, ik, n - 1);
      var e0 := Expected(previous, filter, ik, n - 1);
      var e := Expected(previous, filter, ik, n);
      assert forall k :: 0 <= k < |e0| ==> e[k] == e0[k];
      var m := ik.methods[n - 1];
      if IsSelected(previous, filter, ik, m) {
        var last := e[|e0|];
        assert last.modification == RecordModification(NewModification(filter, ik, m));
        assert SetsTiming(last.modification) <==> SetsTiming(NewModification(filter, ik, m));
      }
    }
  }

  // ---------------------------------------------------------------------
  // The log line of process, as written and as intended

  function TracingWord(previous: Mod, current: Mod): string {
    if IsTracing(previous) == IsTracing(current) then ""
    else if IsTracing(current) then "+tracing " else "-tracing"
  }

  function TimingWord(previous: Mod, current: Mod): string {
    if IsTiming(previous) == IsTiming(current) then ""
    else if IsTiming(current) then "+timing " else "-timing"
  }

  /**
   * The change text of `log` as written: the timing change is stored in the
   * variable that holds the tracing change, so it replaces that change, and
   * the timing part of the message is always empty.
   */
  function ChangeTextAsWritten(previous: Mod, current: Mod): (text: string)
    ensures IsTiming(previous) != IsTiming(current) ==> text == TimingWord(previous, current)
    ensures IsTiming(previous) == IsTiming(current) ==> text == TracingWord(previous, current)
  {
    var tracing := if IsTiming(previous) != IsTiming(current) then TimingWord(previous, current)
                   else TracingWord(previous, current);
    var timing := "";
    tracing + timing
  }

  /** From no filter to timing and tracing, the message as written does not mention tracing. */
  lemma ChangeTextLosesTracing()
    ensures IsTracing(NoMatch) != IsTracing(3)
    ensures ChangeTextAsWritten(NoMatch, 3) == "+timing "
  {
  }

  /** The change text with each change reported in its own part, tracing first. */
  function ChangeText(previous: Mod, current: Mod): (text: string)
  {
    TracingWord(previous, current) + TimingWord(previous, current)
  }

  /** The intended text names every change that happened, and only those. */
  lemma ChangeTextReportsBoth(previous: Mod, current: Mod)
    ensures var text := ChangeText(previous, current);
      (IsTracing(previous) != IsTracing(current) ==>
        text[..8] == (if IsTracing(current) then "+tracing" else "-tracing"))
      && (IsTiming(previous) != IsTiming(current) ==>
        text[|text| - 7..][..7] == (if IsTiming(current) then "timing " else "-timing"))
      && (text == "" <==> IsTracing(previous) == IsTracing(current) && IsTiming(previous) == IsTiming(current))
      && (IsTracing(previous) == IsTracing(current) && IsTiming(previous) != IsTiming(current) ==>
        text == (if IsTiming(current) then "+timing " else "-timing"))
      && (IsTiming(previous) == IsTiming(current) && IsTracing(previous) != IsTracing(current) ==>
        text == (if IsTracing(current) then "+tracing " else "-tracing"))
  {
    if IsTracing(previous) != IsTracing(current) {
      TracingChangeLeads(previous, current);
    }
    if IsTiming(previous) != IsTiming(current) {
      TimingChangeTrails(previous, current);
    }
    var tracing, timing := TracingWord(previous, current), TimingWord(previous, current);
    if tracing == "" {
      assert ChangeText(previous, current) == timing;
    } else if timing == "" {
      assert ChangeText(previous, current) == tracing;
    }
  }

  /** A tracing change opens the corrected text. */
  lemma TracingChangeLeads(previous: Mod, current: Mod)
    requires IsTracing(previous) != IsTracing(current)
    ensures ChangeText(previous, current)[..8] == (if IsTracing(current) then "+tracing" else "-tracing")
  {
    var tracing := TracingWord(previous, current);
    assert ChangeText(previous, current)[..8] == tracing[..8];
  }

  /** A timing change closes the corrected text. */
  lemma TimingChangeTrails(previous: Mod, current: Mod)
    requires IsTiming(previous) != IsTiming(current)
    ensures var text := ChangeText(previous, current);
      |text| >= 7 && text[|text| - 7..] == (if IsTiming(current) then "timing " else "-timing")
  {
    var text, timing := ChangeText(previous, current), TimingWord(previous, current);
    assert text[|text| - 7..] == timing[|timing| - 7..];
  }

  // ---------------------------------------------------------------------
  // JfrMethodProcessor

  /**
   * The test `process` applies to method `m` of `ik`: the method must be
   * instrumentable, and the previous and new modifications combined must
   * not be -1.  Also returns the new modification.
   */
  method SelectMethod(previous: Option<Filter>, filter: Filter, ik: Klass, classModifications: Mod, m: Method)
    returns (selected: bool, newModification: Mod)
    requires classModifications == ClassBits(filter, ik)
    ensures selected == IsSelected(previous, filter, ik, m)
    ensures newModification == NewModification(filter, ik, m)
  {
    var methodModifications := MethodModifications(filter, ik, m);
    newModification := CombineBits(classModifications, methodModifications);
    if !CanInstrumentMethod(m) {
      return false, newModification;
    }
    var previousModification := classModifications;
    if previous.Some? {
      var previousMethodModifications := MethodModifications(previous.value, ik, m);
      previousModification := CombineBits(previousModification, previousMethodModifications);
    }
    var previousAndNew := CombineBits(previousModification, newModification);
    selected := previousAndNew != NoMatch;
  }

  class MethodProcessor {
    const klass: Klass
    var methods: Option<seq<TracedMethod>>
    var hasTiming: bool

    constructor (ik: Klass)
      ensures klass == ik && methods == None && !hasTiming
    {
      klass := ik;
      methods := None;
      hasTiming := false;
    }

    predicate HasMethods()
      reads this
    {
      methods.Some?
    }

    /** `set_timing`: the flag is raised by a positive timing modification and never lowered. */
    method SetTiming(modification: Mod)
      modifies this
      ensures hasTiming == (old(hasTiming) || SetsTiming(modification))
      ensures methods == old(methods)
    {
      if hasTiming {
        return;
      }
      if IsPositive(modification) && modification & TimingBit != 0 {
        hasTiming := true;
      }
    }

    /**
     * One turn of the loop of `process`, for the method at index `i`: a
     * selected method gets a fresh record appended, creating the list if
     * need be, and feeds its new modification to `set_timing`.
     */
    method ProcessMethod(previous: Option<Filter>, filter: Filter, classModifications: Mod, i: nat)
      returns (ghost r: TracedMethod?)
      requires i < |klass.methods| && classModifications == ClassBits(filter, klass)
      modifies this
      ensures var m := klass.methods[i];
        if IsSelected(previous, filter, klass, m) then
          && r != null && methods == Some(old(methods).GetOr([]) + [r])
          && fresh(r) && r.tracedMethod == None
          && ValueOf(r) == ExpectedRecord(filter, klass, i)
          && hasTiming == (old(hasTiming) || SetsTiming(NewModification(filter, klass, m)))
        else
          methods == old(methods) && hasTiming == old(hasTiming)
    {
      var m := klass.methods[i];
      var selected, newModification := SelectMethod(previous, filter, klass, classModifications, m);
      r := null;
      if selected {
        r := AppendRecord(newModification, i);
      }
    }

    /**
     * The selected branch of that turn: the list is created if need be, the
     * timing flag follows `newModification`, and a record for the method at
     * index `i` is appended, storing -1 as 0.
     */
    method AppendRecord(newModification: Mod, i: nat) returns (ghost r: TracedMethod)
      requires i < |klass.methods|
      modifies this
      ensures methods == Some(old(methods).GetOr([]) + [r])
      ensures fresh(r) && r.tracedMethod == None
      ensures var m := klass.methods[i];
        ValueOf(r) == RecordValue(MethodId(klass, m), Some(m.name), Some(m.signature), RecordModification(newModification), i)
      ensures hasTiming == (old(hasTiming) || SetsTiming(newModification))
    {
      var m := klass.methods[i];
      if methods.None? {
        methods := Some([]);
      }
      SetTiming(newModification);
      var modification := if newModification == NoMatch then 0 else newModification;
      var tracedMethod := new TracedMethod(klass, m, modification, i);
      methods := Some(methods.value + [tracedMethod]);
      r := tracedMethod;
    }

    /** The records appended and the timing flag after the loop of `process`. */
    predicate Appended(previous: Option<Filter>, filter: Filter, before: Option<seq<TracedMethod>>,
                       timingBefore: bool, n: nat)
      requires n <= |klass.methods|
      reads this, klass.methods
    {
      var expected := Expected(previous, filter, klass, n);
      var prior := before.GetOr([]);
      && (methods.None? <==> before.None? && expected == [])
      && (methods.Some? ==>
            |prior| <= |methods.value| && methods.value[..|prior|] == prior
            && ValuesOf(methods.value[|prior|..]) == expected)
      && hasTiming == (timingBefore || TimingUpTo(previous, filter, klass, n))
    }

    /** The loop of `process` over the methods array. */
    method ProcessMethods(previous: Option<Filter>, filter: Filter, classModifications: Mod)
      requires classModifications == ClassBits(filter, klass)
      modifies this
      ensures Appended(previous, filter, old(methods), old(hasTiming), |klass.methods|)
    {
      ghost var before, timingBefore := methods, hasTiming;
      ghost var prior := before.GetOr([]);
      for i := 0 to |klass.methods|
        invariant Appended(previous, filter, before, timingBefore, i)
      {
        ghost var current := methods.GetOr([]);
        ghost var selected := IsSelected(previous, filter, klass, klass.methods[i]);
        ghost var r := ProcessMethod(previous, filter, classModifications, i);
        assert Expected(previous, filter, klass, i + 1)
          == Expected(previous, filter, klass, i) + (if selected then [ExpectedRecord(filter, klass, i)] else []);
        if selected {
          AppendKeepsPrefix(prior, current, r);
        }
      }
    }

    /**
     * `process(previous_filter, filter)`: nothing happens for a class the
     * filter cannot instrument; otherwise one record per selected
     * method is appended, in methods-array order, the list being created
     * only when a first record is appended.
     */
    method Process(previous: Option<Filter>, filter: Filter)
      modifies this
      ensures !CanInstrumentClass(klass) ==> methods == old(methods) && hasTiming == old(hasTiming)
      ensures CanInstrumentClass(klass) ==>
        Appended(previous, filter, old(methods), old(hasTiming), |klass.methods|)
    {
      if !CanInstrumentClass(klass) {
        return;
      }
      var classModifications := ClassModifications(filter, klass);
      var previousClassModifications := NoMatch;
      if previous.Some? {
        previousClassModifications := ClassModifications(previous.value, klass);
      }
      ProcessMethods(previous, filter, classModifications);
    }

    /** `update_methods(ik)`: binds every record to the method at its index in `ik`. */
    method UpdateMethods(ik: Klass)
      requires methods.Some?
      requires forall k :: 0 <= k < |methods.value| ==> 0 <= methods.value[k].methodsArrayIndex < |ik.methods|
      modifies methods.value
      ensures forall k :: 0 <= k < |methods.value| ==>
        methods.value[k].tracedMethod == Some(ik.methods[methods.value[k].methodsArrayIndex])
    {
      var records := methods.value;
      for i := 0 to |records|
        invariant forall k :: 0 <= k < i ==> records[k].tracedMethod == Some(ik.methods[records[k].methodsArrayIndex])
      {
        records[i].SetMethodFromKlass(ik);
      }
    }
  }
}
