/**
 * `JfrFilter` and `JfrFilterManager`: the native filter that decides which
 * classes and methods are instrumented.  A filter is a set of parallel
 * arrays (class name, method name, annotation name, modification); every
 * entry that matches contributes its modification, and the contributions are
 * ORed together, with -1 meaning "no entry matched".
 */
module Filters {
  import opened Wrappers
  import opened Vm
  import opened Modifications

  // ---------------------------------------------------------------------
  // The filter value

  datatype FilterArrays = FilterArrays(
    classNames: seq<Option<Symbol>>,
    methodNames: seq<Option<Symbol>>,
    annotationNames: seq<Option<Symbol>>,
    modifications: seq<Mod>)

  /** A `JfrFilter`: its four arrays have `_count` entries each. */
  type Filter = f: FilterArrays
    | |f.classNames| == |f.modifications| && |f.methodNames| == |f.modifications|
      && |f.annotationNames| == |f.modifications|
    witness FilterArrays([], [], [], [])

  function Count(f: Filter): nat {
    |f.modifications|
  }

  predicate ValidModifications(f: Filter) {
    AllValid(f.modifications)
  }

  // ---------------------------------------------------------------------
  // can_instrument_module / class / method

  predicate CanInstrumentModule(entry: Option<ModuleEntry>) {
    match entry
    case None => true
    case Some(e) =>
      match e.name
      case None => true
      case Some(n) => n != "jdk.jfr" && n != "jdk.proxy1"
  }

  /** Exactly the modules named `jdk.jfr` and `jdk.proxy1` are refused; the names are compared whole. */
  lemma ModuleRule(n: Symbol)
    ensures CanInstrumentModule(None) && CanInstrumentModule(Some(ModuleEntry(None)))
    ensures CanInstrumentModule(Some(ModuleEntry(Some(n)))) <==> n !in {"jdk.jfr", "jdk.proxy1"}
    ensures CanInstrumentModule(Some(ModuleEntry(Some("jdk.jfr.events"))))
  {
  }

  predicate CanInstrumentClass(ik: Klass)
    reads ik
  {
    if ik.sticky then true
    else if ik.isHidden then false
    else if ik.isJfrEvent then false
    else if ik.isContinuation then false
    else CanInstrumentModule(ik.moduleEntry)
  }

  predicate CanInstrumentMethod(m: Method)
    reads m
  {
    if m.sticky then true
    else if m.isAbstract then false
    else if m.isSynthetic then false
    else if m.isNative then false
    else if m.isCompiledLambdaForm then false
    else true
  }

  /** The sticky bit is checked first: it admits a class or method whatever else holds. */
  lemma StickyOverridesExclusions(ik: Klass, m: Method)
    ensures ik.sticky ==> CanInstrumentClass(ik)
    ensures !ik.sticky ==> (CanInstrumentClass(ik) <==>
      !ik.isHidden && !ik.isJfrEvent && !ik.isContinuation && CanInstrumentModule(ik.moduleEntry))
    ensures m.sticky ==> CanInstrumentMethod(m)
    ensures !m.sticky ==> (CanInstrumentMethod(m) <==>
      !m.isAbstract && !m.isSynthetic && !m.isNative && !m.isCompiledLambdaForm)
  {
  }

  // ---------------------------------------------------------------------
  // match_annotations

  predicate HasAnnotation(annotations: Option<seq<Symbol>>, symbol: Symbol) {
    annotations.Some? && symbol in annotations.value
  }

  /** `match_annotations`: scans the annotation types for `symbol`. */
  method MatchAnnotations(annotations: Option<seq<Symbol>>, symbol: Symbol) returns (found: bool)
    ensures found == HasAnnotation(annotations, symbol)
  {
    if annotations.None? {
      return false;
    }
    var types := annotations.value;
    var i := 0;
    while i < |types|
      invariant 0 <= i <= |types|
      invariant symbol !in types[..i]
    {
      if types[i] == symbol {
        return true;
      }
      i := i + 1;
    }
    assert types[..i] == types;
    return false;
  }

  // ---------------------------------------------------------------------
  // class_modifications

  /** Entry `i` matches the class: it names an annotation the class carries. */
  predicate ClassEntryMatches(f: Filter, i: nat, ik: Klass)
    requires i < Count(f)
  {
    f.annotationNames[i].Some? && HasAnnotation(ik.classAnnotations, f.annotationNames[i].value)
  }

  /** The match flag of each of the first `n` entries for the class. */
  function ClassFlags(f: Filter, ik: Klass, n: nat): (flags: seq<bool>)
    requires n <= Count(f)
    ensures |flags| == n
    ensures forall i :: 0 <= i < n ==> flags[i] == ClassEntryMatches(f, i, ik)
  {
    if n == 0 then [] else ClassFlags(f, ik, n - 1) + [ClassEntryMatches(f, n - 1, ik)]
  }

  function AllClassFlags(f: Filter, ik: Klass): (flags: seq<bool>)
    ensures |flags| == Count(f)
  {
    ClassFlags(f, ik, Count(f))
  }

  /** What `class_modifications` returns. */
  function ClassBits(f: Filter, ik: Klass): Mod {
    FoldMatches(f.modifications, AllClassFlags(f, ik), Count(f))
  }

  /**
   * `class_modifications` is -1 exactly when no entry names an annotation of
   * the class, and otherwise the union of the matching entries' modifications.
   */
  lemma ClassModificationsMeaning(f: Filter, ik: Klass)
    requires ValidModifications(f)
    ensures ClassBits(f, ik) == NoMatch <==> forall i :: 0 <= i < Count(f) ==> !ClassEntryMatches(f, i, ik)
    ensures ClassBits(f, ik) != NoMatch ==>
      ClassBits(f, ik) == BitUnion(Selected(f.modifications, AllClassFlags(f, ik), Count(f)))
  {
    var flags := AllClassFlags(f, ik);
    SelectedEmpty(f.modifications, flags, Count(f));
    SelectedValid(f.modifications, flags, Count(f));
    FoldIsUnion(f.modifications, flags, Count(f));
    if Selected(f.modifications, flags, Count(f)) != [] {
      BitUnionValid(Selected(f.modifications, flags, Count(f)));
    }
  }

  /**
   * Only annotation entries contribute to `class_modifications`: a class
   * without annotations, or a filter without annotation entries, gives -1.
   */
  lemma ClassBitsNeedAnnotations(f: Filter, ik: Klass)
    requires ik.classAnnotations.None? || forall i :: 0 <= i < Count(f) ==> f.annotationNames[i].None?
    ensures ClassBits(f, ik) == NoMatch
  {
    FoldWithoutFlags(f.modifications, AllClassFlags(f, ik), Count(f));
  }

  method ClassModifications(f: Filter, ik: Klass) returns (result: Mod)
    ensures result == ClassBits(f, ik)
  {
    if ik.classAnnotations.None? {
      ClassBitsNeedAnnotations(f, ik);
      return NoMatch;
    }
    result := NoMatch;
    var i := 0;
    while i < Count(f)
      invariant 0 <= i <= Count(f)
      invariant result == FoldMatches(f.modifications, AllClassFlags(f, ik), i)
    {
      var annotation := f.annotationNames[i];
      if annotation.Some? {
        var matched := MatchAnnotations(ik.classAnnotations, annotation.value);
        if matched {
          result := CombineBits(result, f.modifications[i]);
        }
      }
      i := i + 1;
    }
  }

  // ---------------------------------------------------------------------
  // method_modifications

  /**
   * Entry `i` matches method `m` of class `holder`: an entry with an
   * annotation name matches by annotation only; otherwise an absent class or
   * method name is a wildcard, and a named method must also be instrumentable.
   */
  predicate MethodEntryMatches(f: Filter, i: nat, holder: Klass, m: Method)
    requires i < Count(f)
    reads m
  {
    match f.annotationNames[i]
    case Some(annotation) => HasAnnotation(m.annotations, annotation)
    case None =>
      (f.classNames[i].None? || f.classNames[i].value == holder.name)
      && (f.methodNames[i].None? || (f.methodNames[i].value == m.name && CanInstrumentMethod(m)))
  }

  /** The match flag of each of the first `n` entries for the method. */
  function MethodFlags(f: Filter, holder: Klass, m: Method, n: nat): (flags: seq<bool>)
    requires n <= Count(f)
    reads m
    ensures |flags| == n
    ensures forall i :: 0 <= i < n ==> flags[i] == MethodEntryMatches(f, i, holder, m)
  {
    if n == 0 then [] else MethodFlags(f, holder, m, n - 1) + [MethodEntryMatches(f, n - 1, holder, m)]
  }

  function AllMethodFlags(f: Filter, holder: Klass, m: Method): (flags: seq<bool>)
    reads m
    ensures |flags| == Count(f)
  {
    MethodFlags(f, holder, m, Count(f))
  }

  /** What `method_modifications` returns. */
  function MethodBits(f: Filter, holder: Klass, m: Method): Mod
    reads m
  {
    FoldMatches(f.modifications, AllMethodFlags(f, holder, m), Count(f))
  }

  /**
   * `method_modifications` is -1 exactly when no entry matches, and otherwise
   * the bitwise union of the modifications of all matching entries: there is
   * no first-match rule, and every matching entry takes part.
   */
  lemma MethodModificationsMeaning(f: Filter, holder: Klass, m: Method)
    requires ValidModifications(f)
    ensures MethodBits(f, holder, m) == NoMatch <==>
      forall i :: 0 <= i < Count(f) ==> !MethodEntryMatches(f, i, holder, m)
    ensures MethodBits(f, holder, m) != NoMatch ==>
      MethodBits(f, holder, m) == BitUnion(Selected(f.modifications, AllMethodFlags(f, holder, m), Count(f)))
    ensures forall i :: 0 <= i < Count(f) && MethodEntryMatches(f, i, holder, m) ==>
      f.modifications[i] in Selected(f.modifications, AllMethodFlags(f, holder, m), Count(f))
  {
    var flags := AllMethodFlags(f, holder, m);
    SelectedEmpty(f.modifications, flags, Count(f));
    SelectedValid(f.modifications, flags, Count(f));
    FoldIsUnion(f.modifications, flags, Count(f));
    if Selected(f.modifications, flags, Count(f)) != [] {
      BitUnionValid(Selected(f.modifications, flags, Count(f)));
    }
    forall i | 0 <= i < Count(f) && MethodEntryMatches(f, i, holder, m)
      ensures f.modifications[i] in Selected(f.modifications, flags, Count(f))
    {
      SelectedContains(f.modifications, flags, Count(f), i);
    }
  }

  method MethodModifications(f: Filter, holder: Klass, m: Method) returns (result: Mod)
    ensures result == MethodBits(f, holder, m)
  {
    result := NoMatch;
    var i := 0;
    while i < Count(f)
      invariant 0 <= i <= Count(f)
      invariant result == FoldMatches(f.modifications, AllMethodFlags(f, holder, m), i)
    {
      var annotation := f.annotationNames[i];
      if annotation.Some? {
        var matched := MatchAnnotations(m.annotations, annotation.value);
        if matched {
          result := CombineBits(result, f.modifications[i]);
        }
      } else {
        var className := f.classNames[i];
        if className.None? || holder.name == className.value {
          var methodName := f.methodNames[i];
          if methodName.None? || (m.name == methodName.value && CanInstrumentMethod(m)) {
            result := CombineBits(result, f.modifications[i]);
          }
        }
      }
      i := i + 1;
    }
  }

  // ---------------------------------------------------------------------
  // match

  /** The filter matches the class: by class annotation, or through one of its methods. */
  predicate Matches(f: Filter, ik: Klass)
    reads ik.methods
  {
    ClassBits(f, ik) != NoMatch
    || exists i :: 0 <= i < |ik.methods| && MethodBits(f, ik, ik.methods[i]) != NoMatch
  }

  method Match(f: Filter, ik: Klass) returns (matched: bool)
    ensures matched == Matches(f, ik)
  {
    var classBits := ClassModifications(f, ik);
    if classBits != NoMatch {
      return true;
    }
    var i := 0;
    while i < |ik.methods|
      invariant 0 <= i <= |ik.methods|
      invariant forall j :: 0 <= j < i ==> MethodBits(f, ik, ik.methods[j]) == NoMatch
    {
      var bits := MethodModifications(f, ik, ik.methods[i]);
      if bits != NoMatch {
        return true;
      }
      i := i + 1;
    }
    return false;
  }

  // ---------------------------------------------------------------------
  // The modification text of `log`

  const NoModificationText: string := "-timing -tracing"

  /**
   * The text `log` prints for a modification: 1, 2 and 3 spell out their
   * bits, timing first; every other value, -1 and 0 included, prints as
   * neither.
   */
  function ModificationText(mod: Mod): (text: string)
    ensures 1 <= mod <= 3 ==>
      text == (if mod & TimingBit != 0 then "+timing" else "")
              + (if mod & TimingBit != 0 && mod & TracingBit != 0 then " " else "")
              + (if mod & TracingBit != 0 then "+tracing" else "")
    ensures !(1 <= mod <= 3) ==> text == NoModificationText
  {
    if mod == 1 then "+timing"
    else if mod == 2 then "+tracing"
    else if mod == 3 then "+timing +tracing"
    else NoModificationText
  }

  // ---------------------------------------------------------------------
  // JfrFilterManager

  class FilterManager {
    var current: Option<Filter>
    /** The superseded filters, kept per epoch until that epoch is over. */
    var previousEpoch0: seq<Filter>
    var previousEpoch1: seq<Filter>

    constructor ()
      ensures current == None && previousEpoch0 == [] && previousEpoch1 == []
    {
      current := None;
      previousEpoch0 := [];
      previousEpoch1 := [];
    }

    function PreviousFilters(epoch: Epoch): seq<Filter>
      reads this
    {
      if epoch == 0 then previousEpoch0 else previousEpoch1
    }

    /** `add_previous_filter`: a null filter is not recorded. */
    method AddPreviousFilter(previous: Option<Filter>, epoch: Epoch)
      modifies this
      ensures current == old(current)
      ensures PreviousFilters(epoch) == old(PreviousFilters(epoch)) + (if previous.Some? then [previous.value] else [])
      ensures PreviousFilters(PreviousEpoch(epoch)) == old(PreviousFilters(PreviousEpoch(epoch)))
    {
      if previous.Some? {
        if epoch == 0 {
          previousEpoch0 := previousEpoch0 + [previous.value];
        } else {
          previousEpoch1 := previousEpoch1 + [previous.value];
        }
      }
    }

    /**
     * `install(new_filter)` in epoch `epoch`: the new filter becomes current
     * and the one it replaces, if any, joins this epoch's previous filters.
     */
    method Install(newFilter: Filter, epoch: Epoch)
      modifies this
      ensures current == Some(newFilter)
      ensures PreviousFilters(epoch) == old(PreviousFilters(epoch)) + (if old(current).Some? then [old(current).value] else [])
      ensures PreviousFilters(PreviousEpoch(epoch)) == old(PreviousFilters(PreviousEpoch(epoch)))
    {
      var replaced := current;
      current := Some(newFilter);
      AddPreviousFilter(replaced, epoch);
    }

    /** `clear_previous_filters` in epoch `epoch`: only the other epoch's list is emptied. */
    method ClearPreviousFilters(epoch: Epoch)
      modifies this
      ensures PreviousFilters(PreviousEpoch(epoch)) == []
      ensures PreviousFilters(epoch) == old(PreviousFilters(epoch))
      ensures current == old(current)
    {
      if PreviousEpoch(epoch) == 0 {
        previousEpoch0 := [];
      } else {
        previousEpoch1 := [];
      }
    }

    /**
     * `install(classes, methods, annotations, modification_array)`: builds a
     * filter from the four Java arrays and installs it, or fails, changing
     * nothing, when their lengths differ.
     */
    method InstallArrays(classes: seq<Option<Symbol>>, methods: seq<Option<Symbol>>,
                         annotations: seq<Option<Symbol>>, modifications: seq<Mod>, epoch: Epoch)
      returns (installed: bool)
      modifies this
      ensures installed <==>
        |classes| == |methods| && |classes| == |annotations| && |classes| == |modifications|
      ensures !installed ==> unchanged(this)
      ensures installed ==> current == Some(FilterArrays(classes, methods, annotations, modifications))
      ensures PreviousFilters(epoch) ==
        old(PreviousFilters(epoch)) + (if installed && old(current).Some? then [old(current).value] else [])
      ensures PreviousFilters(PreviousEpoch(epoch)) == old(PreviousFilters(PreviousEpoch(epoch)))
    {
      if |classes| != |methods| || |classes| != |annotations| || |classes| != |modifications| {
        return false;
      }
      var newFilter: Filter := FilterArrays(classes, methods, annotations, modifications);
      Install(newFilter, epoch);
      return true;
    }
  }
}
