/**
 * `JfrInstrumentedClass` and the growable array of them that the method
 * tracer keeps: one entry per class whose bytecode carries instrumentation.
 * Entries are compared by trace id, the identity of a class for as long as it
 * is loaded.
 */
module InstrumentedClasses {
  import opened Vm

  datatype InstrumentedClass = InstrumentedClass(traceId: int, klass: Klass, unloaded: bool)

  /** The equality `find` uses. */
  predicate SameClass(a: InstrumentedClass, b: InstrumentedClass) {
    a.traceId == b.traceId
  }

  /**
   * The shape the tracer keeps: no trace id twice, every entry's id is its
   * class's id, and every class declares its own methods.  Hence no class
   * appears twice, and two entries share no method.
   */
  predicate WellFormed(entries: seq<InstrumentedClass>) {
    (forall i, j :: 0 <= i < j < |entries| ==> entries[i].traceId != entries[j].traceId)
    && (forall i :: 0 <= i < |entries| ==> entries[i].traceId == entries[i].klass.traceId)
    && (forall i :: 0 <= i < |entries| ==> OwnsMethods(entries[i].klass))
  }

  predicate Contains(entries: seq<InstrumentedClass>, e: InstrumentedClass) {
    exists i :: 0 <= i < |entries| && SameClass(entries[i], e)
  }

  lemma WellFormedKlassesDistinct(entries: seq<InstrumentedClass>, i: nat, j: nat)
    requires WellFormed(entries) && i < j < |entries|
    ensures entries[i].klass != entries[j].klass
  {
  }

  /** A method of one entry's class is not a method of another entry's class. */
  lemma WellFormedMethodsDistinct(entries: seq<InstrumentedClass>, i: nat, j: nat, m: Method)
    requires WellFormed(entries) && i < |entries| && j < |entries| && i != j
    requires m in entries[i].klass.methods
    ensures m !in entries[j].klass.methods
  {
    if i < j {
      WellFormedKlassesDistinct(entries, i, j);
    } else {
      WellFormedKlassesDistinct(entries, j, i);
    }
  }

  /** Appending an entry whose id is absent and agrees with its class keeps the shape. */
  lemma AppendKeepsWellFormed(entries: seq<InstrumentedClass>, e: InstrumentedClass)
    requires WellFormed(entries) && !Contains(entries, e) && e.traceId == e.klass.traceId
    requires OwnsMethods(e.klass)
    ensures WellFormed(entries + [e])
  {
    var extended := entries + [e];
    forall i | 0 <= i < |entries|
      ensures extended[i].traceId != e.traceId
    {
      assert !SameClass(entries[i], e);
    }
  }

  /** A `GrowableArray<JfrInstrumentedClass>`. */
  class InstrumentedList {
    var elements: seq<InstrumentedClass>

    constructor ()
      ensures elements == []
    {
      elements := [];
    }

    predicate IsEmpty()
      reads this
    {
      |elements| == 0
    }

    /** `find`: the first index of an entry equal to `e`, or -1. */
    method Find(e: InstrumentedClass) returns (index: int)
      ensures index == -1 <==> !Contains(elements, e)
      ensures index != -1 ==>
                0 <= index < |elements| && SameClass(elements[index], e)
                && forall j :: 0 <= j < index ==> !SameClass(elements[j], e)
    {
      var i := 0;
      while i < |elements|
        invariant 0 <= i <= |elements|
        invariant forall j :: 0 <= j < i ==> !SameClass(elements[j], e)
      {
        if SameClass(elements[i], e) {
          return i;
        }
        i := i + 1;
      }
      return -1;
    }

    /** `append`: returns the index of the new last entry. */
    method Append(e: InstrumentedClass) returns (index: nat)
      modifies this
      ensures elements == old(elements) + [e]
      ensures index == |old(elements)|
    {
      elements := elements + [e];
      index := |elements| - 1;
    }

    method Clear()
      modifies this
      ensures elements == []
    {
      elements := [];
    }
  }
}
