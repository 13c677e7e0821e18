/**
 * The parts of the HotSpot runtime that the method tracer reads or tags:
 * classes (`InstanceKlass`), methods (`Method`), module entries and the
 * method-tracer tag state kept by `JfrTraceIdEpoch`.  Their attributes are
 * constants supplied by the runtime; only the trace bits that the tracer
 * sets and clears are fields that change.
 */
module Vm {
  import opened Wrappers

  /** Symbols are interned, so identity of two `Symbol*` is equality of their text. */
  type Symbol = string

  /** A `ModuleEntry`; an unnamed module has no name. */
  datatype ModuleEntry = ModuleEntry(name: Option<Symbol>)

  class Method {
    /** `method_holder()`: the class that declares the method. */
    const holder: Klass?
    const name: Symbol
    const signature: Symbol
    /** The trace id `METHOD_ID(holder, method)` gives this method. */
    const methodId: int
    const isAbstract: bool
    const isSynthetic: bool
    const isNative: bool
    const isCompiledLambdaForm: bool
    /** The method's annotation types, or `None` when it has no annotations array. */
    const annotations: Option<seq<Symbol>>
    /** The method's sticky trace bit. */
    var sticky: bool
    /** Set when the trace-id load barrier has tagged the method in the current epoch. */
    var dynamicTagged: bool
  }

  class Klass {
    const name: Symbol
    /** `JfrTraceId::load_raw(ik)`. */
    const traceId: int
    /** False for array and other non-instance classes. */
    const isInstance: bool
    const isHidden: bool
    /** `JdkJfrEvent::is_a(ik)`. */
    const isJfrEvent: bool
    /** `ik == vmClasses::Continuation_klass()`. */
    const isContinuation: bool
    const moduleEntry: Option<ModuleEntry>
    /** The class annotation types, or `None` when the class has no annotations array. */
    const classAnnotations: Option<seq<Symbol>>
    /** `ik->methods()`. */
    const methods: seq<Method>
    var sticky: bool
    var timing: bool
    var dynamicTagged: bool
  }

  /** Every method in the class's methods array is declared by that class, as in HotSpot. */
  predicate OwnsMethods(k: Klass) {
    forall m :: m in k.methods ==> m.holder == k
  }

  /** The method-tracer tag state of `JfrTraceIdEpoch`. */
  class EpochState {
    var methodTracerTagState: bool
  }

  /** `JfrTraceIdEpoch::current()`: the epoch is 0 or 1. */
  type Epoch = e: int | 0 <= e <= 1

  /** `JfrTraceIdEpoch::previous()`. */
  function PreviousEpoch(e: Epoch): (p: Epoch)
    ensures p != e
  {
    1 - e
  }
}
