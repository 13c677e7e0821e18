/**
 * `JfrTracedMethod`: the record kept for a method that a filter selected.
 * Its method (`tracedMethod`) is left unset when the record is made and is filled in later,
 * from the class whose methods array the record indexes.
 */
module TracedMethods {
  import opened Wrappers
  import opened Vm
  import opened Modifications

  /** The trace id `METHOD_ID(ik, m)` gives the method; its encoding is not part of this model. */
  function MethodId(ik: Klass, m: Method): int {
    m.methodId
  }

  class TracedMethod {
    const id: int
    const name: Option<Symbol>
    const signature: Option<Symbol>
    var tracedMethod: Option<Method>
    const modification: Mod
    const methodsArrayIndex: int

    /** The record for method `m` of `ik`, at position `methodsArrayIndex` of its methods array. */
    constructor (ik: Klass, m: Method, modification: Mod, methodsArrayIndex: int)
      ensures id == MethodId(ik, m) && name == Some(m.name) && signature == Some(m.signature)
      ensures tracedMethod == None
      ensures this.modification == modification && this.methodsArrayIndex == methodsArrayIndex
    {
      id := MethodId(ik, m);
      name := Some(m.name);
      signature := Some(m.signature);
      tracedMethod := None;
      this.modification := modification;
      this.methodsArrayIndex := methodsArrayIndex;
    }

    /** The default record: every field zero or null. */
    constructor Default()
      ensures id == 0 && name == None && signature == None && tracedMethod == None
      ensures modification == 0 && methodsArrayIndex == 0
    {
      id := 0;
      name := None;
      signature := None;
      tracedMethod := None;
      modification := 0;
      methodsArrayIndex := 0;
    }

    /** `method()`: the method may only be read once it has been set. */
    function GetMethod(): (m: Method)
      requires tracedMethod.Some?
      reads this
      ensures tracedMethod == Some(m)
    {
      tracedMethod.value
    }

    /** `set_method_from_klass`: the method at the record's index in `ik`'s methods array. */
    method SetMethodFromKlass(ik: Klass)
      requires 0 <= methodsArrayIndex < |ik.methods|
      modifies this
      ensures tracedMethod == Some(ik.methods[methodsArrayIndex])
    {
      tracedMethod := Some(ik.methods[methodsArrayIndex]);
    }
  }
}
