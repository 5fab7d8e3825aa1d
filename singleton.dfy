/**
 * A metaclass that keeps one instance per class: calling a class whose
 * metaclass is SingletonMeta builds an instance the first time and returns
 * that same instance ever after (soluciones/ejercicio_28.py).
 */
module Singleton {
  /** A class, identified by its qualified name. */
  type ClassId = string

  /** An object built by a class's ordinary constructor, with the arguments it was given. */
  class Instancia {
    const cls: ClassId
    const args: seq<string>

    constructor (cls: ClassId, args: seq<string>)
      ensures this.cls == cls && this.args == args
    {
      this.cls := cls;
      this.args := args;
    }
  }

  /** The metaclass with its class-level dictionary `_instancia`. */
  class SingletonMeta {
    var instancia: map<ClassId, Instancia>

    /** Every stored instance was built by the class it is stored under. */
    ghost predicate Valid()
      reads this, instancia.Values
    {
      forall c :: c in instancia ==> instancia[c].cls == c
    }

    constructor ()
      ensures Valid() && instancia == map[]
    {
      instancia := map[];
    }

    /**
     * __call__: the stored instance of `cls`, built (with `args`) and stored
     * on the first call only. Arguments of later calls are ignored, and no
     * existing entry is ever replaced or removed.
     */
    method Call(cls: ClassId, args: seq<string>) returns (obj: Instancia)
      requires Valid()
      modifies this
      ensures Valid()
      ensures cls in instancia && obj == instancia[cls] && obj.cls == cls
      ensures cls in old(instancia) ==> obj == old(instancia)[cls] && instancia == old(instancia)
      ensures cls !in old(instancia) ==>
        fresh(obj) && obj.args == args && instancia == old(instancia)[cls := obj]
    {
      if cls !in instancia {
        var nueva := new Instancia(cls, args);
        instancia := instancia[cls := nueva];
      }
      obj := instancia[cls];
    }

    /** Two calls of the same class, whatever their arguments, give the identical object. */
    method CallTwice(cls: ClassId, args1: seq<string>, args2: seq<string>) returns (a: Instancia, b: Instancia)
      requires Valid()
      modifies this
      ensures Valid()
      ensures a == b
      ensures cls in old(instancia) ==> a == old(instancia)[cls]
      ensures cls !in old(instancia) ==> fresh(a) && a.args == args1
      ensures old(instancia).Keys <= instancia.Keys
      ensures forall c :: c in old(instancia) ==> instancia[c] == old(instancia)[c]
    {
      a := Call(cls, args1);
      b := Call(cls, args2);
    }
  }

  /** The demonstration: `a = Misingleton(); b = Misingleton(); a is b`. */
  method Demo() returns (identicas: bool)
    ensures identicas
  {
    var meta := new SingletonMeta();
    var a := meta.Call("Misingleton", []);
    var b := meta.Call("Misingleton", []);
    identicas := a == b;
  }
}
