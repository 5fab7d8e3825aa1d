/**
 * A counter that acts as an iterator over 1, 2, ..., limite
 * (soluciones/ejercicio_29.py).
 */
module Iteration {
  import opened Wrappers

  /** The numbers 1 to n in order; empty when n <= 0. */
  function Upto(n: int): (r: seq<int>)
    ensures |r| == if n <= 0 then 0 else n
    ensures forall i :: 0 <= i < |r| ==> r[i] == i + 1
    decreases if n <= 0 then 0 else n
  {
    if n <= 0 then [] else Upto(n - 1) + [n]
  }

  class Contador {
    const limite: int
    var actual: int

    /**
     * actual starts at 0 and only moves while below limite, so it stays in
     * 0..limite (and at 0 when limite is not positive).
     */
    ghost predicate Valid()
      reads this
    {
      0 <= actual && (actual == 0 || actual <= limite)
    }

    constructor (limite: int)
      ensures Valid()
      ensures this.limite == limite && actual == 0
    {
      this.limite := limite;
      actual := 0;
    }

    /** __iter__: the counter is its own iterator. */
    method Iter() returns (it: Contador)
      ensures it == this
    {
      it := this;
    }

    /**
     * __next__: the next number, or None for StopIteration. Once the
     * counter is exhausted it stays exhausted.
     */
    method Next() returns (r: Option<int>)
      requires Valid()
      modifies this
      ensures Valid()
      ensures old(actual) < limite ==> actual == old(actual) + 1 && r == Some(actual)
      ensures limite <= old(actual) ==> actual == old(actual) && r == None
    {
      if actual < limite {
        actual := actual + 1;
        r := Some(actual);
      } else {
        r := None;
      }
    }
  }

  /**
   * The for loop over Contador(limite): everything a fresh counter yields
   * until it stops, in order.
   */
  method Recorrer(limite: int) returns (vistos: seq<int>)
    ensures vistos == Upto(limite)
  {
    var c := new Contador(limite);
    var it := c.Iter();
    vistos := [];
    var siguiente := it.Next();
    while siguiente.Some?
      invariant it == c && c.Valid() && c.limite == limite
      invariant siguiente.Some? ==> c.actual <= limite && siguiente.value == c.actual
      invariant siguiente.None? ==> limite <= c.actual
      invariant vistos + (if siguiente.Some? then [siguiente.value] else []) == Upto(c.actual)
      decreases limite - c.actual + (if siguiente.Some? then 1 else 0)
    {
      vistos := vistos + [siguiente.value];
      siguiente := it.Next();
    }
    assert c.actual == if limite <= 0 then 0 else limite;
  }
}
