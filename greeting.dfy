/**
 * A class that holds a name and greets it (soluciones/ejemplo_solucion.py).
 * Nothing in it changes after construction, so it is a value.
 */
module Greeting {
  import opened Wrappers

  const Prefijo: string := "Hola, "

  datatype MiClase = MiClase(nombre: string) {
    /** saludar: the greeting "Hola, " followed by the name. */
    function Saludar(): (r: string)
      ensures |r| == |nombre| + |Prefijo|
      ensures r[..|Prefijo|] == Prefijo
      ensures r[|Prefijo|..] == nombre
    {
      Prefijo + nombre
    }
  }

  /** Recovers the name from a greeting, or None if `saludo` is not one. */
  function NombreSaludado(saludo: string): (r: Option<string>)
    ensures r.Some? <==> |Prefijo| <= |saludo| && saludo[..|Prefijo|] == Prefijo
    ensures r.Some? ==> MiClase(r.value).Saludar() == saludo
  {
    if |Prefijo| <= |saludo| && saludo[..|Prefijo|] == Prefijo then
      Some(saludo[|Prefijo|..])
    else
      None
  }

  /** The name can always be read back from its greeting. */
  lemma SaludarRoundTrip(m: MiClase)
    ensures NombreSaludado(m.Saludar()) == Some(m.nombre)
  {
  }

  /** Different names are greeted differently. */
  lemma SaludarInjective(a: MiClase, b: MiClase)
    requires a.Saludar() == b.Saludar()
    ensures a == b
  {
    SaludarRoundTrip(a);
    SaludarRoundTrip(b);
  }
}
