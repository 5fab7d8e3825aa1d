/**
 * An employee record with getters and setters, and a manager that also has
 * a department (soluciones/ejercicio_11.py).
 */
module Employees {
  /**
   * Empleado, and its subclass Gerente when `esGerente` holds. A Gerente is
   * an Empleado with every Empleado operation; only a Gerente has the
   * department operations, so `departamento` stays "" for a plain Empleado.
   */
  class Empleado {
    const esGerente: bool
    var nombre: string
    var salario: real
    var departamento: string

    constructor (nombre: string, salario: real)
      ensures !esGerente
      ensures this.nombre == nombre && this.salario == salario
    {
      esGerente := false;
      this.nombre := nombre;
      this.salario := salario;
      departamento := "";
    }

    /** Gerente.__init__: Empleado's constructor, then the department. */
    constructor Gerente(nombre: string, salario: real, departamento: string)
      ensures esGerente
      ensures this.nombre == nombre && this.salario == salario
      ensures this.departamento == departamento
    {
      esGerente := true;
      this.nombre := nombre;
      this.salario := salario;
      this.departamento := departamento;
    }

    method GetNombre() returns (r: string)
      ensures r == nombre
    {
      r := nombre;
    }

    method SetNombre(value: string)
      modifies this`nombre
      ensures nombre == value
    {
      nombre := value;
    }

    method GetSalario() returns (r: real)
      ensures r == salario
    {
      r := salario;
    }

    method SetSalario(value: real)
      modifies this`salario
      ensures salario == value
    {
      salario := value;
    }

    method GetDepartamento() returns (r: string)
      requires esGerente
      ensures r == departamento
    {
      r := departamento;
    }

    method SetDepartamento(value: string)
      requires esGerente
      modifies this`departamento
      ensures departamento == value
    {
      departamento := value;
    }
  }

  /**
   * What a caller sees through the accessors: each getter returns what the
   * matching setter stored last, and a setter leaves the other fields as
   * they were.
   */
  method SetThenGet(e: Empleado, nombre: string, salario: real)
    returns (leidoNombre: string, leidoSalario: real)
    modifies e
    ensures leidoNombre == nombre && leidoSalario == salario
    ensures e.departamento == old(e.departamento)
  {
    e.SetNombre(nombre);
    e.SetSalario(salario);
    leidoNombre := e.GetNombre();
    leidoSalario := e.GetSalario();
  }

  /** A new manager reports back what it was built with through its getters. */
  method NewGerenteReadsBack(nombre: string, salario: real, departamento: string)
    returns (n: string, s: real, d: string)
    ensures n == nombre && s == salario && d == departamento
  {
    var g := new Empleado.Gerente(nombre, salario, departamento);
    n := g.GetNombre();
    s := g.GetSalario();
    d := g.GetDepartamento();
  }
}
