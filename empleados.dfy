/**
 * The employee record (`Empleado`): a mutable object with an append-only rating history
 * and an append-only payroll history, its dictionary snapshot (`to_dict`) and the
 * reconstruction from a dictionary that may lack optional keys (`from_dict`).
 */
module Empleados {
  import opened Wrappers
  import opened Liquidacion

  /** Rating a new employee gets when none is given. */
  const VALORACION_DEFECTO: int := 5

  /** One entry `{"fecha", "valoracion"}` of the rating history. */
  datatype Valoracion = Valoracion(fecha: string, valoracion: int)

  /** The twelve keys `to_dict` produces. */
  datatype EmpleadoDict = EmpleadoDict(
    cedula: string,
    nombre: string,
    apellido: string,
    cargo: string,
    salarioBase: real,
    tipoContrato: string,
    telefono: string,
    email: string,
    valoracion: int,
    activo: bool,
    historialNominas: seq<NominaDict>,
    historialValoraciones: seq<Valoracion>)

  /** A dictionary as `from_dict` receives it: any key may be absent. */
  datatype EmpleadoEntrada = EmpleadoEntrada(
    cedula: Option<string>,
    nombre: Option<string>,
    apellido: Option<string>,
    cargo: Option<string>,
    salarioBase: Option<real>,
    tipoContrato: Option<string>,
    telefono: Option<string>,
    email: Option<string>,
    valoracion: Option<int>,
    activo: Option<bool>,
    historialNominas: Option<seq<NominaDict>>,
    historialValoraciones: Option<seq<Valoracion>>)

  /** The six keys `from_dict` reads with `data[...]`, so whose absence is an error. */
  predicate TieneObligatorias(e: EmpleadoEntrada)
  {
    e.cedula.Some? && e.nombre.Some? && e.apellido.Some? && e.cargo.Some? && e.salarioBase.Some? && e.tipoContrato.Some?
  }

  /** "First name last name", as both `__str__` and the payroll record show it. */
  function NombreCompleto(nombre: string, apellido: string): string
  {
    nombre + " " + apellido
  }

  /** The state of a freshly constructed employee. */
  function Nuevo(cedula: string, nombre: string, apellido: string, cargo: string, salarioBase: real,
                 tipoContrato: string, telefono: string, email: string, valoracion: int, fecha: string): (d: EmpleadoDict)
    ensures d.cedula == cedula && d.valoracion == valoracion
    ensures d.nombre == nombre && d.apellido == apellido && d.cargo == cargo && d.salarioBase == salarioBase
    ensures d.tipoContrato == tipoContrato && d.telefono == telefono && d.email == email
    ensures d.activo && d.historialNominas == []
    ensures d.historialValoraciones == [Valoracion(fecha, valoracion)]
    ensures Coherente(d)
  {
    EmpleadoDict(cedula, nombre, apellido, cargo, salarioBase, tipoContrato, telefono, email, valoracion,
                 true, [], [Valoracion(fecha, valoracion)])
  }

  /** An employee built with the default keyword arguments (`telefono=""`, `email=""`,
      `valoracion=5`) has rating 5, recorded once, and empty contact fields. */
  lemma NuevoPorDefecto(cedula: string, nombre: string, apellido: string, cargo: string, salarioBase: real,
                        tipoContrato: string, fecha: string)
    ensures var d := Nuevo(cedula, nombre, apellido, cargo, salarioBase, tipoContrato, "", "", VALORACION_DEFECTO, fecha);
            && d.valoracion == 5 && d.historialValoraciones == [Valoracion(fecha, 5)]
            && d.telefono == "" && d.email == ""
  {
  }

  /** The dictionary `to_dict` returns, read back as a dictionary: every key present. */
  function ComoEntrada(d: EmpleadoDict): (e: EmpleadoEntrada)
    ensures TieneObligatorias(e)
    ensures && e.telefono.Some? && e.email.Some? && e.valoracion.Some? && e.activo.Some?
            && e.historialNominas.Some? && e.historialValoraciones.Some?
  {
    EmpleadoEntrada(Some(d.cedula), Some(d.nombre), Some(d.apellido), Some(d.cargo), Some(d.salarioBase),
                    Some(d.tipoContrato), Some(d.telefono), Some(d.email), Some(d.valoracion), Some(d.activo),
                    Some(d.historialNominas), Some(d.historialValoraciones))
  }

  /** The field values `from_dict(data)` gives the employee it builds; `None` when a
      mandatory key is missing (Python raises `KeyError`). */
  function LeerDict(e: EmpleadoEntrada): (r: Option<EmpleadoDict>)
    ensures r.Some? <==> TieneObligatorias(e)
    ensures r.Some? ==> r.value.cedula == e.cedula.value && r.value.nombre == e.nombre.value
    ensures r.Some? ==> r.value.apellido == e.apellido.value && r.value.cargo == e.cargo.value
    ensures r.Some? ==> r.value.salarioBase == e.salarioBase.value && r.value.tipoContrato == e.tipoContrato.value
    ensures r.Some? ==> r.value.telefono == (if e.telefono.Some? then e.telefono.value else "")
    ensures r.Some? ==> r.value.email == (if e.email.Some? then e.email.value else "")
    ensures r.Some? ==> r.value.valoracion == (if e.valoracion.Some? then e.valoracion.value else 5)
    ensures r.Some? ==> r.value.activo == (e.activo.None? || e.activo.value)
    ensures r.Some? ==> r.value.historialNominas == (if e.historialNominas.Some? then e.historialNominas.value else [])
    ensures r.Some? ==> r.value.historialValoraciones == (if e.historialValoraciones.Some? then e.historialValoraciones.value else [])
  {
    if !TieneObligatorias(e) then
      None
    else
      Some(EmpleadoDict(e.cedula.value, e.nombre.value, e.apellido.value, e.cargo.value, e.salarioBase.value,
                        e.tipoContrato.value, e.telefono.GetOr(""), e.email.GetOr(""),
                        e.valoracion.GetOr(VALORACION_DEFECTO), e.activo.GetOr(true),
                        e.historialNominas.GetOr([]), e.historialValoraciones.GetOr([])))
  }

  /** `from_dict(to_dict(e))` reproduces every field of `e`, status and histories included. */
  lemma IdaYVuelta(d: EmpleadoDict)
    ensures LeerDict(ComoEntrada(d)) == Some(d)
  {
  }

  /** A dictionary holding only the mandatory keys yields an active employee with empty
      phone and email, rating 5 and both histories empty. */
  lemma ValoresPorDefecto(cedula: string, nombre: string, apellido: string, cargo: string,
                          salarioBase: real, tipoContrato: string)
    ensures LeerDict(EmpleadoEntrada(Some(cedula), Some(nombre), Some(apellido), Some(cargo), Some(salarioBase),
                                     Some(tipoContrato), None, None, None, None, None, None))
         == Some(EmpleadoDict(cedula, nombre, apellido, cargo, salarioBase, tipoContrato, "", "", 5, true, [], []))
  {
  }

  /** A rating `actualizar_valoracion` accepts. */
  predicate ValoracionValida(v: int)
  {
    1 <= v <= 10
  }

  /** `actualizar_valoracion(nueva)`: a rating in 1..10 becomes the current one and is
      appended to the history; any other leaves the record as it was. */
  function ConValoracion(d: EmpleadoDict, nueva: int, fecha: string): (r: EmpleadoDict)
    ensures ValoracionValida(nueva) ==> r.valoracion == nueva
    ensures |r.historialValoraciones| == |d.historialValoraciones| + (if ValoracionValida(nueva) then 1 else 0)
    ensures r.historialValoraciones[..|d.historialValoraciones|] == d.historialValoraciones
    ensures ValoracionValida(nueva) ==> r.historialValoraciones[|d.historialValoraciones|] == Valoracion(fecha, nueva)
    ensures !ValoracionValida(nueva) ==> r == d
    ensures r.(valoracion := d.valoracion, historialValoraciones := d.historialValoraciones) == d
  {
    if ValoracionValida(nueva) then
      d.(valoracion := nueva, historialValoraciones := d.historialValoraciones + [Valoracion(fecha, nueva)])
    else
      d
  }

  /** `agregar_nomina(nomina_data)`: the record is appended, unchecked, to the payroll history. */
  function ConNomina(d: EmpleadoDict, n: NominaDict): (r: EmpleadoDict)
    ensures |r.historialNominas| == |d.historialNominas| + 1
    ensures r.historialNominas[..|d.historialNominas|] == d.historialNominas
    ensures r.historialNominas[|d.historialNominas|] == n
    ensures r.(historialNominas := d.historialNominas) == d
  {
    d.(historialNominas := d.historialNominas + [n])
  }

  /** The current rating is the last entry of a non-empty rating history. */
  predicate Coherente(d: EmpleadoDict)
  {
    |d.historialValoraciones| > 0 && d.historialValoraciones[|d.historialValoraciones| - 1].valoracion == d.valoracion
  }

  /** Every rating in the history, and the current one, lies in 1..10. */
  predicate ValoracionesEnRango(d: EmpleadoDict)
  {
    ValoracionValida(d.valoracion)
    && forall i :: 0 <= i < |d.historialValoraciones| ==> ValoracionValida(d.historialValoraciones[i].valoracion)
  }

  /** Rating updates, accepted or refused, keep the rating history coherent with the
      current rating and keep every rating within 1..10. */
  lemma ConValoracionPreserva(d: EmpleadoDict, nueva: int, fecha: string)
    ensures Coherente(d) ==> Coherente(ConValoracion(d, nueva, fecha))
    ensures ValoracionesEnRango(d) ==> ValoracionesEnRango(ConValoracion(d, nueva, fecha))
  {
    var r := ConValoracion(d, nueva, fecha);
    if ValoracionValida(nueva) && ValoracionesEnRango(d) {
      assert r.historialValoraciones == d.historialValoraciones + [Valoracion(fecha, nueva)];
    }
  }

  /** The optional-field update structure of `actualizar_empleado`: one entry per
      whitelisted field; `None` stands for a keyword that was not passed. */
  datatype Cambios = Cambios(
    nombre: Option<string>,
    apellido: Option<string>,
    cargo: Option<string>,
    salarioBase: Option<real>,
    tipoContrato: Option<string>,
    telefono: Option<string>,
    email: Option<string>)

  /** Python truthiness of a supplied string: passed and non-empty. */
  predicate TextoDado(v: Option<string>)
  {
    v.Some? && v.value != ""
  }

  /** Python truthiness of a supplied number: passed and non-zero. */
  predicate MontoDado(v: Option<real>)
  {
    v.Some? && v.value != 0.0
  }

  /** The value a whitelisted text field ends with. */
  function Campo(actual: string, v: Option<string>): (r: string)
    ensures r == actual || (TextoDado(v) && r == v.value)
    ensures TextoDado(v) ==> r == v.value
  {
    if TextoDado(v) then v.value else actual
  }

  /** The partial update: each whitelisted field with a truthy value is replaced; the
      id, the status, the rating and both histories are never touched. */
  function Aplicar(d: EmpleadoDict, c: Cambios): (r: EmpleadoDict)
    ensures r.cedula == d.cedula && r.activo == d.activo && r.valoracion == d.valoracion
    ensures r.historialNominas == d.historialNominas && r.historialValoraciones == d.historialValoraciones
    ensures r.nombre == Campo(d.nombre, c.nombre) && r.apellido == Campo(d.apellido, c.apellido)
    ensures r.cargo == Campo(d.cargo, c.cargo) && r.tipoContrato == Campo(d.tipoContrato, c.tipoContrato)
    ensures r.telefono == Campo(d.telefono, c.telefono) && r.email == Campo(d.email, c.email)
    ensures r.salarioBase == (if MontoDado(c.salarioBase) then c.salarioBase.value else d.salarioBase)
  {
    d.(nombre := Campo(d.nombre, c.nombre),
       apellido := Campo(d.apellido, c.apellido),
       cargo := Campo(d.cargo, c.cargo),
       salarioBase := if MontoDado(c.salarioBase) then c.salarioBase.value else d.salarioBase,
       tipoContrato := Campo(d.tipoContrato, c.tipoContrato),
       telefono := Campo(d.telefono, c.telefono),
       email := Campo(d.email, c.email))
  }

  /** Applying the same update twice is applying it once, an update with nothing truthy
      changes nothing, and an update keeps the rating history coherent. */
  lemma AplicarPropiedades(d: EmpleadoDict, c: Cambios)
    ensures Aplicar(Aplicar(d, c), c) == Aplicar(d, c)
    ensures !TextoDado(c.nombre) && !TextoDado(c.apellido) && !TextoDado(c.cargo) && !MontoDado(c.salarioBase)
            && !TextoDado(c.tipoContrato) && !TextoDado(c.telefono) && !TextoDado(c.email)
            ==> Aplicar(d, c) == d
    ensures Coherente(d) ==> Coherente(Aplicar(d, c))
  {
  }

  class Empleado {
    const cedula: string
    var nombre: string
    var apellido: string
    var cargo: string
    var salarioBase: real
    var tipoContrato: string
    var telefono: string
    var email: string
    var valoracion: int
    var activo: bool
    var historialNominas: seq<NominaDict>
    var historialValoraciones: seq<Valoracion>

    /** `to_dict()`: the snapshot of every attribute and both histories. */
    function ToDict(): (d: EmpleadoDict)
      reads this
      ensures d.cedula == cedula
    {
      EmpleadoDict(cedula, nombre, apellido, cargo, salarioBase, tipoContrato, telefono, email,
                   valoracion, activo, historialNominas, historialValoraciones)
    }

    /** `Empleado(...)`: active, no payroll history, the initial rating recorded at `fecha`. */
    constructor (cedula: string, nombre: string, apellido: string, cargo: string, salarioBase: real,
                 tipoContrato: string, telefono: string, email: string, valoracion: int, fecha: string)
      ensures ToDict() == Nuevo(cedula, nombre, apellido, cargo, salarioBase, tipoContrato, telefono, email, valoracion, fecha)
    {
      this.cedula := cedula;
      this.nombre := nombre;
      this.apellido := apellido;
      this.cargo := cargo;
      this.salarioBase := salarioBase;
      this.tipoContrato := tipoContrato;
      this.telefono := telefono;
      this.email := email;
      this.valoracion := valoracion;
      this.activo := true;
      this.historialNominas := [];
      this.historialValoraciones := [Valoracion(fecha, valoracion)];
    }

    /** `from_dict(data)`: `null` stands for the `KeyError` of a missing mandatory key.
        `fecha` is the clock reading the constructor records and `from_dict` then discards. */
    static method FromDict(data: EmpleadoEntrada, fecha: string) returns (e: Empleado?)
      ensures e == null <==> !TieneObligatorias(data)
      ensures e != null ==> fresh(e) && LeerDict(data) == Some(e.ToDict())
    {
      if !TieneObligatorias(data) {
        return null;
      }
      e := new Empleado(data.cedula.value, data.nombre.value, data.apellido.value, data.cargo.value,
                        data.salarioBase.value, data.tipoContrato.value, data.telefono.GetOr(""),
                        data.email.GetOr(""), data.valoracion.GetOr(VALORACION_DEFECTO), fecha);
      e.activo := data.activo.GetOr(true);
      e.historialNominas := data.historialNominas.GetOr([]);
      e.historialValoraciones := data.historialValoraciones.GetOr([]);
    }

    /** `actualizar_valoracion(nueva)`, the history entry stamped with `fecha`. */
    method ActualizarValoracion(nueva: int, fecha: string) returns (ok: bool)
      modifies this`valoracion, this`historialValoraciones
      ensures ok == ValoracionValida(nueva)
      ensures ToDict() == ConValoracion(old(ToDict()), nueva, fecha)
    {
      if 1 <= nueva <= 10 {
        valoracion := nueva;
        historialValoraciones := historialValoraciones + [Valoracion(fecha, nueva)];
        return true;
      }
      return false;
    }

    /** `agregar_nomina(nomina_data)`. */
    method AgregarNomina(n: NominaDict)
      modifies this`historialNominas
      ensures ToDict() == ConNomina(old(ToDict()), n)
    {
      historialNominas := historialNominas + [n];
    }

    /** The `setattr` loop of `actualizar_empleado`: each whitelisted field given a truthy
        value is assigned (a text field left alone is written here with its own value). */
    method Actualizar(c: Cambios)
      modifies this
      ensures ToDict() == Aplicar(old(ToDict()), c)
    {
      nombre := Campo(nombre, c.nombre);
      apellido := Campo(apellido, c.apellido);
      cargo := Campo(cargo, c.cargo);
      if MontoDado(c.salarioBase) {
        salarioBase := c.salarioBase.value;
      }
      tipoContrato := Campo(tipoContrato, c.tipoContrato);
      telefono := Campo(telefono, c.telefono);
      email := Campo(email, c.email);
    }

    /** `desactivar()`: soft delete. */
    method Desactivar()
      modifies this`activo
      ensures ToDict() == old(ToDict()).(activo := false)
    {
      activo := false;
    }

    /** `activar()`: reactivation. */
    method Activar()
      modifies this`activo
      ensures ToDict() == old(ToDict()).(activo := true)
    {
      activo := true;
    }
  }
}
