/**
 * The HR aggregate (`SistemaRRHH`): a dictionary from id (cédula) to employee object,
 * kept in insertion order as Python dictionaries are, with the add, search, lookup,
 * partial-update, soft-delete, single and bulk payroll, period-report and listing
 * operations.
 */
module Sistema {
  import opened Wrappers
  import opened Texto
  import opened Liquidacion
  import opened Empleados
  import opened Nominas
  import opened Orden

  /** The contract types `agregar_empleado` accepts, compared after `lower()`. */
  const CONTRATOS_VALIDOS: seq<string> := ["indefinido", "termino_fijo", "prestacion_servicios"]

  /** `tipo_contrato.lower() in contratos_validos`. */
  predicate ContratoValido(tipo: string)
  {
    Lower(tipo) in CONTRATOS_VALIDOS
  }

  /** The contract check ignores case: a type is accepted exactly when its lower-case form is. */
  lemma ContratoIgnoraMayusculas(tipo: string)
    ensures ContratoValido(tipo) <==> ContratoValido(Lower(tipo))
  {
    LowerIdempotent(tipo);
  }

  /** No two positions of `s` hold the same key. */
  ghost predicate Distintos(s: seq<string>)
  {
    forall i, j :: 0 <= i < j < |s| ==> s[i] != s[j]
  }

  /** The objects a map holds, in the order of the keys `ks`. */
  function EnOrden(ks: seq<string>, m: map<string, Empleado>): (r: seq<Empleado>)
    requires forall k :: k in ks ==> k in m
    ensures |r| == |ks| && forall i :: 0 <= i < |ks| ==> r[i] == m[ks[i]]
  {
    seq(|ks|, i requires 0 <= i < |ks| => m[ks[i]])
  }

  // ---------------------------------------------------------------------------
  // Search

  /** The match test of `buscar_empleado` for a criterion already lowered: a substring of
      the lowered first or last name, or of the id as it is (the id is not lowered). */
  predicate Coincide(e: Empleado, criterio: string)
    reads e
  {
    Contains(Lower(e.nombre), criterio) || Contains(Lower(e.apellido), criterio) || Contains(e.cedula, criterio)
  }

  /** The employees of `es` that match, in the order of `es`. */
  function Filtrar(es: seq<Empleado>, criterio: string): (r: seq<Empleado>)
    reads es
    ensures |r| <= |es|
    ensures forall e :: e in r ==> e in es && Coincide(e, criterio)
    ensures forall e :: e in es && Coincide(e, criterio) ==> e in r
  {
    if es == [] then
      []
    else
      var ultimo := es[|es| - 1];
      Filtrar(es[..|es| - 1], criterio) + (if Coincide(ultimo, criterio) then [ultimo] else [])
  }

  /** Each matching employee appears in the search results as often as in the input, and a
      non-matching one not at all. */
  lemma {:induction false} FiltrarMultiplicidad(es: seq<Empleado>, criterio: string)
    ensures forall e :: multiset(Filtrar(es, criterio))[e] == if Coincide(e, criterio) then multiset(es)[e] else 0
  {
    if es != [] {
      var n := |es| - 1;
      FiltrarMultiplicidad(es[..n], criterio);
      assert es == es[..n] + [es[n]];
    }
  }

  /** Filtering distributes over concatenation, so the results keep the order of the input. */
  lemma {:induction false} FiltrarConcatena(a: seq<Empleado>, b: seq<Empleado>, criterio: string)
    ensures Filtrar(a + b, criterio) == Filtrar(a, criterio) + Filtrar(b, criterio)
  {
    if b == [] {
      assert a + b == a;
    } else {
      var n := |b| - 1;
      var ultimo := if Coincide(b[n], criterio) then [b[n]] else [];
      FiltrarConcatena(a, b[..n], criterio);
      assert (a + b)[..|a + b| - 1] == a + b[..n];
      assert Filtrar(a + b, criterio) == Filtrar(a + b[..n], criterio) + ultimo;
      assert Filtrar(b, criterio) == Filtrar(b[..n], criterio) + ultimo;
    }
  }

  /** Searching is case-insensitive in the criterion: the lowered criterion (what the
      search compares) of `c` and of `lower(c)` are the same. */
  lemma BusquedaIgnoraMayusculas(es: seq<Empleado>, c: string)
    ensures Filtrar(es, Lower(Lower(c))) == Filtrar(es, Lower(c))
  {
    LowerIdempotent(c);
  }

  /** An employee whose id has no capital letter is found by searching its id. */
  lemma BuscarPorCedula(e: Empleado)
    requires Lower(e.cedula) == e.cedula
    ensures Coincide(e, Lower(e.cedula))
  {
    assert OccursAt(e.cedula, e.cedula, 0);
  }

  // ---------------------------------------------------------------------------
  // Listing

  /** The sort key of `listar_empleados`: `f"{apellido} {nombre}"`. */
  function Clave(e: Empleado): string
    reads e
  {
    e.apellido + " " + e.nombre
  }

  /** Each employee paired with its sort key. */
  function ConClave(es: seq<Empleado>): (r: seq<(string, Empleado)>)
    reads es
    ensures |r| == |es| && forall i :: 0 <= i < |es| ==> r[i] == (Clave(es[i]), es[i])
    ensures forall i :: 0 <= i < |r| ==> r[i].0 == Clave(r[i].1)
    ensures Segundos(r) == es
  {
    var r := seq(|es|, i requires 0 <= i < |es| reads es => (Clave(es[i]), es[i]));
    assert Segundos(r) == es by {
      forall i | 0 <= i < |r|
        ensures Segundos(r)[i] == es[i]
      {
        SegundosEn(r, i);
      }
    }
    r
  }

  /** `sorted(es, key=Clave)` is ascending by `Clave` and a permutation of `es`. */
  lemma OrdenarEmpleados(es: seq<Empleado>)
    ensures var r := Segundos(Ordenar(ConClave(es)));
            && (forall i :: 0 < i < |r| ==> LessEq(Clave(r[i - 1]), Clave(r[i])))
            && multiset(r) == multiset(es)
  {
    var p := ConClave(es);
    var o := Ordenar(p);
    var r := Segundos(o);
    OrdenarCorrecto(p);
    forall i | 0 <= i < |o|
      ensures o[i].0 == Clave(o[i].1) && r[i] == o[i].1
    {
      assert o[i] in multiset(p);
      SegundosEn(o, i);
    }
  }

  /** Two arrangements of the same multiset hold the same elements. */
  lemma MismosMiembros<T>(a: seq<T>, b: seq<T>)
    requires multiset(a) == multiset(b)
    ensures forall x :: x in a <==> x in b
  {
    forall x
      ensures x in a <==> x in b
    {
      assert x in a <==> x in multiset(a);
      assert x in b <==> x in multiset(b);
    }
  }

  /** The employees of `es` that `listar_empleados(incluir)` keeps, in the order of `es`. */
  function Seleccion(es: seq<Empleado>, incluir: bool): (r: seq<Empleado>)
    reads es
    ensures forall e :: e in r ==> e in es && (incluir || e.activo)
    ensures forall e :: e in es && (incluir || e.activo) ==> multiset(r)[e] == multiset(es)[e]
    ensures multiset(r) <= multiset(es)
  {
    if es == [] then
      []
    else
      var ultimo := es[|es| - 1];
      assert es == es[..|es| - 1] + [ultimo];
      Seleccion(es[..|es| - 1], incluir) + (if incluir || ultimo.activo then [ultimo] else [])
  }

  // ---------------------------------------------------------------------------
  // Bulk payroll

  /** The keys of `ks` whose employee is active, in the order of `ks`. */
  function Activos(ks: seq<string>, m: map<string, EmpleadoDict>): (r: seq<string>)
    requires forall k :: k in ks ==> k in m
    ensures |r| <= |ks| && forall j :: 0 <= j < |r| ==> r[j] in m
  {
    if ks == [] then
      []
    else
      var ultimo := ks[|ks| - 1];
      Activos(ks[..|ks| - 1], m) + (if m[ultimo].activo then [ultimo] else [])
  }

  /** A key order without repetitions gives a visit order without repetitions: the bulk run
      produces at most one payroll per active employee. */
  lemma {:induction false} ActivosDistintos(ks: seq<string>, m: map<string, EmpleadoDict>)
    requires forall k :: k in ks ==> k in m
    requires Distintos(ks)
    ensures Distintos(Activos(ks, m))
  {
    if ks != [] {
      ActivosDistintos(ks[..|ks| - 1], m);
      ActivosMiembros(ks[..|ks| - 1], m);
    }
  }

  /** The bulk run visits exactly the active employees among `ks`. */
  lemma {:induction false} ActivosMiembros(ks: seq<string>, m: map<string, EmpleadoDict>)
    requires forall k :: k in ks ==> k in m
    ensures forall k :: k in Activos(ks, m) <==> k in ks && m[k].activo
  {
    if ks != [] {
      var previos := ks[..|ks| - 1];
      ActivosMiembros(previos, m);
      assert ks == previos + [ks[|ks| - 1]];
    }
  }

  /** The record the bulk run builds for one employee: a fresh run, the employee's overtime
      hours if the overtime table names it (at the default rate), then its bonus if the
      bonus table names it. */
  function RegistroMasivo(d: EmpleadoDict, periodo: string, fecha: string,
                          horas: map<string, int>, bonos: map<string, real>): (n: NominaDict)
    ensures Consistente(n) && DeduccionesLegales(n)
    ensures n.empleadoCedula == d.cedula && n.empleadoNombre == NombreCompleto(d.nombre, d.apellido)
    ensures n.periodo == periodo && n.fechaCalculo == fecha && n.salarioBase == d.salarioBase
    ensures n.horasExtra == (if d.cedula in horas then horas[d.cedula] else 0)
    ensures n.valorHoraExtra == VALOR_HORA_EXTRA_DEFECTO
    ensures n.bonificaciones == (if d.cedula in bonos then bonos[d.cedula] else 0.0)
    ensures n.deduccionesAdicionales == 0.0
  {
    var n0 := Nueva(d.cedula, NombreCompleto(d.nombre, d.apellido), periodo, fecha, d.salarioBase);
    var n1 := if d.cedula in horas then ConHorasExtra(n0, horas[d.cedula], None) else n0;
    if d.cedula in bonos then ConBonificacion(n1, bonos[d.cedula]) else n1
  }

  /** What the bulk run leaves of one employee: an active one gets its run appended to its
      payroll history, an inactive one is left as it was. */
  function TrasNominaMasiva(d: EmpleadoDict, periodo: string, fecha: string,
                            horas: map<string, int>, bonos: map<string, real>): (r: EmpleadoDict)
    ensures !d.activo ==> r == d
    ensures d.activo ==> r.historialNominas == d.historialNominas + [RegistroMasivo(d, periodo, fecha, horas, bonos)]
    ensures r.(historialNominas := d.historialNominas) == d
  {
    if d.activo then ConNomina(d, RegistroMasivo(d, periodo, fecha, horas, bonos)) else d
  }

  /** `Activos` grows by at most the next key. */
  lemma ActivosPaso(ks: seq<string>, m: map<string, EmpleadoDict>, i: nat)
    requires i < |ks| && forall k :: k in ks ==> k in m
    ensures Activos(ks[..i + 1], m) == Activos(ks[..i], m) + (if m[ks[i]].activo then [ks[i]] else [])
  {
    assert ks[..i + 1][..i] == ks[..i];
  }

  /** The body of the bulk loop for one active employee: build its run, apply the
      overrides the two tables hold for its id, and record the run in its history. */
  method NominaMasiva(e: Empleado, periodo: string, fecha: string, horas: map<string, int>, bonos: map<string, real>,
                      ghost previas: seq<Nomina>)
    returns (n: Nomina)
    modifies e`historialNominas
    ensures fresh(n) && n.empleado == e && n.Valid()
    ensures n.ToDict() == RegistroMasivo(old(e.ToDict()), periodo, fecha, horas, bonos)
    ensures e.ToDict() == ConNomina(old(e.ToDict()), n.ToDict())
    ensures forall j :: 0 <= j < |previas| ==> previas[j].ToDict() == old(previas[j].ToDict())
  {
    n := new Nomina(e, periodo, fecha);
    if e.cedula in horas {
      n.AgregarHorasExtra(horas[e.cedula], None);
    }
    if e.cedula in bonos {
      n.AgregarBonificacion(bonos[e.cedula]);
    }
    e.AgregarNomina(n.ToDict());
  }

  // ---------------------------------------------------------------------------
  // Period report

  /** Index of the first record of `hist` for `periodo` (the loop with `break`). */
  function PrimerIndice(hist: seq<NominaDict>, periodo: string): (r: Option<nat>)
    ensures r.Some? ==> r.value < |hist| && hist[r.value].periodo == periodo
    ensures r.Some? ==> forall j :: 0 <= j < r.value ==> hist[j].periodo != periodo
    ensures r.None? <==> forall j :: 0 <= j < |hist| ==> hist[j].periodo != periodo
  {
    if hist == [] then
      None
    else if hist[0].periodo == periodo then
      Some(0)
    else
      match PrimerIndice(hist[1..], periodo)
      case None => None
      case Some(i) => Some(i + 1)
  }

  /** The first record of `hist` for `periodo`, if any. */
  function NominaDelPeriodo(hist: seq<NominaDict>, periodo: string): Option<NominaDict>
  {
    match PrimerIndice(hist, periodo)
    case None => None
    case Some(i) => Some(hist[i])
  }

  /** `for nomina_data in historial: if nomina_data.get("periodo") == periodo: ... break`. */
  method BuscarNominaDelPeriodo(hist: seq<NominaDict>, periodo: string) returns (r: Option<NominaDict>)
    ensures r == NominaDelPeriodo(hist, periodo)
  {
    var i := 0;
    while i < |hist|
      invariant 0 <= i <= |hist|
      invariant forall j :: 0 <= j < i ==> hist[j].periodo != periodo
    {
      if hist[i].periodo == periodo {
        return Some(hist[i]);
      }
      i := i + 1;
    }
    return None;
  }

  /** One line of the period report. */
  datatype FilaReporte = FilaReporte(nombreCompleto: string, cargo: string, devengado: real, deducciones: real, neto: real)

  /** The three amount columns of the report. */
  datatype Columna = Devengado | Deducciones | Neto

  function Monto(f: FilaReporte, c: Columna): real
  {
    match c
    case Devengado => f.devengado
    case Deducciones => f.deducciones
    case Neto => f.neto
  }

  /** The column total. */
  function Suma(fs: seq<FilaReporte>, c: Columna): real
  {
    if fs == [] then 0.0 else Suma(fs[..|fs| - 1], c) + Monto(fs[|fs| - 1], c)
  }

  /** The report's content, without its text layout: the rows, the totals row and the
      number of employees processed. */
  datatype ReportePeriodo = ReportePeriodo(
    filas: seq<FilaReporte>,
    totalDevengado: real,
    totalDeducciones: real,
    totalNeto: real,
    empleadosProcesados: nat)

  /** The row of an employee for its first record of the period. */
  function Fila(d: EmpleadoDict, n: NominaDict): FilaReporte
  {
    FilaReporte(NombreCompleto(d.nombre, d.apellido), d.cargo, n.totalDevengado, n.totalDeducciones, n.salarioNeto)
  }

  /** The rows: one per active employee, in key order, that has a record of the period,
      taken from its first such record. */
  function Filas(ks: seq<string>, m: map<string, EmpleadoDict>, periodo: string): (r: seq<FilaReporte>)
    requires forall k :: k in ks ==> k in m
  {
    if ks == [] then
      []
    else
      var d := m[ks[|ks| - 1]];
      var n := NominaDelPeriodo(d.historialNominas, periodo);
      Filas(ks[..|ks| - 1], m, periodo) + (if d.activo && n.Some? then [Fila(d, n.value)] else [])
  }

  lemma FilasPaso(ks: seq<string>, m: map<string, EmpleadoDict>, periodo: string, i: nat)
    requires i < |ks| && forall k :: k in ks ==> k in m
    ensures var d := m[ks[i]];
            var n := NominaDelPeriodo(d.historialNominas, periodo);
            Filas(ks[..i + 1], m, periodo)
              == Filas(ks[..i], m, periodo) + (if d.activo && n.Some? then [Fila(d, n.value)] else [])
  {
    assert ks[..i + 1][..i] == ks[..i];
  }

  lemma SumaPaso(fs: seq<FilaReporte>, f: FilaReporte, c: Columna)
    ensures Suma(fs + [f], c) == Suma(fs, c) + Monto(f, c)
  {
    assert (fs + [f])[..|fs|] == fs;
  }

  /** One step of the report: the next key either adds its row to the rows and to each
      total, or leaves the report as it was. */
  lemma ReportePaso(ks: seq<string>, m: map<string, EmpleadoDict>, periodo: string, i: nat)
    requires i < |ks| && forall k :: k in ks ==> k in m
    ensures var d := m[ks[i]];
            var n := NominaDelPeriodo(d.historialNominas, periodo);
            var r := Reporte(ks[..i], m, periodo);
            Reporte(ks[..i + 1], m, periodo)
              == if d.activo && n.Some? then
                   var f := Fila(d, n.value);
                   ReportePeriodo(r.filas + [f], r.totalDevengado + f.devengado,
                                  r.totalDeducciones + f.deducciones, r.totalNeto + f.neto,
                                  r.empleadosProcesados + 1)
                 else r
  {
    FilasPaso(ks, m, periodo, i);
    var fs := Filas(ks[..i], m, periodo);
    var d := m[ks[i]];
    var n := NominaDelPeriodo(d.historialNominas, periodo);
    if d.activo && n.Some? {
      var f := Fila(d, n.value);
      SumaPaso(fs, f, Devengado);
      SumaPaso(fs, f, Deducciones);
      SumaPaso(fs, f, Neto);
      assert Filas(ks[..i + 1], m, periodo) == fs + [f];
    } else {
      assert Filas(ks[..i + 1], m, periodo) == fs;
    }
  }

  /** Only active employees produce rows, at most one each. */
  lemma {:induction false} FilasAcotadas(ks: seq<string>, m: map<string, EmpleadoDict>, periodo: string)
    requires forall k :: k in ks ==> k in m
    ensures |Filas(ks, m, periodo)| <= |Activos(ks, m)|
  {
    if ks != [] {
      FilasAcotadas(ks[..|ks| - 1], m, periodo);
    }
  }

  /** The report `generar_reporte_nomina_periodo(periodo)` renders. */
  function Reporte(ks: seq<string>, m: map<string, EmpleadoDict>, periodo: string): (r: ReportePeriodo)
    requires forall k :: k in ks ==> k in m
    ensures r.empleadosProcesados == |r.filas|
  {
    var fs := Filas(ks, m, periodo);
    ReportePeriodo(fs, Suma(fs, Devengado), Suma(fs, Deducciones), Suma(fs, Neto), |fs|)
  }

  // ---------------------------------------------------------------------------
  // The aggregate

  class SistemaRRHH {
    var empleados: map<string, Empleado>
    /** The keys of `empleados` in insertion order (Python's dictionary order). */
    var orden: seq<string>

    /** Every employee is stored under its own id, and `orden` lists each key once. */
    ghost predicate Valid()
      reads this
    {
      && (forall k :: k in empleados ==> empleados[k].cedula == k)
      && (forall k :: k in empleados <==> k in orden)
      && Distintos(orden)
    }

    /** The employees in dictionary order (`self.empleados.values()`). */
    function Valores(): (r: seq<Empleado>)
      requires Valid()
      reads this
      ensures |r| == |orden|
    {
      EnOrden(orden, empleados)
    }

    /** The snapshot of every employee, by id. */
    ghost function Estado(): (r: map<string, EmpleadoDict>)
      reads this, empleados.Values
      ensures r.Keys == empleados.Keys
    {
      map k | k in empleados :: empleados[k].ToDict()
    }

    /** A system whose data file does not exist: no employees. */
    constructor ()
      ensures Valid() && empleados == map[] && orden == []
    {
      empleados := map[];
      orden := [];
    }

    /** `agregar_empleado(...)`; `fecha` stamps the initial rating. */
    method AgregarEmpleado(cedula: string, nombre: string, apellido: string, cargo: string, salarioBase: real,
                           tipoContrato: string, telefono: string, email: string, valoracion: int, fecha: string)
      returns (ok: bool)
      requires Valid()
      modifies this
      ensures Valid()
      ensures ok == (cedula !in old(empleados) && ContratoValido(tipoContrato))
      ensures ok ==> && empleados.Keys == old(empleados.Keys) + {cedula}
                     && orden == old(orden) + [cedula]
                     && fresh(empleados[cedula])
                     && empleados[cedula].ToDict()
                        == Nuevo(cedula, nombre, apellido, cargo, salarioBase, tipoContrato, telefono, email, valoracion, fecha)
                     && forall k :: k in old(empleados) ==> empleados[k] == old(empleados[k])
      ensures !ok ==> empleados == old(empleados) && orden == old(orden)
    {
      if cedula in empleados {
        return false;
      }
      if Lower(tipoContrato) !in CONTRATOS_VALIDOS {
        return false;
      }
      var e := new Empleado(cedula, nombre, apellido, cargo, salarioBase, tipoContrato, telefono, email, valoracion, fecha);
      empleados := empleados[cedula := e];
      orden := orden + [cedula];
      return true;
    }

    /** `buscar_empleado(criterio)`. */
    method BuscarEmpleado(criterio: string) returns (resultados: seq<Empleado>)
      requires Valid()
      ensures resultados == Filtrar(Valores(), Lower(criterio))
    {
      var c := Lower(criterio);
      var valores := Valores();
      resultados := [];
      for i := 0 to |orden|
        invariant resultados == Filtrar(valores[..i], c)
      {
        var e := empleados[orden[i]];
        assert valores[..i + 1] == valores[..i] + [e];
        if Coincide(e, c) {
          resultados := resultados + [e];
        }
      }
      assert valores[..|orden|] == valores;
    }

    /** `obtener_empleado(cedula)`. */
    function ObtenerEmpleado(cedula: string): (r: Option<Empleado>)
      requires Valid()
      reads this
      ensures r.Some? <==> cedula in empleados
      ensures r.Some? ==> r.value == empleados[cedula] && r.value.cedula == cedula
    {
      if cedula in empleados then Some(empleados[cedula]) else None
    }

    /** `actualizar_empleado(cedula, **kwargs)`, the keywords given as `Cambios`. */
    method ActualizarEmpleado(cedula: string, c: Cambios) returns (ok: bool)
      requires Valid()
      modifies empleados.Values
      ensures ok == (cedula in empleados)
      ensures forall k :: k in empleados ==>
                empleados[k].ToDict() == if k == cedula then Aplicar(old(empleados[k].ToDict()), c)
                                         else old(empleados[k].ToDict())
    {
      if cedula !in empleados {
        return false;
      }
      empleados[cedula].Actualizar(c);
      return true;
    }

    /** `eliminar_empleado(cedula)`: soft delete; the employee stays in the dictionary. */
    method EliminarEmpleado(cedula: string) returns (ok: bool)
      requires Valid()
      modifies empleados.Values`activo
      ensures ok == (cedula in empleados)
      ensures forall k :: k in empleados ==>
                empleados[k].ToDict() == if k == cedula then old(empleados[k].ToDict()).(activo := false)
                                         else old(empleados[k].ToDict())
    {
      if cedula !in empleados {
        return false;
      }
      empleados[cedula].Desactivar();
      return true;
    }

    /** `calcular_nomina(cedula, periodo)`, computed at `fecha`; `null` is Python's `None`.
        The run is not recorded in any history. */
    method CalcularNomina(cedula: string, periodo: string, fecha: string) returns (n: Nomina?)
      requires Valid()
      ensures n == null <==> cedula !in empleados || !empleados[cedula].activo
      ensures n != null ==> && fresh(n) && n.empleado == empleados[cedula] && n.Valid()
                            && n.ToDict() == Nueva(cedula, NombreCompleto(empleados[cedula].nombre, empleados[cedula].apellido),
                                                   periodo, fecha, empleados[cedula].salarioBase)
      ensures Estado() == old(Estado())
    {
      var e := ObtenerEmpleado(cedula);
      if e.None? {
        return null;
      }
      if !e.value.activo {
        return null;
      }
      n := new Nomina(e.value, periodo, fecha);
    }

    /** Progress of the bulk run over `antes`, the snapshot taken when it started: the
        employees at the first `i` positions of `orden` are as the run leaves them, the
        others as they were. */
    ghost predicate Avance(antes: map<string, EmpleadoDict>, i: nat, periodo: string, fecha: string,
                           horas: map<string, int>, bonos: map<string, real>)
      reads this, empleados.Values
    {
      && i <= |orden|
      && (forall k :: k in orden ==> k in empleados && k in antes)
      && forall j :: 0 <= j < |orden| ==>
           empleados[orden[j]].ToDict()
             == if j < i then TrasNominaMasiva(antes[orden[j]], periodo, fecha, horas, bonos) else antes[orden[j]]
    }

    /** The runs the bulk loop has returned so far: one per key of `activos`, each for
        the employee stored under that key and computed from its snapshot in `antes`. */
    ghost predicate Corridas(nominas: seq<Nomina>, activos: seq<string>, antes: map<string, EmpleadoDict>,
                             periodo: string, fecha: string, horas: map<string, int>, bonos: map<string, real>)
      reads this, empleados.Values, nominas
    {
      && |nominas| == |activos|
      && forall j :: 0 <= j < |nominas| ==>
           && activos[j] in empleados && activos[j] in antes
           && nominas[j].empleado == empleados[activos[j]]
           && nominas[j].ToDict() == RegistroMasivo(antes[activos[j]], periodo, fecha, horas, bonos)
    }

    /** `Avance` moves one position when the employee at that position is the only one
        that changed, and changed as the bulk run changes it.
        The value parameters are declared `new` only to skip an allocation check Dafny would
        otherwise emit for them; maps, strings and runs already returned are allocated anyway. */
    twostate lemma AvanceUno(i: nat, new antes: map<string, EmpleadoDict>, new periodo: string, new fecha: string,
                             new horas: map<string, int>, new bonos: map<string, real>)
      requires old(Avance(antes, i, periodo, fecha, horas, bonos)) && i < |orden|
      requires unchanged(this)
      requires forall j :: 0 <= j < |orden| && j != i ==> empleados[orden[j]].ToDict() == old(empleados[orden[j]].ToDict())
      requires empleados[orden[i]].ToDict() == TrasNominaMasiva(antes[orden[i]], periodo, fecha, horas, bonos)
      ensures Avance(antes, i + 1, periodo, fecha, horas, bonos)
    {
    }

    /** The runs already returned keep their records while one employee's history grows.
        The value parameters are declared `new` only to skip an allocation check Dafny would
        otherwise emit for them; maps, strings and runs already returned are allocated anyway. */
    twostate lemma CorridasEstables(nominas: seq<Nomina>, new activos: seq<string>, new antes: map<string, EmpleadoDict>,
                                    new periodo: string, new fecha: string, new horas: map<string, int>, new bonos: map<string, real>)
      requires old(Corridas(nominas, activos, antes, periodo, fecha, horas, bonos))
      requires unchanged(this)
      requires forall j :: 0 <= j < |nominas| ==> nominas[j].ToDict() == old(nominas[j].ToDict())
      ensures Corridas(nominas, activos, antes, periodo, fecha, horas, bonos)
    {
    }

    /** A run for the employee under `k`, computed from its snapshot, extends the runs. */
    lemma CorridasAgrega(nominas: seq<Nomina>, activos: seq<string>, n: Nomina, k: string,
                         antes: map<string, EmpleadoDict>, periodo: string, fecha: string,
                         horas: map<string, int>, bonos: map<string, real>)
      requires Corridas(nominas, activos, antes, periodo, fecha, horas, bonos)
      requires k in empleados && k in antes && n.empleado == empleados[k]
      requires n.ToDict() == RegistroMasivo(antes[k], periodo, fecha, horas, bonos)
      ensures Corridas(nominas + [n], activos + [k], antes, periodo, fecha, horas, bonos)
    {
    }

    /** Once `Avance` has covered every position, every employee is as the run leaves it. */
    lemma AvanceCompleto(antes: map<string, EmpleadoDict>, periodo: string, fecha: string,
                         horas: map<string, int>, bonos: map<string, real>)
      requires Valid() && Avance(antes, |orden|, periodo, fecha, horas, bonos)
      ensures forall k :: k in empleados ==>
                k in antes && empleados[k].ToDict() == TrasNominaMasiva(antes[k], periodo, fecha, horas, bonos)
    {
      forall k | k in empleados
        ensures k in antes && empleados[k].ToDict() == TrasNominaMasiva(antes[k], periodo, fecha, horas, bonos)
      {
        var j :| 0 <= j < |orden| && orden[j] == k;
      }
    }

    /** One pass of the bulk loop, at position `i` of `orden`: the employee there gets its
        run, appended to the runs so far, if it is active; no other employee and none of
        the earlier runs changes. */
    method PasoMasivo(i: nat, e: Empleado, periodo: string, fecha: string, horas: map<string, int>,
                      bonos: map<string, real>, ghost antes: map<string, EmpleadoDict>,
                      previas: seq<Nomina>, ghost activos: seq<string>)
      returns (nominas: seq<Nomina>, ghost activos': seq<string>, ghost nuevas: seq<Nomina>)
      requires Valid() && i < |orden| && orden[i] in empleados && e == empleados[orden[i]]
      requires Avance(antes, i, periodo, fecha, horas, bonos)
      requires activos == Activos(orden[..i], antes)
      requires Corridas(previas, activos, antes, periodo, fecha, horas, bonos)
      modifies e`historialNominas
      ensures Avance(antes, i + 1, periodo, fecha, horas, bonos)
      ensures activos' == Activos(orden[..i + 1], antes)
      ensures Corridas(nominas, activos', antes, periodo, fecha, horas, bonos)
      ensures nominas == previas + nuevas && forall j :: 0 <= j < |nuevas| ==> fresh(nuevas[j])
    {
      ActivosPaso(orden, antes, i);
      nominas, activos', nuevas := previas, activos, [];
      if e.activo {
        var n := NominaMasiva(e, periodo, fecha, horas, bonos, previas);
        CorridasEstables(previas, activos, antes, periodo, fecha, horas, bonos);
        CorridasAgrega(previas, activos, n, orden[i], antes, periodo, fecha, horas, bonos);
        nominas, activos', nuevas := previas + [n], activos + [orden[i]], [n];
      }
      forall j | 0 <= j < |orden| && j != i
        ensures empleados[orden[j]].ToDict() == old(empleados[orden[j]].ToDict())
      {
        assert orden[j] != orden[i];
      }
      AvanceUno(i, antes, periodo, fecha, horas, bonos);
    }

    /** Before the bulk loop, every employee still holds its starting record. */
    lemma AvanceInicial(antes: map<string, EmpleadoDict>, periodo: string, fecha: string,
                        horas: map<string, int>, bonos: map<string, real>)
      requires Valid() && antes == Estado()
      ensures Avance(antes, 0, periodo, fecha, horas, bonos)
    {
    }

    /** The bulk loop over `orden`, from a state where no employee has been visited. */
    method RecorrerPlantilla(periodo: string, fecha: string, horas: map<string, int>, bonos: map<string, real>,
                             ghost antes: map<string, EmpleadoDict>)
      returns (nominas: seq<Nomina>)
      requires Valid() && Avance(antes, 0, periodo, fecha, horas, bonos)
      modifies empleados.Values`historialNominas
      ensures Avance(antes, |orden|, periodo, fecha, horas, bonos)
      ensures Corridas(nominas, Activos(orden, antes), antes, periodo, fecha, horas, bonos)
      ensures forall j :: 0 <= j < |nominas| ==> fresh(nominas[j])
    {
      ghost var activos: seq<string> := [];
      nominas := [];
      for i := 0 to |orden|
        invariant Avance(antes, i, periodo, fecha, horas, bonos)
        invariant activos == Activos(orden[..i], antes)
        invariant Corridas(nominas, activos, antes, periodo, fecha, horas, bonos)
        invariant forall j :: 0 <= j < |nominas| ==> fresh(nominas[j])
      {
        var e := empleados[orden[i]];
        ghost var nuevas;
        nominas, activos, nuevas := PasoMasivo(i, e, periodo, fecha, horas, bonos, antes, nominas, activos);
      }
      assert orden[..|orden|] == orden;
    }

    /** The bulk loop's invariants at its end, restated against the state before the run.
        The value parameters are declared `new` only to skip an allocation check Dafny would
        otherwise emit for them; maps, strings and runs already returned are allocated anyway. */
    twostate lemma CierreMasivo(new nominas: seq<Nomina>, new antes: map<string, EmpleadoDict>,
                                new periodo: string, new fecha: string,
                                new horas: map<string, int>, new bonos: map<string, real>)
      requires old(Valid()) && unchanged(this) && antes == old(Estado())
      requires Avance(antes, |orden|, periodo, fecha, horas, bonos)
      requires Corridas(nominas, Activos(orden, antes), antes, periodo, fecha, horas, bonos)
      requires forall j :: 0 <= j < |nominas| ==> fresh(nominas[j])
      ensures var antes := old(Estado());
              var activos := Activos(orden, antes);
              && |nominas| == |activos|
              && (forall j :: 0 <= j < |nominas| ==>
                    && fresh(nominas[j])
                    && nominas[j].empleado == empleados[activos[j]]
                    && nominas[j].ToDict() == RegistroMasivo(antes[activos[j]], periodo, fecha, horas, bonos))
              && (forall k :: k in empleados ==>
                    empleados[k].ToDict() == TrasNominaMasiva(antes[k], periodo, fecha, horas, bonos))
    {
      AvanceCompleto(antes, periodo, fecha, horas, bonos);
    }

    /** `procesar_nomina_completa(periodo, horas_extra, bonificaciones)`, every run computed
        at `fecha`; an omitted table is the empty map. */
    method ProcesarNominaCompleta(periodo: string, horas: map<string, int>, bonos: map<string, real>, fecha: string)
      returns (nominas: seq<Nomina>)
      requires Valid()
      modifies empleados.Values`historialNominas
      ensures var antes := old(Estado());
              var activos := Activos(orden, antes);
              && |nominas| == |activos|
              && (forall j :: 0 <= j < |nominas| ==>
                    && fresh(nominas[j])
                    && nominas[j].empleado == empleados[activos[j]]
                    && nominas[j].ToDict() == RegistroMasivo(antes[activos[j]], periodo, fecha, horas, bonos))
              && (forall k :: k in empleados ==>
                    empleados[k].ToDict() == TrasNominaMasiva(antes[k], periodo, fecha, horas, bonos))
    {
      ghost var antes := Estado();
      AvanceInicial(antes, periodo, fecha, horas, bonos);
      nominas := RecorrerPlantilla(periodo, fecha, horas, bonos, antes);
      CierreMasivo(nominas, antes, periodo, fecha, horas, bonos);
    }

    /** `generar_reporte_nomina_periodo(periodo)`: scans the active employees' payroll
        histories for their first record of the period and totals them. */
    method GenerarReporteNominaPeriodo(periodo: string) returns (rep: ReportePeriodo)
      requires Valid()
      ensures rep == Reporte(orden, Estado(), periodo)
    {
      var totalDevengado, totalDeducciones, totalNeto := 0.0, 0.0, 0.0;
      var filas: seq<FilaReporte> := [];
      var cuenta := 0;
      ghost var m := Estado();
      for i := 0 to |orden|
        invariant ReportePeriodo(filas, totalDevengado, totalDeducciones, totalNeto, cuenta)
                    == Reporte(orden[..i], m, periodo)
      {
        var e := empleados[orden[i]];
        assert m[orden[i]] == e.ToDict();
        ReportePaso(orden, m, periodo, i);
        if e.activo {
          var n := BuscarNominaDelPeriodo(e.historialNominas, periodo);
          if n.Some? {
            filas := filas + [FilaReporte(NombreCompleto(e.nombre, e.apellido), e.cargo,
                                          n.value.totalDevengado, n.value.totalDeducciones, n.value.salarioNeto)];
            totalDevengado := totalDevengado + n.value.totalDevengado;
            totalDeducciones := totalDeducciones + n.value.totalDeducciones;
            totalNeto := totalNeto + n.value.salarioNeto;
            cuenta := cuenta + 1;
          }
        }
      }
      assert orden[..|orden|] == orden;
      rep := ReportePeriodo(filas, totalDevengado, totalDeducciones, totalNeto, cuenta);
    }

    /** `listar_empleados(incluir_inactivos)`: the kept employees sorted by
        `"apellido nombre"`. */
    function ListarEmpleados(incluirInactivos: bool): (r: seq<Empleado>)
      requires Valid()
      reads this, empleados.Values
      ensures forall i :: 0 < i < |r| ==> LessEq(Clave(r[i - 1]), Clave(r[i]))
      ensures multiset(r) == multiset(Seleccion(Valores(), incluirInactivos))
    {
      ValoresCompletos();
      var seleccion := Seleccion(Valores(), incluirInactivos);
      OrdenarEmpleados(seleccion);
      Segundos(Ordenar(ConClave(seleccion)))
    }

    /** The listing holds every stored employee the flag keeps, and no other. */
    lemma ListadoMiembros(incluirInactivos: bool)
      requires Valid()
      ensures forall e :: e in ListarEmpleados(incluirInactivos) <==>
                e in empleados.Values && (incluirInactivos || e.activo)
    {
      var seleccion: seq<Empleado> := Seleccion(Valores(), incluirInactivos);
      MismosMiembros(ListarEmpleados(incluirInactivos), seleccion);
      ValoresCompletos();
      forall e: Empleado | e in empleados.Values && (incluirInactivos || e.activo)
        ensures e in seleccion
      {
        var valores: seq<Empleado> := Valores();
        assert e in valores;
        assert multiset(seleccion)[e] == multiset(valores)[e];
      }
    }

    /** `values()` yields exactly the stored employees. */
    lemma ValoresCompletos()
      requires Valid()
      ensures forall e :: e in Valores() ==> e in empleados.Values
      ensures forall e :: e in empleados.Values ==> e in Valores()
    {
      forall e | e in empleados.Values
        ensures e in Valores()
      {
        var k :| k in empleados && empleados[k] == e;
        var i :| 0 <= i < |orden| && orden[i] == k;
        assert Valores()[i] == e;
      }
    }
  }
}
