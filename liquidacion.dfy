/**
 * One payroll computation as a value: the record `Nomina.to_dict()` produces, the
 * recomputation `_calcular_nomina` performs, and the input changes the three mutators
 * make.  The `Nomina` class (module Nominas) is specified by these functions.
 */
module Liquidacion {
  import opened Wrappers

  /** Health contribution withheld from base salary (4%). */
  const TASA_SALUD: real := 0.04
  /** Pension contribution withheld from base salary (4%). */
  const TASA_PENSION: real := 0.04
  /** Overtime hourly rate a new run starts with. */
  const VALOR_HORA_EXTRA_DEFECTO: real := 20000.0

  /** The fourteen keys of a payroll record. */
  datatype NominaDict = NominaDict(
    empleadoCedula: string,
    empleadoNombre: string,
    periodo: string,
    fechaCalculo: string,
    salarioBase: real,
    horasExtra: int,
    valorHoraExtra: real,
    bonificaciones: real,
    deduccionSalud: real,
    deduccionPension: real,
    deduccionesAdicionales: real,
    totalDevengado: real,
    totalDeducciones: real,
    salarioNeto: real)

  /** Gross, total deductions and net agree with the inputs. */
  predicate Consistente(n: NominaDict)
  {
    && n.totalDevengado == n.salarioBase + n.horasExtra as real * n.valorHoraExtra + n.bonificaciones
    && n.totalDeducciones == n.deduccionSalud + n.deduccionPension + n.deduccionesAdicionales
    && n.salarioNeto == n.totalDevengado - n.totalDeducciones
  }

  /** Health and pension are each 4% of the base salary. */
  predicate DeduccionesLegales(n: NominaDict)
  {
    n.deduccionSalud == n.salarioBase * TASA_SALUD && n.deduccionPension == n.salarioBase * TASA_PENSION
  }

  /** `a` and `b` have the same inputs: they differ at most in the three derived amounts. */
  predicate MismasEntradas(a: NominaDict, b: NominaDict)
  {
    a.(totalDevengado := 0.0, totalDeducciones := 0.0, salarioNeto := 0.0)
      == b.(totalDevengado := 0.0, totalDeducciones := 0.0, salarioNeto := 0.0)
  }

  /** Python truthiness of the optional overtime rate: given and non-zero. */
  predicate TarifaDada(valor: Option<real>)
  {
    valor.Some? && valor.value != 0.0
  }

  /** `_calcular_nomina`: recompute the derived amounts from the inputs. */
  function Calcular(n: NominaDict): (r: NominaDict)
    ensures Consistente(r) && MismasEntradas(n, r)
  {
    var devengado := n.salarioBase + n.horasExtra as real * n.valorHoraExtra + n.bonificaciones;
    var deducciones := n.deduccionSalud + n.deduccionPension + n.deduccionesAdicionales;
    n.(totalDevengado := devengado, totalDeducciones := deducciones, salarioNeto := devengado - deducciones)
  }

  /** The derived amounts are determined by the inputs: a consistent record with the
      inputs of `n` is `Calcular(n)`, so recomputing a consistent record changes nothing. */
  lemma CalcularUnico(n: NominaDict, r: NominaDict)
    requires MismasEntradas(n, r) && Consistente(r)
    ensures r == Calcular(n)
  {
    var z := Calcular(n);
    assert z.(totalDevengado := 0.0, totalDeducciones := 0.0, salarioNeto := 0.0)
        == r.(totalDevengado := 0.0, totalDeducciones := 0.0, salarioNeto := 0.0);
    assert z.salarioBase == r.salarioBase && z.horasExtra == r.horasExtra;
  }

  /** `Nomina(empleado, periodo)`: a fresh run for an employee with the given id, display
      name and base salary, with no overtime, bonus or extra deduction. */
  function Nueva(cedula: string, nombre: string, periodo: string, fecha: string, salarioBase: real): (r: NominaDict)
    ensures Consistente(r) && DeduccionesLegales(r)
    ensures r.empleadoCedula == cedula && r.empleadoNombre == nombre
    ensures r.periodo == periodo && r.fechaCalculo == fecha && r.salarioBase == salarioBase
    ensures r.horasExtra == 0 && r.valorHoraExtra == VALOR_HORA_EXTRA_DEFECTO
    ensures r.bonificaciones == 0.0 && r.deduccionesAdicionales == 0.0
    ensures r.deduccionSalud == r.deduccionPension == 0.04 * salarioBase
    ensures r.totalDevengado == salarioBase
    ensures r.totalDeducciones == 0.08 * salarioBase
    ensures r.salarioNeto == 0.92 * salarioBase
  {
    Calcular(NominaDict(cedula, nombre, periodo, fecha, salarioBase, 0, VALOR_HORA_EXTRA_DEFECTO, 0.0,
                        salarioBase * TASA_SALUD, salarioBase * TASA_PENSION, 0.0, 0.0, 0.0, 0.0))
  }

  /** `agregar_horas_extra(horas, valor_por_hora)`: the hour count is replaced; the rate is
      replaced only by a truthy `valor_por_hora`, otherwise the previous rate stays. */
  function ConHorasExtra(n: NominaDict, horas: int, valor: Option<real>): (r: NominaDict)
    ensures Consistente(r)
    ensures r.horasExtra == horas
    ensures r.valorHoraExtra == (if TarifaDada(valor) then valor.value else n.valorHoraExtra)
    ensures MismasEntradas(r.(horasExtra := n.horasExtra, valorHoraExtra := n.valorHoraExtra), n)
    ensures DeduccionesLegales(n) ==> DeduccionesLegales(r)
  {
    Calcular(n.(horasExtra := horas, valorHoraExtra := if TarifaDada(valor) then valor.value else n.valorHoraExtra))
  }

  /** `agregar_bonificacion(monto)`: `monto` is added to the bonuses. */
  function ConBonificacion(n: NominaDict, monto: real): (r: NominaDict)
    ensures Consistente(r)
    ensures r.bonificaciones == n.bonificaciones + monto
    ensures MismasEntradas(r.(bonificaciones := n.bonificaciones), n)
    ensures DeduccionesLegales(n) ==> DeduccionesLegales(r)
    ensures Consistente(n) ==> r.totalDevengado == n.totalDevengado + monto && r.salarioNeto == n.salarioNeto + monto
  {
    Calcular(n.(bonificaciones := n.bonificaciones + monto))
  }

  /** `agregar_deduccion(monto)`: `monto` is added to the extra deductions. */
  function ConDeduccion(n: NominaDict, monto: real): (r: NominaDict)
    ensures Consistente(r)
    ensures r.deduccionesAdicionales == n.deduccionesAdicionales + monto
    ensures MismasEntradas(r.(deduccionesAdicionales := n.deduccionesAdicionales), n)
    ensures DeduccionesLegales(n) ==> DeduccionesLegales(r)
    ensures Consistente(n) ==> r.totalDeducciones == n.totalDeducciones + monto && r.salarioNeto == n.salarioNeto - monto
  {
    Calcular(n.(deduccionesAdicionales := n.deduccionesAdicionales + monto))
  }

  /** Bonuses accumulate: adding `a` then `b` is adding `a + b` once. */
  lemma BonificacionAcumula(n: NominaDict, a: real, b: real)
    ensures ConBonificacion(ConBonificacion(n, a), b) == ConBonificacion(n, a + b)
  {
  }

  /** Extra deductions accumulate: adding `a` then `b` is adding `a + b` once. */
  lemma DeduccionAcumula(n: NominaDict, a: real, b: real)
    ensures ConDeduccion(ConDeduccion(n, a), b) == ConDeduccion(n, a + b)
  {
  }

  /** Overtime replaces: a second call without a rate leaves only its own hour count and
      the rate the first call left. */
  lemma HorasExtraReemplaza(n: NominaDict, a: int, valor: Option<real>, b: int)
    ensures ConHorasExtra(ConHorasExtra(n, a, valor), b, None) == ConHorasExtra(n, b, valor)
    ensures ConHorasExtra(ConHorasExtra(n, a, valor), b, None).horasExtra == b
  {
  }

  /** Bonuses and extra deductions are independent inputs: their order does not matter. */
  lemma BonificacionDeduccionConmutan(n: NominaDict, a: real, b: real)
    ensures ConDeduccion(ConBonificacion(n, a), b) == ConBonificacion(ConDeduccion(n, b), a)
  {
  }

  /** The worked example: base 3,000,000, 8 overtime hours at 30,000, a 300,000 bonus
      and a 50,000 extra deduction give 3,540,000 gross, 290,000 deductions, 3,250,000 net. */
  lemma EjemploCalculoCompleto(cedula: string, nombre: string, periodo: string, fecha: string)
    ensures var n := ConDeduccion(ConBonificacion(ConHorasExtra(
                       Nueva(cedula, nombre, periodo, fecha, 3000000.0), 8, Some(30000.0)), 300000.0), 50000.0);
            && n.totalDevengado == 3540000.0
            && n.totalDeducciones == 290000.0
            && n.salarioNeto == 3250000.0
  {
  }
}
