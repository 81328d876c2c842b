/**
 * One payroll run (`Nomina`): statutory deductions fixed when the run is built, and
 * mutators that change an input and then recompute gross, total deductions and net.
 * Every method is specified by the value-level functions of module Liquidacion.
 */
module Nominas {
  import opened Wrappers
  import opened Liquidacion
  import opened Empleados

  class Nomina {
    /** The employee the run was built for; `to_dict` reads its id and names when called. */
    const empleado: Empleado
    const periodo: string
    const fechaCalculo: string
    /** Copied from the employee at construction; later salary changes do not reach the run. */
    const salarioBase: real
    const deduccionSalud: real
    const deduccionPension: real
    var horasExtra: int
    var valorHoraExtra: real
    var bonificaciones: real
    var deduccionesAdicionales: real
    var totalDevengado: real
    var totalDeducciones: real
    var salarioNeto: real

    /** `to_dict()`. */
    function ToDict(): (n: NominaDict)
      reads this, empleado`nombre, empleado`apellido
      ensures n.empleadoCedula == empleado.cedula && n.periodo == periodo
    {
      NominaDict(empleado.cedula, NombreCompleto(empleado.nombre, empleado.apellido), periodo, fechaCalculo,
                 salarioBase, horasExtra, valorHoraExtra, bonificaciones, deduccionSalud, deduccionPension,
                 deduccionesAdicionales, totalDevengado, totalDeducciones, salarioNeto)
    }

    /** No stale derived state, and the statutory deductions are 4% of base. */
    ghost predicate Valid()
      reads this, empleado`nombre, empleado`apellido
    {
      Consistente(ToDict()) && DeduccionesLegales(ToDict())
    }

    /** `Nomina(empleado, periodo)`, computed at `fecha`. */
    constructor (empleado: Empleado, periodo: string, fecha: string)
      ensures this.empleado == empleado && Valid()
      ensures ToDict() == Nueva(empleado.cedula, NombreCompleto(empleado.nombre, empleado.apellido),
                                periodo, fecha, empleado.salarioBase)
    {
      this.empleado := empleado;
      this.periodo := periodo;
      this.fechaCalculo := fecha;
      this.salarioBase := empleado.salarioBase;
      this.horasExtra := 0;
      this.valorHoraExtra := VALOR_HORA_EXTRA_DEFECTO;
      this.bonificaciones := 0.0;
      this.deduccionesAdicionales := 0.0;
      this.deduccionSalud := empleado.salarioBase * TASA_SALUD;
      this.deduccionPension := empleado.salarioBase * TASA_PENSION;
      new;
      CalcularNomina();
    }

    /** `_calcular_nomina()`. */
    method CalcularNomina()
      modifies this`totalDevengado, this`totalDeducciones, this`salarioNeto
      ensures ToDict() == Calcular(old(ToDict()))
    {
      var valorHorasExtra := horasExtra as real * valorHoraExtra;
      totalDevengado := salarioBase + valorHorasExtra + bonificaciones;
      totalDeducciones := deduccionSalud + deduccionPension + deduccionesAdicionales;
      salarioNeto := totalDevengado - totalDeducciones;
    }

    /** `agregar_horas_extra(horas, valor_por_hora)`; `None` is the omitted rate. */
    method AgregarHorasExtra(horas: int, valor: Option<real>)
      requires Valid()
      modifies this
      ensures Valid()
      ensures ToDict() == ConHorasExtra(old(ToDict()), horas, valor)
    {
      horasExtra := horas;
      if TarifaDada(valor) {
        valorHoraExtra := valor.value;
      }
      CalcularNomina();
    }

    /** `agregar_bonificacion(monto)`. */
    method AgregarBonificacion(monto: real)
      requires Valid()
      modifies this
      ensures Valid()
      ensures ToDict() == ConBonificacion(old(ToDict()), monto)
    {
      bonificaciones := bonificaciones + monto;
      CalcularNomina();
    }

    /** `agregar_deduccion(monto)`. */
    method AgregarDeduccion(monto: real)
      requires Valid()
      modifies this
      ensures Valid()
      ensures ToDict() == ConDeduccion(old(ToDict()), monto)
    {
      deduccionesAdicionales := deduccionesAdicionales + monto;
      CalcularNomina();
    }
  }

  /** The worked example run through the class: a 3,000,000 salary, 8 overtime hours at
      30,000, a 300,000 bonus and a 50,000 extra deduction. */
  method EjemploLiquidacion(empleado: Empleado, fecha: string) returns (n: Nomina)
    requires empleado.salarioBase == 3000000.0
    ensures n.totalDevengado == 3540000.0 && n.totalDeducciones == 290000.0 && n.salarioNeto == 3250000.0
  {
    n := new Nomina(empleado, "2024-01", fecha);
    n.AgregarHorasExtra(8, Some(30000.0));
    n.AgregarBonificacion(300000.0);
    n.AgregarDeduccion(50000.0);
  }
}
