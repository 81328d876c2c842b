# RRHH: employee records and Colombian payroll, modelled in Dafny

This project models the core of `sistema_rrhh.py`, a human-resources record keeper with a
payroll calculator. The model has three objects:

- **`Empleado`** is an employee record. Its fields are updated in place. It has:
  - a current rating, kept within 1..10 by rating updates;
  - an append-only rating history and an append-only payroll history;
  - an `activo` flag, used for soft deletion and reactivation;
  - a dictionary snapshot (`to_dict`) and a reconstruction from such a dictionary (`from_dict`).
- **`Nomina`** is one payroll run. Health and pension deductions are fixed at 4% of base salary
  when the run is built. Every mutator changes one input (overtime, bonus or extra deduction)
  and then recomputes three amounts:
  - gross pay (`total_devengado`);
  - total deductions (`total_deducciones`);
  - net pay (`salario_neto`).
- **`SistemaRRHH`** owns a dictionary from national id (cédula) to employee. Its operations:
  - add, with duplicate-id and contract-type checks;
  - case-folded search;
  - lookup;
  - whitelisted partial update;
  - soft delete;
  - single payroll, refused for unknown or inactive employees;
  - bulk payroll, which records each run in the employee's history;
  - a per-period report;
  - a sorted listing.

Layout, one module per file:

- `wrappers.dfy` holds `Option`.
- `texto.dfy` holds `str.lower()`, the substring test `p in s` and Python's string order.
- `liquidacion.dfy` holds the payroll record as a value (`NominaDict`). It also holds
  `_calcular_nomina` and the three input changes as functions.
- `empleados.dfy` holds the employee snapshot, `from_dict`, the rating and payroll-history
  updates and the partial update as functions, plus the `Empleado` class.
- `nominas.dfy` holds the `Nomina` class.
- `orden.dfy` holds `sorted(..., key=...)` as a stable insertion sort on key/value pairs.
- `sistema.dfy` holds the `SistemaRRHH` class, with the specification functions for search,
  listing, bulk payroll and the period report.

Each class method is proved against a function on snapshots, for example
`ensures ToDict() == ConBonificacion(old(ToDict()), monto)`. The properties the system promises
are then proved about those functions as lemmas.

Python's dictionary keeps insertion order, and search, bulk payroll and the report follow it.
The model therefore keeps the keys in a sequence `orden` beside the map `empleados`.

Money is `real`, so arithmetic is exact. Timestamps (`datetime.now().isoformat()`) are an
opaque `fecha: string` parameter supplied by the caller. Python `None` is `Option.None`, or
`null` for an object result. Python truthiness tests become explicit predicates:

- `TarifaDada` for an overtime rate;
- `TextoDado` for a text field;
- `MontoDado` for a salary.

Behaviour of the code to note:

- **Display name in a payroll record.** `Nomina.to_dict` reads the employee's name when it is
  called (sistema_rrhh.py:146), not when the run is built. `Nominas.Nomina.ToDict` therefore
  reads the employee's `nombre` and `apellido`.
- **Empty rating history.** `from_dict` gives an employee an empty rating history when the key
  is absent (sistema_rrhh.py:81). "The rating history is never empty" is therefore not an
  invariant of the model. It is proved preserved by rating updates and partial updates
  (`Coherente`).
- **Ratings outside 1..10.** Neither `agregar_empleado` nor `from_dict` checks the initial
  rating, so a rating outside 1..10 can be stored. The range is proved preserved by rating
  updates (`ValoracionesEnRango`), not established at construction.
- **Overtime rate of zero.** An overtime rate replaces the stored one only when it is truthy
  (sistema_rrhh.py:115). A rate of `0` keeps the previous rate.
- **Contract type on update.** `actualizar_empleado` does not check the contract type
  (sistema_rrhh.py:278-280), only `agregar_empleado` does.

## Model

| member | source | states |
|---|---|---|
| `Texto.LowerChar` | sistema_rrhh.py:254 | a capital (A-Z, or a Latin-1 capital other than `×`) becomes the character 32 code points after it, every other character is kept, and no capital is left |
| `Texto.Lower` | sistema_rrhh.py:254 | `s.lower()` keeps the length of `s`, leaves no capital anywhere, and returns a string without capitals unchanged |
| `Texto.LowerIdempotent` | sistema_rrhh.py:254 | lowering twice is lowering once |
| `Texto.Contains` | sistema_rrhh.py:257-259 | `p in s` holds exactly when `p` occurs contiguously at some position of `s` |
| `Texto.LessTotal` | sistema_rrhh.py:381 | two different strings are ordered one way or the other |
| `Texto.LessAsymmetric` | sistema_rrhh.py:381 | string `<` is asymmetric (hence irreflexive) |
| `Texto.LessTransitive` | sistema_rrhh.py:381 | string `<` is transitive |
| `Texto.LessEqTotalOrder` | sistema_rrhh.py:381 | string `<=` is total and transitive, so sorting by it is well defined |
| `Liquidacion.Calcular` | sistema_rrhh.py:129-140 | after recomputation gross = base + hours × rate + bonuses, deductions = health + pension + extra, net = gross − deductions, and no input changes |
| `Liquidacion.CalcularUnico` | sistema_rrhh.py:129-140 | the derived amounts are determined by the inputs: any consistent record with the same inputs is the recomputed one |
| `Liquidacion.Nueva` | sistema_rrhh.py:91-110 | a new run has health = pension = 4% of base, no overtime at the default rate 20000, no bonus or extra deduction, gross = base, deductions = 8% of base, net = 92% of base |
| `Liquidacion.ConHorasExtra` | sistema_rrhh.py:112-117 | the hour count is replaced; the rate is replaced only by a truthy rate, otherwise kept; nothing else among the inputs changes; amounts are consistent; 4% deductions are kept |
| `Liquidacion.ConBonificacion` | sistema_rrhh.py:119-122 | the bonus grows by `monto`, gross and net grow by `monto`, nothing else among the inputs changes |
| `Liquidacion.ConDeduccion` | sistema_rrhh.py:124-127 | the extra deductions grow by `monto`, total deductions grow and net shrinks by `monto`, nothing else among the inputs changes |
| `Liquidacion.BonificacionAcumula` | sistema_rrhh.py:119-122 | adding bonus `a` then `b` equals adding `a + b` once |
| `Liquidacion.DeduccionAcumula` | sistema_rrhh.py:124-127 | adding deduction `a` then `b` equals adding `a + b` once |
| `Liquidacion.HorasExtraReemplaza` | sistema_rrhh.py:112-117 | a second overtime call without a rate leaves only its own hour count, not the sum, and keeps the first call's rate |
| `Liquidacion.BonificacionDeduccionConmutan` | sistema_rrhh.py:119-127 | bonuses and extra deductions are independent: their order does not matter |
| `Liquidacion.EjemploCalculoCompleto` | sistema_rrhh.py:91-140 | base 3,000,000 with 8 h at 30,000, bonus 300,000 and deduction 50,000 gives 3,540,000 gross, 290,000 deductions, 3,250,000 net |
| `Empleados.Nuevo` | sistema_rrhh.py:9-23 | a new employee holds the given id, names, position, salary, contract type, phone, email and rating, is active, has an empty payroll history and a one-entry rating history holding its rating, and its rating history is coherent with its rating |
| `Empleados.NuevoPorDefecto` | sistema_rrhh.py:9-11 | with the default keyword arguments a new employee has rating 5, recorded once, and empty phone and email |
| `Empleados.ComoEntrada` | sistema_rrhh.py:48-63 | the snapshot `to_dict` writes holds all twelve keys: the six mandatory ones and phone, email, rating, status and both histories |
| `Empleados.LeerDict` | sistema_rrhh.py:65-82 | `from_dict` fails exactly when a mandatory key is missing; otherwise id, names, position, salary and contract type are read from the dictionary, phone/email default to "", rating to 5, `activo` to true, both histories to empty |
| `Empleados.IdaYVuelta` | sistema_rrhh.py:48-82 | `from_dict(to_dict(e))` reproduces every field of `e`, status and both histories included |
| `Empleados.ValoresPorDefecto` | sistema_rrhh.py:65-82 | a dictionary with only the mandatory keys gives an active employee with rating 5, empty phone and email and empty histories |
| `Empleados.ConValoracion` | sistema_rrhh.py:25-34 | a rating in 1..10 becomes current and the history grows by exactly that one entry; any other rating changes nothing |
| `Empleados.ConValoracionPreserva` | sistema_rrhh.py:25-34 | rating updates keep the last history entry equal to the current rating and keep every rating within 1..10 |
| `Empleados.ConNomina` | sistema_rrhh.py:36-38 | the payroll history grows by exactly the given record; nothing else changes |
| `Empleados.Campo` | sistema_rrhh.py:278-280 | a whitelisted text field takes the supplied value exactly when it is truthy, else keeps its value |
| `Empleados.Aplicar` | sistema_rrhh.py:274-280 | the partial update replaces only whitelisted fields given truthy values; id, status, rating and both histories are never touched |
| `Empleados.AplicarPropiedades` | sistema_rrhh.py:274-280 | the partial update is idempotent, an update with no truthy value changes nothing, and it keeps the rating history coherent |
| `Empleados.Empleado.ToDict` | sistema_rrhh.py:48-63 | the snapshot carries the employee's own id; `IdaYVuelta` proves that `from_dict` reads every field of it back |
| `Empleados.Empleado.constructor` | sistema_rrhh.py:9-23 | the new object's snapshot is `Nuevo(...)`: active, no payroll, initial rating recorded at `fecha` |
| `Empleados.Empleado.FromDict` | sistema_rrhh.py:65-82 | no object exactly when a mandatory key is missing; otherwise a fresh employee whose snapshot is `LeerDict(data)` |
| `Empleados.Empleado.ActualizarValoracion` | sistema_rrhh.py:25-34 | returns true iff 1 ≤ r ≤ 10, and the new state is `ConValoracion` of the old one |
| `Empleados.Empleado.AgregarNomina` | sistema_rrhh.py:36-38 | the new state is the old one with the record appended to the payroll history |
| `Empleados.Empleado.Actualizar` | sistema_rrhh.py:274-280 | the new state is `Aplicar` of the old state and the changes |
| `Empleados.Empleado.Desactivar` | sistema_rrhh.py:40-42 | only `activo` changes, to false |
| `Empleados.Empleado.Activar` | sistema_rrhh.py:44-46 | only `activo` changes, to true |
| `Nominas.Nomina.ToDict` | sistema_rrhh.py:142-159 | the record names the run's employee id and period; the constructor proves it equal to `Nueva` with the employee's current name, and every mutator proves it follows `ConHorasExtra`, `ConBonificacion` or `ConDeduccion` |
| `Nominas.Nomina.constructor` | sistema_rrhh.py:91-110 | the new run's record is `Nueva(...)` for the employee's id, name and salary, so consistent with 4% deductions |
| `Nominas.Nomina.CalcularNomina` | sistema_rrhh.py:129-140 | the new record is `Calcular` of the old one |
| `Nominas.Nomina.AgregarHorasExtra` | sistema_rrhh.py:112-117 | the new record is `ConHorasExtra` of the old one, and the run stays consistent |
| `Nominas.Nomina.AgregarBonificacion` | sistema_rrhh.py:119-122 | the new record is `ConBonificacion` of the old one, and the run stays consistent |
| `Nominas.Nomina.AgregarDeduccion` | sistema_rrhh.py:124-127 | the new record is `ConDeduccion` of the old one, and the run stays consistent |
| `Nominas.EjemploLiquidacion` | sistema_rrhh.py:91-140 | the worked example through the class gives 3,540,000 / 290,000 / 3,250,000 |
| `Orden.Ordenar` | sistema_rrhh.py:381 | sorting keeps the length |
| `Orden.OrdenarCorrecto` | sistema_rrhh.py:381 | the sort is ascending by key and a permutation of its input, of pairs and of values alike |
| `Sistema.ContratoIgnoraMayusculas` | sistema_rrhh.py:239-243 | a contract type is accepted exactly when its lower-case form is |
| `Sistema.Filtrar` | sistema_rrhh.py:253-262 | an employee is in the results exactly when it is in the input and matches (first or last name lowered, or id as is); `FiltrarMultiplicidad` and `FiltrarConcatena` give multiplicity and order |
| `Sistema.FiltrarMultiplicidad` | sistema_rrhh.py:256-260 | each matching employee is in the results as many times as in the input (once per stored employee), a non-matching one never |
| `Sistema.FiltrarConcatena` | sistema_rrhh.py:256-260 | filtering a concatenation is the concatenation of the filtered parts, so the results keep the input's (dictionary) order |
| `Sistema.BusquedaIgnoraMayusculas` | sistema_rrhh.py:254 | searching for `c` and for `c.lower()` gives the same results |
| `Sistema.BuscarPorCedula` | sistema_rrhh.py:256-259 | an employee whose id has no capital letter is found by searching its id |
| `Sistema.ConClave` | sistema_rrhh.py:381 | every pair holds its employee's key `apellido + " " + nombre`, and dropping the keys gives back the input employees in order |
| `Sistema.OrdenarEmpleados` | sistema_rrhh.py:381 | sorting by that key yields an ascending permutation of the employees |
| `Sistema.Seleccion` | sistema_rrhh.py:377-380 | keeps exactly the employees with `incluir or activo`, each with its multiplicity |
| `Sistema.Activos` | sistema_rrhh.py:316-317 | the keys the bulk run visits are keys of the dictionary, no more of them than there are keys |
| `Sistema.ActivosDistintos` | sistema_rrhh.py:316-317 | a key order without repetitions is visited without repetitions, so the bulk run produces at most one payroll per active employee |
| `Sistema.ActivosMiembros` | sistema_rrhh.py:316-317 | the bulk run visits exactly the active employees |
| `Sistema.ActivosPaso` | sistema_rrhh.py:316-317 | each next key is visited iff its employee is active |
| `Sistema.RegistroMasivo` | sistema_rrhh.py:317-329 | the bulk record of an employee is consistent with 4% deductions, has its id, name, period and salary, its overtime hours from the table (else 0) at the default rate, its bonus from the table (else 0) and no extra deduction |
| `Sistema.TrasNominaMasiva` | sistema_rrhh.py:316-329 | an active employee gets exactly its bulk record appended to its payroll history; an inactive one is unchanged; nothing else changes |
| `Sistema.NominaMasiva` | sistema_rrhh.py:318-330 | builds a fresh valid run whose record is `RegistroMasivo` of the employee, appends that record to its history and changes no earlier run |
| `Sistema.PrimerIndice` | sistema_rrhh.py:348-352 | the index of the first history record of the period, and none exactly when no record has that period |
| `Sistema.BuscarNominaDelPeriodo` | sistema_rrhh.py:348-352 | the loop with `break` returns the first record of the period, if any |
| `Sistema.ReportePaso` | sistema_rrhh.py:345-366 | the next key adds its row to the rows, its amounts to each total and one to the count, or leaves the report unchanged |
| `Sistema.FilasAcotadas` | sistema_rrhh.py:345-366 | the report has at most one row per active employee |
| `Sistema.Reporte` | sistema_rrhh.py:334-373 | the count equals the number of rows; `GenerarReporteNominaPeriodo` keeps its own counter in the loop and is proved equal to this report, and `FilasAcotadas` bounds the rows by the active employees |
| `Sistema.SistemaRRHH.Valores` | sistema_rrhh.py:256 | `values()` has one employee per key |
| `Sistema.SistemaRRHH.constructor` | sistema_rrhh.py:191-194 | with no data file the system starts empty |
| `Sistema.SistemaRRHH.AgregarEmpleado` | sistema_rrhh.py:231-249 | succeeds iff the id is new and the lowered contract type is valid; on success exactly one new key is added, mapped to a fresh `Nuevo(...)` employee, at the end of the order, every other entry kept; on failure nothing changes |
| `Sistema.SistemaRRHH.BuscarEmpleado` | sistema_rrhh.py:251-262 | the results are `Filtrar` of the employees in dictionary order by the lowered criterion |
| `Sistema.SistemaRRHH.ObtenerEmpleado` | sistema_rrhh.py:264-266 | found exactly when the id is a key, and then the employee stored under it, with that id |
| `Sistema.SistemaRRHH.ActualizarEmpleado` | sistema_rrhh.py:268-283 | fails iff the id is unknown; the employee under the id becomes `Aplicar` of its old state, every other employee is unchanged |
| `Sistema.SistemaRRHH.EliminarEmpleado` | sistema_rrhh.py:285-293 | fails iff the id is unknown; only that employee's `activo` becomes false, it stays in the dictionary, every other employee is unchanged |
| `Sistema.SistemaRRHH.CalcularNomina` | sistema_rrhh.py:295-307 | no run iff the id is unknown or the employee inactive; otherwise a fresh valid run `Nueva(...)` for that employee; no employee changes |
| `Sistema.SistemaRRHH.PasoMasivo` | sistema_rrhh.py:316-330 | one loop pass: the employee at `i` gets its run if active, appended to the runs in order; no other employee or earlier run changes |
| `Sistema.SistemaRRHH.RecorrerPlantilla` | sistema_rrhh.py:316-331 | the loop returns fresh runs, one per active employee in dictionary order, and leaves every employee in its post-run state |
| `Sistema.SistemaRRHH.ProcesarNominaCompleta` | sistema_rrhh.py:309-332 | one fresh run per active employee in dictionary order, each with record `RegistroMasivo` of that employee's prior state; each active employee's history grows by exactly that record; inactive employees are unchanged; with `ActivosDistintos`, no employee gets two runs |
| `Sistema.SistemaRRHH.GenerarReporteNominaPeriodo` | sistema_rrhh.py:334-373 | rows, the three totals and the count equal `Reporte` over the active employees' first record of the period, in dictionary order |
| `Sistema.SistemaRRHH.ListarEmpleados` | sistema_rrhh.py:375-381 | ascending by `apellido + " " + nombre` and a permutation of the kept employees |
| `Sistema.SistemaRRHH.ListadoMiembros` | sistema_rrhh.py:375-381 | the listing holds exactly the stored employees with `incluir_inactivos or activo` |
| `Sistema.SistemaRRHH.ValoresCompletos` | sistema_rrhh.py:256 | `values()` (the stored objects listed in key order) yields exactly the stored employees |

## Left out

- `cargar_datos` and `guardar_datos` (sistema_rrhh.py:196-229) are not modelled. They do file
  and JSON I/O with error handling around the OS. The constructor models only the case where
  the data file is absent. Persistence is modelled only as the `to_dict`/`from_dict` mapping,
  and the `sistema_info` metadata is not part of the model.
- `main` and `mostrar_menu` are not modelled: they are an interactive terminal loop.
- All `print` messages are left out: they are logging only.
- `Nomina.generar_reporte`, `Empleado.__str__` and the fixed-width text layout of
  `generar_reporte_nomina_periodo` are not modelled. They are presentation: padding,
  truncation, thousands separators and `%.2f`. The report is modelled as its content: the
  rows, the totals and the count.
- `Empleados.Empleado.constructor` and `Sistema.SistemaRRHH.AgregarEmpleado` take every
  argument explicitly: Python's defaults `telefono=""`, `email=""` and `valoracion=5`
  (sistema_rrhh.py:9-11, 231-233) are passed by the caller. `Empleados.NuevoPorDefecto` states
  what an employee built with those defaults holds.
- `Sistema.SistemaRRHH.ListarEmpleados` takes `incluirInactivos` explicitly: the default
  `incluir_inactivos=False` (sistema_rrhh.py:375) is passed by the caller.
- The clock `datetime.now()` is a `fecha` parameter supplied by the caller. The bulk payroll
  (`Sistema.SistemaRRHH.ProcesarNominaCompleta`, `Sistema.NominaMasiva`) takes one `fecha` and
  stamps every run it builds with it. Python reads the clock once per run (sistema_rrhh.py:94,
  reached from line 318), so its records can carry distinct `fecha_calculo` values.
- Amounts are exact reals. Python's binary floating point and its rounding of `* 0.04` are not
  modelled.
- `Texto.LowerChar`: covers only ASCII and the Latin-1 capitals, whose lower-case forms it
  pins exactly. Python's `str.lower()` also lowers the rest of Unicode, including characters
  that lower to several characters.
- `Sistema.SistemaRRHH.ListarEmpleados`: does not state that employees with equal keys keep
  their dictionary order. Python's `sorted` is stable, and the insertion sort used is stable
  too, but stability is not proved.
- `Sistema.SistemaRRHH.ActualizarEmpleado`: only the seven whitelisted keywords can be
  expressed (`Cambios`). Python silently ignores any other keyword, so nothing observable is
  lost.
- `Empleados.Empleado.AgregarNomina`: the history holds payroll records (`NominaDict`), not
  arbitrary dictionaries as in Python.
- `Sistema.PrimerIndice`: a record's period is compared directly, not through `.get`. History
  entries are payroll records, so every one of them has a period.
- Python's dynamic typing is not modelled. `from_dict` values of the wrong type and `None`
  passed where a string is expected are outside the model.
