/**
 * The record store and its data-access functions (`insertar_ingreso`,
 * `insertar_gasto`, `obtener_ingresos`, `obtener_gastos`, `eliminar_ingreso`,
 * `eliminar_gasto`, `obtener_anios_disponibles`). The SQLite file becomes an
 * object holding the two tables as sequences, in insertion order, and the
 * two AUTOINCREMENT counters.
 */
module Almacen {
  import opened Wrappers
  import opened Fecha
  import opened Tabla

  /** The own columns of table `ingresos`. */
  datatype DatosIngreso = DatosIngreso(
    concepto: string,
    valorTotal: real,
    porcNecesidades: real, porcDeseos: real, porcAhorro: real,
    montoNecesidades: real, montoDeseos: real, montoAhorro: real)

  /** The own columns of table `gastos`. */
  datatype DatosGasto = DatosGasto(categoria: string, concepto: string, valor: real)

  type Ingreso = Fila<DatosIngreso>
  type Gasto = Fila<DatosGasto>

  /** The share of an income assigned to a bucket: `valor_total * (porc / 100)`. */
  function Monto(valorTotal: real, porc: real): (m: real)
    ensures 0.0 <= valorTotal && 0.0 <= porc <= 100.0 ==> 0.0 <= m <= valorTotal
  {
    valorTotal * (porc / 100.0)
  }

  /** When the percentages add up to 100 (what the entry form checks), the three shares add up to the income. */
  lemma MontosSumanTotal(valorTotal: real, porcNecesidades: real, porcDeseos: real, porcAhorro: real)
    requires porcNecesidades + porcDeseos + porcAhorro == 100.0
    ensures Monto(valorTotal, porcNecesidades) + Monto(valorTotal, porcDeseos) + Monto(valorTotal, porcAhorro) == valorTotal
  {
    calc {
      Monto(valorTotal, porcNecesidades) + Monto(valorTotal, porcDeseos) + Monto(valorTotal, porcAhorro);
      valorTotal * ((porcNecesidades + porcDeseos + porcAhorro) / 100.0);
      valorTotal;
    }
  }

  /**
   * The income form saves only with a concept, a positive value and
   * percentages adding up to 100; each percentage widget keeps to 0..100.
   */
  predicate IngresoAdmisible(concepto: string, valorTotal: real,
                             porcNecesidades: real, porcDeseos: real, porcAhorro: real)
  {
    && concepto != "" && valorTotal > 0.0
    && 0.0 <= porcNecesidades <= 100.0 && 0.0 <= porcDeseos <= 100.0 && 0.0 <= porcAhorro <= 100.0
    && porcNecesidades + porcDeseos + porcAhorro == 100.0
  }

  /** An income the form lets through is split into three shares, none negative, that add up to it. */
  lemma IngresoAdmisibleReparte(concepto: string, valorTotal: real,
                                porcNecesidades: real, porcDeseos: real, porcAhorro: real)
    requires IngresoAdmisible(concepto, valorTotal, porcNecesidades, porcDeseos, porcAhorro)
    ensures 0.0 <= Monto(valorTotal, porcNecesidades) <= valorTotal
    ensures 0.0 <= Monto(valorTotal, porcDeseos) <= valorTotal
    ensures 0.0 <= Monto(valorTotal, porcAhorro) <= valorTotal
    ensures Monto(valorTotal, porcNecesidades) + Monto(valorTotal, porcDeseos) + Monto(valorTotal, porcAhorro) == valorTotal
  {
    MontosSumanTotal(valorTotal, porcNecesidades, porcDeseos, porcAhorro);
  }

  /** The expense form saves only with a concept and a positive value. */
  predicate GastoAdmisible(concepto: string, valor: real)
  {
    concepto != "" && valor > 0.0
  }

  /** The three stored shares are those of the stored total and percentages. */
  predicate MontosCoherentes(d: DatosIngreso)
  {
    && d.montoNecesidades == Monto(d.valorTotal, d.porcNecesidades)
    && d.montoDeseos == Monto(d.valorTotal, d.porcDeseos)
    && d.montoAhorro == Monto(d.valorTotal, d.porcAhorro)
  }

  /** Every income row has a readable date matching its year and month, and shares matching its total. */
  predicate IngresosCoherentes(s: seq<Ingreso>)
  {
    forall i :: 0 <= i < |s| ==> FechaCoherente(s[i]) && MontosCoherentes(s[i].datos)
  }

  /** Every expense row has a readable date matching its year and month. */
  predicate GastosCoherentes(s: seq<Gasto>)
  {
    forall i :: 0 <= i < |s| ==> FechaCoherente(s[i])
  }

  lemma SinIdIngresosCoherentes(s: seq<Ingreso>, id: int)
    requires IngresosCoherentes(s)
    ensures IngresosCoherentes(SinId(s, id))
  {
    FilasDe(SinId(s, id), s, (f: Ingreso) => FechaCoherente(f) && MontosCoherentes(f.datos));
  }

  lemma SinIdGastosCoherentes(s: seq<Gasto>, id: int)
    requires GastosCoherentes(s)
    ensures GastosCoherentes(SinId(s, id))
  {
    FilasDe(SinId(s, id), s, FechaCoherente);
  }

  /** The database file `finanzas_personales.db`. */
  class Finanzas {
    var ingresos: seq<Ingreso>
    var gastos: seq<Gasto>
    /** The next AUTOINCREMENT value of each table: never reused, even after a delete. */
    var siguienteIdIngreso: int
    var siguienteIdGasto: int

    ghost predicate Valid()
      reads this
    {
      && IdsCrecientes(ingresos, siguienteIdIngreso)
      && IdsCrecientes(gastos, siguienteIdGasto)
      && IngresosCoherentes(ingresos)
      && GastosCoherentes(gastos)
    }

    /** A fresh database: both tables empty, both counters at 1. */
    constructor ()
      ensures Valid()
      ensures ingresos == [] && gastos == []
      ensures siguienteIdIngreso == 1 && siguienteIdGasto == 1
    {
      ingresos, gastos := [], [];
      siguienteIdIngreso, siguienteIdGasto := 1, 1;
    }

    /**
     * `insertar_ingreso`: reads year and month from the date text, derives the
     * three shares and appends one row with the next id. A date that does not
     * parse (Python's `ValueError`) changes nothing.
     */
    method InsertarIngreso(fecha: string, concepto: string, valorTotal: real,
                           porcNecesidades: real, porcDeseos: real, porcAhorro: real)
      returns (ok: bool)
      requires Valid()
      modifies this
      ensures Valid()
      ensures ok <==> ParseFecha(fecha).Some?
      ensures gastos == old(gastos) && siguienteIdGasto == old(siguienteIdGasto)
      ensures !ok ==> ingresos == old(ingresos) && siguienteIdIngreso == old(siguienteIdIngreso)
      ensures ok ==>
        var p := ParseFecha(fecha).value;
        var nuevo := Fila(old(siguienteIdIngreso), fecha, p.anio, p.mes,
          DatosIngreso(concepto, valorTotal, porcNecesidades, porcDeseos, porcAhorro,
            Monto(valorTotal, porcNecesidades), Monto(valorTotal, porcDeseos), Monto(valorTotal, porcAhorro)));
        && ingresos == old(ingresos) + [nuevo]
        && siguienteIdIngreso == old(siguienteIdIngreso) + 1
        && (forall i :: 0 <= i < |old(ingresos)| ==> old(ingresos)[i].id != nuevo.id)
        && (forall anio, mes :: multiset(ObtenerIngresos(anio, mes)) ==
              multiset(Filtrar(old(ingresos), anio, mes)) + if EnPeriodo(nuevo, anio, mes) then multiset{nuevo} else multiset{})
    {
      var p := ParseFecha(fecha);
      if p.None? {
        return false;
      }
      var d := p.value;
      var nuevo := Fila(siguienteIdIngreso, fecha, d.anio, d.mes,
        DatosIngreso(concepto, valorTotal, porcNecesidades, porcDeseos, porcAhorro,
          Monto(valorTotal, porcNecesidades), Monto(valorTotal, porcDeseos), Monto(valorTotal, porcAhorro)));
      forall anio, mes
        ensures Filtrar(ingresos + [nuevo], anio, mes) == Filtrar(ingresos, anio, mes) + (if EnPeriodo(nuevo, anio, mes) then [nuevo] else [])
      {
        FiltrarAgregar(ingresos, nuevo, anio, mes);
      }
      ingresos := ingresos + [nuevo];
      siguienteIdIngreso := siguienteIdIngreso + 1;
      ok := true;
    }

    /** `insertar_gasto`: as `insertar_ingreso`, for an expense row. */
    method InsertarGasto(fecha: string, categoria: string, concepto: string, valor: real)
      returns (ok: bool)
      requires Valid()
      modifies this
      ensures Valid()
      ensures ok <==> ParseFecha(fecha).Some?
      ensures ingresos == old(ingresos) && siguienteIdIngreso == old(siguienteIdIngreso)
      ensures !ok ==> gastos == old(gastos) && siguienteIdGasto == old(siguienteIdGasto)
      ensures ok ==>
        var p := ParseFecha(fecha).value;
        var nuevo := Fila(old(siguienteIdGasto), fecha, p.anio, p.mes, DatosGasto(categoria, concepto, valor));
        && gastos == old(gastos) + [nuevo]
        && siguienteIdGasto == old(siguienteIdGasto) + 1
        && (forall i :: 0 <= i < |old(gastos)| ==> old(gastos)[i].id != nuevo.id)
        && (forall anio, mes :: multiset(ObtenerGastos(anio, mes)) ==
              multiset(Filtrar(old(gastos), anio, mes)) + if EnPeriodo(nuevo, anio, mes) then multiset{nuevo} else multiset{})
    {
      var p := ParseFecha(fecha);
      if p.None? {
        return false;
      }
      var d := p.value;
      var nuevo := Fila(siguienteIdGasto, fecha, d.anio, d.mes, DatosGasto(categoria, concepto, valor));
      forall anio, mes
        ensures Filtrar(gastos + [nuevo], anio, mes) == Filtrar(gastos, anio, mes) + (if EnPeriodo(nuevo, anio, mes) then [nuevo] else [])
      {
        FiltrarAgregar(gastos, nuevo, anio, mes);
      }
      gastos := gastos + [nuevo];
      siguienteIdGasto := siguienteIdGasto + 1;
      ok := true;
    }

    /** `obtener_ingresos`: the rows of the period (see `EnPeriodo`), latest date first. */
    function ObtenerIngresos(anio: Option<int>, mes: Option<int>): (r: seq<Ingreso>)
      reads this
      ensures multiset(r) == multiset(Filtrar(ingresos, anio, mes))
      ensures forall i :: 0 <= i < |r| ==> r[i] in ingresos && EnPeriodo(r[i], anio, mes)
      ensures forall i :: 0 <= i < |ingresos| && EnPeriodo(ingresos[i], anio, mes) ==> ingresos[i] in r
      ensures OrdenDesc(r)
    {
      MismasFilas(Filtrar(ingresos, anio, mes));
      OrdenarPorFechaDescOrdena(Filtrar(ingresos, anio, mes));
      OrdenarPorFechaDesc(Filtrar(ingresos, anio, mes))
    }

    /** `obtener_gastos`: the rows of the period (see `EnPeriodo`), latest date first. */
    function ObtenerGastos(anio: Option<int>, mes: Option<int>): (r: seq<Gasto>)
      reads this
      ensures multiset(r) == multiset(Filtrar(gastos, anio, mes))
      ensures forall i :: 0 <= i < |r| ==> r[i] in gastos && EnPeriodo(r[i], anio, mes)
      ensures forall i :: 0 <= i < |gastos| && EnPeriodo(gastos[i], anio, mes) ==> gastos[i] in r
      ensures OrdenDesc(r)
    {
      MismasFilas(Filtrar(gastos, anio, mes));
      OrdenarPorFechaDescOrdena(Filtrar(gastos, anio, mes));
      OrdenarPorFechaDesc(Filtrar(gastos, anio, mes))
    }

    /** In a consistent store, both queries list their rows latest calendar date first. */
    lemma IngresosCronologicos(anio: Option<int>, mes: Option<int>)
      requires Valid()
      ensures var r := ObtenerIngresos(anio, mes);
        forall i, j :: 0 <= i < j < |r| ==>
          && FechaCoherente(r[i]) && FechaCoherente(r[j])
          && AntesOIgual(ParseFecha(r[j].fecha).value, ParseFecha(r[i].fecha).value)
    {
      FilasDe(ObtenerIngresos(anio, mes), ingresos, FechaCoherente);
      OrdenDescCronologico(ObtenerIngresos(anio, mes));
    }

    lemma GastosCronologicos(anio: Option<int>, mes: Option<int>)
      requires Valid()
      ensures var r := ObtenerGastos(anio, mes);
        forall i, j :: 0 <= i < j < |r| ==>
          && FechaCoherente(r[i]) && FechaCoherente(r[j])
          && AntesOIgual(ParseFecha(r[j].fecha).value, ParseFecha(r[i].fecha).value)
    {
      FilasDe(ObtenerGastos(anio, mes), gastos, FechaCoherente);
      OrdenDescCronologico(ObtenerGastos(anio, mes));
    }

    /** A month passed without a year is ignored: both queries return every row. */
    lemma MesSinAnioIgnorado(mes: int)
      ensures ObtenerIngresos(None, Some(mes)) == ObtenerIngresos(None, None)
      ensures ObtenerGastos(None, Some(mes)) == ObtenerGastos(None, None)
      ensures multiset(ObtenerIngresos(None, None)) == multiset(ingresos)
      ensures multiset(ObtenerGastos(None, None)) == multiset(gastos)
    {
      FiltrarTodo(ingresos, mes);
      FiltrarTodo(gastos, mes);
    }

    /**
     * `eliminar_ingreso`: removes the row with that id; the other rows keep
     * their order and contents, and an absent id changes nothing.
     */
    method EliminarIngreso(id: int)
      requires Valid()
      modifies this
      ensures Valid()
      ensures ingresos == SinId(old(ingresos), id)
      ensures gastos == old(gastos)
      ensures siguienteIdIngreso == old(siguienteIdIngreso) && siguienteIdGasto == old(siguienteIdGasto)
      ensures (forall i :: 0 <= i < |old(ingresos)| ==> old(ingresos)[i].id != id) ==> ingresos == old(ingresos)
      ensures forall k :: 0 <= k < |old(ingresos)| && old(ingresos)[k].id == id ==>
        ingresos == old(ingresos)[..k] + old(ingresos)[k + 1..]
      ensures forall i :: 0 <= i < |ingresos| ==> ingresos[i].id != id
    {
      SinIdEspecificacion(ingresos, siguienteIdIngreso, id);
      SinIdIngresosCoherentes(ingresos, id);
      ingresos := SinId(ingresos, id);
    }

    /** `eliminar_gasto`: as `eliminar_ingreso`, for the expense table. */
    method EliminarGasto(id: int)
      requires Valid()
      modifies this
      ensures Valid()
      ensures gastos == SinId(old(gastos), id)
      ensures ingresos == old(ingresos)
      ensures siguienteIdIngreso == old(siguienteIdIngreso) && siguienteIdGasto == old(siguienteIdGasto)
      ensures (forall i :: 0 <= i < |old(gastos)| ==> old(gastos)[i].id != id) ==> gastos == old(gastos)
      ensures forall k :: 0 <= k < |old(gastos)| && old(gastos)[k].id == id ==>
        gastos == old(gastos)[..k] + old(gastos)[k + 1..]
      ensures forall i :: 0 <= i < |gastos| ==> gastos[i].id != id
    {
      SinIdEspecificacion(gastos, siguienteIdGasto, id);
      SinIdGastosCoherentes(gastos, id);
      gastos := SinId(gastos, id);
    }

    /**
     * `obtener_anios_disponibles`: the distinct years of both tables, largest
     * first; with both tables empty, the current year alone.
     */
    function ObtenerAniosDisponibles(anioActual: int): (r: seq<int>)
      reads this
      ensures |r| >= 1 && EstrictamenteDesc(r)
      ensures ingresos == [] && gastos == [] ==> r == [anioActual]
      ensures ingresos != [] || gastos != [] ==>
        forall a :: a in r <==>
          (exists i :: 0 <= i < |ingresos| && ingresos[i].anio == a) ||
          (exists i :: 0 <= i < |gastos| && gastos[i].anio == a)
    {
      var anios := Anios(ingresos) + Anios(gastos);
      var distintos := Distintos(anios);
      if distintos == [] then
        [anioActual]
      else
        distintos
    }
  }
}
