/**
 * The period summary of the 80/10/10 rule (`resumen_buckets`) and the net
 * balance the dashboard shows beside it. Both work on what `obtener_ingresos`
 * and `obtener_gastos` return for the period.
 */
module Resumen {
  import opened Wrappers
  import opened Buckets
  import opened Tabla
  import opened Sumas
  import opened Almacen

  /** One figure per bucket: the source's dictionaries keyed by "Necesidades", "Deseos", "Ahorro". */
  datatype PorBucket = PorBucket(necesidades: real, deseos: real, ahorro: real)
  {
    function En(b: Bucket): (v: real)
    {
      match b
      case Necesidades => necesidades
      case Deseos => deseos
      case Ahorro => ahorro
    }
  }

  const Ceros := PorBucket(0.0, 0.0, 0.0)

  datatype ResumenPeriodo = ResumenPeriodo(presupuesto: PorBucket, gastado: PorBucket, disponible: PorBucket)

  // Columns of the two frames, as functions to sum.
  function ValorTotal(f: Ingreso): (v: real) { f.datos.valorTotal }
  function MontoNecesidades(f: Ingreso): (v: real) { f.datos.montoNecesidades }
  function MontoDeseos(f: Ingreso): (v: real) { f.datos.montoDeseos }
  function MontoAhorro(f: Ingreso): (v: real) { f.datos.montoAhorro }
  function Valor(g: Gasto): (v: real) { g.datos.valor }

  /** The expenses whose category the classifier puts into bucket `b`, in their order. */
  function DelBucket(gastos: seq<Gasto>, b: Bucket): (r: seq<Gasto>)
    ensures |r| <= |gastos|
    ensures forall i :: 0 <= i < |r| ==> ClasificarBucket(r[i].datos.categoria) == b
  {
    if gastos == [] then []
    else if ClasificarBucket(gastos[0].datos.categoria) == b then [gastos[0]] + DelBucket(gastos[1..], b)
    else DelBucket(gastos[1..], b)
  }

  /**
   * `resumen_buckets`, given the period's incomes and expenses: the budget is
   * what the incomes assigned to each bucket, the spending is what the
   * expenses of each bucket cost except that savings is never charged, and
   * what is available is budget minus spending, savings being only accumulated.
   */
  function ResumenBuckets(ingresos: seq<Ingreso>, gastos: seq<Gasto>): (r: ResumenPeriodo)
    ensures r.gastado.ahorro == 0.0
    ensures r.disponible.necesidades == r.presupuesto.necesidades - r.gastado.necesidades
    ensures r.disponible.deseos == r.presupuesto.deseos - r.gastado.deseos
    ensures r.disponible.ahorro == r.presupuesto.ahorro
    ensures ingresos == [] ==> r.presupuesto == Ceros
    ensures gastos == [] ==> r.gastado == Ceros
    ensures ingresos == [] && gastos == [] ==> r.disponible == Ceros
    ensures r.gastado.necesidades + r.gastado.deseos + Suma(DelBucket(gastos, Ahorro), Valor) == Suma(gastos, Valor)
  {
    GastosPorBucket(gastos);
    var presupuesto := Presupuesto(ingresos);
    var gastado := Gastado(gastos);
    ResumenPeriodo(presupuesto, gastado, PorBucket(
      presupuesto.necesidades - gastado.necesidades,
      presupuesto.deseos - gastado.deseos,
      presupuesto.ahorro))
  }

  /** The `presupuesto` dictionary: each bucket's shares summed over the incomes. */
  function Presupuesto(ingresos: seq<Ingreso>): (p: PorBucket)
    ensures ingresos == [] ==> p == Ceros
  {
    PorBucket(Suma(ingresos, MontoNecesidades), Suma(ingresos, MontoDeseos), Suma(ingresos, MontoAhorro))
  }

  /** The `gastado` dictionary: each bucket's expenses summed, savings left at zero. */
  function Gastado(gastos: seq<Gasto>): (g: PorBucket)
    ensures g.ahorro == 0.0
    ensures gastos == [] ==> g == Ceros
  {
    PorBucket(Suma(DelBucket(gastos, Necesidades), Valor), Suma(DelBucket(gastos, Deseos), Valor), 0.0)
  }

  /** Every expense counts in exactly one bucket. */
  lemma {:induction false} GastosPorBucket(gastos: seq<Gasto>)
    ensures Suma(DelBucket(gastos, Necesidades), Valor) + Suma(DelBucket(gastos, Deseos), Valor)
          + Suma(DelBucket(gastos, Ahorro), Valor) == Suma(gastos, Valor)
  {
    if gastos != [] {
      GastosPorBucket(gastos[1..]);
    }
  }

  /** How many copies of `g` the bucket keeps: all of them if `g` is in it, none otherwise. */
  lemma {:induction false} DelBucketCuenta(gastos: seq<Gasto>, b: Bucket, g: Gasto)
    ensures multiset(DelBucket(gastos, b))[g] ==
      if ClasificarBucket(g.datos.categoria) == b then multiset(gastos)[g] else 0
  {
    if gastos != [] {
      var cabeza, cola := gastos[0], gastos[1..];
      DelBucketCuenta(cola, b, g);
      assert multiset(gastos) == multiset{cabeza} + multiset(cola) by {
        assert gastos == [cabeza] + cola;
      }
      if ClasificarBucket(cabeza.datos.categoria) == b {
        assert DelBucket(gastos, b) == [cabeza] + DelBucket(cola, b);
        assert multiset(DelBucket(gastos, b)) == multiset{cabeza} + multiset(DelBucket(cola, b));
      } else {
        assert DelBucket(gastos, b) == DelBucket(cola, b);
      }
    }
  }

  /** Reordering the expenses reorders each bucket's expenses. */
  lemma DelBucketPermutacion(a: seq<Gasto>, c: seq<Gasto>, b: Bucket)
    requires multiset(a) == multiset(c)
    ensures multiset(DelBucket(a, b)) == multiset(DelBucket(c, b))
  {
    forall g
      ensures multiset(DelBucket(a, b))[g] == multiset(DelBucket(c, b))[g]
    {
      DelBucketCuenta(a, b, g);
      DelBucketCuenta(c, b, g);
    }
  }

  /** The summary depends on which rows the period has, not on the order the query returns them in. */
  lemma ResumenSinOrden(ingresos: seq<Ingreso>, gastos: seq<Gasto>, ingresos': seq<Ingreso>, gastos': seq<Gasto>)
    requires multiset(ingresos) == multiset(ingresos') && multiset(gastos) == multiset(gastos')
    ensures ResumenBuckets(ingresos, gastos) == ResumenBuckets(ingresos', gastos')
  {
    assert Presupuesto(ingresos) == Presupuesto(ingresos') by {
      SumaPermutacion(ingresos, ingresos', MontoNecesidades);
      SumaPermutacion(ingresos, ingresos', MontoDeseos);
      SumaPermutacion(ingresos, ingresos', MontoAhorro);
    }
    assert Gastado(gastos) == Gastado(gastos') by {
      DelBucketPermutacion(gastos, gastos', Necesidades);
      DelBucketPermutacion(gastos, gastos', Deseos);
      SumaPermutacion(DelBucket(gastos, Necesidades), DelBucket(gastos', Necesidades), Valor);
      SumaPermutacion(DelBucket(gastos, Deseos), DelBucket(gastos', Deseos), Valor);
    }
  }

  /** The summary of a stored period is that of the period's rows in table order. */
  lemma ResumenDelAlmacen(f: Finanzas, anio: int, mes: int)
    ensures ResumenBuckets(f.ObtenerIngresos(Some(anio), Some(mes)), f.ObtenerGastos(Some(anio), Some(mes)))
         == ResumenBuckets(Filtrar(f.ingresos, Some(anio), Some(mes)), Filtrar(f.gastos, Some(anio), Some(mes)))
  {
    ResumenSinOrden(f.ObtenerIngresos(Some(anio), Some(mes)), f.ObtenerGastos(Some(anio), Some(mes)),
      Filtrar(f.ingresos, Some(anio), Some(mes)), Filtrar(f.gastos, Some(anio), Some(mes)));
  }

  lemma DelBucketAgregar(gastos: seq<Gasto>, g: Gasto, b: Bucket)
    ensures Suma(DelBucket(gastos + [g], b), Valor)
         == Suma(DelBucket(gastos, b), Valor) + if ClasificarBucket(g.datos.categoria) == b then g.datos.valor else 0.0
  {
    DelBucketPartir(gastos, [g], b);
    SumaConcat(DelBucket(gastos, b), DelBucket([g], b), Valor);
  }

  lemma {:induction false} DelBucketPartir(a: seq<Gasto>, c: seq<Gasto>, b: Bucket)
    ensures DelBucket(a + c, b) == DelBucket(a, b) + DelBucket(c, b)
  {
    if a == [] {
      assert a + c == c;
    } else {
      assert (a + c)[1..] == a[1..] + c;
      DelBucketPartir(a[1..], c, b);
    }
  }

  /** Charges `v` to bucket `b`; the savings bucket is never charged. */
  function Cargar(p: PorBucket, b: Bucket, v: real): (r: PorBucket)
    ensures forall o: Bucket :: r.En(o) == if o == b && b != Ahorro then p.En(o) + v else p.En(o)
  {
    match b
    case Necesidades => p.(necesidades := p.necesidades + v)
    case Deseos => p.(deseos := p.deseos + v)
    case Ahorro => p
  }

  /**
   * Recording one more expense in the period charges its value to its own
   * bucket and leaves the budgets alone.
   */
  lemma ResumenTrasGasto(ingresos: seq<Ingreso>, gastos: seq<Gasto>, gastos': seq<Gasto>, g: Gasto)
    requires multiset(gastos') == multiset(gastos) + multiset{g}
    ensures ResumenBuckets(ingresos, gastos').presupuesto == ResumenBuckets(ingresos, gastos).presupuesto
    ensures ResumenBuckets(ingresos, gastos').gastado
         == Cargar(ResumenBuckets(ingresos, gastos).gastado, ClasificarBucket(g.datos.categoria), g.datos.valor)
  {
    assert ResumenBuckets(ingresos, gastos') == ResumenBuckets(ingresos, gastos + [g]) by {
      assert multiset(gastos + [g]) == multiset(gastos');
      ResumenSinOrden(ingresos, gastos + [g], ingresos, gastos');
    }
    GastadoTrasGasto(gastos, g);
  }

  /** An expense filed under savings is recorded but leaves the whole summary as it was. */
  lemma ResumenTrasGastoDeAhorro(ingresos: seq<Ingreso>, gastos: seq<Gasto>, gastos': seq<Gasto>, g: Gasto)
    requires multiset(gastos') == multiset(gastos) + multiset{g}
    requires ClasificarBucket(g.datos.categoria) == Ahorro
    ensures ResumenBuckets(ingresos, gastos') == ResumenBuckets(ingresos, gastos)
  {
    ResumenTrasGasto(ingresos, gastos, gastos', g);
  }

  /**
   * An expense the form lets through, filed under necessities or wants,
   * lowers that bucket's available amount by exactly its value, and so
   * strictly; the other two buckets keep theirs.
   */
  lemma GastoAdmisibleDescuenta(ingresos: seq<Ingreso>, gastos: seq<Gasto>, gastos': seq<Gasto>, g: Gasto)
    requires multiset(gastos') == multiset(gastos) + multiset{g}
    requires GastoAdmisible(g.datos.concepto, g.datos.valor)
    ensures var b, antes, despues := ClasificarBucket(g.datos.categoria),
                                     ResumenBuckets(ingresos, gastos).disponible,
                                     ResumenBuckets(ingresos, gastos').disponible;
      && (b != Ahorro ==> despues.En(b) == antes.En(b) - g.datos.valor < antes.En(b))
      && (forall o: Bucket :: o != b ==> despues.En(o) == antes.En(o))
  {
    ResumenTrasGasto(ingresos, gastos, gastos', g);
  }

  lemma GastadoTrasGasto(gastos: seq<Gasto>, g: Gasto)
    ensures Gastado(gastos + [g]) == Cargar(Gastado(gastos), ClasificarBucket(g.datos.categoria), g.datos.valor)
  {
    DelBucketAgregar(gastos, g, Necesidades);
    DelBucketAgregar(gastos, g, Deseos);
  }

  /** Recording one more income in the period adds its three shares to the budgets and changes no spending. */
  lemma ResumenTrasIngreso(ingresos: seq<Ingreso>, ingresos': seq<Ingreso>, gastos: seq<Gasto>, x: Ingreso)
    requires multiset(ingresos') == multiset(ingresos) + multiset{x}
    ensures var antes, despues := ResumenBuckets(ingresos, gastos), ResumenBuckets(ingresos', gastos);
      && despues.presupuesto == PorBucket(
           antes.presupuesto.necesidades + x.datos.montoNecesidades,
           antes.presupuesto.deseos + x.datos.montoDeseos,
           antes.presupuesto.ahorro + x.datos.montoAhorro)
      && despues.gastado == antes.gastado
  {
    assert multiset(ingresos + [x]) == multiset(ingresos');
    ResumenSinOrden(ingresos + [x], gastos, ingresos', gastos);
    SumaConcat(ingresos, [x], MontoNecesidades);
    SumaConcat(ingresos, [x], MontoDeseos);
    SumaConcat(ingresos, [x], MontoAhorro);
  }

  // ---------------------------------------------------------------------
  // Net balance
  // ---------------------------------------------------------------------

  /** The dashboard's net balance: incomes minus expenses minus what went to savings. */
  function SaldoNeto(ingresos: seq<Ingreso>, gastos: seq<Gasto>): (saldo: real)
  {
    Suma(ingresos, ValorTotal) - Suma(gastos, Valor) - Suma(ingresos, MontoAhorro)
  }

  /** With each income split into shares that add up to it, the incomes total the three budgets. */
  lemma {:induction false} IngresosRepartidos(ingresos: seq<Ingreso>)
    requires forall i :: 0 <= i < |ingresos| ==> MontosCoherentes(ingresos[i].datos)
    requires forall i :: 0 <= i < |ingresos| ==>
      ingresos[i].datos.porcNecesidades + ingresos[i].datos.porcDeseos + ingresos[i].datos.porcAhorro == 100.0
    ensures Suma(ingresos, ValorTotal)
         == Suma(ingresos, MontoNecesidades) + Suma(ingresos, MontoDeseos) + Suma(ingresos, MontoAhorro)
  {
    if ingresos != [] {
      var d := ingresos[0].datos;
      MontosSumanTotal(d.valorTotal, d.porcNecesidades, d.porcDeseos, d.porcAhorro);
      IngresosRepartidos(ingresos[1..]);
    }
  }

  /**
   * When every income of the period was split at 100%, the net balance is what
   * is left of the necessities and wants budgets, minus the expenses filed
   * under savings: those count as spending although the savings bucket never
   * pays for them.
   */
  lemma SaldoNetoDesglose(ingresos: seq<Ingreso>, gastos: seq<Gasto>)
    requires forall i :: 0 <= i < |ingresos| ==> MontosCoherentes(ingresos[i].datos)
    requires forall i :: 0 <= i < |ingresos| ==>
      ingresos[i].datos.porcNecesidades + ingresos[i].datos.porcDeseos + ingresos[i].datos.porcAhorro == 100.0
    ensures var r := ResumenBuckets(ingresos, gastos);
      SaldoNeto(ingresos, gastos)
        == r.disponible.necesidades + r.disponible.deseos - Suma(DelBucket(gastos, Ahorro), Valor)
  {
    IngresosRepartidos(ingresos);
  }

  // ---------------------------------------------------------------------
  // A worked month
  // ---------------------------------------------------------------------

  /**
   * March 2024: a salary of 1000 split 80/10/10 and a 150 market expense.
   * Necessities have 800 budgeted, 150 spent and 650 left; wants and savings
   * keep their 100; the net balance is 1000 - 150 - 100.
   */
  lemma MesDeEjemplo()
    ensures var salario := Fila(1, "2024-03-01", 2024, 3,
              DatosIngreso("Salario", 1000.0, 80.0, 10.0, 10.0, Monto(1000.0, 80.0), Monto(1000.0, 10.0), Monto(1000.0, 10.0)));
            var mercado := Fila(1, "2024-03-05", 2024, 3, DatosGasto(Categorias[11], "Compras", 150.0));
      && ResumenBuckets([salario], [mercado]) == ResumenPeriodo(
           PorBucket(800.0, 100.0, 100.0), PorBucket(150.0, 0.0, 0.0), PorBucket(650.0, 100.0, 100.0))
      && SaldoNeto([salario], [mercado]) == 750.0
  {
    CategoriasClasificadas();
    var mercado := Fila(1, "2024-03-05", 2024, 3, DatosGasto(Categorias[11], "Compras", 150.0));
    assert DelBucket([mercado], Necesidades) == [mercado];
    assert DelBucket([mercado], Deseos) == [];
  }
}
