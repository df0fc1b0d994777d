/**
 * What the two SQLite tables have in common: every row starts with an
 * AUTOINCREMENT id and the columns `fecha`, `anio`, `mes`. The SQL the
 * data-access functions send (`WHERE anio = ? AND mes = ?`, `ORDER BY fecha
 * DESC`, `DELETE ... WHERE id = ?`, `SELECT DISTINCT anio ... UNION ...`)
 * is modelled here once, over a sequence of rows.
 */
module Tabla {
  import opened Wrappers
  import opened Fecha

  /** A row: the shared columns and the table's own columns `datos`. */
  datatype Fila<D> = Fila(id: int, fecha: string, anio: int, mes: int, datos: D)

  // ---------------------------------------------------------------------
  // Identifiers
  // ---------------------------------------------------------------------

  /** Ids are positive, strictly increasing in insertion order, and below the next id to hand out. */
  predicate IdsCrecientes<D>(s: seq<Fila<D>>, siguiente: int)
  {
    && siguiente >= 1
    && (forall i, j :: 0 <= i < j < |s| ==> s[i].id < s[j].id)
    && (forall i :: 0 <= i < |s| ==> 1 <= s[i].id < siguiente)
  }

  // ---------------------------------------------------------------------
  // WHERE anio = ? AND mes = ?
  // ---------------------------------------------------------------------

  /**
   * The three filter modes of `obtener_ingresos` / `obtener_gastos`: year and
   * month, year only, or no filter (a month without a year is ignored).
   */
  predicate EnPeriodo<D>(f: Fila<D>, anio: Option<int>, mes: Option<int>)
  {
    if anio.Some? && mes.Some? then f.anio == anio.value && f.mes == mes.value
    else if anio.Some? then f.anio == anio.value
    else true
  }

  /** The rows of the period, in table order. */
  function Filtrar<D>(s: seq<Fila<D>>, anio: Option<int>, mes: Option<int>): (r: seq<Fila<D>>)
    ensures |r| <= |s|
    ensures forall i :: 0 <= i < |r| ==> r[i] in s && EnPeriodo(r[i], anio, mes)
    ensures forall i :: 0 <= i < |s| && EnPeriodo(s[i], anio, mes) ==> s[i] in r
  {
    if s == [] then []
    else if EnPeriodo(s[0], anio, mes) then [s[0]] + Filtrar(s[1..], anio, mes)
    else Filtrar(s[1..], anio, mes)
  }

  // ---------------------------------------------------------------------
  // DELETE ... WHERE id = ?
  // ---------------------------------------------------------------------

  /** The table without the rows whose id is `id`, the others in their order. */
  function SinId<D>(s: seq<Fila<D>>, id: int): (r: seq<Fila<D>>)
    ensures |r| <= |s|
    ensures forall i :: 0 <= i < |r| ==> r[i] in s && r[i].id != id
  {
    if s == [] then []
    else if s[0].id == id then SinId(s[1..], id)
    else [s[0]] + SinId(s[1..], id)
  }

  /** Every row with another id survives the delete. */
  lemma {:induction false} SinIdConservaOtras<D>(s: seq<Fila<D>>, id: int)
    ensures forall i :: 0 <= i < |s| && s[i].id != id ==> s[i] in SinId(s, id)
  {
    if s != [] {
      SinIdConservaOtras(s[1..], id);
      forall i | 0 <= i < |s| && s[i].id != id
        ensures s[i] in SinId(s, id)
      {
        if i > 0 {
          assert s[i] == s[1..][i - 1];
        }
      }
    }
  }

  /** A table that has no row with the id is left as it is. */
  lemma {:induction false} SinIdAusente<D>(s: seq<Fila<D>>, id: int)
    requires forall i :: 0 <= i < |s| ==> s[i].id != id
    ensures SinId(s, id) == s
  {
    if s != [] {
      SinIdAusente(s[1..], id);
      assert s == [s[0]] + s[1..];
    }
  }

  /** With unique ids, deleting the id of row `k` removes row `k` and nothing else. */
  lemma {:induction false} SinIdPresente<D>(s: seq<Fila<D>>, siguiente: int, k: int)
    requires IdsCrecientes(s, siguiente) && 0 <= k < |s|
    ensures SinId(s, s[k].id) == s[..k] + s[k + 1..]
  {
    var id := s[k].id;
    if k == 0 {
      SinIdAusente(s[1..], id);
    } else {
      SinIdPresente(s[1..], siguiente, k - 1);
      assert s[1..][k - 1].id == id;
      assert s[..k] == [s[0]] + s[1..][..k - 1];
      assert s[k + 1..] == s[1..][k..];
    }
  }

  lemma IdsCrecientesCola<D>(s: seq<Fila<D>>, siguiente: int)
    requires s != [] && IdsCrecientes(s, siguiente)
    ensures IdsCrecientes(s[1..], siguiente)
    ensures forall j :: 0 <= j < |s[1..]| ==> s[0].id < s[1..][j].id
  {
  }

  lemma IdsCrecientesCons<D>(f: Fila<D>, r: seq<Fila<D>>, siguiente: int)
    requires IdsCrecientes(r, siguiente) && 1 <= f.id < siguiente
    requires forall j :: 0 <= j < |r| ==> f.id < r[j].id
    ensures IdsCrecientes([f] + r, siguiente)
  {
  }

  /** A property every row of `s` has is had by every row of `r` drawn from `s`. */
  lemma FilasDe<D>(r: seq<Fila<D>>, s: seq<Fila<D>>, p: Fila<D> -> bool)
    requires forall i :: 0 <= i < |r| ==> r[i] in s
    requires forall i :: 0 <= i < |s| ==> p(s[i])
    ensures forall i :: 0 <= i < |r| ==> p(r[i])
  {
    forall i | 0 <= i < |r|
      ensures p(r[i])
    {
      var k :| 0 <= k < |s| && s[k] == r[i];
    }
  }

  /** Dropping rows keeps the ids increasing. */
  lemma {:induction false} SinIdConservaIds<D>(s: seq<Fila<D>>, siguiente: int, id: int)
    requires IdsCrecientes(s, siguiente)
    ensures IdsCrecientes(SinId(s, id), siguiente)
  {
    if s != [] {
      var cola := s[1..];
      IdsCrecientesCola(s, siguiente);
      SinIdConservaIds(cola, siguiente, id);
      if s[0].id != id {
        var r := SinId(cola, id);
        forall j | 0 <= j < |r|
          ensures s[0].id < r[j].id
        {
          var k :| 0 <= k < |cola| && cola[k] == r[j];
        }
        IdsCrecientesCons(s[0], r, siguiente);
      }
    }
  }

  /**
   * Everything `DELETE ... WHERE id = ?` promises about a table whose ids
   * increase: the ids still increase, a missing id changes nothing, and an
   * existing id removes exactly its own row.
   */
  lemma SinIdEspecificacion<D>(s: seq<Fila<D>>, siguiente: int, id: int)
    requires IdsCrecientes(s, siguiente)
    ensures IdsCrecientes(SinId(s, id), siguiente)
    ensures (forall i :: 0 <= i < |s| ==> s[i].id != id) ==> SinId(s, id) == s
    ensures forall k :: 0 <= k < |s| && s[k].id == id ==> SinId(s, id) == s[..k] + s[k + 1..]
  {
    if forall i :: 0 <= i < |s| ==> s[i].id != id {
      SinIdAusente(s, id);
    }
    forall k | 0 <= k < |s| && s[k].id == id
      ensures SinId(s, id) == s[..k] + s[k + 1..]
    {
      SinIdPresente(s, siguiente, k);
    }
    SinIdConservaIds(s, siguiente, id);
  }

  // ---------------------------------------------------------------------
  // ORDER BY fecha DESC
  // ---------------------------------------------------------------------

  /** Rows ordered by their date text, latest first. */
  predicate OrdenDesc<D>(s: seq<Fila<D>>)
  {
    forall i, j :: 0 <= i < j < |s| ==> TextoMenorIgual(s[j].fecha, s[i].fecha)
  }

  /** Puts `f` into a latest-first sequence ahead of the first row that is not later than it. */
  function InsertarPorFecha<D>(f: Fila<D>, s: seq<Fila<D>>): (r: seq<Fila<D>>)
    ensures multiset(r) == multiset(s) + multiset{f}
  {
    if s == [] then [f]
    else if TextoMenorIgual(s[0].fecha, f.fecha) then [f] + s
    else
      assert s == [s[0]] + s[1..];
      [s[0]] + InsertarPorFecha(f, s[1..])
  }

  lemma {:induction false} InsertarPorFechaOrdena<D>(f: Fila<D>, s: seq<Fila<D>>)
    requires OrdenDesc(s)
    ensures OrdenDesc(InsertarPorFecha(f, s))
  {
    if s == [] {
    } else if TextoMenorIgual(s[0].fecha, f.fecha) {
      var r := [f] + s;
      forall i, j | 0 <= i < j < |r|
        ensures TextoMenorIgual(r[j].fecha, r[i].fecha)
      {
        if i == 0 && j > 1 {
          TextoTransitivo(s[j - 1].fecha, s[0].fecha, f.fecha);
        }
      }
    } else {
      TextoTotal(s[0].fecha, f.fecha);
      InsertarPorFechaOrdena(f, s[1..]);
      var t := InsertarPorFecha(f, s[1..]);
      var r := [s[0]] + t;
      forall i, j | 0 <= i < j < |r|
        ensures TextoMenorIgual(r[j].fecha, r[i].fecha)
      {
        if i == 0 {
          assert r[j] in multiset(t);
          assert r[j] == f || r[j] in s[1..];
        }
      }
    }
  }

  /** The rows sorted latest first (ties in no promised order, as with SQL). */
  function OrdenarPorFechaDesc<D>(s: seq<Fila<D>>): (r: seq<Fila<D>>)
    ensures multiset(r) == multiset(s)
  {
    if s == [] then []
    else
      assert s == [s[0]] + s[1..];
      InsertarPorFecha(s[0], OrdenarPorFechaDesc(s[1..]))
  }

  lemma {:induction false} OrdenarPorFechaDescOrdena<D>(s: seq<Fila<D>>)
    ensures OrdenDesc(OrdenarPorFechaDesc(s))
  {
    if s != [] {
      OrdenarPorFechaDescOrdena(s[1..]);
      InsertarPorFechaOrdena(s[0], OrdenarPorFechaDesc(s[1..]));
    }
  }

  /** Sorting keeps exactly the rows it was given. */
  lemma MismasFilas<D>(t: seq<Fila<D>>)
    ensures forall i :: 0 <= i < |OrdenarPorFechaDesc(t)| ==> OrdenarPorFechaDesc(t)[i] in t
    ensures forall i :: 0 <= i < |t| ==> t[i] in OrdenarPorFechaDesc(t)
  {
    var r := OrdenarPorFechaDesc(t);
    assert forall i :: 0 <= i < |r| ==> r[i] in multiset(t);
    assert forall i :: 0 <= i < |t| ==> t[i] in multiset(r);
  }

  /** A month given without a year filters nothing. */
  lemma {:induction false} FiltrarTodo<D>(s: seq<Fila<D>>, mes: int)
    ensures Filtrar(s, None, Some(mes)) == Filtrar(s, None, None) == s
  {
    if s != [] {
      FiltrarTodo(s[1..], mes);
      assert s == [s[0]] + s[1..];
    }
  }

  /** Appending a row adds it to the filtered rows exactly when it is in the period. */
  lemma {:induction false} FiltrarAgregar<D>(s: seq<Fila<D>>, f: Fila<D>, anio: Option<int>, mes: Option<int>)
    ensures Filtrar(s + [f], anio, mes) == Filtrar(s, anio, mes) + (if EnPeriodo(f, anio, mes) then [f] else [])
  {
    if s == [] {
      assert s + [f] == [f];
    } else {
      assert (s + [f])[1..] == s[1..] + [f];
      FiltrarAgregar(s[1..], f, anio, mes);
    }
  }

  /** The rows whose date text reads as a date, whose `anio` and `mes` columns are that date's. */
  predicate FechaCoherente<D>(f: Fila<D>)
  {
    ParseFecha(f.fecha).Some? && ParseFecha(f.fecha).value.anio == f.anio && ParseFecha(f.fecha).value.mes == f.mes
  }

  /** Rows whose dates parse and that are ordered latest first by text are ordered latest first by calendar. */
  lemma OrdenDescCronologico<D>(s: seq<Fila<D>>)
    requires OrdenDesc(s)
    requires forall i :: 0 <= i < |s| ==> FechaCoherente(s[i])
    ensures forall i, j :: 0 <= i < j < |s| ==>
      && FechaCoherente(s[i]) && FechaCoherente(s[j])
      && AntesOIgual(ParseFecha(s[j].fecha).value, ParseFecha(s[i].fecha).value)
  {
    forall i, j | 0 <= i < j < |s|
      ensures && FechaCoherente(s[i]) && FechaCoherente(s[j])
              && AntesOIgual(ParseFecha(s[j].fecha).value, ParseFecha(s[i].fecha).value)
    {
      FormatoParse(s[i].fecha);
      FormatoParse(s[j].fecha);
      OrdenCronologico(ParseFecha(s[j].fecha).value, ParseFecha(s[i].fecha).value);
    }
  }

  // ---------------------------------------------------------------------
  // SELECT DISTINCT anio ... UNION ... ORDER BY anio DESC
  // ---------------------------------------------------------------------

  predicate EstrictamenteDesc(s: seq<int>)
  {
    forall i, j :: 0 <= i < j < |s| ==> s[i] > s[j]
  }

  /** Adds `a` to a strictly decreasing list of years unless it is already there. */
  function InsertarAnio(a: int, s: seq<int>): (r: seq<int>)
    requires EstrictamenteDesc(s)
    ensures EstrictamenteDesc(r)
    ensures forall x :: x in r <==> x == a || x in s
  {
    if s == [] then [a]
    else if a > s[0] then [a] + s
    else if a == s[0] then s
    else
      var t := InsertarAnio(a, s[1..]);
      assert forall k :: 0 <= k < |t| ==> t[k] == a || t[k] in s[1..];
      [s[0]] + t
  }

  /** The distinct values of `anios`, largest first. */
  function Distintos(anios: seq<int>): (r: seq<int>)
    ensures EstrictamenteDesc(r)
    ensures forall x :: x in r <==> x in anios
  {
    if anios == [] then [] else InsertarAnio(anios[0], Distintos(anios[1..]))
  }

  /** The `anio` column of a table: exactly the years its rows carry. */
  function Anios<D>(s: seq<Fila<D>>): (r: seq<int>)
    ensures forall a :: a in r <==> exists i :: 0 <= i < |s| && s[i].anio == a
  {
    var r := seq(|s|, i requires 0 <= i < |s| => s[i].anio);
    assert |r| == |s| && forall i :: 0 <= i < |s| ==> r[i] == s[i].anio;
    r
  }
}
