/**
 * Dates as the store keeps them: `YYYY-MM-DD` text. `insertar_ingreso` and
 * `insertar_gasto` read the year and the month from that text with
 * `datetime.strptime(fecha, "%Y-%m-%d")`, and the queries sort rows by the
 * text itself (`ORDER BY fecha DESC`).
 */
module Fecha {
  import opened Wrappers

  datatype FechaPartes = FechaPartes(anio: int, mes: int, dia: int)

  predicate EsDigito(c: char) { '0' <= c <= '9' }

  predicate SonDigitos(s: string)
  {
    forall k :: 0 <= k < |s| ==> EsDigito(s[k])
  }

  /** The decimal value of a string of digits. */
  function Numero(s: string): (n: nat)
    requires SonDigitos(s)
  {
    if s == [] then 0 else Numero(s[..|s| - 1]) * 10 + (s[|s| - 1] as int - '0' as int)
  }

  function Digito(d: nat): (c: char)
    requires d < 10
    ensures EsDigito(c)
  {
    ('0' as int + d) as char
  }

  function Pot10(n: nat): (p: nat)
    ensures p >= 1
  {
    if n == 0 then 1 else 10 * Pot10(n - 1)
  }

  /** `n` written with exactly `ancho` digits, padded with zeros on the left. */
  function Relleno(n: nat, ancho: nat): (s: string)
    ensures |s| == ancho && SonDigitos(s)
  {
    if ancho == 0 then "" else Relleno(n / 10, ancho - 1) + [Digito(n % 10)]
  }

  predicate EsBisiesto(anio: int)
  {
    (anio % 4 == 0 && anio % 100 != 0) || anio % 400 == 0
  }

  function DiasDelMes(anio: int, mes: int): (d: int)
    requires 1 <= mes <= 12
    ensures 28 <= d <= 31
  {
    if mes == 2 then (if EsBisiesto(anio) then 29 else 28)
    else if mes == 4 || mes == 6 || mes == 9 || mes == 11 then 30
    else 31
  }

  /** A calendar date that Python's `datetime` can represent. */
  predicate FechaValida(p: FechaPartes)
  {
    1 <= p.anio <= 9999 && 1 <= p.mes <= 12 && 1 <= p.dia <= DiasDelMes(p.anio, p.mes)
  }

  /** The text shape `DDDD-DD-DD`. */
  predicate FormaCanonica(s: string)
  {
    |s| == 10 && s[4] == '-' && s[7] == '-' && SonDigitos(s[..4]) && SonDigitos(s[5..7]) && SonDigitos(s[8..])
  }

  /**
   * `datetime.strptime(fecha, "%Y-%m-%d")`: the date when the text is a
   * zero-padded `YYYY-MM-DD` naming a real calendar day, and `None` where
   * Python raises `ValueError`.
   */
  function ParseFecha(s: string): (r: Option<FechaPartes>)
    ensures r.Some? ==> FechaValida(r.value) && FormaCanonica(s)
  {
    if FormaCanonica(s) then
      var p := FechaPartes(Numero(s[..4]), Numero(s[5..7]), Numero(s[8..]));
      if FechaValida(p) then Some(p) else None
    else None
  }

  /** `fecha.strftime("%Y-%m-%d")`, as the entry forms produce the text they store. */
  function FormatoFecha(p: FechaPartes): (s: string)
    requires FechaValida(p)
    ensures FormaCanonica(s)
  {
    Relleno(p.anio, 4) + "-" + Relleno(p.mes, 2) + "-" + Relleno(p.dia, 2)
  }

  lemma {:induction false} NumeroRelleno(n: nat, ancho: nat)
    requires n < Pot10(ancho)
    ensures Numero(Relleno(n, ancho)) == n
  {
    if ancho > 0 {
      var s := Relleno(n, ancho);
      assert s[..|s| - 1] == Relleno(n / 10, ancho - 1);
      NumeroRelleno(n / 10, ancho - 1);
    }
  }

  lemma {:induction false} RellenoNumero(s: string)
    requires SonDigitos(s)
    ensures Numero(s) < Pot10(|s|)
    ensures Relleno(Numero(s), |s|) == s
  {
    if s != [] {
      var init := s[..|s| - 1];
      RellenoNumero(init);
      var n := Numero(s);
      assert n / 10 == Numero(init) && n % 10 == s[|s| - 1] as int - '0' as int;
      assert s == init + [s[|s| - 1]];
    }
  }

  /** Formatting a valid date and parsing the text back gives the same date. */
  lemma ParseFormato(p: FechaPartes)
    requires FechaValida(p)
    ensures ParseFecha(FormatoFecha(p)) == Some(p)
  {
    var s := FormatoFecha(p);
    assert s[..4] == Relleno(p.anio, 4);
    assert s[5..7] == Relleno(p.mes, 2);
    assert s[8..] == Relleno(p.dia, 2);
    NumeroRelleno(p.anio, 4);
    NumeroRelleno(p.mes, 2);
    NumeroRelleno(p.dia, 2);
  }

  /** Every text that parses is the formatted form of the date it names. */
  lemma FormatoParse(s: string)
    requires ParseFecha(s).Some?
    ensures FormatoFecha(ParseFecha(s).value) == s
  {
    RellenoNumero(s[..4]);
    RellenoNumero(s[5..7]);
    RellenoNumero(s[8..]);
    assert s == s[..4] + "-" + s[5..7] + "-" + s[8..];
  }

  // ---------------------------------------------------------------------
  // Text order, as SQLite compares TEXT values with its default collation
  // ---------------------------------------------------------------------

  /** `a <= b` in code-point lexicographic order (a proper prefix comes first). */
  predicate TextoMenorIgual(a: string, b: string)
  {
    if a == [] then true
    else if b == [] then false
    else if a[0] != b[0] then a[0] < b[0]
    else TextoMenorIgual(a[1..], b[1..])
  }

  lemma {:induction false} TextoReflexivo(a: string)
    ensures TextoMenorIgual(a, a)
  {
    if a != [] { TextoReflexivo(a[1..]); }
  }

  lemma {:induction false} TextoTotal(a: string, b: string)
    ensures TextoMenorIgual(a, b) || TextoMenorIgual(b, a)
  {
    if a != [] && b != [] && a[0] == b[0] { TextoTotal(a[1..], b[1..]); }
  }

  lemma {:induction false} TextoTransitivo(a: string, b: string, c: string)
    requires TextoMenorIgual(a, b) && TextoMenorIgual(b, c)
    ensures TextoMenorIgual(a, c)
  {
    if a != [] && b != [] && c != [] && a[0] == b[0] && b[0] == c[0] {
      TextoTransitivo(a[1..], b[1..], c[1..]);
    }
  }

  lemma {:induction false} TextoAntisimetrico(a: string, b: string)
    requires TextoMenorIgual(a, b) && TextoMenorIgual(b, a)
    ensures a == b
  {
    if a != [] && b != [] {
      TextoAntisimetrico(a[1..], b[1..]);
      assert a == [a[0]] + a[1..] && b == [b[0]] + b[1..];
    }
  }

  /** Calendar order: year first, then month, then day. */
  predicate AntesOIgual(p: FechaPartes, q: FechaPartes)
  {
    || p.anio < q.anio
    || (p.anio == q.anio && p.mes < q.mes)
    || (p.anio == q.anio && p.mes == q.mes && p.dia <= q.dia)
  }

  /** Behind equally long heads, the order is decided by the heads unless they are equal. */
  lemma {:induction false} TextoConcat(a: string, b: string, x: string, y: string)
    requires |a| == |b|
    ensures TextoMenorIgual(a + x, b + y) == if a == b then TextoMenorIgual(x, y) else TextoMenorIgual(a, b)
  {
    if a != [] {
      assert (a + x)[1..] == a[1..] + x && (b + y)[1..] == b[1..] + y;
      TextoConcat(a[1..], b[1..], x, y);
      assert a == [a[0]] + a[1..] && b == [b[0]] + b[1..];
    } else {
      assert a + x == x && b + y == y;
    }
  }

  /** Zero-padded numbers of one width are equal as text only when they are equal as numbers. */
  lemma RellenoInyectivo(m: nat, n: nat, ancho: nat)
    requires m < Pot10(ancho) && n < Pot10(ancho)
    ensures Relleno(m, ancho) == Relleno(n, ancho) <==> m == n
  {
    NumeroRelleno(m, ancho);
    NumeroRelleno(n, ancho);
  }

  /** Zero-padded numbers of one width compare as text the way they compare as numbers. */
  lemma {:induction false} RellenoOrden(m: nat, n: nat, ancho: nat)
    requires m < Pot10(ancho) && n < Pot10(ancho)
    ensures TextoMenorIgual(Relleno(m, ancho), Relleno(n, ancho)) <==> m <= n
  {
    if ancho == 0 {
      TextoReflexivo("");
    } else {
      var qm, rm, qn, rn := m / 10, m % 10, n / 10, n % 10;
      assert m == 10 * qm + rm && n == 10 * qn + rn;
      assert qm < Pot10(ancho - 1) && qn < Pot10(ancho - 1);
      var a, b := Relleno(qm, ancho - 1), Relleno(qn, ancho - 1);
      TextoConcat(a, b, [Digito(rm)], [Digito(rn)]);
      RellenoInyectivo(qm, qn, ancho - 1);
      if qm == qn {
        assert TextoMenorIgual([Digito(rm)], [Digito(rn)]) <==> rm <= rn;
      } else {
        RellenoOrden(qm, qn, ancho - 1);
        assert qm < qn <==> m < n;
      }
    }
  }

  /** The formatted dates compare by year text, then month text, then day text. */
  lemma TextoFormato(p: FechaPartes, q: FechaPartes)
    requires FechaValida(p) && FechaValida(q)
    ensures var ap, aq, mp, mq := Relleno(p.anio, 4), Relleno(q.anio, 4), Relleno(p.mes, 2), Relleno(q.mes, 2);
      TextoMenorIgual(FormatoFecha(p), FormatoFecha(q)) ==
        if ap != aq then TextoMenorIgual(ap, aq)
        else if mp != mq then TextoMenorIgual(mp, mq)
        else TextoMenorIgual(Relleno(p.dia, 2), Relleno(q.dia, 2))
  {
    var ap, aq := Relleno(p.anio, 4), Relleno(q.anio, 4);
    var mp, mq := Relleno(p.mes, 2), Relleno(q.mes, 2);
    var dp, dq := Relleno(p.dia, 2), Relleno(q.dia, 2);
    assert FormatoFecha(p) == ap + (("-" + mp) + ("-" + dp));
    assert FormatoFecha(q) == aq + (("-" + mq) + ("-" + dq));
    TextoConcat(ap, aq, ("-" + mp) + ("-" + dp), ("-" + mq) + ("-" + dq));
    TextoConcat("-" + mp, "-" + mq, "-" + dp, "-" + dq);
    TextoConcat("-", "-", mp, mq);
    TextoConcat("-", "-", dp, dq);
  }

  /**
   * The stored text sorts dates chronologically, which is what makes
   * `ORDER BY fecha DESC` list the latest date first.
   */
  lemma OrdenCronologico(p: FechaPartes, q: FechaPartes)
    requires FechaValida(p) && FechaValida(q)
    ensures TextoMenorIgual(FormatoFecha(p), FormatoFecha(q)) <==> AntesOIgual(p, q)
  {
    TextoFormato(p, q);
    RellenoOrden(p.anio, q.anio, 4);
    RellenoOrden(p.mes, q.mes, 2);
    RellenoOrden(p.dia, q.dia, 2);
    RellenoInyectivo(p.anio, q.anio, 4);
    RellenoInyectivo(p.mes, q.mes, 2);
  }
}
