/**
 * The bucket classifier of the 80/10/10 rule (`clasificar_bucket` in app.py).
 *
 * A category label is normalised the way Python's `str.strip().lower()`
 * does it and then compared with two fixed words; everything else is a
 * necessity.
 */
module Buckets {

  /** The three buckets of the 80/10/10 rule. */
  datatype Bucket = Necesidades | Deseos | Ahorro

  /** The expense categories offered to the user (`CATEGORIAS_GASTO`). */
  const Categorias: seq<string> := [
    "Alimentación", "Transporte", "Vivienda", "Salud", "Deseos", "Suscripciones",
    "Educación", "Deudas", "Ahorro", "Servicios", "Efectivo", "Mercado"
  ]

  /** The characters Python's `str.isspace` accepts, which `str.strip` removes. */
  predicate EsEspacio(c: char)
  {
    || c == ' '
    || '\t' <= c <= '\r'
    || '\U{1C}' <= c <= '\U{1F}'
    || c == '\U{85}' || c == '\U{A0}' || c == '\U{1680}'
    || '\U{2000}' <= c <= '\U{200A}'
    || c == '\U{2028}' || c == '\U{2029}' || c == '\U{202F}' || c == '\U{205F}' || c == '\U{3000}'
  }

  predicate TodoEspacios(s: string)
  {
    forall k :: 0 <= k < |s| ==> EsEspacio(s[k])
  }

  /** Removes leading white space. */
  function RecortarInicio(s: string): (r: string)
    ensures |r| <= |s|
  {
    if s != [] && EsEspacio(s[0]) then RecortarInicio(s[1..]) else s
  }

  /** Removes trailing white space. */
  function RecortarFin(s: string): (r: string)
    ensures |r| <= |s|
  {
    if s != [] && EsEspacio(s[|s| - 1]) then RecortarFin(s[..|s| - 1]) else s
  }

  /** Python's `str.strip()` with no argument. */
  function Recortar(s: string): (r: string)
  {
    RecortarFin(RecortarInicio(s))
  }

  /** Trimming the front keeps the suffix that starts at the first non-space. */
  lemma {:induction false} RecortarInicioSufijo(s: string)
    ensures var r := RecortarInicio(s);
      && r == s[|s| - |r|..]
      && TodoEspacios(s[..|s| - |r|])
      && (r != [] ==> !EsEspacio(r[0]))
  {
    if s != [] && EsEspacio(s[0]) {
      RecortarInicioSufijo(s[1..]);
    }
  }

  /** Trimming the back keeps the prefix that ends at the last non-space. */
  lemma {:induction false} RecortarFinPrefijo(s: string)
    ensures var r := RecortarFin(s);
      && r == s[..|r|]
      && TodoEspacios(s[|r|..])
      && (r != [] ==> !EsEspacio(r[|r| - 1]))
  {
    if s != [] && EsEspacio(s[|s| - 1]) {
      var init := s[..|s| - 1];
      RecortarFinPrefijo(init);
      assert s[|RecortarFin(s)|..] == init[|RecortarFin(init)|..] + [s[|s| - 1]];
    }
  }

  /** `str.strip()` leaves a label that neither starts nor ends with white space, and drops only white space. */
  lemma RecortarBordes(s: string)
    ensures var r := Recortar(s);
      && |r| <= |s|
      && (r != [] ==> !EsEspacio(r[0]) && !EsEspacio(r[|r| - 1]))
      && exists i :: 0 <= i <= |s| - |r| && r == s[i..i + |r|] && TodoEspacios(s[..i]) && TodoEspacios(s[i + |r|..])
  {
    var t := RecortarInicio(s);
    RecortarInicioSufijo(s);
    RecortarFinPrefijo(t);
    var r := RecortarFin(t);
    assert r == Recortar(s);
    var i := |s| - |t|;
    assert r == s[i..i + |r|] by {
      assert t == s[i..];
      assert r == t[..|r|];
    }
    assert TodoEspacios(s[i + |r|..]) by {
      assert s[i + |r|..] == t[|r|..];
    }
    if r != [] {
      assert r[0] == t[0];
    }
  }

  /** An ASCII capital letter lower-cased; any other character unchanged. */
  function MinusculaChar(c: char): (l: char)
  {
    if 'A' <= c <= 'Z' then (c as int - 'A' as int + 'a' as int) as char else c
  }

  /** Python's `str.lower()` on the ASCII letters. */
  function Minusculas(s: string): (r: string)
  {
    seq(|s|, i requires 0 <= i < |s| => MinusculaChar(s[i]))
  }

  /** The form in which a category is compared: trimmed, then lower-cased. */
  function Normalizar(categoria: string): (n: string)
  {
    Minusculas(Recortar(categoria))
  }

  /** `clasificar_bucket`: the bucket an expense category is charged to. */
  function ClasificarBucket(categoria: string): (b: Bucket)
  {
    if Normalizar(categoria) == "deseos" then Deseos
    else if Normalizar(categoria) == "ahorro" then Ahorro
    else Necesidades
  }

  /**
   * The classifier is total and its three outcomes are told apart by the
   * normalised label alone: "deseos" gives wants, "ahorro" savings, anything
   * else necessities.
   */
  lemma ClasificarBucketCasos(categoria: string)
    ensures ClasificarBucket(categoria) == Deseos <==> Normalizar(categoria) == "deseos"
    ensures ClasificarBucket(categoria) == Ahorro <==> Normalizar(categoria) == "ahorro"
    ensures ClasificarBucket(categoria) == Necesidades <==> Normalizar(categoria) != "deseos" && Normalizar(categoria) != "ahorro"
  {
  }

  // ---------------------------------------------------------------------
  // Stripping ignores white-space padding
  // ---------------------------------------------------------------------

  lemma {:induction false} RecortarInicioRelleno(p: string, s: string)
    requires TodoEspacios(p)
    ensures RecortarInicio(p + s) == RecortarInicio(s)
  {
    if p != [] {
      assert (p + s)[1..] == p[1..] + s;
      RecortarInicioRelleno(p[1..], s);
    } else {
      assert p + s == s;
    }
  }

  lemma {:induction false} RecortarFinRelleno(s: string, q: string)
    requires TodoEspacios(q)
    ensures RecortarFin(s + q) == RecortarFin(s)
  {
    if q != [] {
      assert (s + q)[..|s + q| - 1] == s + q[..|q| - 1];
      RecortarFinRelleno(s, q[..|q| - 1]);
    } else {
      assert s + q == s;
    }
  }

  /** Trimming the front of `s + q` touches `q` only when `s` is all white space. */
  lemma {:induction false} RecortarInicioConcat(s: string, q: string)
    ensures RecortarInicio(s + q) == if RecortarInicio(s) == [] then RecortarInicio(q) else RecortarInicio(s) + q
  {
    if s == [] {
      assert s + q == q;
    } else if EsEspacio(s[0]) {
      assert (s + q)[1..] == s[1..] + q;
      RecortarInicioConcat(s[1..], q);
    }
  }

  /** White space added around a label does not change the stripped label. */
  lemma RecortarRelleno(p: string, s: string, q: string)
    requires TodoEspacios(p) && TodoEspacios(q)
    ensures Recortar(p + s + q) == Recortar(s)
  {
    assert p + s + q == p + (s + q);
    RecortarInicioRelleno(p, s + q);
    RecortarInicioConcat(s, q);
    if RecortarInicio(s) == [] {
      RecortarInicioRelleno(q, []);
      assert q + [] == q;
    } else {
      RecortarFinRelleno(RecortarInicio(s), q);
    }
  }

  /** The classifier ignores white space around the category. */
  lemma ClasificarIgnoraEspacios(p: string, categoria: string, q: string)
    requires TodoEspacios(p) && TodoEspacios(q)
    ensures ClasificarBucket(p + categoria + q) == ClasificarBucket(categoria)
  {
    RecortarRelleno(p, categoria, q);
  }

  // ---------------------------------------------------------------------
  // Lower-casing commutes with stripping, so the classifier ignores case
  // ---------------------------------------------------------------------

  lemma EspacioMinuscula(c: char)
    ensures EsEspacio(MinusculaChar(c)) == EsEspacio(c)
  {
  }

  lemma {:induction false} MinusculasRecortarInicio(s: string)
    ensures Minusculas(RecortarInicio(s)) == RecortarInicio(Minusculas(s))
  {
    if s != [] {
      EspacioMinuscula(s[0]);
      assert Minusculas(s)[0] == MinusculaChar(s[0]);
      if EsEspacio(s[0]) {
        assert Minusculas(s)[1..] == Minusculas(s[1..]);
        MinusculasRecortarInicio(s[1..]);
      }
    }
  }

  lemma {:induction false} MinusculasRecortarFin(s: string)
    ensures Minusculas(RecortarFin(s)) == RecortarFin(Minusculas(s))
  {
    if s != [] {
      EspacioMinuscula(s[|s| - 1]);
      assert Minusculas(s)[|s| - 1] == MinusculaChar(s[|s| - 1]);
      if EsEspacio(s[|s| - 1]) {
        assert Minusculas(s)[..|s| - 1] == Minusculas(s[..|s| - 1]);
        MinusculasRecortarFin(s[..|s| - 1]);
      }
    }
  }

  /** Two labels that differ only in letter case fall into the same bucket. */
  lemma ClasificarIgnoraMayusculas(a: string, b: string)
    requires Minusculas(a) == Minusculas(b)
    ensures ClasificarBucket(a) == ClasificarBucket(b)
  {
    MinusculasRecortarInicio(a);
    MinusculasRecortarFin(RecortarInicio(a));
    MinusculasRecortarInicio(b);
    MinusculasRecortarFin(RecortarInicio(b));
  }

  /** A label without surrounding white space is only lower-cased. */
  lemma NormalizarSinRelleno(c: string)
    requires c != [] && !EsEspacio(c[0]) && !EsEspacio(c[|c| - 1])
    ensures Normalizar(c) == Minusculas(c)
  {
  }

  /** Of the offered categories exactly "Deseos" (position 4) and "Ahorro" (position 8) leave the necessities bucket. */
  lemma CategoriasClasificadas()
    ensures forall i :: 0 <= i < |Categorias| ==>
      ClasificarBucket(Categorias[i]) == (if i == 4 then Deseos else if i == 8 then Ahorro else Necesidades)
  {
    forall i | 0 <= i < |Categorias|
      ensures ClasificarBucket(Categorias[i]) == (if i == 4 then Deseos else if i == 8 then Ahorro else Necesidades)
    {
      var c := Categorias[i];
      NormalizarSinRelleno(c);
      if i == 4 {
        assert Minusculas(c) == "deseos";
      } else if i == 8 {
        assert Minusculas(c) == "ahorro";
      } else if i == 7 {
        assert Minusculas(c)[0] == 'd' && Minusculas(c)[2] == 'u';
      } else {
        assert |c| != 6;
      }
    }
  }
}
