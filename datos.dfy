/** The reader of the hydraulic-calculation spreadsheet exported as a
    `;`-separated text file: Latin-format number cleaning, line splitting,
    and the fixed layout from which the terrain profile, the segment summary,
    the fittings tables and the per-segment details are read.

    Rows are given as the sequence of lines of the file; opening and reading
    the file is not part of this model. */
module Datos {
  import opened Opcion
  import opened Cadenas

  /** A spreadsheet number: a real, or NaN where the cell held nothing
      readable. */
  datatype Num = Val(v: real) | NaN

  // ---------------------------------------------------------------------------
  // Decimal numbers

  predicate EsDigito(c: char) { '0' <= c <= '9' }

  predicate SonDigitos(s: string) {
    forall k :: 0 <= k < |s| ==> EsDigito(s[k])
  }

  function Pow10(n: nat): (p: nat)
    ensures p >= 1
  {
    if n == 0 then 1 else 10 * Pow10(n - 1)
  }

  /** The natural number a string of decimal digits denotes. */
  function ValorDigitos(s: string): (n: nat)
    requires SonDigitos(s)
    ensures n < Pow10(|s|)
  {
    if s == [] then 0
    else ValorDigitos(s[..|s| - 1]) * 10 + ((s[|s| - 1] as int) - ('0' as int))
  }

  /** Digits, a point, digits: the value of a decimal numeral. */
  function ValorDecimal(ent: string, frac: string): real
    requires SonDigitos(ent) && SonDigitos(frac)
  {
    ValorDigitos(ent) as real + (ValorDigitos(frac) as real) / (Pow10(|frac|) as real)
  }

  /** What a left-to-right scan of an unsigned numeral has seen so far:
      the value of the integer digits, the value and the count of the
      decimal digits, whether the point was seen and whether any digit
      was. */
  datatype Lectura = Lectura(entero: nat, fraccion: nat, decimales: nat, punto: bool, digitos: bool)

  /** Scans digits with at most one point; `None` at any other
      character or at a second point. */
  function Escanear(s: string): Option<Lectura>
    decreases |s|
  {
    if s == [] then Some(Lectura(0, 0, 0, false, false))
    else
      match Escanear(s[..|s| - 1])
      case None => None
      case Some(l) =>
        var c := s[|s| - 1];
        if EsDigito(c) then
          var d := (c as int) - ('0' as int);
          if l.punto then Some(l.(fraccion := l.fraccion * 10 + d, decimales := l.decimales + 1, digitos := true))
          else Some(l.(entero := l.entero * 10 + d, digitos := true))
        else if c == '.' && !l.punto then Some(l.(punto := true))
        else None
  }

  /** The decimal numerals accepted by Python's `float` that this model
      covers: an optional sign, then digits with at most one point and at
      least one digit (`12`, `12.`, `.5`, `-3.25`). */
  function ParseDecimal(s: string): Option<real> {
    var signo := if |s| > 0 && s[0] == '-' then -1.0 else 1.0;
    match Escanear(Cuerpo(s))
    case Some(l) =>
      if l.digitos then Some(signo * ((l.entero as real) + (l.fraccion as real) / (Pow10(l.decimales) as real)))
      else None
    case None => None
  }

  /** The numeral without its sign. */
  function Cuerpo(s: string): string {
    if |s| > 0 && (s[0] == '-' || s[0] == '+') then s[1..] else s
  }

  /** A scan that succeeds has seen exactly as many points as it reports. */
  lemma {:induction false} EscanearPuntos(s: string)
    ensures Escanear(s).Some? ==> Count(s, '.') == if Escanear(s).value.punto then 1 else 0
    decreases |s|
  {
    if s != [] {
      var n := |s| - 1;
      EscanearPuntos(s[..n]);
      assert s == s[..n] + [s[n]];
      CountAppend(s[..n], [s[n]], '.');
    }
  }

  /** A numeral has at most one point. */
  lemma ParseDecimalUnPunto(s: string)
    ensures ParseDecimal(s).Some? ==> Count(s, '.') <= 1
  {
    var cuerpo := Cuerpo(s);
    EscanearPuntos(cuerpo);
    if |s| > 0 && (s[0] == '-' || s[0] == '+') {
      assert s == [s[0]] + cuerpo;
      CountAppend([s[0]], cuerpo, '.');
    }
  }

  /** Digits alone scan to their value, with no point. */
  lemma {:induction false} EscanearDigitos(d: string)
    requires SonDigitos(d)
    ensures Escanear(d) == Some(Lectura(ValorDigitos(d), 0, 0, false, d != []))
    decreases |d|
  {
    if d != [] {
      EscanearDigitos(d[..|d| - 1]);
    }
  }

  /** Digits, a point and digits scan to the integer and decimal values. */
  lemma {:induction false} EscanearDecimales(ent: string, frac: string)
    requires SonDigitos(ent) && SonDigitos(frac)
    ensures Escanear(ent + "." + frac)
         == Some(Lectura(ValorDigitos(ent), ValorDigitos(frac), |frac|, true, ent != [] || frac != []))
    decreases |frac|
  {
    var s := ent + "." + frac;
    if frac == [] {
      assert s[..|s| - 1] == ent;
      EscanearDigitos(ent);
    } else {
      var n := |frac| - 1;
      assert s[..|s| - 1] == ent + "." + frac[..n];
      assert s[|s| - 1] == frac[n];
      EscanearDecimales(ent, frac[..n]);
    }
  }

  // ---------------------------------------------------------------------------
  // `_limpiar_numero`

  /** Latin format to Python format: every `.` (thousands separator) is
      deleted, then every `,` (decimal comma) becomes `.`. */
  function Normalizar(s: string): string {
    ReplaceChar(RemoveChar(s, '.'), ',', '.')
  }

  /** `_limpiar_numero`: a missing cell, or one that is blank after
      stripping, is NaN; otherwise the stripped, normalised text is read as
      a decimal number, and NaN when it is not one. Python's `float` itself
      ignores surrounding whitespace, which can appear only once the points
      are gone (`". 5"` normalises to `" 5"`), hence the second strip. */
  function LimpiarNumero(valor: Option<string>): Num {
    match valor
    case None => NaN
    case Some(texto) =>
      var s := Strip(texto);
      if s == "" then NaN
      else
        match ParseDecimal(Strip(Normalizar(s)))
        case Some(x) => Val(x)
        case None => NaN
  }

  /** A missing cell, an empty one or one holding only whitespace is NaN. */
  lemma LimpiarNumeroVacioEsNaN(valor: Option<string>)
    requires valor.None? || EsBlanco(valor.value)
    ensures LimpiarNumero(valor) == NaN
  {
    if valor.Some? {
      StripEmptyIffBlank(valor.value);
    }
  }

  /** Normalisation leaves no comma, and as many points as the input had
      commas; it is shorter by the number of points removed. */
  lemma NormalizarCuenta(s: string)
    ensures ',' !in Normalizar(s)
    ensures Count(Normalizar(s), '.') == Count(s, ',')
    ensures |Normalizar(s)| == |s| - Count(s, '.')
  {
    var sinPuntos := RemoveChar(s, '.');
    RemoveCharSpec(s, '.');
    RemoveCharCount(s, '.', ',');
    ReplaceCharCount(sinPuntos, ',', '.');
    ReplaceCharSpec(sinPuntos, ',', '.');
    CountZero(sinPuntos, '.');
    CountZero(Normalizar(s), ',');
  }

  /** Whitespace around a cell does not change its value. */
  lemma LimpiarNumeroIgnoraBlancos(p: string, s: string, q: string)
    requires EsBlanco(p) && EsBlanco(q)
    ensures LimpiarNumero(Some(p + s + q)) == LimpiarNumero(Some(s))
  {
    StripSetIgnoresSurrounding(p, s, q, Blancos);
  }

  /** Text with two or more decimal commas is not a number: the cleaner
      answers NaN instead of failing. */
  lemma DosComasEsNaN(s: string)
    requires Count(s, ',') >= 2
    ensures LimpiarNumero(Some(s)) == NaN
  {
    var t := Strip(s);
    CountStripSet(s, Blancos, ',');
    assert t != "";
    NormalizarCuenta(t);
    VariosPuntosNoEsNumero(Normalizar(t));
  }

  /** Whitespace left between the points is ignored as `float` ignores
      it: `". 5"` loses its point and reads as 5. */
  lemma EjemploBlancoTrasPunto(texto: string)
    requires texto == ". 5"
    ensures LimpiarNumero(Some(texto)) == Val(5.0)
  {
    StripSinBlancosEnBordes(texto);
    assert texto[1..] == " 5" && texto[1..][1..] == "5" && texto[1..][1..][1..] == [];
    assert RemoveChar("5", '.') == "5";
    assert RemoveChar(" 5", '.') == " 5";
    assert RemoveChar(texto, '.') == " 5";
    assert ReplaceChar("5", ',', '.') == "5";
    assert ReplaceChar(" 5", ',', '.') == " 5";
    LStripSetOfPrefix(" ", "5", Blancos);
    assert Strip(" 5") == "5";
    assert Escanear("5") == Some(Lectura(5, 0, 0, false, true));
  }

  /** Text with two or more points is no numeral, stripped or not. */
  lemma VariosPuntosNoEsNumero(n: string)
    requires Count(n, '.') >= 2
    ensures ParseDecimal(Strip(n)).None?
  {
    CountStripSet(n, Blancos, '.');
    ParseDecimalUnPunto(Strip(n));
  }

  lemma SonDigitosSinSeparadores(s: string)
    requires SonDigitos(s)
    ensures '.' !in s && ',' !in s && '-' !in s && '+' !in s
  {
  }

  /** The digits of the groups, one after the other. */
  function Concatenar(grupos: seq<string>): string {
    if grupos == [] then "" else grupos[0] + Concatenar(grupos[1..])
  }

  lemma SonDigitosConcat(a: string, b: string)
    requires SonDigitos(a) && SonDigitos(b)
    ensures SonDigitos(a + b)
  {
    forall k | 0 <= k < |a + b| ensures EsDigito((a + b)[k]) {
      if k < |a| { assert (a + b)[k] == a[k]; } else { assert (a + b)[k] == b[k - |a|]; }
    }
  }

  lemma {:induction false} RemoveCharNoop(s: string, c: char)
    requires c !in s
    ensures RemoveChar(s, c) == s
  {
    if s != [] {
      assert c !in s[1..] by { assert forall k :: 0 <= k < |s| - 1 ==> s[1..][k] == s[k + 1]; }
      RemoveCharNoop(s[1..], c);
      assert [s[0]] + s[1..] == s;
    }
  }

  lemma {:induction false} RemoveCharAppend(a: string, b: string, c: char)
    ensures RemoveChar(a + b, c) == RemoveChar(a, c) + RemoveChar(b, c)
  {
    if a == [] {
      assert a + b == b;
    } else {
      assert (a + b)[0] == a[0];
      assert (a + b)[1..] == a[1..] + b;
      RemoveCharAppend(a[1..], b, c);
    }
  }

  /** Thousands points between digit groups disappear, leaving the
      digits. */
  lemma {:induction false} QuitarPuntosDeGrupos(grupos: seq<string>)
    requires forall g :: g in grupos ==> SonDigitos(g)
    ensures RemoveChar(Join(grupos, "."), '.') == Concatenar(grupos)
    ensures SonDigitos(Concatenar(grupos))
  {
    if grupos != [] {
      var g := grupos[0];
      assert g in grupos;
      SonDigitosSinSeparadores(g);
      RemoveCharNoop(g, '.');
      forall h | h in grupos[1..] ensures SonDigitos(h) { assert h in grupos; }
      QuitarPuntosDeGrupos(grupos[1..]);
      if |grupos| == 1 {
        assert Join(grupos, ".") == g;
        assert Concatenar(grupos) == g + "";
      } else {
        var resto := Join(grupos[1..], ".");
        assert Join(grupos, ".") == g + ("." + resto);
        RemoveCharAppend(g, "." + resto, '.');
        RemoveCharAppend(".", resto, '.');
        assert RemoveChar(".", '.') == "";
        assert "" + RemoveChar(resto, '.') == RemoveChar(resto, '.');
      }
      SonDigitosConcat(g, Concatenar(grupos[1..]));
    }
  }

  lemma {:induction false} ReplaceCharAppend(a: string, b: string, x: char, y: char)
    ensures ReplaceChar(a + b, x, y) == ReplaceChar(a, x, y) + ReplaceChar(b, x, y)
  {
    if a == [] {
      assert a + b == b;
    } else {
      assert (a + b)[0] == a[0];
      assert (a + b)[1..] == a[1..] + b;
      ReplaceCharAppend(a[1..], b, x, y);
    }
  }

  lemma {:induction false} ReplaceCharNoop(s: string, x: char, y: char)
    requires x !in s
    ensures ReplaceChar(s, x, y) == s
  {
    if s != [] {
      assert x !in s[1..] by { assert forall k :: 0 <= k < |s| - 1 ==> s[1..][k] == s[k + 1]; }
      ReplaceCharNoop(s[1..], x, y);
      assert [s[0]] + s[1..] == s;
    }
  }

  /** Normalising a Latin numeral gives the digits, a point and the
      decimals. */
  lemma NormalizarLatino(grupos: seq<string>, frac: string)
    requires forall g :: g in grupos ==> SonDigitos(g)
    requires SonDigitos(frac)
    ensures SonDigitos(Concatenar(grupos))
    ensures Normalizar(Join(grupos, ".") + "," + frac) == Concatenar(grupos) + "." + frac
  {
    QuitarPuntosDeGrupos(grupos);
    var ent := Concatenar(grupos);
    SonDigitosSinSeparadores(ent);
    SonDigitosSinSeparadores(frac);
    RemoveCharAppend(Join(grupos, ".") + ",", frac, '.');
    RemoveCharAppend(Join(grupos, "."), ",", '.');
    RemoveCharNoop(frac, '.');
    assert RemoveChar(",", '.') == ",";
    ReplaceCharAppend(ent + ",", frac, ',', '.');
    ReplaceCharAppend(ent, ",", ',', '.');
    ReplaceCharNoop(ent, ',', '.');
    ReplaceCharNoop(frac, ',', '.');
    assert ReplaceChar(",", ',', '.') == ".";
  }

  /** Digits, a point and digits read as the decimal they write. */
  lemma ParseDecimalDeDigitos(ent: string, frac: string)
    requires ent != [] && SonDigitos(ent) && SonDigitos(frac)
    ensures ParseDecimal(ent + "." + frac) == Some(ValorDecimal(ent, frac))
  {
    var s := ent + "." + frac;
    assert s[0] == ent[0];
    assert EsDigito(ent[0]);
    assert Cuerpo(s) == s;
    EscanearDecimales(ent, frac);
  }

  lemma StripSinBlancosEnBordes(s: string)
    requires s != [] && s[0] !in Blancos && s[|s| - 1] !in Blancos
    ensures Strip(s) == s
  {
    RStripSetSpec(s, Blancos);
    LStripSetSpec(s, Blancos);
  }

  /** Round trip of the Latin format: digit groups separated by thousands
      points, a decimal comma and decimal digits are read back as the number
      they write. */
  lemma LimpiarNumeroFormatoLatino(grupos: seq<string>, frac: string)
    requires grupos != [] && grupos[0] != []
    requires forall g :: g in grupos ==> SonDigitos(g)
    requires SonDigitos(frac)
    ensures SonDigitos(Concatenar(grupos))
    ensures LimpiarNumero(Some(Join(grupos, ".") + "," + frac))
         == Val(ValorDecimal(Concatenar(grupos), frac))
  {
    var cabeza := Join(grupos, ".");
    var texto := cabeza + "," + frac;
    assert cabeza[0] == grupos[0][0] by {
      if |grupos| == 1 { assert cabeza == grupos[0]; }
      else { assert cabeza == grupos[0] + "." + Join(grupos[1..], "."); }
    }
    assert grupos[0] in grupos;
    assert EsDigito(texto[0]);
    assert texto[|texto| - 1] == ',' || EsDigito(texto[|texto| - 1]) by {
      if frac != [] { assert texto[|texto| - 1] == frac[|frac| - 1]; }
    }
    StripSinBlancosEnBordes(texto);
    NormalizarLatino(grupos, frac);
    var ent := Concatenar(grupos);
    assert ent != [] by { assert |ent| >= |grupos[0]|; }
    DecimalSinBlancos(ent, frac);
    ParseDecimalDeDigitos(ent, frac);
  }

  /** A numeral of digits, a point and digits has nothing to strip. */
  lemma DecimalSinBlancos(ent: string, frac: string)
    requires ent != [] && SonDigitos(ent) && SonDigitos(frac)
    ensures Strip(ent + "." + frac) == ent + "." + frac
  {
    var n := ent + "." + frac;
    assert n[0] == ent[0];
    assert n[|n| - 1] == '.' || EsDigito(n[|n| - 1]) by {
      if frac != [] { assert n[|n| - 1] == frac[|frac| - 1]; }
    }
    StripSinBlancosEnBordes(n);
  }

  /** The example from the cleaner's documentation: `"1.030,49"` is
      1030.49. */
  lemma EjemploMilesYDecimales(texto: string)
    requires texto == "1.030,49"
    ensures LimpiarNumero(Some(texto)) == Val(1030.49)
  {
    var grupos := ["1", "030"];
    var frac := "49";
    GruposDeEjemplo(grupos);
    LimpiarNumeroFormatoLatino(grupos, frac);
    assert Join(grupos, ".") + "," + frac == texto;
    ValorDeEjemplo("1030", frac);
  }

  lemma GruposDeEjemplo(grupos: seq<string>)
    requires grupos == ["1", "030"]
    ensures forall g :: g in grupos ==> SonDigitos(g)
    ensures Join(grupos, ".") == "1.030" && Concatenar(grupos) == "1030"
  {
    assert grupos[1..] == ["030"];
    assert Join(grupos, ".") == "1" + "." + "030";
    assert Concatenar(grupos) == "1" + Concatenar(["030"]);
  }

  lemma ValorDeEjemplo(d: string, frac: string)
    requires d == "1030" && frac == "49"
    ensures SonDigitos(d) && SonDigitos(frac)
    ensures ValorDecimal(d, frac) == 1030.49
  {
    assert d[..3] == "103" && d[..3][..2] == "10" && d[..3][..2][..1] == "1";
    assert ValorDigitos(d[..3][..2][..1]) == 1;
    assert ValorDigitos(d[..3][..2]) == 10;
    assert ValorDigitos(d[..3]) == 103;
    assert ValorDigitos(d) == 1030;
    assert frac[..1] == "4";
    assert ValorDigitos(frac) == 49;
    assert Pow10(|frac|) == 100;
  }

  /** Python's `int` on a float: truncation toward zero. */
  function Truncar(x: real): (n: int)
    ensures 0.0 <= x ==> n as real <= x < n as real + 1.0
    ensures x < 0.0 ==> n as real - 1.0 < x <= n as real
  {
    if x >= 0.0 then x.Floor else -((-x).Floor)
  }

  // ---------------------------------------------------------------------------
  // `cargar_csv`

  /** One line of the file: trailing newlines removed, then split on `;`
      with no quoting of any kind. */
  function DividirLinea(linea: string): seq<string> {
    Split(RStripSet(linea, {'\n'}), ';')
  }

  /** The fields of a line give back the line (without its newline) when
      joined with `;`, there is one field more than there are `;`, and no
      field holds a `;`. */
  lemma DividirLineaReconstruye(linea: string)
    ensures Join(DividirLinea(linea), ";") == RStripSet(linea, {'\n'})
    ensures |DividirLinea(linea)| == Count(linea, ';') + 1
    ensures forall campo :: campo in DividirLinea(linea) ==> ';' !in campo
  {
    SplitJoin(RStripSet(linea, {'\n'}), ';');
    CountStripSet(linea, {'\n'}, ';');
  }

  /** `cargar_csv` once the file is open: one row per line, in order. */
  method CargarFilas(lineas: seq<string>) returns (filas: seq<seq<string>>)
    ensures |filas| == |lineas|
    ensures forall i :: 0 <= i < |lineas| ==> filas[i] == DividirLinea(lineas[i])
  {
    filas := [];
    for i := 0 to |lineas|
      invariant |filas| == i
      invariant forall j :: 0 <= j < i ==> filas[j] == DividirLinea(lineas[j])
    {
      var campos := DividirLinea(lineas[i]);
      filas := filas + [campos];
    }
  }

  /** Every cell of a row, cleaned, in column order. */
  function LimpiarFila(fila: seq<string>): (r: seq<Num>)
    ensures |r| == |fila|
  {
    if fila == [] then [] else [LimpiarNumero(Some(fila[0]))] + LimpiarFila(fila[1..])
  }

  /** Column `c` of a cleaned row is the cleaned cell `c`. */
  lemma {:induction false} LimpiarFilaCelda(fila: seq<string>, c: nat)
    requires c < |fila|
    ensures LimpiarFila(fila)[c] == LimpiarNumero(Some(fila[c]))
  {
    if c > 0 {
      LimpiarFilaCelda(fila[1..], c - 1);
    }
  }

  /** The whole table, cleaned cell by cell; it has the shape of the
      text table. */
  function Tabla(filas: seq<seq<string>>): (r: seq<seq<Num>>)
    ensures |r| == |filas|
    ensures forall f :: 0 <= f < |filas| ==> |r[f]| == |filas[f]|
  {
    if filas == [] then [] else [LimpiarFila(filas[0])] + Tabla(filas[1..])
  }

  /** Row `f` of the cleaned table is row `f` of the text, cleaned. */
  lemma {:induction false} TablaFila(filas: seq<seq<string>>, f: nat)
    requires f < |filas|
    ensures Tabla(filas)[f] == LimpiarFila(filas[f])
  {
    if f > 0 {
      TablaFila(filas[1..], f - 1);
    }
  }

  /** Cell `c` of row `f` of the cleaned table is that cell, cleaned. */
  lemma TablaCelda(filas: seq<seq<string>>, f: nat, c: nat)
    requires f < |filas| && c < |filas[f]|
    ensures c < |Tabla(filas)[f]| && Tabla(filas)[f][c] == LimpiarNumero(Some(filas[f][c]))
  {
    TablaFila(filas, f);
    LimpiarFilaCelda(filas[f], c);
  }

  /** Cell `c` of row `f`, cleaned. */
  function Celda(filas: seq<seq<string>>, f: nat, c: nat): Num
    requires f < |filas| && c < |filas[f]|
  {
    LimpiarFila(filas[f])[c]
  }

  // ---------------------------------------------------------------------------
  // `extraer_perfil_terreno`

  datatype PuntoPerfil = PuntoPerfil(
    alturaMapa: Num, largoMapa: Num, hipotenusaMapa: Num, alturaReal: Num,
    distanciaAcumulada: Num, distancia: Num, altitud: Num)

  /** Rows `desde` to `hasta` exist and have at least `ancho` cells. */
  predicate Filas<T>(filas: seq<seq<T>>, desde: nat, hasta: nat, ancho: nat) {
    hasta < |filas| && forall f :: desde <= f <= hasta ==> ancho <= |filas[f]|
  }

  /** One terrain point: the first seven cells of its row, in order. */
  function PuntoDeFila(fila: seq<string>): PuntoPerfil
    requires 7 <= |fila|
  {
    var c := LimpiarFila(fila);
    PuntoPerfil(c[0], c[1], c[2], c[3], c[4], c[5], c[6])
  }

  /** The terrain profile: rows 1 to 8, columns 0 to 6, in row order. */
  method ExtraerPerfilTerreno(filas: seq<seq<string>>) returns (perfil: seq<PuntoPerfil>)
    requires Filas(filas, 1, 8, 7)
    ensures |perfil| == 8
    ensures forall k :: 0 <= k < 8 ==> perfil[k] == PuntoDeFila(filas[k + 1])
  {
    perfil := [];
    for i := 1 to 9
      invariant |perfil| == i - 1
      invariant forall k :: 0 <= k < i - 1 ==> perfil[k] == PuntoDeFila(filas[k + 1])
    {
      perfil := perfil + [PuntoDeFila(filas[i])];
    }
  }

  // ---------------------------------------------------------------------------
  // `extraer_parametros_globales`

  datatype Parametros = Parametros(
    escala: Num, distanciaRioMapa: Num, montanaATierra: Num, totalMontana: Num,
    espacioTierraRio: Num, distanciaTotal: Num, numBombeos: Num, numDepositos: Num)

  predicate CeldasDeParametros(filas: seq<seq<string>>) {
    Filas(filas, 15, 15, 2) && Filas(filas, 11, 13, 3) && Filas(filas, 17, 17, 3)
    && Filas(filas, 34, 36, 3)
  }

  /** The global parameters: the scale from row 15 column 1, the rest from
      column 2 of rows 11, 12, 13, 17, 34, 35 and 36. */
  function ExtraerParametrosGlobales(filas: seq<seq<string>>): Parametros
    requires CeldasDeParametros(filas)
  {
    Parametros(Celda(filas, 15, 1), Celda(filas, 11, 2), Celda(filas, 12, 2),
      Celda(filas, 13, 2), Celda(filas, 17, 2), Celda(filas, 34, 2),
      Celda(filas, 35, 2), Celda(filas, 36, 2))
  }

  /** The scale is the cleaned cell of row 15, column 1; the other seven
      parameters are the cleaned cells of column 2 in rows 11, 12, 13, 17,
      34, 35 and 36. */
  lemma ParametrosCeldas(filas: seq<seq<string>>)
    requires CeldasDeParametros(filas)
    ensures ExtraerParametrosGlobales(filas).escala == LimpiarNumero(Some(filas[15][1]))
    ensures ExtraerParametrosGlobales(filas).distanciaRioMapa == LimpiarNumero(Some(filas[11][2]))
    ensures ExtraerParametrosGlobales(filas).montanaATierra == LimpiarNumero(Some(filas[12][2]))
    ensures ExtraerParametrosGlobales(filas).totalMontana == LimpiarNumero(Some(filas[13][2]))
    ensures ExtraerParametrosGlobales(filas).espacioTierraRio == LimpiarNumero(Some(filas[17][2]))
    ensures ExtraerParametrosGlobales(filas).distanciaTotal == LimpiarNumero(Some(filas[34][2]))
    ensures ExtraerParametrosGlobales(filas).numBombeos == LimpiarNumero(Some(filas[35][2]))
    ensures ExtraerParametrosGlobales(filas).numDepositos == LimpiarNumero(Some(filas[36][2]))
  {
    LimpiarFilaCelda(filas[15], 1);
    LimpiarFilaCelda(filas[11], 2);
    LimpiarFilaCelda(filas[12], 2);
    LimpiarFilaCelda(filas[13], 2);
    LimpiarFilaCelda(filas[17], 2);
    LimpiarFilaCelda(filas[34], 2);
    LimpiarFilaCelda(filas[35], 2);
    LimpiarFilaCelda(filas[36], 2);
  }

  // ---------------------------------------------------------------------------
  // `extraer_resumen_tramos`

  datatype FilaResumen = FilaResumen(
    tramo: int, distancia: Num, altura: Num, pendiente: Num, longitudTuberia: Num)

  /** One summary row: `None` when its segment number is not a number (the
      source's `int` raises there). */
  function ResumenDeFila(fila: seq<string>): Option<FilaResumen>
    requires 5 <= |fila|
  {
    var c := LimpiarFila(fila);
    if c[0].NaN? then None else Some(FilaResumen(Truncar(c[0].v), c[1], c[2], c[3], c[4]))
  }

  /** The segment summary: rows 21 to 27, in order. The whole read fails
      (`None`) when any of them has no segment number. */
  method ExtraerResumenTramos(filas: seq<seq<string>>) returns (resumen: Option<seq<FilaResumen>>)
    requires Filas(filas, 21, 27, 5)
    ensures resumen.Some? <==> forall f :: 21 <= f <= 27 ==> ResumenDeFila(filas[f]).Some?
    ensures resumen.Some? ==> |resumen.value| == 7
    ensures resumen.Some? ==>
      forall k :: 0 <= k < 7 ==> ResumenDeFila(filas[k + 21]) == Some(resumen.value[k])
  {
    var datos: seq<FilaResumen> := [];
    for i := 21 to 28
      invariant |datos| == i - 21
      invariant forall f :: 21 <= f < i ==> ResumenDeFila(filas[f]).Some?
      invariant forall k :: 0 <= k < i - 21 ==> ResumenDeFila(filas[k + 21]) == Some(datos[k])
    {
      var tramo := Celda(filas, i, 0);
      if tramo.NaN? {
        return None;
      }
      datos := datos + [FilaResumen(Truncar(tramo.v), Celda(filas, i, 1), Celda(filas, i, 2),
                                    Celda(filas, i, 3), Celda(filas, i, 4))];
    }
    resumen := Some(datos);
  }

  // ---------------------------------------------------------------------------
  // `extraer_tramo_8_distancias`

  datatype SubdistanciaTramo8 = SubdistanciaTramo8(
    segmento: string, distancia: Num, acumulado: Num, altura: Num)

  /** One sub-distance of segment 8: the stripped name and columns 1 to 3. */
  function SubdistanciaDeFila(fila: seq<string>): SubdistanciaTramo8
    requires 4 <= |fila|
  {
    var c := LimpiarFila(fila);
    SubdistanciaTramo8(Strip(fila[0]), c[1], c[2], c[3])
  }

  /** One row of the sub-distance loop. */
  method LeerSubdistancia(fila: seq<string>) returns (s: SubdistanciaTramo8)
    requires 4 <= |fila|
    ensures s == SubdistanciaDeFila(fila)
  {
    var segmento := if Strip(fila[0]) != "" then Strip(fila[0]) else "";
    LimpiarFilaCelda(fila, 1);
    LimpiarFilaCelda(fila, 2);
    LimpiarFilaCelda(fila, 3);
    s := SubdistanciaTramo8(segmento, LimpiarNumero(Some(fila[1])), LimpiarNumero(Some(fila[2])),
                            LimpiarNumero(Some(fila[3])));
  }

  /** The sub-distances of segment 8: rows 85 to 91, in order. */
  method ExtraerTramo8Distancias(filas: seq<seq<string>>) returns (nombres: seq<SubdistanciaTramo8>)
    requires Filas(filas, 85, 91, 4)
    ensures |nombres| == 7
    ensures forall k :: 0 <= k < 7 ==> nombres[k] == SubdistanciaDeFila(filas[k + 85])
  {
    nombres := [];
    for i := 85 to 92
      invariant |nombres| == i - 85
      invariant forall k :: 0 <= k < i - 85 ==> nombres[k] == SubdistanciaDeFila(filas[k + 85])
    {
      var s := LeerSubdistancia(filas[i]);
      nombres := nombres + [s];
    }
  }

  /** A sub-distance name carries no surrounding whitespace. */
  lemma SubdistanciaNombreLimpio(fila: seq<string>)
    requires 4 <= |fila|
    ensures Strip(SubdistanciaDeFila(fila).segmento) == SubdistanciaDeFila(fila).segmento
  {
    StripSetIdempotent(fila[0], Blancos);
  }

  // ---------------------------------------------------------------------------
  // `extraer_accesorios_tramo`

  /** One fitting read from the spreadsheet: its name, how many, its loss
      coefficient K and its head loss in metres. Every record has these four
      columns, also when a table is empty. */
  datatype RegistroAccesorio = RegistroAccesorio(nombre: string, cantidad: int, k: Num, cargaM: Num)

  /** The window row `fila` gives a fitting: it reaches column `col + 3`,
      its stripped name is neither blank nor one of the two table titles,
      and its quantity is a number. */
  predicate AceptaFila(fila: seq<string>, col: nat) {
    col + 3 < |fila|
    && var nombre := Strip(fila[col]);
    nombre != "" && nombre != "Accesorios" && nombre != "Accesorios por estación"
    && LimpiarFila(fila)[col + 1].Val?
  }

  function RegistroDeFila(fila: seq<string>, col: nat): RegistroAccesorio
    requires AceptaFila(fila, col)
  {
    var c := LimpiarFila(fila);
    RegistroAccesorio(Strip(fila[col]), Truncar(c[col + 1].v), c[col + 2], c[col + 3])
  }

  /** What one row of the window contributes: its record, or nothing. */
  function Candidato(fila: seq<string>, col: nat): Option<RegistroAccesorio> {
    if AceptaFila(fila, col) then Some(RegistroDeFila(fila, col)) else None
  }

  /** The rows `ini` up to (not including) `fin` that the loop visits:
      none when `fin <= ini`. */
  function Ventana(filas: seq<seq<string>>, ini: nat, fin: nat): seq<seq<string>>
    requires ini >= fin || fin <= |filas|
  {
    if fin <= ini then [] else filas[ini..fin]
  }

  /** The fittings of a window of rows, in row order. */
  function Accesorios(ventana: seq<seq<string>>, col: nat): seq<RegistroAccesorio> {
    if ventana == [] then []
    else
      var c := Candidato(ventana[|ventana| - 1], col);
      Accesorios(ventana[..|ventana| - 1], col) + (if c.Some? then [c.value] else [])
  }

  /** One row of the window, as the loop body reads it. */
  method LeerAccesorio(fila: seq<string>, col: nat) returns (c: Option<RegistroAccesorio>)
    ensures c == Candidato(fila, col)
  {
    c := None;
    if col + 3 < |fila| {
      var nombre := Strip(fila[col]);
      if nombre != "" && nombre != "Accesorios" && nombre != "Accesorios por estación" {
        var cantidad := LimpiarNumero(Some(fila[col + 1]));
        var kValor := LimpiarNumero(Some(fila[col + 2]));
        var carga := LimpiarNumero(Some(fila[col + 3]));
        LimpiarFilaCelda(fila, col + 1);
        LimpiarFilaCelda(fila, col + 2);
        LimpiarFilaCelda(fila, col + 3);
        if cantidad.Val? {
          c := Some(RegistroAccesorio(nombre, Truncar(cantidad.v), kValor, carga));
        }
      }
    }
  }

  /** Widening the window by one row adds that row's record, if any. */
  lemma VentanaPaso(filas: seq<seq<string>>, ini: nat, i: nat, col: nat)
    requires ini <= i < |filas|
    ensures var c := Candidato(filas[i], col);
      Accesorios(Ventana(filas, ini, i + 1), col)
        == Accesorios(Ventana(filas, ini, i), col) + (if c.Some? then [c.value] else [])
  {
    assert Ventana(filas, ini, i + 1)[..i - ini] == Ventana(filas, ini, i);
    assert Ventana(filas, ini, i + 1)[i - ini] == filas[i];
  }

  /** `extraer_accesorios_tramo`: the loop over the window of rows. */
  method ExtraerAccesoriosTramo(filas: seq<seq<string>>, colInicio: nat, filaInicio: nat, filaFin: nat)
    returns (datos: seq<RegistroAccesorio>)
    requires filaInicio >= filaFin || filaFin <= |filas|
    ensures datos == Accesorios(Ventana(filas, filaInicio, filaFin), colInicio)
  {
    datos := [];
    var i := filaInicio;
    while i < filaFin
      invariant filaInicio <= i && (filaInicio < filaFin ==> i <= filaFin)
      invariant filaFin <= filaInicio ==> i == filaInicio
      invariant datos == Accesorios(Ventana(filas, filaInicio, i), colInicio)
    {
      var c := LeerAccesorio(filas[i], colInicio);
      VentanaPaso(filas, filaInicio, i, colInicio);
      if c.Some? {
        datos := datos + [c.value];
      }
      i := i + 1;
    }
  }

  /** Row `i` of the window gives the record `a`. */
  predicate Aporta(ventana: seq<seq<string>>, col: nat, i: nat, a: RegistroAccesorio) {
    i < |ventana| && Candidato(ventana[i], col) == Some(a)
  }

  /** Adding a row at the end of the window keeps every record already
      found. */
  lemma AccesoriosExtiende(ventana: seq<seq<string>>, col: nat, a: RegistroAccesorio)
    requires ventana != [] && a in Accesorios(ventana[..|ventana| - 1], col)
    ensures a in Accesorios(ventana, col)
  {
  }

  /** The record of the last row of the window is in the result. */
  lemma AccesoriosUltimo(ventana: seq<seq<string>>, col: nat, a: RegistroAccesorio)
    requires ventana != [] && Candidato(ventana[|ventana| - 1], col) == Some(a)
    ensures a in Accesorios(ventana, col)
  {
  }

  /** A row of the window that gives a record puts it in the result. */
  lemma {:induction false} AccesoriosIncluye(ventana: seq<seq<string>>, col: nat, i: nat, a: RegistroAccesorio)
    requires Aporta(ventana, col, i, a)
    ensures a in Accesorios(ventana, col)
    decreases |ventana|
  {
    var n := |ventana| - 1;
    if i < n {
      assert ventana[..n][i] == ventana[i];
      AccesoriosIncluye(ventana[..n], col, i, a);
      AccesoriosExtiende(ventana, col, a);
    } else {
      AccesoriosUltimo(ventana, col, a);
    }
  }

  /** Every record in the result comes from a row of the window: the
      index of one such row. */
  lemma {:induction false} AccesoriosProcede(ventana: seq<seq<string>>, col: nat, a: RegistroAccesorio)
    returns (i: nat)
    requires a in Accesorios(ventana, col)
    ensures Aporta(ventana, col, i, a)
    decreases |ventana|
  {
    var n := |ventana| - 1;
    var previos := Accesorios(ventana[..n], col);
    var c := Candidato(ventana[n], col);
    assert Accesorios(ventana, col) == previos + (if c.Some? then [c.value] else []);
    if a in previos {
      i := AccesoriosProcede(ventana[..n], col, a);
      assert ventana[..n][i] == ventana[i];
    } else {
      i := n;
    }
  }

  /** The fittings window is a filter: a record is in the result exactly
      when some row of the window is accepted and gives that record. */
  lemma AccesoriosMiembro(ventana: seq<seq<string>>, col: nat, a: RegistroAccesorio)
    ensures a in Accesorios(ventana, col) <==> exists i :: Aporta(ventana, col, i, a)
  {
    if a in Accesorios(ventana, col) {
      var i := AccesoriosProcede(ventana, col, a);
    }
    if exists i :: Aporta(ventana, col, i, a) {
      var i :| Aporta(ventana, col, i, a);
      AccesoriosIncluye(ventana, col, i, a);
    }
  }

  /** The window splits anywhere: the fittings of the first part come
      before those of the second, so row order is kept. */
  lemma {:induction false} AccesoriosConcatena(a: seq<seq<string>>, b: seq<seq<string>>, col: nat)
    ensures Accesorios(a + b, col) == Accesorios(a, col) + Accesorios(b, col)
    decreases |b|
  {
    if b == [] {
      assert a + b == a;
    } else {
      var n := |b| - 1;
      assert (a + b)[..|a + b| - 1] == a + b[..n];
      assert (a + b)[|a + b| - 1] == b[n];
      AccesoriosConcatena(a, b[..n], col);
    }
  }

  /** There are never more records than rows. */
  lemma {:induction false} AccesoriosLongitud(ventana: seq<seq<string>>, col: nat)
    ensures |Accesorios(ventana, col)| <= |ventana|
    decreases |ventana|
  {
    if ventana != [] {
      AccesoriosLongitud(ventana[..|ventana| - 1], col);
    }
  }

  /** Every record has a stripped, non-blank name that is not a table
      title. */
  lemma AccesoriosNombres(ventana: seq<seq<string>>, col: nat)
    ensures forall a :: a in Accesorios(ventana, col) ==>
      a.nombre != "" && Strip(a.nombre) == a.nombre
      && a.nombre != "Accesorios" && a.nombre != "Accesorios por estación"
  {
    forall a | a in Accesorios(ventana, col)
      ensures a.nombre != "" && Strip(a.nombre) == a.nombre
      && a.nombre != "Accesorios" && a.nombre != "Accesorios por estación"
    {
      var i := AccesoriosProcede(ventana, col, a);
      StripSetIdempotent(ventana[i][col], Blancos);
    }
  }

  /** `extraer_accesorios_tramo_8`: columns 5 to 8 of rows 98 to 103. */
  method ExtraerAccesoriosTramo8(filas: seq<seq<string>>) returns (datos: seq<RegistroAccesorio>)
    requires 104 <= |filas|
    ensures datos == Accesorios(Ventana(filas, 98, 104), 5)
  {
    datos := ExtraerAccesoriosTramo(filas, 5, 98, 104);
  }

  // ---------------------------------------------------------------------------
  // `extraer_datos_completos`

  /** The measurements read for one segment from the detail block. */
  datatype Medidas = Medidas(
    pendiente: Num, densidad: Num, caudal: Num, viscosidad: Num,
    longitudTuberia: Num, rugosidad: Num, diametro: Num, area: Num,
    velocidad: Num, cargaCinetica: Num, reynolds: Num, fColebrook: Num,
    fHaaland: Num, perdidasDarcyCrane: Num, perdidasDarcyHaaland: Num)

  /** The detail of one segment: its measurements and fittings, and the
      reference head and power figures written into the program. */
  datatype Detalle = Detalle(
    medidas: Medidas, accesorios: seq<RegistroAccesorio>,
    z: real, cargaTotalEstacion: Option<real>, cargaTotal: real,
    potenciaKw: real, potenciaHp: real, numEstaciones: int, tipo: string)

  const Bomba: string := "bomba"
  const ValvulaEstrangulamiento: string := "valvula_estrangulamiento"

  /** The rows of the detail block that are read: 43 to 45 up to width
      `ancho`, 46 and 48 to 55 up to width `anchoValores`. Row 47 is never
      read, so its width does not matter. */
  predicate FilasDeBloque<T>(filas: seq<seq<T>>, ancho: nat, anchoValores: nat) {
    Filas(filas, 43, 45, ancho) && Filas(filas, 46, 46, anchoValores) && Filas(filas, 48, 55, anchoValores)
  }

  /** The detail block of segment `t` (1 to 7) starts at column `(t - 1) * 5`
      of the cleaned table: values in the column after it, the density,
      viscosity and roughness two further on, on rows 43 to 55. */
  function MedidasDeBloque(tabla: seq<seq<Num>>, base: nat): Medidas
    requires FilasDeBloque(tabla, base + 4, base + 2)
  {
    Medidas(
      tabla[43][base + 1], tabla[43][base + 3],
      tabla[44][base + 1], tabla[44][base + 3],
      tabla[45][base + 1], tabla[45][base + 3],
      tabla[46][base + 1], tabla[48][base + 1],
      tabla[49][base + 1], tabla[50][base + 1],
      tabla[51][base + 1], tabla[52][base + 1],
      tabla[53][base + 1], tabla[54][base + 1],
      tabla[55][base + 1])
  }

  /** Where the block's figures come from: the flow in row 44, the pipe
      length in row 45, the diameter in row 46 and the Colebrook friction
      factor in row 52, each in the column after the block's first; the
      density and the roughness two columns further on. */
  lemma MedidasDeBloqueCeldas(filas: seq<seq<string>>, base: nat)
    requires FilasDeBloque(filas, base + 4, base + 2)
    ensures FilasDeBloque(Tabla(filas), base + 4, base + 2)
    ensures MedidasDeBloque(Tabla(filas), base).caudal == LimpiarNumero(Some(filas[44][base + 1]))
    ensures MedidasDeBloque(Tabla(filas), base).densidad == LimpiarNumero(Some(filas[43][base + 3]))
    ensures MedidasDeBloque(Tabla(filas), base).longitudTuberia == LimpiarNumero(Some(filas[45][base + 1]))
    ensures MedidasDeBloque(Tabla(filas), base).rugosidad == LimpiarNumero(Some(filas[45][base + 3]))
    ensures MedidasDeBloque(Tabla(filas), base).diametro == LimpiarNumero(Some(filas[46][base + 1]))
    ensures MedidasDeBloque(Tabla(filas), base).fColebrook == LimpiarNumero(Some(filas[52][base + 1]))
  {
    TablaCelda(filas, 44, base + 1);
    TablaCelda(filas, 43, base + 3);
    TablaCelda(filas, 45, base + 1);
    TablaCelda(filas, 45, base + 3);
    TablaCelda(filas, 46, base + 1);
    TablaCelda(filas, 52, base + 1);
  }

  /** The reference figures written into the program for segments 1 to 7:
      (z, head per station, total head, kW, HP, stations, type). */
  function Referencia(t: int): (real, Option<real>, real, real, real, int, string)
    requires 1 <= t <= 7
  {
    match t
    case 1 => (100.0, None, 102.35, 25.05, 33.59, 1, Bomba)
    case 2 => (100.0, Some(101.65), 203.30, 24.88, 33.36, 2, Bomba)
    case 3 => (100.0, Some(101.58), 203.15, 31.08, 41.68, 2, Bomba)
    case 4 => (0.0, None, 2.89, 0.88, 1.19, 1, Bomba)
    case 5 => (0.0, Some(1.43), 2.87, 0.0, 0.0, 1, ValvulaEstrangulamiento)
    case 6 => (0.0, Some(1.33), 2.66, 0.0, 0.0, 1, ValvulaEstrangulamiento)
    case _ => (0.0, None, 1.38, 0.0, 0.0, 1, ValvulaEstrangulamiento)
  }

  /** The detail of segment `t` (1 to 7): its block, the fittings in rows 58
      to 62 of its columns, and its reference figures. */
  function DetalleDeTramo(filas: seq<seq<string>>, t: int): Detalle
    requires 1 <= t <= 7
    requires 63 <= |filas| && FilasDeBloque(filas, 34, 32)
  {
    var r := Referencia(t);
    Detalle(MedidasDeBloque(Tabla(filas), (t - 1) * 5), Accesorios(Ventana(filas, 58, 63), (t - 1) * 5),
      r.0, r.1, r.2, r.3, r.4, r.5, r.6)
  }

  /** Segment 8 is written into the program whole, apart from its
      fittings. */
  function DetalleTramo8(accesorios: seq<RegistroAccesorio>): Detalle {
    Detalle(
      Medidas(Val(0.0), Val(998.0), Val(0.025), Val(0.001), Val(1911.52), Val(0.000046),
              Val(0.1541), Val(0.01865), Val(1.34), Val(0.0916), Val(206147.48),
              Val(0.017649), Val(0.017438), Val(2.2144), Val(2.1879)),
      accesorios, 100.0, None, 120.57, 36.89, 49.47, 1, Bomba)
  }

  /** Segments 5 to 7 are throttling valves with no power; every other
      segment, the eighth included, is pumped; each has at least one
      station. */
  lemma TiposDeTramo(filas: seq<seq<string>>, t: int, accesorios: seq<RegistroAccesorio>)
    requires 1 <= t <= 7
    requires 63 <= |filas| && FilasDeBloque(filas, 34, 32)
    ensures DetalleDeTramo(filas, t).tipo == ValvulaEstrangulamiento <==> 5 <= t <= 7
    ensures DetalleDeTramo(filas, t).tipo == Bomba <==> t <= 4
    ensures DetalleDeTramo(filas, t).tipo == ValvulaEstrangulamiento ==>
      DetalleDeTramo(filas, t).potenciaKw == 0.0 && DetalleDeTramo(filas, t).potenciaHp == 0.0
    ensures DetalleDeTramo(filas, t).numEstaciones >= 1
    ensures DetalleTramo8(accesorios).tipo == Bomba
  {
  }

  /** Everything the spreadsheet layout needs: the row widths every reader
      indexes into (a shorter row makes the source raise). */
  predicate DisposicionCompleta(filas: seq<seq<string>>) {
    && 104 <= |filas|
    && Filas(filas, 1, 8, 7)
    && CeldasDeParametros(filas)
    && Filas(filas, 21, 27, 5)
    && Filas(filas, 85, 91, 4)
    && FilasDeBloque(filas, 34, 32)
  }

  datatype DatosCompletos = DatosCompletos(
    perfilTerreno: seq<PuntoPerfil>, parametros: Parametros,
    resumenTramos: seq<FilaResumen>, tramo8Distancias: seq<SubdistanciaTramo8>,
    tramosDetalle: map<int, Detalle>)

  /** The detail of one of segments 1 to 7, read from its block. */
  method LeerDetalle(filas: seq<seq<string>>, t: int) returns (d: Detalle)
    requires 1 <= t <= 7 && DisposicionCompleta(filas)
    ensures d == DetalleDeTramo(filas, t)
  {
    var base := (t - 1) * 5;
    var medidas := MedidasDeBloque(Tabla(filas), base);
    var accesorios := ExtraerAccesoriosTramo(filas, base, 58, 63);
    var r := Referencia(t);
    d := Detalle(medidas, accesorios, r.0, r.1, r.2, r.3, r.4, r.5, r.6);
  }

  /** The details of segments 1 to 7, keyed by segment number. */
  method LeerDetalles(filas: seq<seq<string>>) returns (detalle: map<int, Detalle>)
    requires DisposicionCompleta(filas)
    ensures forall t :: t in detalle <==> 1 <= t <= 7
    ensures forall t :: 1 <= t <= 7 ==> detalle[t] == DetalleDeTramo(filas, t)
  {
    detalle := map[];
    var t := 1;
    while t <= 7
      invariant 1 <= t <= 8
      invariant forall u :: u in detalle <==> 1 <= u < t
      invariant forall u :: 1 <= u < t ==> detalle[u] == DetalleDeTramo(filas, u)
    {
      var d := LeerDetalle(filas, t);
      detalle := detalle[t := d];
      t := t + 1;
    }
  }

  lemma ClavesConTramo8(detalle: map<int, Detalle>, d: Detalle, todos: map<int, Detalle>)
    requires forall t :: t in detalle <==> 1 <= t <= 7
    requires todos == detalle[8 := d]
    ensures forall t :: t in todos <==> 1 <= t <= 8
  {
  }

  /** The `tramos_detalle` dictionary: segments 1 to 7 read from the
      file, segment 8 fixed data with its own fittings window. */
  method LeerTramosDetalle(filas: seq<seq<string>>) returns (todos: map<int, Detalle>)
    requires DisposicionCompleta(filas)
    ensures forall t :: t in todos <==> 1 <= t <= 8
    ensures forall t :: 1 <= t <= 7 ==> todos[t] == DetalleDeTramo(filas, t)
    ensures todos[8] == DetalleTramo8(Accesorios(Ventana(filas, 98, 104), 5))
  {
    var detalle := LeerDetalles(filas);
    var accesorios8 := ExtraerAccesoriosTramo8(filas);
    todos := detalle[8 := DetalleTramo8(accesorios8)];
    ClavesConTramo8(detalle, DetalleTramo8(accesorios8), todos);
  }

  /** `extraer_datos_completos` on the rows of the file. The details of
      segments 1 to 7 are read from five-column blocks and rows 58 to 62
      of the fittings table; segment 8 is fixed data plus its own fittings
      window. `None` is the failure of the summary reader. */
  method ExtraerDatosCompletos(filas: seq<seq<string>>) returns (datos: Option<DatosCompletos>)
    requires DisposicionCompleta(filas)
    ensures datos.Some? <==> forall f :: 21 <= f <= 27 ==> ResumenDeFila(filas[f]).Some?
    ensures datos.Some? ==> forall t :: t in datos.value.tramosDetalle <==> 1 <= t <= 8
    ensures datos.Some? ==>
      forall t :: 1 <= t <= 7 ==> datos.value.tramosDetalle[t] == DetalleDeTramo(filas, t)
    ensures datos.Some? ==>
      datos.value.tramosDetalle[8] == DetalleTramo8(Accesorios(Ventana(filas, 98, 104), 5))
    ensures datos.Some? ==> datos.value.parametros == ExtraerParametrosGlobales(filas)
    ensures datos.Some? ==> |datos.value.resumenTramos| == 7
    ensures datos.Some? ==>
      forall k :: 0 <= k < 7 ==> ResumenDeFila(filas[k + 21]) == Some(datos.value.resumenTramos[k])
    ensures datos.Some? ==> |datos.value.tramo8Distancias| == 7
    ensures datos.Some? ==>
      forall k :: 0 <= k < 7 ==> datos.value.tramo8Distancias[k] == SubdistanciaDeFila(filas[k + 85])
    ensures datos.Some? ==> |datos.value.perfilTerreno| == 8
    ensures datos.Some? ==>
      forall k :: 0 <= k < 8 ==> datos.value.perfilTerreno[k] == PuntoDeFila(filas[k + 1])
  {
    var perfil := ExtraerPerfilTerreno(filas);
    var parametros := ExtraerParametrosGlobales(filas);
    var resumen := ExtraerResumenTramos(filas);
    var tramo8 := ExtraerTramo8Distancias(filas);
    if resumen.None? {
      return None;
    }
    var todos := LeerTramosDetalle(filas);
    datos := Some(DatosCompletos(perfil, parametros, resumen.value, tramo8, todos));
  }
}
