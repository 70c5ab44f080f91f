// The rules of the dashboard in app.py that are not drawing: the session
// state (defaults, reset, the one-shot document preview request), the flow
// regime shown in the sidebar, the total power, the loss column of the
// fittings table and the two per-segment summary tables. The hydraulic
// quantities (area, velocity, Reynolds number, the solver's results and
// the segment catalogue) come from code that is not part of this model and
// enter as values; the kW-to-HP conversion enters as a function.

module App {
  import opened Opcion
  import opened Tramos
  import opened Cadenas
  import MapaPiezometrico

  // ---------------------------------------------------------------------------
  // Session state

  /** A value kept in the session: a number, a text, or `None`. */
  datatype Valor = Real(r: real) | Texto(s: string) | Nada

  /** Python truthiness of a session value. */
  predicate Verdadero(v: Valor) {
    match v
    case Real(x) => x != 0.0
    case Texto(s) => s != ""
    case Nada => false
  }

  /** The slider defaults, in their declared order: flow, diameter,
      roughness, density and viscosity. */
  const Defectos: seq<(string, real)> :=
    [("Q", 0.025), ("D", 0.1541), ("epsilon", 0.000046), ("rho", 998.0), ("mu", 0.0010)]

  predicate EsClaveDefecto(c: string) {
    exists i :: 0 <= i < |Defectos| && Defectos[i].0 == c
  }

  /** The default of key `c`. */
  function ValorDefecto(c: string): real
    requires EsClaveDefecto(c)
  {
    if c == "Q" then 0.025 else if c == "D" then 0.1541 else if c == "epsilon" then 0.000046
    else if c == "rho" then 998.0 else 0.0010
  }

  /** The first `k` defaults inserted where their key is absent. */
  function ConDefectosHasta(m: map<string, Valor>, k: nat): map<string, Valor>
    requires k <= |Defectos|
  {
    if k == 0 then m
    else
      var previo := ConDefectosHasta(m, k - 1);
      var (c, v) := Defectos[k - 1];
      if c in previo then previo else previo[c := Real(v)]
  }

  /** What the start-up loop leaves in the session. */
  function ConDefectos(m: map<string, Valor>): map<string, Valor> {
    ConDefectosHasta(m, |Defectos|)
  }

  /** The first `k` defaults written over whatever was there. */
  function RestablecidoHasta(m: map<string, Valor>, k: nat): map<string, Valor>
    requires k <= |Defectos|
  {
    if k == 0 then m
    else RestablecidoHasta(m, k - 1)[Defectos[k - 1].0 := Real(Defectos[k - 1].1)]
  }

  /** What `reset_defaults` leaves in the session. */
  function Restablecido(m: map<string, Valor>): map<string, Valor> {
    RestablecidoHasta(m, |Defectos|)
  }

  /** What a pass of the preview check does: when a preview is requested
      (the key is present and its value truthy) the viewer opens with the
      requested file and type, and the request is cleared. With no type
      recorded, reading it fails before the request is cleared, so the
      session is left as it was. */
  datatype Vista = SinVista | Abrir(archivo: Valor, tipo: Valor) | FaltaTipo

  function ConsumirVista(m: map<string, Valor>): (Vista, map<string, Valor>) {
    if "preview_file" in m && Verdadero(m["preview_file"]) then
      if "preview_type" in m then (Abrir(m["preview_file"], m["preview_type"]), m["preview_file" := Nada])
      else (FaltaTipo, m)
    else (SinVista, m)
  }

  /** A preview button: the file path and its type, `md` or `docx`. */
  function SolicitarVista(m: map<string, Valor>, ruta: string, tipo: string): map<string, Valor> {
    m["preview_file" := Texto(ruta)]["preview_type" := Texto(tipo)]
  }

  /** Streamlit's session state: a dictionary that lives across reruns and
      that the page updates in place. */
  class SesionEstado {
    var valores: map<string, Valor>

    constructor (inicial: map<string, Valor>)
      ensures valores == inicial
    {
      valores := inicial;
    }

    /** The start-up loop: each default is inserted only when its key is
        not there yet. */
    method Inicializar()
      modifies this
      ensures valores == ConDefectos(old(valores))
    {
      ghost var inicial := valores;
      for k := 0 to |Defectos|
        invariant valores == ConDefectosHasta(inicial, k)
      {
        var (clave, valor) := Defectos[k];
        if clave !in valores {
          valores := valores[clave := Real(valor)];
        }
      }
    }

    /** `reset_defaults`: every default written back. */
    method RestablecerDefectos()
      modifies this
      ensures valores == Restablecido(old(valores))
    {
      ghost var inicial := valores;
      for k := 0 to |Defectos|
        invariant valores == RestablecidoHasta(inicial, k)
      {
        valores := valores[Defectos[k].0 := Real(Defectos[k].1)];
      }
    }

    /** A preview button pressed. */
    method PedirVista(ruta: string, tipo: string)
      modifies this
      ensures valores == SolicitarVista(old(valores), ruta, tipo)
    {
      valores := valores["preview_file" := Texto(ruta)];
      valores := valores["preview_type" := Texto(tipo)];
    }

    /** The preview check on each run: the viewer it opens, if any, and the
        request cleared. */
    method AtenderVista() returns (vista: Vista)
      modifies this
      ensures (vista, valores) == ConsumirVista(old(valores))
    {
      vista := SinVista;
      if "preview_file" in valores && Verdadero(valores["preview_file"]) {
        if "preview_type" !in valores {
          return FaltaTipo;
        }
        vista := Abrir(valores["preview_file"], valores["preview_type"]);
        valores := valores["preview_file" := Nada];
      }
    }
  }

  /** The five default keys are distinct. */
  lemma DefectosDistintos()
    ensures forall i, j :: 0 <= i < j < |Defectos| ==> Defectos[i].0 != Defectos[j].0
  {
  }

  /** After the first `k` inserts: the keys present before keep their
      values, each of the first `k` default keys is present, holding its
      default when it was absent before, and no other key appears. */
  lemma {:induction false} ConDefectosHastaSpec(m: map<string, Valor>, k: nat)
    requires k <= |Defectos|
    ensures forall c :: c in m ==> c in ConDefectosHasta(m, k) && ConDefectosHasta(m, k)[c] == m[c]
    ensures forall i :: 0 <= i < k ==> Defectos[i].0 in ConDefectosHasta(m, k)
    ensures forall i :: 0 <= i < k && Defectos[i].0 !in m ==>
      ConDefectosHasta(m, k)[Defectos[i].0] == Real(Defectos[i].1)
    ensures forall c :: c in ConDefectosHasta(m, k) ==> c in m || exists i :: 0 <= i < k && Defectos[i].0 == c
  {
    if k > 0 {
      ConDefectosHastaSpec(m, k - 1);
      var previo := ConDefectosHasta(m, k - 1);
      var (c, v) := Defectos[k - 1];
      if c !in m {
        assert c !in previo by {
          DefectosDistintos();
        }
      }
      forall i | 0 <= i < k && Defectos[i].0 !in m
        ensures ConDefectosHasta(m, k)[Defectos[i].0] == Real(Defectos[i].1)
      {
        if i < k - 1 {
          assert Defectos[i].0 != c || c in previo;
        }
      }
      forall x | x in ConDefectosHasta(m, k)
        ensures x in m || exists i :: 0 <= i < k && Defectos[i].0 == x
      {
        if x == c {
          assert Defectos[k - 1].0 == x;
        }
      }
    }
  }

  /** Session start-up inserts a default only for the keys that are
      absent: every key already there keeps its value, every default key is
      then present, the absent ones hold their default, and nothing else is
      added. */
  lemma ConDefectosSpec(m: map<string, Valor>)
    ensures forall c :: c in m ==> c in ConDefectos(m) && ConDefectos(m)[c] == m[c]
    ensures forall c :: EsClaveDefecto(c) ==> c in ConDefectos(m)
    ensures forall c :: EsClaveDefecto(c) && c !in m ==> ConDefectos(m)[c] == Real(ValorDefecto(c))
    ensures forall c :: c in ConDefectos(m) <==> c in m || EsClaveDefecto(c)
  {
    ConDefectosHastaSpec(m, |Defectos|);
  }

  /** A second start-up changes nothing. */
  lemma ConDefectosIdempotente(m: map<string, Valor>)
    ensures ConDefectos(ConDefectos(m)) == ConDefectos(m)
  {
    var a := ConDefectos(m);
    ConDefectosSpec(m);
    ConDefectosSpec(a);
    assert forall c :: c in ConDefectos(a) <==> c in a;
  }

  /** After the first `k` writes: those keys hold their defaults and every
      other key is as before. */
  lemma {:induction false} RestablecidoHastaSpec(m: map<string, Valor>, k: nat)
    requires k <= |Defectos|
    ensures forall i :: 0 <= i < k ==>
      Defectos[i].0 in RestablecidoHasta(m, k) && RestablecidoHasta(m, k)[Defectos[i].0] == Real(Defectos[i].1)
    ensures forall c :: c in RestablecidoHasta(m, k) <==>
      c in m || exists i :: 0 <= i < k && Defectos[i].0 == c
    ensures forall c :: c in m && (forall i :: 0 <= i < k ==> Defectos[i].0 != c) ==>
      RestablecidoHasta(m, k)[c] == m[c]
  {
    if k > 0 {
      RestablecidoHastaSpec(m, k - 1);
      var r := RestablecidoHasta(m, k);
      forall c | c in r ensures c in m || exists i :: 0 <= i < k && Defectos[i].0 == c {
        if c == Defectos[k - 1].0 {
          assert Defectos[k - 1].0 == c;
        }
      }
    }
  }

  /** `reset_defaults` puts all five keys back to their defaults and
      leaves every other key as it was. */
  lemma RestablecidoSpec(m: map<string, Valor>)
    ensures forall c :: EsClaveDefecto(c) ==> c in Restablecido(m) && Restablecido(m)[c] == Real(ValorDefecto(c))
    ensures forall c :: c in Restablecido(m) <==> c in m || EsClaveDefecto(c)
    ensures forall c :: c in m && !EsClaveDefecto(c) ==> Restablecido(m)[c] == m[c]
  {
    RestablecidoHastaSpec(m, |Defectos|);
  }

  /** Start-up after a reset changes nothing. */
  lemma ConDefectosTrasRestablecer(m: map<string, Valor>)
    ensures ConDefectos(Restablecido(m)) == Restablecido(m)
  {
    var r := Restablecido(m);
    RestablecidoSpec(m);
    ConDefectosSpec(r);
    assert forall c :: c in ConDefectos(r) <==> c in r;
  }

  /** A preview request with its type is served once: the check clears
      it, so the next check opens nothing. A request without a type fails
      and stays, so it fails again on the next run. No other key ever
      changes. */
  lemma VistaUnaVez(m: map<string, Valor>)
    ensures "preview_type" in m ==> ConsumirVista(ConsumirVista(m).1).0 == SinVista
    ensures ConsumirVista(m).0 == FaltaTipo ==> ConsumirVista(m).1 == m
    ensures forall c :: c != "preview_file" ==>
      (c in ConsumirVista(m).1 <==> c in m) && (c in m ==> ConsumirVista(m).1[c] == m[c])
  {
  }

  /** A button press with a non-empty path opens exactly that file with
      its type at the next check. */
  lemma PedirYAtender(m: map<string, Valor>, ruta: string, tipo: string)
    requires ruta != ""
    ensures ConsumirVista(SolicitarVista(m, ruta, tipo)).0 == Abrir(Texto(ruta), Texto(tipo))
  {
  }

  // ---------------------------------------------------------------------------
  // Flow regime

  datatype Regimen = Laminar | Transicion | Turbulento

  /** The regime of a Reynolds number: turbulent above 4000, transitional
      above 2300, laminar otherwise. */
  function RegimenDe(re: real): (g: Regimen)
    ensures g == Turbulento <==> re > 4000.0
    ensures g == Transicion <==> 2300.0 < re <= 4000.0
    ensures g == Laminar <==> re <= 2300.0
  {
    if re > 4000.0 then Turbulento else if re > 2300.0 then Transicion else Laminar
  }

  function Orden(g: Regimen): nat {
    match g
    case Laminar => 0
    case Transicion => 1
    case Turbulento => 2
  }

  /** A larger Reynolds number never gives a calmer regime. */
  lemma RegimenMonotono(a: real, b: real)
    requires a <= b
    ensures Orden(RegimenDe(a)) <= Orden(RegimenDe(b))
  {
  }

  // ---------------------------------------------------------------------------
  // Total power

  /** The solver's result holds segments 1 to 8 and no other key. */
  ghost predicate ClavesDeTramos(resultados: map<int, Resultado>) {
    forall t :: t in resultados <==> 1 <= t <= 8
  }

  /** The kW of segments 1 to `n`. */
  function SumaKw(resultados: map<int, Resultado>, n: nat): real
    requires n <= 8 && ResultadosCompletos(resultados)
  {
    if n == 0 then 0.0 else SumaKw(resultados, n - 1) + resultados[n].potenciaKw
  }

  function SumaSeq(xs: seq<real>): real {
    if xs == [] then 0.0 else SumaSeq(xs[..|xs| - 1]) + xs[|xs| - 1]
  }

  /** The total of the power over every result of the solver. */
  function PotenciaTotalKw(resultados: map<int, Resultado>): real
    requires ClavesDeTramos(resultados)
  {
    SumaKw(resultados, 8)
  }

  /** The total in HP: the conversion of the kW total when it is positive,
      and 0 otherwise. */
  function PotenciaTotalHp(totalKw: real, kwAHp: real -> real): (hp: real)
    ensures totalKw <= 0.0 ==> hp == 0.0
    ensures totalKw > 0.0 ==> hp == kwAHp(totalKw)
  {
    if totalKw > 0.0 then kwAHp(totalKw) else 0.0
  }

  lemma {:induction false} SumaKwComoBarras(resultados: map<int, Resultado>, n: nat)
    requires n <= 8 && ResultadosCompletos(resultados)
    ensures SumaKw(resultados, n) == SumaSeq(MapaPiezometrico.PotenciasKw(resultados)[..n])
  {
    var kw := MapaPiezometrico.PotenciasKw(resultados);
    if n > 0 {
      SumaKwComoBarras(resultados, n - 1);
      assert kw[..n][..n - 1] == kw[..n - 1];
    }
  }

  /** The total is exactly the sum of the eight bars of the power chart:
      nothing counted twice, nothing left out. */
  lemma PotenciaTotalEsSumaDeBarras(resultados: map<int, Resultado>)
    requires ClavesDeTramos(resultados)
    ensures PotenciaTotalKw(resultados) == SumaSeq(MapaPiezometrico.PotenciasKw(resultados))
  {
    SumaKwComoBarras(resultados, 8);
    assert MapaPiezometrico.PotenciasKw(resultados)[..8] == MapaPiezometrico.PotenciasKw(resultados);
  }

  /** With no negative power, the total is at least the power of any one
      segment, and it is 0 exactly when every segment draws none. */
  lemma {:induction false} SumaKwCota(resultados: map<int, Resultado>, n: nat)
    requires n <= 8 && ResultadosCompletos(resultados)
    requires forall t :: 1 <= t <= 8 ==> resultados[t].potenciaKw >= 0.0
    ensures forall t :: 1 <= t <= n ==> SumaKw(resultados, n) >= resultados[t].potenciaKw
    ensures SumaKw(resultados, n) == 0.0 <==> forall t :: 1 <= t <= n ==> resultados[t].potenciaKw == 0.0
  {
    if n > 0 {
      SumaKwCota(resultados, n - 1);
    }
  }

  /** When no segment is pumped with power, the HP total is 0. */
  lemma SinPotenciaSinHp(resultados: map<int, Resultado>, kwAHp: real -> real)
    requires ClavesDeTramos(resultados)
    requires forall t :: 1 <= t <= 8 ==> resultados[t].potenciaKw == 0.0
    ensures PotenciaTotalHp(PotenciaTotalKw(resultados), kwAHp) == 0.0
  {
    SumaKwCota(resultados, 8);
  }

  // ---------------------------------------------------------------------------
  // The loss column of the fittings table

  /** Σ quantity × K over the fittings. */
  function SumaK(accesorios: seq<Accesorio>): real {
    if accesorios == [] then 0.0
    else
      var n := |accesorios| - 1;
      SumaK(accesorios[..n]) + accesorios[n].cantidad * accesorios[n].k
  }

  /** Each fitting's quantity × K × hv, in order. */
  function Perdidas(accesorios: seq<Accesorio>, hv: real): (col: seq<real>)
    ensures |col| == |accesorios|
    ensures forall k :: 0 <= k < |accesorios| ==> col[k] == accesorios[k].cantidad * accesorios[k].k * hv
  {
    seq(|accesorios|, k requires 0 <= k < |accesorios| => accesorios[k].cantidad * accesorios[k].k * hv)
  }

  /** The loss column of a fittings table; an empty list gives no
      table. */
  function ColumnaPerdidas(accesorios: seq<Accesorio>, hv: real): (col: Option<seq<real>>)
    ensures col.None? <==> accesorios == []
    ensures col.Some? ==> col.value == Perdidas(accesorios, hv)
  {
    if accesorios == [] then None else Some(Perdidas(accesorios, hv))
  }

  lemma {:induction false} SumaPerdidas(accesorios: seq<Accesorio>, hv: real)
    ensures SumaSeq(Perdidas(accesorios, hv)) == SumaK(accesorios) * hv
  {
    if accesorios != [] {
      var n := |accesorios| - 1;
      var col := Perdidas(accesorios, hv);
      var previa := Perdidas(accesorios[..n], hv);
      SumaPerdidas(accesorios[..n], hv);
      assert forall k :: 0 <= k < n ==> col[..n][k] == previa[k];
      assert col[..n] == previa;
    }
  }

  /** The column adds up to the segment's minor loss Σ(K·n)·hv. */
  lemma ColumnaPerdidasSuma(accesorios: seq<Accesorio>, hv: real)
    requires accesorios != []
    ensures SumaSeq(ColumnaPerdidas(accesorios, hv).value) == SumaK(accesorios) * hv
  {
    SumaPerdidas(accesorios, hv);
  }

  // ---------------------------------------------------------------------------
  // The summary tables

  predicate EsLetra(c: char) {
    ('a' <= c <= 'z') || ('A' <= c <= 'Z')
  }

  /** The upper-case form of an ASCII letter; anything else unchanged. */
  function Mayuscula(c: char): (d: char)
    ensures EsLetra(c) ==> 'A' <= d <= 'Z'
    ensures !('a' <= c <= 'z') ==> d == c
  {
    if 'a' <= c <= 'z' then (c as int - 32) as char else c
  }

  /** The lower-case form of an ASCII letter; anything else unchanged. */
  function Minuscula(c: char): (d: char)
    ensures EsLetra(c) ==> 'a' <= d <= 'z'
    ensures !('A' <= c <= 'Z') ==> d == c
  {
    if 'A' <= c <= 'Z' then (c as int + 32) as char else c
  }

  /** `str.title()` on ASCII text: a letter after a non-letter is upper
      case, any other letter lower case. `previaLetra` says whether a
      letter came just before `s`. */
  function Titular(s: string, previaLetra: bool): (r: string)
    ensures |r| == |s|
  {
    if s == [] then []
    else
      var c := s[0];
      var d := if !EsLetra(c) then c else if previaLetra then Minuscula(c) else Mayuscula(c);
      [d] + Titular(s[1..], EsLetra(c))
  }

  /** The type as the table shows it: underscores as spaces, title case. */
  function TipoLegible(tipo: string): string {
    Titular(ReplaceChar(tipo, '_', ' '), false)
  }

  /** Whether position `k` of `s` starts a word: its predecessor (or, at
      the first position, what came before `s`) is not a letter. */
  predicate InicioDePalabra(s: string, previa: bool, k: nat)
    requires k < |s|
  {
    if k == 0 then !previa else !EsLetra(s[k - 1])
  }

  /** The title-case rule: every character that is not a letter is kept;
      a letter that starts a word is upper-cased and any other letter is
      lower-cased. */
  lemma {:induction false} TitularConserva(s: string, previa: bool)
    ensures forall k :: 0 <= k < |s| && !EsLetra(s[k]) ==> Titular(s, previa)[k] == s[k]
    ensures forall k :: 0 <= k < |s| && EsLetra(s[k]) && InicioDePalabra(s, previa, k) ==>
      Titular(s, previa)[k] == Mayuscula(s[k])
    ensures forall k :: 0 <= k < |s| && EsLetra(s[k]) && !InicioDePalabra(s, previa, k) ==>
      Titular(s, previa)[k] == Minuscula(s[k])
  {
    if s != [] {
      var resto := s[1..];
      var p := EsLetra(s[0]);
      TitularConserva(resto, p);
      assert forall k :: 1 <= k < |s| ==> Titular(s, previa)[k] == Titular(resto, p)[k - 1];
      assert forall k :: 1 <= k < |s| ==> InicioDePalabra(s, previa, k) == InicioDePalabra(resto, p, k - 1);
    }
  }

  /** A row of the segment summary. */
  datatype FilaTramo = FilaTramo(
    tramo: int, distancia: real, altura: real, pendiente: real,
    longitudTuberia: real, tipo: string, potenciaKw: real)

  /** The segment summary of the terrain tab: segments 1 to 8, in order. */
  method TablaTramos(definiciones: map<int, Definicion>, resultados: map<int, Resultado>)
    returns (tabla: seq<FilaTramo>)
    requires DefinicionesCompletas(definiciones) && ResultadosCompletos(resultados)
    ensures |tabla| == 8
    ensures forall k :: 0 <= k < 8 ==>
      var d := definiciones[k + 1];
      tabla[k] == FilaTramo(k + 1, d.distancia, d.altura, d.pendiente, d.longitudTuberia,
                            TipoLegible(d.tipo), resultados[k + 1].potenciaKw)
  {
    tabla := [];
    for i := 1 to 9
      invariant |tabla| == i - 1
      invariant forall k :: 0 <= k < i - 1 ==>
        var d := definiciones[k + 1];
        tabla[k] == FilaTramo(k + 1, d.distancia, d.altura, d.pendiente, d.longitudTuberia,
                              TipoLegible(d.tipo), resultados[k + 1].potenciaKw)
    {
      var d := definiciones[i];
      var r := resultados[i];
      tabla := tabla + [FilaTramo(i, d.distancia, d.altura, d.pendiente, d.longitudTuberia,
                                  TipoLegible(d.tipo), r.potenciaKw)];
    }
  }

  /** A row of the general results table. */
  datatype FilaResultado = FilaResultado(
    tramo: int, velocidad: real, reynolds: real, fColebrook: real,
    hf: real, hm: real, cargaTotal: real)

  /** The general results table of the data tab: segments 1 to 8, in
      order. */
  method TablaCompleta(resultados: map<int, Resultado>) returns (tabla: seq<FilaResultado>)
    requires ResultadosCompletos(resultados)
    ensures |tabla| == 8
    ensures forall k :: 0 <= k < 8 ==>
      var r := resultados[k + 1];
      tabla[k] == FilaResultado(k + 1, r.velocidad, r.reynolds, r.fColebrook,
                                r.perdidasFriccion, r.perdidasMenores, r.cargaTotal)
  {
    tabla := [];
    for i := 1 to 9
      invariant |tabla| == i - 1
      invariant forall k :: 0 <= k < i - 1 ==>
        var r := resultados[k + 1];
        tabla[k] == FilaResultado(k + 1, r.velocidad, r.reynolds, r.fColebrook,
                                  r.perdidasFriccion, r.perdidasMenores, r.cargaTotal)
    {
      var r := resultados[i];
      tabla := tabla + [FilaResultado(i, r.velocidad, r.reynolds, r.fColebrook,
                                      r.perdidasFriccion, r.perdidasMenores, r.cargaTotal)];
    }
  }
}
