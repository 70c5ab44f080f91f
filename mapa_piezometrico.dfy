// The value lists behind the charts of visualizaciones/mapa_piezometrico.py:
// the piezometric polyline (energy line, hydraulic grade line and pressure
// along the pipeline), the loss breakdown per segment, the power bars and
// the chained terrain profile. Plotly styling is not modelled; each chart is
// represented by the lists it is drawn from.

module MapaPiezometrico {
  import opened Opcion
  import opened Tramos

  function Abs(x: real): real {
    if x < 0.0 then -x else x
  }

  // ---------------------------------------------------------------------------
  // The polyline of `crear_mapa_piezometrico`

  /** The label of a point. Station numbers are shown (1-based) only for
      segments with more than one station. */
  datatype Etiqueta =
    | Captacion                                       // the origin, at the river intake
    | SinEtiqueta                                     // sub-points 1 to 4 of a station
    | FinEstacion(tramo: int, estacion: Option<nat>)  // sub-point 5 of a station
    | Tanque(tramo: int, estacion: Option<nat>)       // the point a tank adds

  /** A pump marker: where it is, the energy just before and just after it,
      and the head and power its label shows. */
  datatype MarcaBomba = MarcaBomba(
    x: real, antes: real, despues: real,
    tramo: int, estacion: Option<nat>, carga: real, potenciaKw: real)

  /** A marker at the end of a descending station: a pressure-break tank and
      the head it dissipates, or the head left for gravity flow. */
  datatype MarcaValvula =
    | TanqueRompePresion(x: real, y: real, tramo: int, estacion: Option<nat>, disipa: real)
    | Gravedad(x: real, y: real, tramo: int, cabezaDisponible: real)

  /** The six parallel point lists, the marker lists and the three
      accumulators (distance, terrain elevation, energy) of the walk. */
  datatype Estado = Estado(
    dist: seq<real>, elev: seq<real>, egl: seq<real>, hgl: seq<real>,
    presion: seq<real>, etiquetas: seq<Etiqueta>,
    bombas: seq<MarcaBomba>, valvulas: seq<MarcaValvula>,
    distAcum: real, elevAcum: real, energia: real)

  /** One origin point at 0 and everything else empty or zero. */
  const Inicial: Estado :=
    Estado([0.0], [0.0], [0.0], [0.0], [0.0], [Captacion], [], [], 0.0, 0.0, 0.0)

  /** What the walk uses of one segment. */
  datatype ParamTramo = ParamTramo(
    num: int, n: nat, distSub: real, zEst: real, hf: real, hm: real,
    bajada: bool, carga: real, potenciaKw: real, tanque: bool)

  /** The length and the elevation per station are the segment's distance
      and height split evenly over its stations (the elevation is the whole
      height when there are none, and then no station uses either); a
      segment whose catalogue entry does not mention a tank has one. */
  function ParametrosDe(num: int, r: Resultado, d: Definicion): (p: ParamTramo)
    ensures p.n == r.numEstaciones && p.bajada == r.esBajada
    ensures p.n > 0 ==> p.n as real * p.zEst == d.altura
    ensures p.n > 0 ==> p.n as real * p.distSub == d.distancia
    ensures d.tanqueRompePresion.None? ==> p.tanque
  {
    ParamTramo(num, r.numEstaciones,
      if r.numEstaciones > 0 then d.distancia / r.numEstaciones as real else d.distancia,
      if r.numEstaciones > 0 then d.altura / r.numEstaciones as real else d.altura,
      r.perdidasFriccion, r.perdidasMenores, r.esBajada, r.cargaEstacion,
      r.potenciaKw, d.tanqueRompePresion.GetOr(true))
  }

  function NumeroEstacion(p: ParamTramo, est: nat): Option<nat> {
    if p.n > 1 then Some(est + 1) else None
  }

  /** Appends one point at the current energy: the hydraulic grade is the
      energy less the velocity head, the pressure that less the terrain. */
  function Punto(e: Estado, x: real, elev: real, hv: real, et: Etiqueta): Estado {
    e.(dist := e.dist + [x], elev := e.elev + [elev], egl := e.egl + [e.energia],
       hgl := e.hgl + [e.energia - hv], presion := e.presion + [e.energia - hv - elev],
       etiquetas := e.etiquetas + [et])
  }

  /** The number of points each station is drawn with. */
  const PuntosSub: nat := 5

  /** Sub-point `j` (1 to 5) of a station: a fifth of the station's length
      and height further on, a fifth of its friction loss lower, and its
      whole minor loss lower too when `j` is 1. */
  function SubPunto(e: Estado, p: ParamTramo, hv: real, est: nat, j: nat): Estado
    requires p.n > 0 && 1 <= j <= PuntosSub
  {
    var frac := j as real / PuntosSub as real;
    var e1 := e.(energia := e.energia - (p.hf / PuntosSub as real + (if j == 1 then p.hm else 0.0)));
    Punto(e1, e.distAcum + p.distSub * frac, e.elevAcum + p.zEst * frac, hv,
      if j == PuntosSub then FinEstacion(p.num, NumeroEstacion(p, est)) else SinEtiqueta)
  }

  /** The first `j` sub-points of a station. */
  function SubPuntos(e: Estado, p: ParamTramo, hv: real, est: nat, j: nat): Estado
    requires p.n > 0 && j <= PuntosSub
  {
    if j == 0 then e else SubPunto(SubPuntos(e, p, hv, est, j - 1), p, hv, est, j)
  }

  /** The pump at the head of a non-descending station. */
  function Bombear(e: Estado, p: ParamTramo, est: nat): Estado {
    e.(bombas := e.bombas + [MarcaBomba(e.distAcum, e.energia, e.energia + p.carga,
                                        p.num, NumeroEstacion(p, est), p.carga, p.potenciaKw)],
       energia := e.energia + p.carga)
  }

  /** A pressure-break tank: the energy drops to the terrain plus the
      velocity head, and a point is added when the drop is noticeable. */
  function Romper(e: Estado, p: ParamTramo, hv: real, est: nat): Estado {
    var perdida := e.energia - (e.elevAcum + hv);
    var e1 := e.(valvulas := e.valvulas + [TanqueRompePresion(e.distAcum, e.energia, p.num,
                                                              NumeroEstacion(p, est), perdida)],
                 energia := e.energia - perdida);
    if Abs(perdida) > 0.01 then Punto(e1, e1.distAcum, e1.elevAcum, hv, Tanque(p.num, NumeroEstacion(p, est)))
    else e1
  }

  /** The end of a descending station without a tank: a marker with the
      head left over the terrain. */
  function Derivar(e: Estado, p: ParamTramo, hv: real): Estado {
    e.(valvulas := e.valvulas + [Gravedad(e.distAcum, e.energia, p.num, e.energia - hv - e.elevAcum)])
  }

  /** Station `est` of a segment: its pump, its five sub-points, the
      accumulators moved to its end, then its tank or gravity marker. */
  function Estacion(e: Estado, p: ParamTramo, hv: real, est: nat): Estado
    requires p.n > 0
  {
    var e1 := if p.bajada then e else Bombear(e, p, est);
    var e2 := SubPuntos(e1, p, hv, est, PuntosSub);
    var e3 := e2.(elevAcum := e2.elevAcum + p.zEst, distAcum := e2.distAcum + p.distSub);
    if !p.bajada then e3
    else if p.tanque then Romper(e3, p, hv, est)
    else Derivar(e3, p, hv)
  }

  /** The first `k` stations of a segment. */
  function Estaciones(e: Estado, p: ParamTramo, hv: real, k: nat): Estado
    requires k <= p.n
  {
    if k == 0 then e else Estacion(Estaciones(e, p, hv, k - 1), p, hv, k - 1)
  }

  /** The walk over segments 1 to `t`. */
  function Recorrido(resultados: map<int, Resultado>, definiciones: map<int, Definicion>,
                     hv: real, t: nat): Estado
    requires t <= 8 && ResultadosCompletos(resultados) && DefinicionesCompletas(definiciones)
  {
    if t == 0 then Inicial
    else
      var p := ParametrosDe(t, resultados[t], definiciones[t]);
      Estaciones(Recorrido(resultados, definiciones, hv, t - 1), p, hv, p.n)
  }

  /** The whole map; the velocity head is segment 1's throughout. */
  function Mapa(resultados: map<int, Resultado>, definiciones: map<int, Definicion>): Estado
    requires ResultadosCompletos(resultados) && DefinicionesCompletas(definiciones)
  {
    Recorrido(resultados, definiciones, resultados[1].cargaCinetica, 8)
  }

  /** The invariant of the polyline: six lists of one length, starting at
      the origin, and after it hydraulic grade = energy − hv and pressure =
      energy − hv − terrain at every point. */
  predicate Coherente(e: Estado, hv: real) {
    && |e.elev| == |e.dist| && |e.egl| == |e.dist| && |e.hgl| == |e.dist|
    && |e.presion| == |e.dist| && |e.etiquetas| == |e.dist|
    && 1 <= |e.dist|
    && e.dist[0] == 0.0 && e.elev[0] == 0.0 && e.egl[0] == 0.0 && e.hgl[0] == 0.0
    && e.presion[0] == 0.0 && e.etiquetas[0] == Captacion
    && (forall i :: 1 <= i < |e.dist| ==> e.hgl[i] == e.egl[i] - hv)
    && (forall i :: 1 <= i < |e.dist| ==> e.presion[i] == e.egl[i] - hv - e.elev[i])
  }

  /** `crear_mapa_piezometrico` without the drawing: the point lists and the
      markers, built segment by segment and station by station. */
  method CrearMapaPiezometrico(resultados: map<int, Resultado>, definiciones: map<int, Definicion>)
    returns (m: Estado)
    requires ResultadosCompletos(resultados) && DefinicionesCompletas(definiciones)
    ensures m == Mapa(resultados, definiciones)
    ensures Coherente(m, resultados[1].cargaCinetica)
  {
    var hv := resultados[1].cargaCinetica;
    m := Inicial;
    for numTramo := 1 to 9
      invariant m == Recorrido(resultados, definiciones, hv, numTramo - 1)
    {
      var distTramo := if numTramo > 7 then definiciones[8].distancia else definiciones[numTramo].distancia;
      m := RecorrerTramo(m, hv, numTramo, resultados[numTramo], definiciones[numTramo], distTramo);
    }
    MapaCoherente(resultados, definiciones);
  }

  /** The station loop of one segment. */
  method RecorrerTramo(m0: Estado, hv: real, numTramo: int, r: Resultado, d: Definicion, distTramo: real)
    returns (m: Estado)
    requires distTramo == d.distancia
    ensures m == Estaciones(m0, ParametrosDe(numTramo, r, d), hv, r.numEstaciones)
  {
    var n := r.numEstaciones;
    var zTotal := d.altura;
    var zEst := if n > 0 then zTotal / n as real else zTotal;
    ghost var p := ParametrosDe(numTramo, r, d);
    m := m0;
    for est := 0 to n
      invariant m == Estaciones(m0, p, hv, est)
    {
      m := RecorrerEstacion(m, p, hv, numTramo, est, r, d, distTramo, zEst);
    }
  }

  /** One pass of the station loop of `crear_mapa_piezometrico`. */
  method RecorrerEstacion(m0: Estado, ghost p: ParamTramo, hv: real, numTramo: int, est: nat,
                          r: Resultado, d: Definicion, distTramo: real, zEst: real)
    returns (m: Estado)
    requires p == ParametrosDe(numTramo, r, d) && est < p.n
    requires distTramo == d.distancia && zEst == p.zEst
    ensures m == Estacion(m0, p, hv, est)
  {
    m := m0;
    var n := r.numEstaciones;
    var xInicio := m.distAcum;
    var numEst := if n > 1 then Some(est + 1) else None;
    if !r.esBajada {
      var hBomba := r.cargaEstacion;
      var antes := m.energia;
      m := m.(energia := m.energia + hBomba);
      m := m.(bombas := m.bombas + [MarcaBomba(xInicio, antes, m.energia, numTramo,
                                               numEst, hBomba, r.potenciaKw)]);
    }
    var distSub := distTramo / n as real;
    m := TrazarSubPuntos(m, p, hv, numTramo, est, r, distSub, zEst);
    m := m.(elevAcum := m.elevAcum + zEst, distAcum := m.distAcum + distSub);
    if r.esBajada {
      var tieneTanque := d.tanqueRompePresion.GetOr(true);
      if tieneTanque {
        var eglMeta := m.elevAcum + hv;
        var perdida := m.energia - eglMeta;
        m := m.(valvulas := m.valvulas + [TanqueRompePresion(m.distAcum, m.energia, numTramo,
                                                             numEst, perdida)]);
        m := m.(energia := m.energia - perdida);
        if Abs(perdida) > 0.01 {
          m := m.(dist := m.dist + [m.distAcum], elev := m.elev + [m.elevAcum], egl := m.egl + [m.energia],
                  hgl := m.hgl + [m.energia - hv], presion := m.presion + [m.energia - hv - m.elevAcum],
                  etiquetas := m.etiquetas + [Tanque(numTramo, numEst)]);
        }
      } else {
        var presionLocal := m.energia - hv - m.elevAcum;
        m := m.(valvulas := m.valvulas + [Gravedad(m.distAcum, m.energia, numTramo, presionLocal)]);
      }
    }
  }

  /** The sub-point loop of one station: five points along it, the energy
      falling by a fifth of the friction loss at each and by the whole
      minor loss at the first. */
  method TrazarSubPuntos(m0: Estado, ghost p: ParamTramo, hv: real, numTramo: int, est: nat,
                         r: Resultado, distSub: real, zEst: real)
    returns (m: Estado)
    requires p.n > 0 && p.num == numTramo && p.n == r.numEstaciones
    requires p.hf == r.perdidasFriccion && p.hm == r.perdidasMenores
    requires distSub == p.distSub && zEst == p.zEst
    ensures m == SubPuntos(m0, p, hv, est, PuntosSub)
  {
    m := m0;
    var xInicio := m.distAcum;
    var numEst := if r.numEstaciones > 1 then Some(est + 1) else None;
    for j := 1 to PuntosSub + 1
      invariant m == SubPuntos(m0, p, hv, est, j - 1)
      invariant m.distAcum == xInicio
    {
      m := PasoSubPunto(m, p, hv, numTramo, est, r, distSub, zEst, xInicio, numEst, j);
    }
  }

  /** One pass of the sub-point loop: the energy lowered, then one point
      appended at `j` fifths of the station. */
  method PasoSubPunto(m0: Estado, ghost p: ParamTramo, hv: real, numTramo: int, est: nat,
                      r: Resultado, distSub: real, zEst: real, xInicio: real, numEst: Option<nat>, j: nat)
    returns (m: Estado)
    requires p.n > 0 && 1 <= j <= PuntosSub && p.num == numTramo && p.n == r.numEstaciones
    requires p.hf == r.perdidasFriccion && p.hm == r.perdidasMenores
    requires distSub == p.distSub && zEst == p.zEst
    requires xInicio == m0.distAcum && numEst == NumeroEstacion(p, est)
    ensures m == SubPunto(m0, p, hv, est, j)
    ensures m.distAcum == m0.distAcum
  {
    var frac := j as real / PuntosSub as real;
    var xActual := xInicio + distSub * frac;
    var elevActual := m0.elevAcum + zEst * frac;
    var etiqueta := if j == PuntosSub then FinEstacion(numTramo, numEst) else SinEtiqueta;
    var e1 := m0.(energia := m0.energia - (r.perdidasFriccion / PuntosSub as real + (if j == 1 then r.perdidasMenores else 0.0)));
    assert e1 == m0.(energia := m0.energia - (p.hf / PuntosSub as real + (if j == 1 then p.hm else 0.0)));
    assert etiqueta == (if j == PuntosSub then FinEstacion(p.num, NumeroEstacion(p, est)) else SinEtiqueta);
    assert xActual == m0.distAcum + p.distSub * frac && elevActual == m0.elevAcum + p.zEst * frac;
    m := Punto(e1, xActual, elevActual, hv, etiqueta);
  }

  // ---------------------------------------------------------------------------
  // The invariant is kept by every step

  lemma PuntoCoherente(e: Estado, x: real, elev: real, hv: real, et: Etiqueta)
    requires Coherente(e, hv)
    ensures Coherente(Punto(e, x, elev, hv, et), hv)
  {
    var e' := Punto(e, x, elev, hv, et);
    forall i | 1 <= i < |e'.dist|
      ensures e'.hgl[i] == e'.egl[i] - hv && e'.presion[i] == e'.egl[i] - hv - e'.elev[i]
    {
      if i < |e.dist| {
        assert e'.hgl[i] == e.hgl[i] && e'.egl[i] == e.egl[i];
        assert e'.presion[i] == e.presion[i] && e'.elev[i] == e.elev[i];
      }
    }
  }

  lemma {:induction false} SubPuntosCoherente(e: Estado, p: ParamTramo, hv: real, est: nat, j: nat)
    requires p.n > 0 && j <= PuntosSub && Coherente(e, hv)
    ensures Coherente(SubPuntos(e, p, hv, est, j), hv)
  {
    if j > 0 {
      SubPuntosCoherente(e, p, hv, est, j - 1);
      SubPuntoCoherente(SubPuntos(e, p, hv, est, j - 1), p, hv, est, j);
    }
  }

  lemma SubPuntoCoherente(a: Estado, p: ParamTramo, hv: real, est: nat, j: nat)
    requires p.n > 0 && 1 <= j <= PuntosSub && Coherente(a, hv)
    ensures Coherente(SubPunto(a, p, hv, est, j), hv)
  {
    var frac := j as real / 5.0;
    var a1 := a.(energia := a.energia - (p.hf / 5.0 + (if j == 1 then p.hm else 0.0)));
    PuntoCoherente(a1, a.distAcum + p.distSub * frac, a.elevAcum + p.zEst * frac, hv,
      if j == 5 then FinEstacion(p.num, NumeroEstacion(p, est)) else SinEtiqueta);
  }

  lemma EstacionCoherente(e: Estado, p: ParamTramo, hv: real, est: nat)
    requires p.n > 0 && Coherente(e, hv)
    ensures Coherente(Estacion(e, p, hv, est), hv)
  {
    var e1 := if p.bajada then e else Bombear(e, p, est);
    SubPuntosCoherente(e1, p, hv, est, PuntosSub);
    var e2 := SubPuntos(e1, p, hv, est, PuntosSub);
    var e3 := e2.(elevAcum := e2.elevAcum + p.zEst, distAcum := e2.distAcum + p.distSub);
    if p.bajada && p.tanque {
      var perdida := e3.energia - (e3.elevAcum + hv);
      var e4 := e3.(valvulas := e3.valvulas + [TanqueRompePresion(e3.distAcum, e3.energia, p.num,
                                                                  NumeroEstacion(p, est), perdida)],
                    energia := e3.energia - perdida);
      if Abs(perdida) > 0.01 {
        PuntoCoherente(e4, e4.distAcum, e4.elevAcum, hv, Tanque(p.num, NumeroEstacion(p, est)));
      }
    }
  }

  lemma {:induction false} EstacionesCoherente(e: Estado, p: ParamTramo, hv: real, k: nat)
    requires k <= p.n && Coherente(e, hv)
    ensures Coherente(Estaciones(e, p, hv, k), hv)
  {
    if k > 0 {
      EstacionesCoherente(e, p, hv, k - 1);
      EstacionCoherente(Estaciones(e, p, hv, k - 1), p, hv, k - 1);
    }
  }

  lemma {:induction false} RecorridoCoherente(resultados: map<int, Resultado>,
                                             definiciones: map<int, Definicion>, hv: real, t: nat)
    requires t <= 8 && ResultadosCompletos(resultados) && DefinicionesCompletas(definiciones)
    ensures Coherente(Recorrido(resultados, definiciones, hv, t), hv)
  {
    if t > 0 {
      RecorridoCoherente(resultados, definiciones, hv, t - 1);
      var p := ParametrosDe(t, resultados[t], definiciones[t]);
      EstacionesCoherente(Recorrido(resultados, definiciones, hv, t - 1), p, hv, p.n);
    }
  }

  /** The six lists of the map have one length, start with the origin at
      0, and keep hydraulic grade = energy − hv and pressure = energy − hv −
      terrain at every later point, hv being segment 1's velocity head. */
  lemma MapaCoherente(resultados: map<int, Resultado>, definiciones: map<int, Definicion>)
    requires ResultadosCompletos(resultados) && DefinicionesCompletas(definiciones)
    ensures Coherente(Mapa(resultados, definiciones), resultados[1].cargaCinetica)
  {
    RecorridoCoherente(resultados, definiciones, resultados[1].cargaCinetica, 8);
  }

  // ---------------------------------------------------------------------------
  // One station: its points, its pump and its energy

  /** One sub-point: one more point at the lowered energy, and nothing
      else of the walk moves. */
  lemma SubPuntoPaso(e: Estado, p: ParamTramo, hv: real, est: nat, j: nat)
    requires p.n > 0 && 1 <= j <= PuntosSub
    ensures var s := SubPunto(e, p, hv, est, j);
      && s.energia == e.energia - (p.hf / 5.0 + (if j == 1 then p.hm else 0.0))
      && s.dist == e.dist + [s.dist[|s.dist| - 1]] && s.egl == e.egl + [s.energia]
      && s.distAcum == e.distAcum && s.elevAcum == e.elevAcum
      && s.bombas == e.bombas && s.valvulas == e.valvulas
  {
  }

  /** After `j` sub-points: `j` more points, the accumulators and markers
      untouched, and the energy down by `j` fifths of the friction loss and,
      once `j` ≥ 1, by the whole minor loss. */
  lemma {:induction false} SubPuntosMarco(e: Estado, p: ParamTramo, hv: real, est: nat, j: nat)
    requires p.n > 0 && j <= PuntosSub
    ensures var s := SubPuntos(e, p, hv, est, j);
      && |s.dist| == |e.dist| + j && |s.egl| == |e.egl| + j
      && s.distAcum == e.distAcum && s.elevAcum == e.elevAcum
      && s.bombas == e.bombas && s.valvulas == e.valvulas
      && s.energia == e.energia - (j as real * p.hf / 5.0 + (if j >= 1 then p.hm else 0.0))
  {
    if j > 0 {
      SubPuntosMarco(e, p, hv, est, j - 1);
      SubPuntoPaso(SubPuntos(e, p, hv, est, j - 1), p, hv, est, j);
    }
  }

  /** The earlier energy points are kept, and the new point at position
      `k` sits at the energy after the sub-points up to it. */
  lemma {:induction false} SubPuntosEnergia(e: Estado, p: ParamTramo, hv: real, est: nat, j: nat)
    requires p.n > 0 && j <= PuntosSub
    ensures var s := SubPuntos(e, p, hv, est, j);
      && |s.egl| == |e.egl| + j
      && s.egl[..|e.egl|] == e.egl
      && (forall k :: |e.egl| <= k < |s.egl| ==>
            s.egl[k] == e.energia - ((k - |e.egl| + 1) as real * p.hf / 5.0 + p.hm))
  {
    if j > 0 {
      SubPuntosEnergia(e, p, hv, est, j - 1);
      var a := SubPuntos(e, p, hv, est, j - 1);
      var s := SubPuntos(e, p, hv, est, j);
      SubPuntosMarco(e, p, hv, est, j);
      SubPuntoPaso(a, p, hv, est, j);
      assert s.egl == a.egl + [s.energia];
      assert s.egl[|e.egl| + j - 1] == e.energia - (j as real * p.hf / 5.0 + p.hm);
      forall k | |e.egl| <= k < |e.egl| + j - 1
        ensures s.egl[k] == e.energia - ((k - |e.egl| + 1) as real * p.hf / 5.0 + p.hm)
      {
        assert s.egl[k] == a.egl[k];
      }
      assert s.egl[..|e.egl|] == a.egl[..|e.egl|];
    }
  }

  /** Whether a descending station's tank adds a point: the energy at the
      tank less the terrain plus hv, that is the head the tank dissipates,
      exceeds 0.01 m in size. */
  predicate PuntoDeTanque(e: Estado, p: ParamTramo, hv: real) {
    p.bajada && p.tanque && Abs(e.energia - (p.hf + p.hm) - (e.elevAcum + p.zEst + hv)) > 0.01
  }

  /** A station adds 5 points, plus one when a tank dissipates more than
      0.01 m; it moves the accumulators one station on; a pumped station
      adds one pump marker and a descending one one valve marker. */
  lemma EstacionPuntos(e: Estado, p: ParamTramo, hv: real, est: nat)
    requires p.n > 0
    ensures var s := Estacion(e, p, hv, est);
      && |s.dist| == |e.dist| + 5 + (if PuntoDeTanque(e, p, hv) then 1 else 0)
      && s.elevAcum == e.elevAcum + p.zEst && s.distAcum == e.distAcum + p.distSub
      && |s.bombas| == |e.bombas| + (if p.bajada then 0 else 1)
      && |s.valvulas| == |e.valvulas| + (if p.bajada then 1 else 0)
  {
    var e1 := if p.bajada then e else Bombear(e, p, est);
    SubPuntosMarco(e1, p, hv, est, PuntosSub);
  }

  /** Over one station the energy rises by the station head when it is
      pumped and falls by exactly hf + hm; after a descending station with
      a tank it is the terrain elevation plus hv. */
  lemma EstacionEnergia(e: Estado, p: ParamTramo, hv: real, est: nat)
    requires p.n > 0
    ensures var s := Estacion(e, p, hv, est);
      && (!p.bajada ==> s.energia == e.energia + p.carga - (p.hf + p.hm))
      && (p.bajada && p.tanque ==> s.energia == s.elevAcum + hv)
      && (p.bajada && !p.tanque ==> s.energia == e.energia - (p.hf + p.hm))
  {
    var e1 := if p.bajada then e else Bombear(e, p, est);
    SubPuntosMarco(e1, p, hv, est, PuntosSub);
  }

  /** The pump of a non-descending station sits at its start, lifts the
      energy by exactly the station head, and comes before the station's
      losses: its first point is the lifted energy less a fifth of hf and
      all of hm, and its fifth point that less hf + hm. */
  lemma EstacionBomba(e: Estado, p: ParamTramo, hv: real, est: nat)
    requires p.n > 0 && !p.bajada
    ensures var s := Estacion(e, p, hv, est);
      && |s.bombas| == |e.bombas| + 1 && |s.egl| >= |e.egl| + 5
      && var b := s.bombas[|e.bombas|];
      && b.x == e.distAcum && b.antes == e.energia && b.despues - b.antes == p.carga
      && s.egl[|e.egl|] == b.despues - (p.hf / 5.0 + p.hm)
      && s.egl[|e.egl| + 4] == b.despues - (p.hf + p.hm)
  {
    var e1 := Bombear(e, p, est);
    SubPuntosMarco(e1, p, hv, est, PuntosSub);
    SubPuntosEnergia(e1, p, hv, est, PuntosSub);
  }

  /** The five points of a descending station fall from the energy it
      starts with: the first by a fifth of hf plus hm, the fifth by hf + hm. */
  lemma EstacionSinBomba(e: Estado, p: ParamTramo, hv: real, est: nat)
    requires p.n > 0 && p.bajada
    ensures var s := Estacion(e, p, hv, est);
      && |s.egl| >= |e.egl| + 5 && s.bombas == e.bombas
      && s.egl[|e.egl|] == e.energia - (p.hf / 5.0 + p.hm)
      && s.egl[|e.egl| + 4] == e.energia - (p.hf + p.hm)
  {
    SubPuntosMarco(e, p, hv, est, PuntosSub);
    SubPuntosEnergia(e, p, hv, est, PuntosSub);
    var s2 := SubPuntos(e, p, hv, est, PuntosSub);
    var s := Estacion(e, p, hv, est);
    assert s.egl[..|s2.egl|] == s2.egl by {
      if p.tanque {
        var perdida := s2.energia - (s2.elevAcum + p.zEst + hv);
        if Abs(perdida) > 0.01 {
          assert s.egl == s2.egl + [s.energia];
        }
      }
    }
  }

  // ---------------------------------------------------------------------------
  // A whole segment

  lemma UnoMas(k: nat, x: real)
    requires k > 0
    ensures (k - 1) as real * x + x == k as real * x
  {
  }

  /** One station moves the accumulators one station on. */
  lemma EstacionAvanza(e: Estado, p: ParamTramo, hv: real, est: nat)
    requires p.n > 0
    ensures Estacion(e, p, hv, est).elevAcum == e.elevAcum + p.zEst
    ensures Estacion(e, p, hv, est).distAcum == e.distAcum + p.distSub
  {
    var e1 := if p.bajada then e else Bombear(e, p, est);
    SubPuntosMarco(e1, p, hv, est, PuntosSub);
  }

  /** `k` times `x`, added up one step at a time. */
  function Veces(k: nat, x: real): real {
    if k == 0 then 0.0 else Veces(k - 1, x) + x
  }

  lemma {:induction false} VecesEsProducto(k: nat, x: real)
    ensures Veces(k, x) == k as real * x
  {
    if k > 0 {
      VecesEsProducto(k - 1, x);
      UnoMas(k, x);
    }
  }

  lemma EstacionesUnaMas(e: Estado, p: ParamTramo, hv: real, k: nat)
    requires 0 < k <= p.n
    ensures Estaciones(e, p, hv, k).elevAcum == Estaciones(e, p, hv, k - 1).elevAcum + p.zEst
    ensures Estaciones(e, p, hv, k).distAcum == Estaciones(e, p, hv, k - 1).distAcum + p.distSub
  {
    EstacionAvanza(Estaciones(e, p, hv, k - 1), p, hv, k - 1);
  }

  /** After `k` stations of a segment the terrain elevation has moved `k`
      station heights on. */
  lemma {:induction false} EstacionesElevan(e: Estado, p: ParamTramo, hv: real, k: nat)
    requires 0 < p.n && k <= p.n
    ensures Estaciones(e, p, hv, k).elevAcum == e.elevAcum + Veces(k, p.zEst)
  {
    if k > 0 {
      EstacionesElevan(e, p, hv, k - 1);
      EstacionesUnaMas(e, p, hv, k);
    }
  }

  /** After `k` stations of a segment the distance has moved `k` station
      lengths on. */
  lemma {:induction false} EstacionesAvanzan(e: Estado, p: ParamTramo, hv: real, k: nat)
    requires 0 < p.n && k <= p.n
    ensures Estaciones(e, p, hv, k).distAcum == e.distAcum + Veces(k, p.distSub)
  {
    if k > 0 {
      EstacionesAvanzan(e, p, hv, k - 1);
      EstacionesUnaMas(e, p, hv, k);
    }
  }

  /** After `k` pumped stations the energy has gained `k` station heads
      less `k` times hf + hm. */
  lemma {:induction false} EstacionesBombean(e: Estado, p: ParamTramo, hv: real, k: nat)
    requires 0 < p.n && k <= p.n && !p.bajada
    ensures Estaciones(e, p, hv, k).energia == e.energia + Veces(k, p.carga - (p.hf + p.hm))
  {
    if k > 0 {
      EstacionesBombean(e, p, hv, k - 1);
      EstacionEnergia(Estaciones(e, p, hv, k - 1), p, hv, k - 1);
    }
  }

  /** `k` pumped stations add five points each. */
  lemma {:induction false} EstacionesPuntos(e: Estado, p: ParamTramo, hv: real, k: nat)
    requires 0 < p.n && k <= p.n && !p.bajada
    ensures |Estaciones(e, p, hv, k).dist| == |e.dist| + 5 * k
  {
    if k > 0 {
      EstacionesPuntos(e, p, hv, k - 1);
      EstacionPuntos(Estaciones(e, p, hv, k - 1), p, hv, k - 1);
    }
  }

  /** After `k` descending stations without tanks the energy has lost `k`
      times hf + hm. */
  lemma {:induction false} EstacionesDescienden(e: Estado, p: ParamTramo, hv: real, k: nat)
    requires 0 < p.n && k <= p.n && p.bajada && !p.tanque
    ensures Estaciones(e, p, hv, k).energia == e.energia - Veces(k, p.hf + p.hm)
  {
    if k > 0 {
      EstacionesDescienden(e, p, hv, k - 1);
      EstacionEnergia(Estaciones(e, p, hv, k - 1), p, hv, k - 1);
    }
  }

  /** A segment with stations moves the walk by exactly its catalogue
      distance and height. */
  lemma TramoAvanza(e: Estado, r: Resultado, d: Definicion, num: int, hv: real)
    requires r.numEstaciones > 0
    ensures var p := ParametrosDe(num, r, d);
      && Estaciones(e, p, hv, p.n).elevAcum == e.elevAcum + d.altura
      && Estaciones(e, p, hv, p.n).distAcum == e.distAcum + d.distancia
  {
    var p := ParametrosDe(num, r, d);
    EstacionesElevan(e, p, hv, p.n);
    EstacionesAvanzan(e, p, hv, p.n);
    VecesEsProducto(p.n, p.zEst);
    VecesEsProducto(p.n, p.distSub);
  }

  // ---------------------------------------------------------------------------
  // `crear_desglose_perdidas`

  /** The three stacked bars of one segment. */
  datatype Barras = Barras(z: real, hf: real, hm: real)

  /** A descending segment shows no elevation bar; any other shows its
      station elevation (0 when the result has none) times its stations, and
      never a negative one. Friction and minor losses are per station times
      stations. */
  function BarrasDe(r: Resultado): (b: Barras)
    ensures r.esBajada ==> b.z == 0.0
    ensures !r.esBajada ==> b.z == Abs(r.zEstacion.GetOr(0.0)) * r.numEstaciones as real
    ensures b.z >= 0.0
    ensures b.hf == r.perdidasFriccion * r.numEstaciones as real
    ensures b.hm == r.perdidasMenores * r.numEstaciones as real
  {
    var n := r.numEstaciones as real;
    var zAbs := Abs(r.zEstacion.GetOr(0.0)) * n;
    Barras(if r.esBajada then 0.0 else zAbs, r.perdidasFriccion * n, r.perdidasMenores * n)
  }

  /** `crear_desglose_perdidas` without the drawing: the segment numbers
      and one bar triple per segment, in segment order. */
  method CrearDesglosePerdidas(resultados: map<int, Resultado>)
    returns (tramos: seq<int>, barras: seq<Barras>)
    requires ResultadosCompletos(resultados)
    ensures |tramos| == 8 && |barras| == 8
    ensures forall k :: 0 <= k < 8 ==> tramos[k] == k + 1 && barras[k] == BarrasDe(resultados[k + 1])
  {
    tramos := [];
    barras := [];
    for i := 1 to 9
      invariant |tramos| == i - 1 && |barras| == i - 1
      invariant forall k :: 0 <= k < i - 1 ==> tramos[k] == k + 1 && barras[k] == BarrasDe(resultados[k + 1])
    {
      var r := resultados[i];
      var n := r.numEstaciones as real;
      var zAbs := Abs(r.zEstacion.GetOr(0.0)) * n;
      var hf := r.perdidasFriccion * n;
      var hm := r.perdidasMenores * n;
      tramos := tramos + [i];
      barras := barras + [Barras(if r.esBajada then 0.0 else zAbs, hf, hm)];
    }
  }

  /** When the solver's station elevation is the segment's height split
      over its stations, the elevation bar of a pumped segment is the
      height the segment climbs or falls, in absolute value. */
  lemma BarraElevacionEsAltura(r: Resultado, d: Definicion, num: int)
    requires !r.esBajada && r.numEstaciones > 0
    requires r.zEstacion == Some(ParametrosDe(num, r, d).zEst)
    ensures BarrasDe(r).z == Abs(d.altura)
  {
    var n := r.numEstaciones as real;
    var z := ParametrosDe(num, r, d).zEst;
    assert n * z == d.altura;
    AbsPorPositivo(z, n);
  }

  lemma AbsPorPositivo(x: real, n: real)
    requires n > 0.0
    ensures Abs(x) * n == Abs(n * x)
  {
  }

  /** The friction and minor bars of a pumped segment are exactly what the
      polyline loses over it: its energy ends at the start plus all station
      heads less the two bars. */
  lemma BarrasCoincidenConMapa(e: Estado, r: Resultado, d: Definicion, num: int, hv: real)
    requires !r.esBajada && r.numEstaciones > 0
    ensures var p := ParametrosDe(num, r, d);
      Estaciones(e, p, hv, p.n).energia
        == e.energia + r.numEstaciones as real * r.cargaEstacion - (BarrasDe(r).hf + BarrasDe(r).hm)
  {
    var p := ParametrosDe(num, r, d);
    EstacionesBombean(e, p, hv, p.n);
    VecesEsProducto(p.n, p.carga - (p.hf + p.hm));
  }

  // ---------------------------------------------------------------------------
  // `crear_grafico_potencia`

  /** The kW bars, in segment order. */
  function PotenciasKw(resultados: map<int, Resultado>): (kw: seq<real>)
    requires ResultadosCompletos(resultados)
    ensures |kw| == 8
    ensures forall k :: 0 <= k < 8 ==> kw[k] == resultados[k + 1].potenciaKw
  {
    seq(8, k requires 0 <= k < 8 => resultados[k + 1].potenciaKw)
  }

  /** The HP bars, in segment order. */
  function PotenciasHp(resultados: map<int, Resultado>): (hp: seq<real>)
    requires ResultadosCompletos(resultados)
    ensures |hp| == 8
    ensures forall k :: 0 <= k < 8 ==> hp[k] == resultados[k + 1].potenciaHp
  {
    seq(8, k requires 0 <= k < 8 => resultados[k + 1].potenciaHp)
  }

  /** A bar is emerald exactly when its segment is pumped. */
  function ColoresPotencia(resultados: map<int, Resultado>): (c: seq<Color>)
    requires ResultadosCompletos(resultados)
    ensures |c| == 8
    ensures forall k :: 0 <= k < 8 ==> (c[k] == Esmeralda <==> resultados[k + 1].tipo == Bomba)
  {
    seq(8, k requires 0 <= k < 8 => ColorDeTipo(resultados[k + 1].tipo))
  }

  /** The text over a bar: its value when positive, nothing otherwise. */
  function TextosBarras(valores: seq<real>): (t: seq<Option<real>>)
    ensures |t| == |valores|
    ensures forall k :: 0 <= k < |valores| ==> (t[k].Some? <==> valores[k] > 0.0)
    ensures forall k :: 0 <= k < |valores| && t[k].Some? ==> t[k].value == valores[k]
  {
    seq(|valores|, k requires 0 <= k < |valores| => if valores[k] > 0.0 then Some(valores[k]) else None)
  }

  // ---------------------------------------------------------------------------
  // `crear_perfil_terreno_con_tramos`

  /** Where the terrain chain stands after segments 1 to `t`: the sums of
      their distances and heights. */
  function FinTerreno(definiciones: map<int, Definicion>, t: nat): (real, real)
    requires t <= 8 && DefinicionesCompletas(definiciones)
  {
    if t == 0 then (0.0, 0.0)
    else
      var a := FinTerreno(definiciones, t - 1);
      (a.0 + definiciones[t].distancia, a.1 + definiciones[t].altura)
  }

  /** One drawn segment of the terrain profile, with its colour. */
  datatype SegmentoTerreno = SegmentoTerreno(tramo: int, x0: real, y0: real, x1: real, y1: real, color: string)

  /** The fixed colour of each segment in the profile. */
  const ColoresTramo: map<int, string> := map[
    1 := "#ef4444", 2 := "#dc2626", 3 := "#ef4444", 4 := "#f59e0b",
    5 := "#3b82f6", 6 := "#2563eb", 7 := "#3b82f6", 8 := "#a855f7"]

  /** The dotted polyline of segment 8, drawn from where segment 7 ends. */
  function PolilineaTramo8(x: real, y: real): seq<(real, real)> {
    [(x, y), (x + 250.0, y), (x + 250.0, y - 10.0), (x + 1775.0, y - 10.0), (x + 1837.5, y + 100.0)]
  }

  /** Segment `t` of the terrain profile: from where segments before it
      end to where it ends, in its fixed colour. */
  function SegmentoDe(definiciones: map<int, Definicion>, t: nat): SegmentoTerreno
    requires 1 <= t <= 8 && DefinicionesCompletas(definiciones)
  {
    var a := FinTerreno(definiciones, t - 1);
    var b := FinTerreno(definiciones, t);
    SegmentoTerreno(t, a.0, a.1, b.0, b.1, ColoresTramo[t])
  }

  /** `crear_perfil_terreno_con_tramos` without the drawing: segments 1 to 7
      chained from the origin, then segment 8's polyline from where segment
      7 ends. */
  method CrearPerfilTerrenoConTramos(definiciones: map<int, Definicion>)
    returns (segmentos: seq<SegmentoTerreno>, tramo8: seq<(real, real)>)
    requires DefinicionesCompletas(definiciones)
    ensures |segmentos| == 7
    ensures forall k :: 0 <= k < 7 ==> segmentos[k] == SegmentoDe(definiciones, k + 1)
    ensures tramo8 == PolilineaTramo8(FinTerreno(definiciones, 7).0, FinTerreno(definiciones, 7).1)
  {
    var distAcum := 0.0;
    var elevAcum := 0.0;
    segmentos := [];
    for i := 1 to 8
      invariant |segmentos| == i - 1
      invariant (distAcum, elevAcum) == FinTerreno(definiciones, i - 1)
      invariant forall k :: 0 <= k < i - 1 ==> segmentos[k] == SegmentoDe(definiciones, k + 1)
    {
      var d := definiciones[i];
      var x0 := distAcum;
      var y0 := elevAcum;
      var x1 := distAcum + d.distancia;
      var y1 := elevAcum + d.altura;
      segmentos := segmentos + [SegmentoTerreno(i, x0, y0, x1, y1, ColoresTramo[i])];
      distAcum := x1;
      elevAcum := y1;
    }
    tramo8 := PolilineaTramo8(distAcum, elevAcum);
  }

  /** The profile is a chain: the first segment starts at the origin, each
      spans exactly its catalogue distance and height, each starts where the
      one before ends, and segment `t` ends where the first `t` segments'
      distances and heights add up to. */
  lemma PerfilEncadenado(definiciones: map<int, Definicion>)
    requires DefinicionesCompletas(definiciones)
    ensures SegmentoDe(definiciones, 1).x0 == 0.0 && SegmentoDe(definiciones, 1).y0 == 0.0
    ensures forall t :: 1 <= t <= 8 ==>
      && SegmentoDe(definiciones, t).tramo == t
      && SegmentoDe(definiciones, t).x1 == SegmentoDe(definiciones, t).x0 + definiciones[t].distancia
      && SegmentoDe(definiciones, t).y1 == SegmentoDe(definiciones, t).y0 + definiciones[t].altura
    ensures forall t :: 1 <= t < 8 ==>
      SegmentoDe(definiciones, t + 1).x0 == SegmentoDe(definiciones, t).x1
      && SegmentoDe(definiciones, t + 1).y0 == SegmentoDe(definiciones, t).y1
  {
  }

  /** The polyline and the terrain profile agree: when every segment up to
      `t` has stations, the walk of the map stands exactly where the
      terrain chain ends after segment `t`. */
  lemma {:induction false} RecorridoSigueTerreno(resultados: map<int, Resultado>,
                                                definiciones: map<int, Definicion>, hv: real, t: nat)
    requires t <= 8 && ResultadosCompletos(resultados) && DefinicionesCompletas(definiciones)
    requires forall u :: 1 <= u <= t ==> resultados[u].numEstaciones > 0
    ensures Recorrido(resultados, definiciones, hv, t).distAcum == FinTerreno(definiciones, t).0
    ensures Recorrido(resultados, definiciones, hv, t).elevAcum == FinTerreno(definiciones, t).1
  {
    if t > 0 {
      RecorridoSigueTerreno(resultados, definiciones, hv, t - 1);
      TramoAvanza(Recorrido(resultados, definiciones, hv, t - 1), resultados[t], definiciones[t], t, hv);
    }
  }
}
