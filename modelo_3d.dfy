// The numbers the 3-D segment view computes before it fills its page
// template: the slope angle, the rise direction, the scale that brings
// every pipe to the same drawn length, the drawn diameter and height, the
// main colour, and the inlet and outlet pressures with the diameter it
// passes on. The template and the browser-side drawing are not part of
// this model.

module Modelo3D {
  import opened Opcion
  import opened Tramos

  /** π as the runtime's `math.pi` gives it. */
  const Pi: real := 3.141592653589793

  /** The value of π the diameter back-calculation writes out. */
  const PiCorto: real := 3.14159

  /** The area assumed when a result carries none. */
  const AreaPorDefecto: real := 0.01865

  /** The drawn diameter is never thinner than this. */
  const DiametroMinimo: real := 0.15

  /** Every pipe is drawn this long. */
  const LongitudDibujo: real := 10.0

  function Abs(x: real): real {
    if x < 0.0 then -x else x
  }

  /** The slope angle in radians: 0 for a flat segment, otherwise the
      slope's magnitude in degrees converted to radians. */
  function Angulo(pendiente: real): (a: real)
    ensures a >= 0.0
    ensures pendiente == 0.0 ==> a == 0.0
    ensures a * 180.0 == Abs(pendiente) * Pi
  {
    if pendiente != 0.0 then Abs(pendiente) * Pi / 180.0 else 0.0
  }

  /** The direction of the rise: 1 for a level or rising segment, -1 for
      a falling one. */
  function Signo(altura: real): (s: int)
    ensures s == 1 || s == -1
    ensures s as real * altura == Abs(altura)
  {
    if altura >= 0.0 then 1 else -1
  }

  /** The scale: the one that makes the pipe `LongitudDibujo` long, or 1
      when the length is not positive. */
  function Escala(longitud: real): (e: real)
    ensures e > 0.0
    ensures longitud > 0.0 ==> e * longitud == LongitudDibujo
    ensures longitud <= 0.0 ==> e == 1.0
  {
    if longitud > 0.0 then LongitudDibujo / longitud else 1.0
  }

  /** The drawn quantities of one segment. */
  datatype Dibujo = Dibujo(angulo: real, signo: int, escala: real,
                           largo: real, grosor: real, alto: real, color: Color)

  /** The drawn quantities: the length, the height and the diameter
      (exaggerated 15 times, but at least `DiametroMinimo`) all scaled by
      the same factor. */
  function DibujoDe(longitud: real, diametro: real, pendiente: real, altura: real, tipo: string): (d: Dibujo)
    ensures d.angulo == Angulo(pendiente) && d.signo == Signo(altura) && d.escala == Escala(longitud)
    ensures d.largo == longitud * d.escala && d.alto == altura * d.escala
    ensures d.grosor >= DiametroMinimo && d.grosor >= diametro * d.escala * 15.0
    ensures d.grosor == DiametroMinimo || d.grosor == diametro * d.escala * 15.0
    ensures d.color == Esmeralda <==> tipo == Bomba
  {
    var escala := Escala(longitud);
    var grosor := diametro * escala * 15.0;
    Dibujo(Angulo(pendiente), Signo(altura), escala, longitud * escala,
           if grosor >= DiametroMinimo then grosor else DiametroMinimo,
           altura * escala, ColorDeTipo(tipo))
  }

  /** A pipe of positive length is drawn exactly `LongitudDibujo` long,
      with its height in the same proportion to its length as on the
      ground; any other pipe is drawn unscaled. */
  lemma DibujoProporcional(longitud: real, diametro: real, pendiente: real, altura: real, tipo: string)
    ensures var d := DibujoDe(longitud, diametro, pendiente, altura, tipo);
      && (longitud > 0.0 ==> d.largo == LongitudDibujo && d.alto * longitud == altura * LongitudDibujo)
      && (longitud <= 0.0 ==> d.largo == longitud && d.alto == altura)
  {
    var e := Escala(longitud);
    if longitud > 0.0 {
      assert (altura * e) * longitud == altura * (e * longitud);
    }
  }

  /** The pressures at the two ends of a segment, in metres of water: 0
      at the inlet of a falling segment, the station head otherwise, and
      the inlet less the friction and minor losses at the outlet. */
  function Presiones(r: Resultado): (p: (real, real))
    ensures r.esBajada ==> p.0 == 0.0
    ensures !r.esBajada ==> p.0 == r.cargaEstacion
    ensures p.0 - p.1 == r.perdidasFriccion + r.perdidasMenores
  {
    var entrada := if !r.esBajada then r.cargaEstacion else 0.0;
    (entrada, entrada - r.perdidasFriccion - r.perdidasMenores)
  }

  /** With no negative loss, the outlet pressure never exceeds the inlet
      pressure, and they are equal only for a lossless segment. */
  lemma PresionBaja(r: Resultado)
    requires r.perdidasFriccion >= 0.0 && r.perdidasMenores >= 0.0
    ensures Presiones(r).1 <= Presiones(r).0
    ensures Presiones(r).1 == Presiones(r).0 <==> r.perdidasFriccion == 0.0 && r.perdidasMenores == 0.0
  {
  }

  /** The diameter passed to the view: four times the result's area (or
      the default area) over `PiCorto`. */
  function Diametro(r: Resultado): (d: real)
    ensures d * PiCorto == 4.0 * r.area.GetOr(AreaPorDefecto)
  {
    r.area.GetOr(AreaPorDefecto) * 4.0 / PiCorto
  }

  /** What the back-calculation gives for the area of a circle of
      diameter `dReal`: the square of that diameter, not the diameter
      itself (the square root is not taken). */
  lemma DiametroEsCuadrado(r: Resultado, dReal: real)
    requires r.area == Some(PiCorto * dReal * dReal / 4.0)
    ensures Diametro(r) == dReal * dReal
  {
  }

  /** The arguments the view of one segment is drawn from. */
  datatype Vista = Vista(
    tramo: int, longitud: real, diametro: real, pendiente: real, altura: real,
    velocidad: real, presionEntrada: real, presionSalida: real,
    accesorios: seq<Accesorio>, tipo: string, potenciaKw: real,
    reynolds: real, fFriccion: real, perdidasFriccion: real, perdidasMenores: real)

  /** The arguments of segment `n`: geometry, fittings and type from the
      catalogue, flow figures from the solver's result, and the derived
      pressures and diameter. */
  function VistaDeTramo(n: int, definiciones: map<int, Definicion>, resultados: map<int, Resultado>): (v: Vista)
    requires n in definiciones && n in resultados
    ensures v.tramo == n
    ensures var d := definiciones[n];
      v.longitud == d.longitudTuberia && v.pendiente == d.pendiente && v.altura == d.altura
      && v.accesorios == d.accesorios && v.tipo == d.tipo
    ensures var r := resultados[n];
      v.velocidad == r.velocidad && v.potenciaKw == r.potenciaKw && v.reynolds == r.reynolds
      && v.fFriccion == r.fColebrook && v.perdidasFriccion == r.perdidasFriccion
      && v.perdidasMenores == r.perdidasMenores
    ensures (v.presionEntrada, v.presionSalida) == Presiones(resultados[n])
    ensures v.diametro == Diametro(resultados[n])
  {
    var d := definiciones[n];
    var r := resultados[n];
    var (entrada, salida) := Presiones(r);
    Vista(n, d.longitudTuberia, Diametro(r), d.pendiente, d.altura, r.velocidad,
          entrada, salida, d.accesorios, d.tipo, r.potenciaKw, r.reynolds,
          r.fColebrook, r.perdidasFriccion, r.perdidasMenores)
  }

  /** The view of a segment draws its pressure drop as the segment's total
      losses, and its colour from the catalogue type. */
  lemma VistaCoherente(n: int, definiciones: map<int, Definicion>, resultados: map<int, Resultado>)
    requires n in definiciones && n in resultados
    ensures var v := VistaDeTramo(n, definiciones, resultados);
      && v.presionEntrada - v.presionSalida == v.perdidasFriccion + v.perdidasMenores
      && (DibujoDe(v.longitud, v.diametro, v.pendiente, v.altura, v.tipo).color == Esmeralda
          <==> definiciones[n].tipo == Bomba)
  {
  }
}
