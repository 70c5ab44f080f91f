// The two inputs every view of the dashboard reads: the catalogue of the
// eight pipeline segments and the per-segment results of the hydraulic
// solver. Both are produced by code that is not part of this model, so
// they enter here as plain values keyed by segment number 1 to 8.

module Tramos {
  import opened Opcion

  /** One fitting of a segment: its name, how many there are and its loss
      coefficient K. */
  datatype Accesorio = Accesorio(nombre: string, cantidad: real, k: real)

  /** The catalogue entry of one segment. `tanqueRompePresion` is absent
      when the catalogue does not say; readers default it to a tank. */
  datatype Definicion = Definicion(
    distancia: real, altura: real, pendiente: real, longitudTuberia: real,
    tipo: string, accesorios: seq<Accesorio>,
    tanqueRompePresion: Option<bool>, notas: string)

  /** The solver's result for one segment. The optional fields are the
      keys some results do not carry (`z_estacion`, `area`). */
  datatype Resultado = Resultado(
    numEstaciones: nat, longitudEstacion: real,
    perdidasFriccion: real, perdidasMenores: real,
    esBajada: bool, cargaEstacion: real,
    potenciaKw: real, potenciaHp: real, tipo: string,
    zEstacion: Option<real>, cargaCinetica: real, area: Option<real>,
    velocidad: real, reynolds: real, fColebrook: real, cargaTotal: real)

  /** Every segment has a catalogue entry. */
  predicate DefinicionesCompletas(definiciones: map<int, Definicion>) {
    forall t :: 1 <= t <= 8 ==> t in definiciones
  }

  /** Every segment has a solver result. */
  predicate ResultadosCompletos(resultados: map<int, Resultado>) {
    forall t :: 1 <= t <= 8 ==> t in resultados
  }

  /** The type name the catalogue gives pumped segments. */
  const Bomba: string := "bomba"

  /** The two colours that tell pumped segments (emerald, `#10B981`) from
      the others (amber, `#F59E0B`). */
  datatype Color = Esmeralda | Ambar

  function ColorDeTipo(tipo: string): (c: Color)
    ensures c == Esmeralda <==> tipo == Bomba
  {
    if tipo == Bomba then Esmeralda else Ambar
  }
}
