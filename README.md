# Hydraulic pumping dashboard — a Dafny model of its data and view logic

The system is a Streamlit dashboard for an eight-segment water pipeline. The
pipeline runs from a river intake up a mountain with pumping stations, then
down through throttling valves and pressure-break tanks, and ends in an
underground segment. The hydraulic solver and the segment catalogue are in
files that are not part of this model. Their outputs enter as values: a map
of per-segment results and a map of segment definitions, keyed 1 to 8
(module `Tramos`). This model covers the logic built around them:

- `Datos` (core/datos.py) covers the spreadsheet reader:
  - the Latin-number cleaner `_limpiar_numero`, which turns `"1.030,49"` into
    1030.49 and anything else into NaN; NaN is the constructor `NaN` of
    `Num`;
  - splitting lines on `;`;
  - the fixed-layout readers, including the fittings window filter;
  - assembling `extraer_datos_completos`.
- `MapaPiezometrico` (visualizaciones/mapa_piezometrico.py) covers the point
  lists behind the charts:
  - the piezometric walk over segments, stations and five sub-points. It
    keeps the energy (EGL), hydraulic grade (HGL) and pressure lists, and
    the pump and valve markers;
  - the loss-breakdown and power bars;
  - the chained terrain profile.

  The walk is specified by pure functions (`Mapa`, `Estacion`,
  `SubPuntos`, …). The loops that build it are methods proved equal to them.
- `GenerarDocx` (tools/generate_docx.py) covers the Markdown-to-document
  converter. It is a subset of ATX headings and of pipe tables, sections 4.2
  and 4.10 of the GitHub Flavored Markdown specification. The document is a
  sequence of `Bloque` values in place of python-docx calls. The
  index-driven loop is a method proved equal to the function `Documento`.
- `App` (app.py) covers:
  - the session state as a class over a map: the defaults, the reset and
    the one-shot preview request;
  - the flow regime;
  - the total power and its HP conversion;
  - the fittings loss column;
  - the two eight-row summary tables.
- `Modelo3D` (visualizaciones/modelo_3d.py) covers the scale, sign, angle,
  colour, pressures and diameter computed before the 3-D page template is
  filled.
- `Cadenas` models the Python `str` operations the source relies on:
  `strip`, `rstrip`, `split`, `join`, `replace`, `startswith` and `count`.
  Whitespace is the set of characters `str.isspace` accepts.

All arithmetic is on exact reals. Index errors the source would raise on a
short row become preconditions. `int()` of NaN, which raises, becomes
`None`.

## Model

| member | source | states |
|---|---|---|
| Tramos.ColorDeTipo | visualizaciones/modelo_3d.py:52-54 | the main colour is emerald exactly when the type is `bomba`, amber otherwise |
| Cadenas.StripEmptyIffBlank | core/datos.py:15 | a string strips to empty exactly when every character is whitespace |
| Cadenas.StripSetIgnoresSurrounding | core/datos.py:17 | stripping ignores any run of stripped characters added on either side |
| Cadenas.StripSetIdempotent | tools/generate_docx.py:42-46 | stripping twice is stripping once |
| Cadenas.ReplaceCharSpec | core/datos.py:19 | `replace` keeps the length and swaps exactly the occurrences of the one character |
| Cadenas.RemoveCharSpec | core/datos.py:19 | removing a character leaves none of it and shortens the string by its count |
| Cadenas.SplitJoin | core/datos.py:36 | joining the pieces of a split gives the string back; there is one more piece than separators, and no piece holds one |
| Cadenas.JoinSplit | tools/generate_docx.py:64 | splitting a join of separator-free pieces gives the pieces back |
| Datos.LimpiarNumeroVacioEsNaN | core/datos.py:15-16 | a missing, empty or whitespace-only cell is NaN |
| Datos.LimpiarNumeroIgnoraBlancos | core/datos.py:17 | whitespace around a cell does not change its value |
| Datos.NormalizarCuenta | core/datos.py:19 | after normalisation no comma is left, there are as many points as the input had commas, and every thousands point is gone |
| Datos.DosComasEsNaN | core/datos.py:19-23 | text with two or more commas is NaN, because it normalises to two points, which `float` rejects |
| Datos.VariosPuntosNoEsNumero | core/datos.py:19-21 | text with two or more points is not a numeral, whitespace around it stripped or not |
| Datos.EjemploBlancoTrasPunto | core/datos.py:17-21 | `". 5"` reads as 5: the whitespace left once the point is removed is ignored, as `float` ignores it |
| Datos.ParseDecimalUnPunto | core/datos.py:21-23 | a numeral `float` accepts has at most one point |
| Datos.ParseDecimalDeDigitos | core/datos.py:21 | digits, a point and digits read as the decimal they write |
| Datos.QuitarPuntosDeGrupos | core/datos.py:19 | removing the points from digit groups joined by `.` concatenates the groups |
| Datos.NormalizarLatino | core/datos.py:19 | Latin `groups.groups,frac` normalises to `digits.frac` |
| Datos.LimpiarNumeroFormatoLatino | core/datos.py:13-23 | round trip of the Latin format: groups joined by `.`, a comma and decimals clean to the value of the concatenated groups with those decimals |
| Datos.EjemploMilesYDecimales | core/datos.py:14 | `"1.030,49"` cleans to 1030.49 |
| Datos.Truncar | core/datos.py:85 | `int` of a float truncates toward zero |
| Datos.DividirLineaReconstruye | core/datos.py:36 | the `;`-fields of a line join back to the line without its trailing newlines; there are count(`;`)+1 fields and none holds a `;` |
| Datos.CargarFilas | core/datos.py:32-38 | one row per line, in order, each the split of its line |
| Datos.TablaCelda | core/datos.py:51-57 | a cell of the cleaned table is that text cell, cleaned |
| Datos.ExtraerPerfilTerreno | core/datos.py:41-59 | eight terrain points, point k from row k+1, columns 0 to 6 in order |
| Datos.ParametrosCeldas | core/datos.py:62-73 | all eight global parameters are the cleaned values of their fixed cells: the scale from row 15 column 1, the other seven from column 2 of rows 11, 12, 13, 17, 34, 35 and 36 |
| Datos.ExtraerResumenTramos | core/datos.py:76-91 | rows 21 to 27 become seven summary rows in order; the read fails exactly when some row's segment number is NaN |
| Datos.ExtraerTramo8Distancias | core/datos.py:94-105 | rows 85 to 91 become seven sub-distances in order |
| Datos.LeerSubdistancia | core/datos.py:98-104 | one row of the loop becomes the sub-distance the layout function gives for it |
| Datos.SubdistanciaNombreLimpio | core/datos.py:100 | a sub-distance name has no surrounding whitespace |
| Datos.ExtraerAccesoriosTramo | core/datos.py:108-131 | the loop over the window equals the filter `Accesorios` of the rows `fila_inicio` up to `fila_fin` |
| Datos.LeerAccesorio | core/datos.py:115-128 | one row yields a fitting exactly when the row filter accepts it, with that filter's fields |
| Datos.VentanaPaso | core/datos.py:114-128 | widening the row window by one row appends that row's fitting, if any, and nothing else |
| Datos.AccesoriosMiembro | core/datos.py:114-128 | a record is in the result exactly when some row of the window is wide enough, has an accepted name and a numeric quantity, and gives that record |
| Datos.AccesoriosConcatena | core/datos.py:113-128 | the filter keeps row order: the fittings of a split window are those of the first part followed by those of the second |
| Datos.AccesoriosLongitud | core/datos.py:113-128 | never more records than rows |
| Datos.AccesoriosNombres | core/datos.py:117-118 | every record's name is stripped, non-empty and neither header text |
| Datos.ExtraerAccesoriosTramo8 | core/datos.py:134-136 | segment 8's fittings are the filter of rows 98 to 103 at column 5 |
| Datos.MedidasDeBloqueCeldas | core/datos.py:162-179 | the detail block of a segment reads flow, density, pipe length, roughness, diameter and friction factor from their fixed cells at the block's column offset |
| Datos.TiposDeTramo | core/datos.py:186-269 | segments 5 to 7 are throttling valves with zero power, the others (8 included) are pumped, and each has at least one station |
| Datos.LeerDetalle | core/datos.py:162-184 | one segment's detail: its block at column (t−1)·5 and its fittings from rows 58 to 62 |
| Datos.LeerDetalles | core/datos.py:158-184 | the loop gives exactly keys 1 to 7, each holding its segment's detail |
| Datos.LeerTramosDetalle | core/datos.py:158-271 | keys exactly 1 to 8; segments 1 to 7 are read from the file, and segment 8 is fixed data with its own fittings window |
| Datos.ExtraerDatosCompletos | core/datos.py:139-279 | the assembled result: the profile from rows 1 to 8, the parameters, the seven summary rows from rows 21 to 27, the seven segment-8 sub-distances from rows 85 to 91 and the details, each as read; it fails exactly when the summary reader fails |
| MapaPiezometrico.ParametrosDe | visualizaciones/mapa_piezometrico.py:49-55 | stations × per-station height = segment height; stations × per-station length = segment distance; a missing tank flag means a tank |
| MapaPiezometrico.CrearMapaPiezometrico | visualizaciones/mapa_piezometrico.py:21-135 | the nested loops build exactly the walk `Mapa`, and the result satisfies the polyline invariant |
| MapaPiezometrico.RecorrerEstacion | visualizaciones/mapa_piezometrico.py:57-135 | one iteration of the station loop is exactly `Estacion` |
| MapaPiezometrico.RecorrerTramo | visualizaciones/mapa_piezometrico.py:42-57 | the station loop of one segment is exactly its `n` stations, with the per-station height the segment height over n |
| MapaPiezometrico.TrazarSubPuntos | visualizaciones/mapa_piezometrico.py:76-99 | the sub-point loop is exactly five `SubPunto` steps |
| MapaPiezometrico.PasoSubPunto | visualizaciones/mapa_piezometrico.py:78-99 | one sub-point step lowers the energy and appends exactly the point `SubPunto` describes, leaving the station start unchanged |
| MapaPiezometrico.PuntoCoherente | visualizaciones/mapa_piezometrico.py:88-92 | adding a point keeps the six lists equally long with HGL = EGL − hv and pressure = EGL − hv − terrain |
| MapaPiezometrico.SubPuntoCoherente | visualizaciones/mapa_piezometrico.py:84-92 | one sub-point keeps the polyline invariant |
| MapaPiezometrico.SubPuntosCoherente | visualizaciones/mapa_piezometrico.py:76-99 | the sub-points keep the polyline invariant |
| MapaPiezometrico.EstacionCoherente | visualizaciones/mapa_piezometrico.py:57-127 | a station, with its tank point, keeps the polyline invariant |
| MapaPiezometrico.EstacionesCoherente | visualizaciones/mapa_piezometrico.py:57-135 | any number of stations keeps the polyline invariant |
| MapaPiezometrico.RecorridoCoherente | visualizaciones/mapa_piezometrico.py:43-135 | any number of segments keeps the polyline invariant |
| MapaPiezometrico.MapaCoherente | visualizaciones/mapa_piezometrico.py:21-135 | the whole walk satisfies the polyline invariant, starting at the intake at 0 |
| MapaPiezometrico.SubPuntoPaso | visualizaciones/mapa_piezometrico.py:81-92 | one sub-point lowers the energy by hf/5, plus hm at the first, adds one point and moves no accumulator or marker |
| MapaPiezometrico.SubPuntosMarco | visualizaciones/mapa_piezometrico.py:76-99 | j sub-points add j points and lower the energy by j·hf/5 + hm |
| MapaPiezometrico.SubPuntosEnergia | visualizaciones/mapa_piezometrico.py:86-90 | earlier energy points are kept, and the k-th new point is at the start energy less k·hf/5 + hm |
| MapaPiezometrico.EstacionPuntos | visualizaciones/mapa_piezometrico.py:57-127 | a station adds 5 points, plus 1 when a tank dissipates more than 0.01 m; it advances one station; it adds one pump marker if pumped, else one valve marker |
| MapaPiezometrico.EstacionEnergia | visualizaciones/mapa_piezometrico.py:60-119 | a pumped station's energy changes by the station head − (hf + hm); after a tank it is terrain + hv; otherwise it falls by hf + hm |
| MapaPiezometrico.EstacionBomba | visualizaciones/mapa_piezometrico.py:60-90 | a pump sits at the station start and lifts by exactly the station head before the losses; the station's first and fifth points follow from the lifted energy |
| MapaPiezometrico.EstacionSinBomba | visualizaciones/mapa_piezometrico.py:76-104 | a descending station adds no pump, and its points fall from its start energy |
| MapaPiezometrico.EstacionAvanza | visualizaciones/mapa_piezometrico.py:101-102 | a station moves the accumulators by one station height and length |
| MapaPiezometrico.EstacionesElevan | visualizaciones/mapa_piezometrico.py:55-101 | k stations raise the terrain accumulator by k station heights |
| MapaPiezometrico.EstacionesAvanzan | visualizaciones/mapa_piezometrico.py:73-102 | k stations move the distance accumulator by k station lengths |
| MapaPiezometrico.EstacionesUnaMas | visualizaciones/mapa_piezometrico.py:101-102 | each station moves the terrain and distance accumulators by one station height and length |
| MapaPiezometrico.EstacionesBombean | visualizaciones/mapa_piezometrico.py:57-90 | k pumped stations change the energy by k·(station head − hf − hm) |
| MapaPiezometrico.EstacionesPuntos | visualizaciones/mapa_piezometrico.py:57-99 | k pumped stations add exactly 5k points |
| MapaPiezometrico.EstacionesDescienden | visualizaciones/mapa_piezometrico.py:76-135 | k descending stations without tanks lower the energy by k·(hf + hm) |
| MapaPiezometrico.TramoAvanza | visualizaciones/mapa_piezometrico.py:43-102 | a segment with stations moves the walk by exactly its catalogue distance and height |
| MapaPiezometrico.BarrasDe | visualizaciones/mapa_piezometrico.py:326-334 | a descending segment has no elevation bar; any other has \|z per station\| (0 when missing) times the stations, never negative; the loss bars are the per-station values times the stations |
| MapaPiezometrico.BarraElevacionEsAltura | visualizaciones/mapa_piezometrico.py:330-333 | when the station elevation is the segment height split over its stations, a pumped segment's elevation bar is the absolute segment height |
| MapaPiezometrico.CrearDesglosePerdidas | visualizaciones/mapa_piezometrico.py:319-334 | eight bar triples in segment order, each the `BarrasDe` of its segment |
| MapaPiezometrico.BarrasCoincidenConMapa | visualizaciones/mapa_piezometrico.py:326-333 | over a pumped segment the polyline's energy ends at the start + stations × head − (friction bar + minor bar) |
| MapaPiezometrico.PotenciasKw | visualizaciones/mapa_piezometrico.py:386 | eight kW bars in segment order |
| MapaPiezometrico.PotenciasHp | visualizaciones/mapa_piezometrico.py:387 | eight HP bars in segment order |
| MapaPiezometrico.ColoresPotencia | visualizaciones/mapa_piezometrico.py:388-389 | a bar is emerald exactly when its segment type is `bomba` |
| MapaPiezometrico.TextosBarras | visualizaciones/mapa_piezometrico.py:398 | a bar shows its value exactly when it is positive |
| MapaPiezometrico.CrearPerfilTerrenoConTramos | visualizaciones/mapa_piezometrico.py:467-510 | the loop gives segments 1 to 7 as `SegmentoDe`, each from the sums of the distances and heights before it to the sums including it, then segment 8's polyline from where segment 7 ends |
| MapaPiezometrico.PerfilEncadenado | visualizaciones/mapa_piezometrico.py:467-502 | the profile starts at the origin, each segment spans exactly its distance and height, and each starts where the one before ends |
| MapaPiezometrico.RecorridoSigueTerreno | visualizaciones/mapa_piezometrico.py:470-502 | after t segments the piezometric walk stands where the terrain chain ends |
| GenerarDocx.CeldasSpec | tools/generate_docx.py:42-46 | a table line gives one cell per inner `|`, plus one; no cell holds `|` and none has surrounding whitespace |
| GenerarDocx.FinTabla | tools/generate_docx.py:36-38 | the table ends at the first blank line at or after its start, or at the end |
| GenerarDocx.GenerarDocumento | tools/generate_docx.py:21-71 | the line loop produces exactly `Documento` of the lines |
| GenerarDocx.LeerLineasTabla | tools/generate_docx.py:35-38 | the inner loop stops at `FinTabla` and collects those lines right-stripped |
| GenerarDocx.ConvertirTabla | tools/generate_docx.py:40-59 | converting a collected table gives exactly `BloquesTabla` |
| GenerarDocx.LlenarTabla | tools/generate_docx.py:49-58 | the filled table has 1 + rows rows: the header first, every row as wide as the header, each cell its row's cell or empty |
| GenerarDocx.BloquesTablaSpec | tools/generate_docx.py:40-59 | two lines or fewer give nothing; otherwise a table (header, then lines 3 onward, padded or cut to the header) and an empty paragraph |
| GenerarDocx.TablaConsume | tools/generate_docx.py:33-38 | a table consumes every non-blank line up to the first blank one or the end, at least its own, and the document continues from there |
| GenerarDocx.DocumentoTablasRectangulares | tools/generate_docx.py:40-59 | every table in the document has a header and at least one row, all exactly as wide as the header |
| GenerarDocx.DocumentoNiveles | tools/generate_docx.py:24-31 | every heading in the document is level 1 or 2 |
| GenerarDocx.TituloProfundoEsParrafo | tools/generate_docx.py:24-31 | a `###` line is not a heading but a paragraph of its stripped text |
| GenerarDocx.TitulosDeSeccion | tools/generate_docx.py:24-31 | a `# ` line is a level-1 heading of the rest of the line, a `## ` line a level-2 heading of the rest |
| GenerarDocx.AnexoNoEsOtraCosa | tools/generate_docx.py:24-33 | a `**Anexo A` line is no heading and no table start |
| GenerarDocx.AnexoFinal | tools/generate_docx.py:61-65 | the annex ends the document with heading `Anexos` and one paragraph whose split on newlines gives back the remaining lines |
| GenerarDocx.LineaComunEsParrafo | tools/generate_docx.py:66-71 | any other line is a paragraph of its stripped text, which is empty exactly when the line is blank |
| GenerarDocx.DocumentoLongitud | tools/generate_docx.py:21-71 | the loop ends, and gives at most one block more than the lines left |
| App.SesionEstado.Inicializar | app.py:268-271 | the start-up loop leaves exactly `ConDefectos` of the previous state |
| App.SesionEstado.RestablecerDefectos | app.py:273-275 | the reset leaves exactly `Restablecido` of the previous state |
| App.SesionEstado.PedirVista | app.py:764-766 | a preview button records the file and its type |
| App.SesionEstado.AtenderVista | app.py:744-746 | the preview check opens the requested file and clears the request, as `ConsumirVista`; with no type recorded it fails and leaves the session unchanged |
| App.DefectosDistintos | app.py:260-266 | the five default keys are distinct |
| App.ConDefectosHastaSpec | app.py:269-271 | after k inserts, existing keys are untouched, the first k default keys are present and hold their default when absent before, and nothing else is added |
| App.ConDefectosSpec | app.py:268-271 | start-up inserts a default only where the key is absent and never changes an existing value |
| App.ConDefectosIdempotente | app.py:268-271 | a second start-up changes nothing |
| App.RestablecidoHastaSpec | app.py:274-275 | after k writes, the first k keys hold their defaults and every other key is as before |
| App.RestablecidoSpec | app.py:273-275 | the reset sets all five keys to their defaults and changes no other key |
| App.ConDefectosTrasRestablecer | app.py:268-275 | start-up after a reset changes nothing |
| App.VistaUnaVez | app.py:744-746 | a preview request with its type is served once; one without a type fails and stays, so it fails again on the next run; the check changes no other key |
| App.PedirYAtender | app.py:744-746 | after a button sets a non-empty path, the next check opens exactly that file with its type |
| App.RegimenDe | app.py:366 | turbulent exactly when Re > 4000, transitional exactly when 2300 < Re ≤ 4000, laminar exactly when Re ≤ 2300 |
| App.RegimenMonotono | app.py:366 | a larger Reynolds number never gives a calmer regime |
| App.PotenciaTotalHp | app.py:414 | HP is the conversion of the kW total when it is positive, and 0 otherwise |
| App.PotenciaTotalEsSumaDeBarras | app.py:413 | the kW total is the sum of the eight power bars |
| App.SumaKwCota | app.py:413 | with no negative power the total is at least any one segment's power, and 0 exactly when every segment's is 0 |
| App.SinPotenciaSinHp | app.py:413-414 | with no segment drawing power the HP total is 0 |
| App.Perdidas | app.py:602 | one loss per fitting, in order, each quantity × K × hv |
| App.ColumnaPerdidas | app.py:600-602 | no table for an empty fitting list, otherwise the loss column |
| App.ColumnaPerdidasSuma | app.py:602 | the loss column adds up to Σ(quantity × K) × hv |
| App.TitularConserva | app.py:552 | the title-case rule: non-letters are kept, a letter at the start of a word (after a non-letter, or first with no letter before) is upper-cased, every other letter lower-cased |
| App.TablaTramos | app.py:542-554 | eight rows, row k for segment k+1, with its catalogue figures, its readable type and its power |
| App.TablaCompleta | app.py:657-668 | eight rows, row k for segment k+1, with its velocity, Reynolds number, friction factor, losses and total head |
| Modelo3D.Angulo | visualizaciones/modelo_3d.py:39 | the angle is non-negative, 0 for a flat segment, and converts back to the slope's magnitude in degrees |
| Modelo3D.Signo | visualizaciones/modelo_3d.py:40 | the sign is ±1 and times the height gives its magnitude, so it is 1 exactly for a height ≥ 0 |
| Modelo3D.Escala | visualizaciones/modelo_3d.py:43 | the scale is positive, brings a positive length to 10, and is 1 otherwise |
| Modelo3D.DibujoDe | visualizaciones/modelo_3d.py:39-54 | the drawn diameter is the larger of 0.15 and the exaggerated scaled diameter; the colour is emerald exactly for `bomba` |
| Modelo3D.DibujoProporcional | visualizaciones/modelo_3d.py:43-46 | a positive-length pipe is drawn exactly 10 long with height in proportion; any other pipe is drawn unscaled |
| Modelo3D.Presiones | visualizaciones/modelo_3d.py:660-663 | the inlet is 0 when descending, else the station head; inlet − outlet = friction + minor loss |
| Modelo3D.PresionBaja | visualizaciones/modelo_3d.py:660-663 | with non-negative losses the outlet never exceeds the inlet, and equals it only without losses |
| Modelo3D.Diametro | visualizaciones/modelo_3d.py:668 | diameter × 3.14159 = 4 × the area, with area 0.01865 when missing |
| Modelo3D.DiametroEsCuadrado | visualizaciones/modelo_3d.py:668 | for the area of a circle of diameter D this gives D², not D, because no square root is taken |
| Modelo3D.VistaDeTramo | visualizaciones/modelo_3d.py:648-681 | the view's arguments come from the segment's catalogue entry and result, with the derived pressures and diameter |
| Modelo3D.VistaCoherente | visualizaciones/modelo_3d.py:660-681 | a segment's view shows its pressure drop as its total loss, and is emerald exactly for a pumped catalogue type |

## Left out

- The hydraulic solver and the segment catalogue are not part of this model. This covers `calcular_sistema_completo`, the friction-factor functions, `obtener_definicion_tramos`, `obtener_elevaciones_acumuladas` and `area_seccion`/`velocidad`/`reynolds`. Their results are inputs; the Reynolds number enters `RegimenDe` as a value.
- App.PotenciaTotalHp: `kw_a_hp` is not part of this model. It is a function parameter with no assumed properties.
- File I/O is not modelled: opening the CSV, reading the Markdown, saving the document, and the viewer and download buttons. The readers take the lines (or rows) as values.
- GenerarDocumento: the text arrives already split into lines. The line-splitting rules of `str.splitlines` (it also splits on `\r`, `\x0b`, `\x0c`, `\x1c`–`\x1e`, `\x85`, U+2028 and U+2029) are not modelled.
- Datos.LimpiarNumero: Python's `float` grammar is only partly modelled. Only an optional sign, ASCII digits and at most one point are accepted. Exponents, `inf`/`nan`, underscores and non-ASCII digits count as NaN here, though `float` accepts them.
- Datos.LimpiarNumero: `pd.isna` on non-text cells is not modelled. A cell is either missing (`None`) or text.
- pandas DataFrames and dictionaries with string keys are not modelled. They become sequences of records and datatypes with named fields.
- All arithmetic is on exact reals. IEEE rounding is not modelled. For example, `10.0 / L * L` is exactly 10 here, but it need not be in floating point.
- Modelo3D.Angulo: `math.radians` is multiplication by π/180, with π as the double constant written out.
- App.Titular: `str.title` is modelled for ASCII letters only. Other cased Unicode letters are treated as non-letters.
- The drawing is not modelled: Plotly traces, styles and annotations, label texts, hover templates and layout. Markers and labels keep only their data. This includes the cavitation annotation at the minimum pressure.
- The terrain fill of the profile chart comes from `obtener_elevaciones_acumuladas`, which is not part of this model.
- Streamlit widgets, layout, caching and `st.rerun` are not modelled. This includes the selection of which segment's fittings and 3-D view to show.
- The Three.js page template and the browser-side animation of the 3-D view are not modelled. The `json.dumps` of the fittings is passed on as the fitting list.
- Document styling is not modelled: the font, the table style, and python-docx's own table objects. The table is a grid of strings.
- The Markdown features the converter does not implement are out of scope.
