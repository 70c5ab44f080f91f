// The report generator of tools/generate_docx.py: the Markdown text of the
// project report, as a list of lines, is read line by line into the blocks
// of a word-processor document. The document object is replaced by the
// list of blocks it receives; reading the Markdown file and saving the
// document are not part of this model.

module GenerarDocx {
  import opened Cadenas

  /** What the generator adds to the document: a heading of level 1 or 2,
      a paragraph (an empty one for `add_paragraph()`), or a table whose
      rows all have `columnas` cells, the first row being the header. */
  datatype Bloque =
    | Titulo(nivel: nat, texto: string)
    | Parrafo(texto: string)
    | Tabla(filas: seq<seq<string>>, columnas: nat)

  // ---------------------------------------------------------------------------
  // Tables

  /** The cells of a table line: the line stripped, then stripped of `|`
      at both ends, split on `|`, and every piece stripped. */
  function Celdas(linea: string): seq<string> {
    var partes := Split(StripSet(Strip(linea), {'|'}), '|');
    seq(|partes|, k requires 0 <= k < |partes| => Strip(partes[k]))
  }

  /** A stripped piece of a string without `|` has no `|` either. */
  lemma StripSinBarra(s: string)
    requires '|' !in s
    ensures '|' !in Strip(s)
  {
    StripSetIsSlice(s, Blancos);
  }

  /** There is one cell more than there are inner `|`; no cell holds a
      `|` and none has whitespace around it. */
  lemma CeldasSpec(linea: string)
    ensures |Celdas(linea)| == Count(StripSet(Strip(linea), {'|'}), '|') + 1
    ensures forall c :: c in Celdas(linea) ==> '|' !in c && Strip(c) == c
  {
    var partes := Split(StripSet(Strip(linea), {'|'}), '|');
    SplitJoin(StripSet(Strip(linea), {'|'}), '|');
    forall c | c in Celdas(linea) ensures '|' !in c && Strip(c) == c {
      var k :| 0 <= k < |partes| && c == Strip(partes[k]);
      assert partes[k] in partes;
      StripSinBarra(partes[k]);
      StripSetIdempotent(partes[k], Blancos);
    }
  }

  /** The rows of the table as the document holds them: the header, then
      every body row cut or padded with empty cells to the header's width. */
  function Rejilla(cabecera: seq<string>, filas: seq<seq<string>>): seq<seq<string>> {
    [cabecera] + seq(|filas|, r requires 0 <= r < |filas| =>
      seq(|cabecera|, c requires 0 <= c < |cabecera| => if c < |filas[r]| then filas[r][c] else ""))
  }

  /** The blocks a run of table lines gives: nothing for two lines or
      fewer; otherwise the table, from the header line and the lines after
      the separator, followed by an empty paragraph. */
  function BloquesTabla(tbl: seq<string>): seq<Bloque> {
    if |tbl| > 2 then
      var cabecera := Celdas(tbl[0]);
      var filas := seq(|tbl| - 2, r requires 0 <= r < |tbl| - 2 => Celdas(tbl[r + 2]));
      [Tabla(Rejilla(cabecera, filas), |cabecera|), Parrafo("")]
    else []
  }

  /** Where a table that starts at line `i` ends: the first blank line at
      or after `i`, or the end of the text. */
  function FinTabla(lineas: seq<string>, i: nat): (j: nat)
    requires i <= |lineas|
    ensures i <= j <= |lineas|
    ensures j == |lineas| || Strip(lineas[j]) == ""
    ensures forall k :: i <= k < j ==> Strip(lineas[k]) != ""
    decreases |lineas| - i
  {
    if i == |lineas| || Strip(lineas[i]) == "" then i else FinTabla(lineas, i + 1)
  }

  /** The lines of a table, right-stripped. */
  function LineasTabla(lineas: seq<string>, i: nat, j: nat): seq<string>
    requires i <= j <= |lineas|
  {
    seq(j - i, k requires 0 <= k < j - i => RStrip(lineas[i + k]))
  }

  // ---------------------------------------------------------------------------
  // The line classifier

  predicate EsTitulo1(linea: string) { StartsWith(linea, "# ") }
  predicate EsTitulo2(linea: string) { StartsWith(linea, "## ") }
  predicate EsTabla(linea: string) {
    StartsWith(linea, "| Tramo") || StartsWith(linea, "| Parámetro")
  }
  predicate EsAnexo(linea: string) { StartsWith(linea, "**Anexo A") }

  /** The blocks the text from line `i` on gives. Each line is stripped and
      tried in turn as a level-1 heading, a level-2 heading, the first line
      of a table, and the start of the annex; anything else is a
      paragraph. The annex takes every remaining line, unstripped, as one
      paragraph and ends the document. */
  function Documento(lineas: seq<string>, i: nat): seq<Bloque>
    requires i <= |lineas|
    decreases |lineas| - i
  {
    if i == |lineas| then []
    else
      var linea := Strip(lineas[i]);
      if EsTitulo1(linea) then [Titulo(1, linea[2..])] + Documento(lineas, i + 1)
      else if EsTitulo2(linea) then [Titulo(2, linea[3..])] + Documento(lineas, i + 1)
      else if EsTabla(linea) then
        var j := FinTabla(lineas, i);
        BloquesTabla(LineasTabla(lineas, i, j)) + Documento(lineas, j)
      else if EsAnexo(linea) then [Titulo(2, "Anexos"), Parrafo(Join(lineas[i..], "\n"))]
      else [Parrafo(linea)] + Documento(lineas, i + 1)
  }

  /** The generator's main loop. */
  method GenerarDocumento(lineas: seq<string>) returns (doc: seq<Bloque>)
    ensures doc == Documento(lineas, 0)
  {
    doc := [];
    var i := 0;
    while i < |lineas|
      invariant 0 <= i <= |lineas|
      invariant doc + Documento(lineas, i) == Documento(lineas, 0)
      decreases |lineas| - i
    {
      var linea := Strip(lineas[i]);
      ghost var resto := Documento(lineas, i);
      if StartsWith(linea, "# ") {
        doc := doc + [Titulo(1, linea[2..])];
        i := i + 1;
        Reagrupar(doc, resto, Documento(lineas, i), 1);
        continue;
      }
      if StartsWith(linea, "## ") {
        doc := doc + [Titulo(2, linea[3..])];
        i := i + 1;
        Reagrupar(doc, resto, Documento(lineas, i), 1);
        continue;
      }
      if StartsWith(linea, "| Tramo") || StartsWith(linea, "| Parámetro") {
        var tbl;
        tbl, i := LeerLineasTabla(lineas, i);
        var bloques := ConvertirTabla(tbl);
        doc := doc + bloques;
        Reagrupar(doc, resto, Documento(lineas, i), |bloques|);
        continue;
      }
      if StartsWith(linea, "**Anexo A") {
        doc := doc + [Titulo(2, "Anexos"), Parrafo(Join(lineas[i..], "\n"))];
        assert doc == Documento(lineas, 0);
        break;
      }
      if linea != "" {
        doc := doc + [Parrafo(linea)];
      } else {
        doc := doc + [Parrafo("")];
      }
      i := i + 1;
      Reagrupar(doc, resto, Documento(lineas, i), 1);
    }
  }

  /** The blocks just added to the document are the head of what the
      rest of the text gives, so the document so far followed by the rest
      is unchanged. */
  lemma Reagrupar(doc: seq<Bloque>, resto: seq<Bloque>, siguiente: seq<Bloque>, n: nat)
    requires n <= |doc| && resto == doc[|doc| - n..] + siguiente
    ensures doc + siguiente == doc[..|doc| - n] + resto
  {
  }

  /** The inner loop that collects a table: every line up to the first
      blank one, right-stripped. */
  method LeerLineasTabla(lineas: seq<string>, inicio: nat) returns (tbl: seq<string>, i: nat)
    requires inicio <= |lineas|
    ensures i == FinTabla(lineas, inicio)
    ensures tbl == LineasTabla(lineas, inicio, i)
  {
    i := inicio;
    tbl := [];
    while i < |lineas| && Strip(lineas[i]) != ""
      invariant inicio <= i <= |lineas|
      invariant FinTabla(lineas, i) == FinTabla(lineas, inicio)
      invariant tbl == LineasTabla(lineas, inicio, i)
      decreases |lineas| - i
    {
      tbl := tbl + [RStrip(lineas[i])];
      i := i + 1;
    }
  }

  /** The table of the collected lines, when there are more than two:
      header cells, body rows from the third line on, the filled table and
      the empty paragraph after it. */
  method ConvertirTabla(tbl: seq<string>) returns (bloques: seq<Bloque>)
    ensures bloques == BloquesTabla(tbl)
  {
    bloques := [];
    if |tbl| > 2 {
      var cabecera := Celdas(tbl[0]);
      var filas: seq<seq<string>> := [];
      for r := 2 to |tbl|
        invariant |filas| == r - 2
        invariant forall k :: 0 <= k < r - 2 ==> filas[k] == Celdas(tbl[k + 2])
      {
        filas := filas + [Celdas(tbl[r])];
      }
      var tabla := LlenarTabla(cabecera, filas);
      ghost var esperada := Rejilla(cabecera, filas);
      forall r | 0 <= r < |tabla| ensures tabla[r] == esperada[r] {
        if r > 0 {
          assert |tabla[r]| == |esperada[r]|;
        }
      }
      assert tabla == esperada;
      assert filas == seq(|tbl| - 2, r requires 0 <= r < |tbl| - 2 => Celdas(tbl[r + 2]));
      bloques := [Tabla(tabla, |cabecera|), Parrafo("")];
    }
  }

  /** A new table of `1 + |filas|` rows and as many columns as the header,
      every cell empty, then filled: the header in row 0 and body row `r`
      in row `r + 1`, cells past the last column left out. */
  method LlenarTabla(cabecera: seq<string>, filas: seq<seq<string>>) returns (t: seq<seq<string>>)
    ensures |t| == 1 + |filas| && t[0] == cabecera
    ensures forall r :: 1 <= r < |t| ==> |t[r]| == |cabecera|
    ensures forall r, c :: 1 <= r < |t| && 0 <= c < |cabecera| ==>
      t[r][c] == if c < |filas[r - 1]| then filas[r - 1][c] else ""
  {
    var ancho := |cabecera|;
    var vacia := seq(ancho, c => "");
    t := seq(1 + |filas|, r => vacia);
    for idx := 0 to |cabecera|
      invariant |t| == 1 + |filas| && |t[0]| == ancho
      invariant forall c :: 0 <= c < idx ==> t[0][c] == cabecera[c]
      invariant forall r :: 1 <= r < |t| ==> t[r] == vacia
    {
      t := t[0 := t[0][idx := cabecera[idx]]];
    }
    assert t[0] == cabecera;
    for rIdx := 1 to |filas| + 1
      invariant |t| == 1 + |filas| && t[0] == cabecera
      invariant forall q :: 1 <= q < |t| ==> |t[q]| == ancho
      invariant forall q, c :: 1 <= q < rIdx && 0 <= c < ancho ==>
        t[q][c] == if c < |filas[q - 1]| then filas[q - 1][c] else ""
      invariant forall q :: rIdx <= q < |t| ==> t[q] == vacia
    {
      var fila := filas[rIdx - 1];
      for cIdx := 0 to |fila|
        invariant |t| == 1 + |filas| && t[0] == cabecera
        invariant forall q :: 1 <= q < |t| ==> |t[q]| == ancho
        invariant forall q, c :: 1 <= q < rIdx && 0 <= c < ancho ==>
          t[q][c] == if c < |filas[q - 1]| then filas[q - 1][c] else ""
        invariant forall q :: rIdx < q < |t| ==> t[q] == vacia
        invariant forall c :: 0 <= c < ancho ==> t[rIdx][c] == if c < cIdx then fila[c] else ""
      {
        if cIdx < ancho {
          t := t[rIdx := t[rIdx][cIdx := fila[cIdx]]];
        }
      }
    }
  }

  // ---------------------------------------------------------------------------
  // What the document holds

  /** The text never gives more than one block per line plus one: a table
      of `k > 2` lines gives two blocks, and the annex two for the rest. */
  lemma {:induction false} DocumentoLongitud(lineas: seq<string>, i: nat)
    requires i <= |lineas|
    ensures |Documento(lineas, i)| <= |lineas| - i + 1
    decreases |lineas| - i
  {
    if i < |lineas| {
      var linea := Strip(lineas[i]);
      if EsTitulo1(linea) || EsTitulo2(linea) {
        DocumentoLongitud(lineas, i + 1);
      } else if EsTabla(linea) {
        var j := FinTabla(lineas, i);
        DocumentoLongitud(lineas, j);
      } else if !EsAnexo(linea) {
        DocumentoLongitud(lineas, i + 1);
      }
    }
  }

  /** Every table of the document is rectangular: a header and at least
      one body row, all as wide as the header, which has at least one
      cell. */
  predicate Rectangular(b: Bloque) {
    b.Tabla? ==>
      && 2 <= |b.filas| && 1 <= b.columnas
      && forall r :: 0 <= r < |b.filas| ==> |b.filas[r]| == b.columnas
  }

  lemma {:induction false} DocumentoTablasRectangulares(lineas: seq<string>, i: nat)
    requires i <= |lineas|
    ensures forall b :: b in Documento(lineas, i) ==> Rectangular(b)
    decreases |lineas| - i
  {
    if i < |lineas| {
      var linea := Strip(lineas[i]);
      if EsTitulo1(linea) || EsTitulo2(linea) {
        DocumentoTablasRectangulares(lineas, i + 1);
      } else if EsTabla(linea) {
        var j := FinTabla(lineas, i);
        DocumentoTablasRectangulares(lineas, j);
        var tbl := LineasTabla(lineas, i, j);
        if |tbl| > 2 {
          var cabecera := Celdas(tbl[0]);
          assert |cabecera| >= 1;
        }
      } else if !EsAnexo(linea) {
        DocumentoTablasRectangulares(lineas, i + 1);
      }
    }
  }

  /** Headings are of level 1 or 2 only. */
  lemma {:induction false} DocumentoNiveles(lineas: seq<string>, i: nat)
    requires i <= |lineas|
    ensures forall b :: b in Documento(lineas, i) && b.Titulo? ==> b.nivel == 1 || b.nivel == 2
    decreases |lineas| - i
  {
    if i < |lineas| {
      var linea := Strip(lineas[i]);
      if EsTitulo1(linea) || EsTitulo2(linea) {
        DocumentoNiveles(lineas, i + 1);
      } else if EsTabla(linea) {
        DocumentoNiveles(lineas, FinTabla(lineas, i));
      } else if !EsAnexo(linea) {
        DocumentoNiveles(lineas, i + 1);
      }
    }
  }

  /** A `###` line (or deeper) is neither heading: it is a paragraph of the
      stripped line. */
  /** A line starting `# ` is a level-1 heading of the rest of the line,
      and one starting `## ` a level-2 heading; neither rule captures the
      other's lines. */
  lemma TitulosDeSeccion(lineas: seq<string>, i: nat)
    requires i < |lineas|
    ensures StartsWith(Strip(lineas[i]), "# ") ==>
      Documento(lineas, i) == [Titulo(1, Strip(lineas[i])[2..])] + Documento(lineas, i + 1)
    ensures StartsWith(Strip(lineas[i]), "## ") ==>
      Documento(lineas, i) == [Titulo(2, Strip(lineas[i])[3..])] + Documento(lineas, i + 1)
  {
    var linea := Strip(lineas[i]);
    if StartsWith(linea, "## ") {
      assert linea[..2][1] == '#';
      assert !EsTitulo1(linea);
    }
  }

  lemma TituloProfundoEsParrafo(lineas: seq<string>, i: nat)
    requires i < |lineas| && StartsWith(Strip(lineas[i]), "###")
    ensures Documento(lineas, i) == [Parrafo(Strip(lineas[i]))] + Documento(lineas, i + 1)
  {
    var linea := Strip(lineas[i]);
    assert linea[..3] == "###";
    assert linea[1] == '#' && linea[2] == '#' && linea[0] == '#';
    assert !EsTitulo1(linea) by { assert linea[..2][1] == '#'; }
    assert !EsTitulo2(linea) by { assert linea[..3][2] == '#'; }
    assert !EsTabla(linea) by { assert linea[0] != '|'; }
    assert !EsAnexo(linea) by { assert linea[0] != '*'; }
  }

  /** The annex ends the document: a heading `Anexos` and one paragraph
      of all the remaining lines as written, joined with newlines; when no
      line holds a newline, splitting that paragraph gives the lines back. */
  lemma AnexoFinal(lineas: seq<string>, i: nat)
    requires i < |lineas|
    requires var linea := Strip(lineas[i]);
      EsAnexo(linea) && !EsTitulo1(linea) && !EsTitulo2(linea) && !EsTabla(linea)
    requires forall k :: i <= k < |lineas| ==> '\n' !in lineas[k]
    ensures |Documento(lineas, i)| == 2
    ensures Documento(lineas, i)[0] == Titulo(2, "Anexos")
    ensures Split(Documento(lineas, i)[1].texto, '\n') == lineas[i..]
  {
    JoinSplit(lineas[i..], '\n');
  }

  /** A line starting `**Anexo A` is none of the earlier cases. */
  lemma AnexoNoEsOtraCosa(linea: string)
    requires EsAnexo(linea)
    ensures !EsTitulo1(linea) && !EsTitulo2(linea) && !EsTabla(linea)
  {
    assert linea[0] == '*';
    assert !EsTitulo1(linea) by { assert linea[..2][0] == '*'; }
    assert !EsTitulo2(linea) by { assert linea[..3][0] == '*'; }
    assert !StartsWith(linea, "| Tramo") by { assert |linea| >= 7 ==> linea[..7][0] == '*'; }
    assert !StartsWith(linea, "| Parámetro") by { assert |linea| >= 11 ==> linea[..11][0] == '*'; }
  }

  /** A table consumes every line up to the first blank line or the end,
      none of which is blank, and the document goes on from there. */
  lemma TablaConsume(lineas: seq<string>, i: nat)
    requires i < |lineas| && EsTabla(Strip(lineas[i]))
    requires !EsTitulo1(Strip(lineas[i])) && !EsTitulo2(Strip(lineas[i]))
    ensures var j := FinTabla(lineas, i);
      && i < j
      && Documento(lineas, i) == BloquesTabla(LineasTabla(lineas, i, j)) + Documento(lineas, j)
      && (forall k :: i <= k < j ==> Strip(lineas[k]) != "")
      && (j == |lineas| || Strip(lineas[j]) == "")
  {
  }

  /** A table of two lines or fewer gives no block; a longer one gives
      the table of its header and of its lines after the second, then an
      empty paragraph. The table has one row more than those lines, all as
      wide as the header: cell `c` of a row is cell `c` of its line, or
      empty when the line is shorter. */
  lemma BloquesTablaSpec(tbl: seq<string>)
    ensures |tbl| <= 2 ==> BloquesTabla(tbl) == []
    ensures |tbl| > 2 ==>
      var b := BloquesTabla(tbl);
      && |b| == 2 && b[1] == Parrafo("") && b[0].Tabla?
      && b[0].columnas == |Celdas(tbl[0])| && b[0].filas[0] == Celdas(tbl[0])
      && |b[0].filas| == 1 + (|tbl| - 2)
      && (forall r, c :: 2 <= r < |tbl| && 0 <= c < b[0].columnas ==>
            |b[0].filas[r - 1]| == b[0].columnas
            && b[0].filas[r - 1][c] == if c < |Celdas(tbl[r])| then Celdas(tbl[r])[c] else "")
  {
  }

  /** Any other line is a paragraph of its stripped text, which is empty
      exactly when the line is blank. */
  lemma LineaComunEsParrafo(lineas: seq<string>, i: nat)
    requires i < |lineas|
    requires var linea := Strip(lineas[i]);
      !EsTitulo1(linea) && !EsTitulo2(linea) && !EsTabla(linea) && !EsAnexo(linea)
    ensures Documento(lineas, i) == [Parrafo(Strip(lineas[i]))] + Documento(lineas, i + 1)
    ensures Strip(lineas[i]) == "" <==> EsBlanco(lineas[i])
  {
    StripEmptyIffBlank(lineas[i]);
  }
}
