/** The theory matrix of the seven state decisions, the per-record breakdown of the
    intensity index (legality + discretion + certainty) and the assembly of the
    analysis sheet and its glossary, as in analisis.py. */
module Analisis {
  import opened Wrappers
  import opened Strings
  import opened Sequences

  // ---------------------------------------------------------------------------
  // Theory matrix
  // ---------------------------------------------------------------------------

  /** One entry of the matrix: who loses, who gains, how, and how certain the transfer is. */
  datatype Teoria = Teoria(
    origen: string,
    destino: string,
    mecanismo: string,
    certezaNivel: string,
    puntosCerteza: nat)

  /** The matrix, in declaration order, keyed by decision category. */
  const MatrizTeorica: seq<(string, Teoria)> := [
    ("Privatización / Concesión",
      Teoria("Patrimonio Estatal", "Empresas Privadas (Rent Seeking)",
             "Subvaluación de activos o canon bajo", "Alta", 30)),
    ("Obra Pública / Contratos",
      Teoria("Contribuyentes (Impuestos Futuros)", "Empresas Contratistas",
             "Sobreprecios o continuación ineficiente", "Media-Alta", 25)),
    ("Tarifas Servicios Públicos",
      Teoria("Usuarios / Población", "Empresas Concesionarias",
             "Aumento de tarifa o subsidio cruzado", "Muy Alta", 40)),
    ("Compensación por Devaluación",
      Teoria("Tesoro Nacional (Población)", "Empresas Endeudadas",
             "Licuación de pasivos privados", "Alta", 30)),
    ("Servicios Privados (Salud/Educación)",
      Teoria("Salario de los Trabajadores", "Empresas de Salud/Educación",
             "Autorización de aumento por encima de inflación", "Alta", 30)),
    ("Jubilaciones / Pensiones",
      Teoria("Jubilados (Ingreso Diferido)", "Estado (Tesoro)",
             "Fórmula de movilidad a la baja / Inflación", "Muy Alta", 40)),
    ("Traslado Impositivo",
      Teoria("Consumidor Final", "Estado / Empresas",
             "Traslado de carga fiscal (Doble imposición)", "Muy Alta", 40))
  ]

  /** What a category missing from the matrix is given. */
  const SinTeoria := Teoria("Indeterminado", "Indeterminado", "No detectado", "Nula", 0)

  /** No category appears twice, so a lookup by category is unambiguous. */
  lemma ClavesUnicas()
    ensures forall i, j :: 0 <= i < j < |MatrizTeorica| ==> MatrizTeorica[i].0 != MatrizTeorica[j].0
  {
  }

  /** Every category carries between 25 and 40 certainty points. */
  lemma PuntosEnRango()
    ensures forall i :: 0 <= i < |MatrizTeorica| ==> 25 <= MatrizTeorica[i].1.puntosCerteza <= 40
  {
  }

  /** Dictionary lookup over an ordered table: the entry of the first row with key `clave`. */
  function Buscar(tabla: seq<(string, Teoria)>, clave: string): (r: Option<Teoria>)
    ensures r.None? <==> forall i :: 0 <= i < |tabla| ==> tabla[i].0 != clave
    ensures r.Some? ==> exists i :: 0 <= i < |tabla| && tabla[i] == (clave, r.value)
  {
    if tabla == [] then None
    else if tabla[0].0 == clave then Some(tabla[0].1)
    else Buscar(tabla[1..], clave)
  }

  // ---------------------------------------------------------------------------
  // Table cells
  // ---------------------------------------------------------------------------

  /** A cell of a table: text, an integer, or nothing (a missing value). */
  datatype Celda = Texto(s: string) | Numero(n: int) | Vacia

  /** The matrix entry a cell names, if the cell is text naming a category. */
  function TeoriaDe(tipo: Celda): (r: Option<Teoria>)
    ensures r.None? <==> forall i :: 0 <= i < |MatrizTeorica| ==> tipo != Texto(MatrizTeorica[i].0)
    ensures r.Some? ==> exists i :: 0 <= i < |MatrizTeorica| && tipo == Texto(MatrizTeorica[i].0) && r.value == MatrizTeorica[i].1
  {
    if tipo.Texto? then Buscar(MatrizTeorica, tipo.s) else None
  }

  /** The category names a cell as a known one. */
  predicate Conocida(tipo: Celda) {
    exists i :: 0 <= i < |MatrizTeorica| && tipo == Texto(MatrizTeorica[i].0)
  }

  /** `aplicar_matriz_teorica`: the matrix entry of the category, or the "Indeterminado" default. */
  function AplicarMatrizTeorica(tipo: Celda): (t: Teoria)
    ensures Conocida(tipo) ==>
      exists i :: 0 <= i < |MatrizTeorica| && tipo == Texto(MatrizTeorica[i].0) && t == MatrizTeorica[i].1
    ensures !Conocida(tipo) ==> t == SinTeoria
  {
    TeoriaDe(tipo).GetOr(SinTeoria)
  }

  /** A category of the matrix gets exactly its own entry. */
  lemma AplicarConocida(i: nat)
    requires i < |MatrizTeorica|
    ensures AplicarMatrizTeorica(Texto(MatrizTeorica[i].0)) == MatrizTeorica[i].1
  {
    ClavesUnicas();
  }

  /** Any other cell gets the default, whose certainty is "Nula" with 0 points. */
  lemma AplicarDesconocida(tipo: Celda)
    requires forall i :: 0 <= i < |MatrizTeorica| ==> tipo != Texto(MatrizTeorica[i].0)
    ensures AplicarMatrizTeorica(tipo) == SinTeoria
    ensures AplicarMatrizTeorica(tipo).origen == "Indeterminado" == AplicarMatrizTeorica(tipo).destino
    ensures AplicarMatrizTeorica(tipo).mecanismo == "No detectado"
    ensures AplicarMatrizTeorica(tipo).certezaNivel == "Nula" && AplicarMatrizTeorica(tipo).puntosCerteza == 0
  {
  }

  // ---------------------------------------------------------------------------
  // Index breakdown
  // ---------------------------------------------------------------------------

  /** The five columns `desglosar_indice` adds to a record. */
  datatype Desglose = Desglose(
    idxLegalidad: nat,
    idxDiscrecionalidad: nat,
    idxCerteza: nat,
    indiceTotal: nat,
    elaboracion: string)

  /** The sentinel category of records no decision was identified for. */
  const NoIdentificado := "No identificado"
  const NoAplica := "No aplica"
  /** Every analysed act is formally legal and discretionary: both components are fixed. */
  const PuntosLegalidad: nat := 30
  const PuntosDiscrecionalidad: nat := 30

  /** The audit text up to the total: `Legal(<l>) + Discrec(<d>) + Certeza <nivel>(<c>) = `. */
  function Sumandos(legal: nat, discrecional: nat, nivel: string, certeza: nat): (s: string)
    ensures |s| > 6 && s[..6] == "Legal(" && s[|s| - 1] == ' '
  {
    var cabeza := "Legal(" + NatToString(legal) + ") + Discrec(" + NatToString(discrecional)
      + ") + Certeza " + nivel + "(" + NatToString(certeza) + ")";
    assert (cabeza + " = ")[|cabeza| + 2] == ' ';
    assert (cabeza + " = ")[..6] == cabeza[..6] == "Legal(";
    cabeza + " = "
  }

  /** The audit text `Legal(<l>) + Discrec(<d>) + Certeza <nivel>(<c>) = <total>%`: whatever
      the addends, the total is read back from the end of it. */
  function Elaboracion(legal: nat, discrecional: nat, nivel: string, certeza: nat, total: nat): (e: string)
    ensures |e| > 6 && e[..6] == "Legal(" && e[|e| - 1] == '%'
    ensures LeerTotal(e) == Some(total)
  {
    var sumandos := Sumandos(legal, discrecional, nivel, certeza);
    LeerTotalTras(sumandos, total);
    PrefixOfConcat(sumandos, NatToString(total), 6);
    PrefixOfConcat(sumandos + NatToString(total), "%", 6);
    sumandos + NatToString(total) + "%"
  }

  /** A number written after a space and followed by `%` is read back as itself. */
  lemma LeerTotalTras(pre: string, total: nat)
    requires |pre| > 0 && pre[|pre| - 1] == ' '
    ensures LeerTotal(pre + NatToString(total) + "%") == Some(total)
  {
    var digits := NatToString(total);
    var e := pre + digits + "%";
    assert e[..|e| - 1] == pre + digits;
    TrailingDigitsAfter(pre, digits);
    ParseNatToString(total);
  }

  /** `desglosar_indice`: the sentinel scores nothing; every other record scores
      legality + discretion + the certainty points of its category (0 when unknown). */
  function DesglosarIndice(tipo: Celda): (d: Desglose)
    ensures d.indiceTotal == d.idxLegalidad + d.idxDiscrecionalidad + d.idxCerteza
    ensures d.indiceTotal <= 100
    ensures d.elaboracion == NoAplica <==> tipo == Texto(NoIdentificado)
  {
    if tipo == Texto(NoIdentificado) then
      Desglose(0, 0, 0, 0, NoAplica)
    else
      PuntosEnRango();
      var datos := TeoriaDe(tipo);
      var pCerteza := if datos.Some? then datos.value.puntosCerteza else 0;
      var certezaTxt := if datos.Some? then datos.value.certezaNivel else "Nula";
      var total := PuntosLegalidad + PuntosDiscrecionalidad + pCerteza;
      Desglose(PuntosLegalidad, PuntosDiscrecionalidad, pCerteza, total,
               Elaboracion(PuntosLegalidad, PuntosDiscrecionalidad, certezaTxt, pCerteza, total))
  }

  /** The sentinel gets zero in every component and no formula. */
  lemma DesglosarNoIdentificado()
    ensures DesglosarIndice(Texto(NoIdentificado)) == Desglose(0, 0, 0, 0, NoAplica)
  {
  }

  /** Any other record: 30 + 30 + the certainty of the entry `aplicar_matriz_teorica` gives it,
      and the formula shows those very numbers. */
  lemma DesglosarSegunMatriz(tipo: Celda)
    requires tipo != Texto(NoIdentificado)
    ensures var d := DesglosarIndice(tipo);
            var t := AplicarMatrizTeorica(tipo);
            d.idxLegalidad == 30 && d.idxDiscrecionalidad == 30
            && d.idxCerteza == t.puntosCerteza
            && d.elaboracion == Elaboracion(30, 30, t.certezaNivel, t.puntosCerteza, d.indiceTotal)
  {
  }

  /** Bounds: a known category scores 85 to 100, any other non-sentinel record exactly 60. */
  lemma IndiceAcotado(tipo: Celda)
    requires tipo != Texto(NoIdentificado)
    ensures Conocida(tipo) ==> 85 <= DesglosarIndice(tipo).indiceTotal <= 100
    ensures !Conocida(tipo) ==> DesglosarIndice(tipo).indiceTotal == 60
  {
    PuntosEnRango();
  }

  /** The index read back from the end of an audit formula `... = <n>%`. */
  function LeerTotal(formula: string): Option<nat> {
    if |formula| > 0 && formula[|formula| - 1] == '%' then
      var ds := TrailingDigits(formula[..|formula| - 1]);
      if ds == [] then None else Some(ParseNat(ds))
    else None
  }

  /** The formula states the same total that is stored as the index. */
  lemma ElaboracionLegible(tipo: Celda)
    requires tipo != Texto(NoIdentificado)
    ensures LeerTotal(DesglosarIndice(tipo).elaboracion) == Some(DesglosarIndice(tipo).indiceTotal)
  {
    var d := DesglosarIndice(tipo);
    var t := AplicarMatrizTeorica(tipo);
    DesglosarSegunMatriz(tipo);
  }

  /** The sentinel's "No aplica" holds no total. */
  lemma NoAplicaSinTotal()
    ensures LeerTotal(DesglosarIndice(Texto(NoIdentificado)).elaboracion) == None
  {
  }

  // ---------------------------------------------------------------------------
  // Tables and the bulletin analysis
  // ---------------------------------------------------------------------------

  /** A record: column name to cell. */
  type Fila = map<string, Celda>

  /** A data frame: its column names in order and its records in order. */
  datatype Tabla = Tabla(columnas: seq<string>, filas: seq<Fila>)

  /** Every record has a cell in every column, as in any data frame. */
  ghost predicate BienFormada(t: Tabla) {
    forall i, c :: 0 <= i < |t.filas| && c in t.columnas ==> c in t.filas[i]
  }

  const TipoDecision := "tipo_decision"
  const IndiceTotal := "indice_total"

  /** Columns added from the theory matrix, in the order of its entries' keys. */
  const ColumnasTeoria: seq<string> := ["origen", "destino", "mecanismo", "certeza_nivel", "puntos_certeza"]

  /** Columns added from the breakdown. */
  const ColumnasDesglose: seq<string> :=
    ["idx_legalidad", "idx_discrecionalidad", "idx_certeza", "indice_total", "elaboracion_indice"]

  /** The column order of the analysis sheet. */
  const ColumnasOrdenadas: seq<string> := [
    "fecha", "seccion", "tipo_decision", "indice_total", "elaboracion_indice",
    "origen", "destino", "mecanismo", "detalle", "link"
  ]

  /** The columns `json_normalize` makes of a matrix entry. */
  function CeldasTeoria(t: Teoria): (m: Fila)
    ensures forall c :: c in m <==> c in ColumnasTeoria
    ensures "origen" in m && m["origen"] == Texto(t.origen)
    ensures "destino" in m && m["destino"] == Texto(t.destino)
    ensures "mecanismo" in m && m["mecanismo"] == Texto(t.mecanismo)
    ensures "certeza_nivel" in m && m["certeza_nivel"] == Texto(t.certezaNivel)
    ensures "puntos_certeza" in m && m["puntos_certeza"] == Numero(t.puntosCerteza)
  {
    map[
      "origen" := Texto(t.origen),
      "destino" := Texto(t.destino),
      "mecanismo" := Texto(t.mecanismo),
      "certeza_nivel" := Texto(t.certezaNivel),
      "puntos_certeza" := Numero(t.puntosCerteza)
    ]
  }

  /** The columns of a breakdown. */
  function CeldasDesglose(d: Desglose): (m: Fila)
    ensures forall c :: c in m <==> c in ColumnasDesglose
    ensures "idx_legalidad" in m && m["idx_legalidad"] == Numero(d.idxLegalidad)
    ensures "idx_discrecionalidad" in m && m["idx_discrecionalidad"] == Numero(d.idxDiscrecionalidad)
    ensures "idx_certeza" in m && m["idx_certeza"] == Numero(d.idxCerteza)
    ensures IndiceTotal in m && m[IndiceTotal] == Numero(d.indiceTotal)
    ensures "elaboracion_indice" in m && m["elaboracion_indice"] == Texto(d.elaboracion)
  {
    map[
      "idx_legalidad" := Numero(d.idxLegalidad),
      "idx_discrecionalidad" := Numero(d.idxDiscrecionalidad),
      "idx_certeza" := Numero(d.idxCerteza),
      "indice_total" := Numero(d.indiceTotal),
      "elaboracion_indice" := Texto(d.elaboracion)
    ]
  }

  /** A record with the matrix entry and breakdown of its own category appended. */
  function EnriquecerFila(f: Fila): (r: Fila)
    requires TipoDecision in f
    ensures forall c :: c in r <==> c in f || c in ColumnasTeoria || c in ColumnasDesglose
    ensures forall c :: c in f && c !in ColumnasTeoria && c !in ColumnasDesglose ==> r[c] == f[c]
  {
    f + CeldasTeoria(AplicarMatrizTeorica(f[TipoDecision])) + CeldasDesglose(DesglosarIndice(f[TipoDecision]))
  }

  /** The added column groups do not overlap each other nor the category column. */
  lemma ColumnasDisjuntas()
    ensures forall c :: c in ColumnasTeoria ==> c !in ColumnasDesglose
    ensures TipoDecision !in ColumnasTeoria && TipoDecision !in ColumnasDesglose
  {
  }

  /** An enriched record keeps its category and carries, cell by cell, the matrix entry
      and the breakdown of that category; its index is the sum of its three components. */
  lemma FilaEnriquecida(f: Fila)
    requires TipoDecision in f
    ensures var r := EnriquecerFila(f);
            var t := AplicarMatrizTeorica(f[TipoDecision]);
            r[TipoDecision] == f[TipoDecision]
            && r["origen"] == Texto(t.origen) && r["destino"] == Texto(t.destino)
            && r["mecanismo"] == Texto(t.mecanismo)
            && r["certeza_nivel"] == Texto(t.certezaNivel) && r["puntos_certeza"] == Numero(t.puntosCerteza)
    ensures var r := EnriquecerFila(f);
            var d := DesglosarIndice(f[TipoDecision]);
            r["idx_legalidad"] == Numero(d.idxLegalidad)
            && r["idx_discrecionalidad"] == Numero(d.idxDiscrecionalidad)
            && r["idx_certeza"] == Numero(d.idxCerteza)
            && r[IndiceTotal] == Numero(d.indiceTotal)
            && r["elaboracion_indice"] == Texto(d.elaboracion)
            && r[IndiceTotal].n == r["idx_legalidad"].n + r["idx_discrecionalidad"].n + r["idx_certeza"].n
            && 0 <= r[IndiceTotal].n <= 100
  {
    var tipo := f[TipoDecision];
    var ct := CeldasTeoria(AplicarMatrizTeorica(tipo));
    var cd := CeldasDesglose(DesglosarIndice(tipo));
    var r := EnriquecerFila(f);
    assert r == f + ct + cd;
    ColumnasDisjuntas();
    assert forall c :: c in ColumnasTeoria ==> r[c] == ct[c];
    assert r[TipoDecision] == f[TipoDecision];
  }

  /** The frame's columns after the two concatenations: the old ones, then each added
      name the frame did not already have. */
  function AgregarColumnas(cols: seq<string>, nuevas: seq<string>): (r: seq<string>)
    ensures |cols| <= |r| && r[..|cols|] == cols
    ensures forall c :: c in r <==> c in cols || c in nuevas
    ensures IsSubsequence(r[|cols|..], nuevas)
  {
    var extra := Filter(nuevas, c => c !in cols);
    FilterIsSubsequence(nuevas, c => c !in cols);
    assert (cols + extra)[|cols|..] == extra;
    assert forall c :: c in extra ==> c in nuevas by {
      forall c | c in extra ensures c in nuevas {
        var i :| 0 <= i < |extra| && extra[i] == c;
      }
    }
    assert forall c :: c in nuevas && c !in cols ==> c in extra by {
      forall c | c in nuevas && c !in cols ensures c in extra {
        var i :| 0 <= i < |nuevas| && nuevas[i] == c;
      }
    }
    cols + extra
  }

  /** `cols_final`: the names of the sheet order that the frame has, in the sheet order,
      and exactly those. */
  function ColumnasFinales(cols: seq<string>): (r: seq<string>)
    ensures IsSubsequence(r, ColumnasOrdenadas)
    ensures forall c :: c in r <==> c in ColumnasOrdenadas && c in cols
  {
    var r := Filter(ColumnasOrdenadas, c => c in cols);
    FilterIsSubsequence(ColumnasOrdenadas, c => c in cols);
    assert forall c :: c in r ==> c in ColumnasOrdenadas && c in cols by {
      forall c | c in r ensures c in ColumnasOrdenadas && c in cols {
        var i :| 0 <= i < |r| && r[i] == c;
      }
    }
    assert forall c :: c in ColumnasOrdenadas && c in cols ==> c in r by {
      forall c | c in ColumnasOrdenadas && c in cols ensures c in r {
        var i :| 0 <= i < |ColumnasOrdenadas| && ColumnasOrdenadas[i] == c;
      }
    }
    r
  }

  /** A frame that has every sheet column gets the whole sheet order. */
  lemma ColumnasFinalesCompletas(cols: seq<string>)
    requires forall i :: 0 <= i < |ColumnasOrdenadas| ==> ColumnasOrdenadas[i] in cols
    ensures ColumnasFinales(cols) == ColumnasOrdenadas
  {
    FilterKeepsAll(ColumnasOrdenadas, c => c in cols);
  }

  /** `df[cols_final]` for one record. */
  function Proyectar(f: Fila, cols: seq<string>): (r: Fila)
    ensures forall c :: c in r <==> c in f && c in cols
    ensures forall c :: c in r ==> r[c] == f[c]
  {
    map c | c in f && c in cols :: f[c]
  }

  /** One row of the glossary sheet. */
  datatype EntradaGlosario = EntradaGlosario(columna: string, descripcion: string)

  const Glosario: seq<EntradaGlosario> := [
    EntradaGlosario("fecha", "Fecha de publicación del Boletín Oficial analizado."),
    EntradaGlosario("seccion", "Sección del BORA (1ra = Legislación, 3ra = Contrataciones)."),
    EntradaGlosario("tipo_decision",
      "Clasificación teórica según las 7 decisiones de 'Great Corruption': 1. Privatización/Concesión, 2. Obra Pública, 3. Tarifas, 4. Devaluación, 5. Servicios Privados, 6. Jubilaciones, 7. Traslado Impositivo."),
    EntradaGlosario("indice_total",
      "Intensidad del fenómeno (0-100%). Suma de Legalidad + Discrecionalidad + Certeza."),
    EntradaGlosario("elaboracion_indice",
      "Fórmula desglosada del cálculo del índice. Ver artículo: https://www.emerald.com/jfc/article-abstract/28/2/580/224032/Great-corruption-theory-of-corrupt-phenomena?redirectedFrom=fulltext"),
    EntradaGlosario("origen",
      "Sector que financia o pierde ingresos en la transferencia (Víctima económica)."),
    EntradaGlosario("destino", "Sector que recibe la renta o beneficio (Beneficiario / Rent Seeking)."),
    EntradaGlosario("mecanismo",
      "Herramienta técnica/legal usada para la transferencia (ej. Subsidio, Tarifa)."),
    EntradaGlosario("detalle", "Resumen extraído de la norma en el Boletín Oficial."),
    EntradaGlosario("link", "Enlace a la fuente oficial.")
  ]

  /** The glossary's "Columna" values, in order. */
  function ColumnasGlosario(g: seq<EntradaGlosario>): (r: seq<string>)
    ensures |r| == |g| && forall i :: 0 <= i < |g| ==> r[i] == g[i].columna
  {
    seq(|g|, i requires 0 <= i < |g| => g[i].columna)
  }

  /** The glossary describes exactly the sheet's columns, one row each, in sheet order. */
  lemma GlosarioDescribeHoja()
    ensures ColumnasGlosario(Glosario) == ColumnasOrdenadas
  {
  }

  /** What `analizar_boletin` hands back: the enriched frame, the sheet written out
      (`df_final`) and the glossary. */
  datatype Informe = Informe(tabla: Tabla, hoja: Tabla, glosario: seq<EntradaGlosario>)

  /** Indexing a column the frame lacks. */
  datatype Error = ColumnaFaltante(nombre: string)

  /** The two `concat`s: every record enriched, the added names appended to the columns. */
  function Enriquecer(t: Tabla): (r: Tabla)
    requires BienFormada(t) && TipoDecision in t.columnas
    ensures r.columnas == AgregarColumnas(t.columnas, ColumnasTeoria + ColumnasDesglose)
    ensures |r.filas| == |t.filas|
    ensures forall i :: 0 <= i < |t.filas| ==> r.filas[i] == EnriquecerFila(t.filas[i])
    ensures BienFormada(r)
  {
    var r := Tabla(AgregarColumnas(t.columnas, ColumnasTeoria + ColumnasDesglose), EnriquecerFilas(t.filas));
    EnriquecidaBienFormada(t, r);
    r
  }

  /** `DataFrame.apply` of the enrichment, record by record, in record order. */
  function EnriquecerFilas(filas: seq<Fila>): (r: seq<Fila>)
    requires forall i :: 0 <= i < |filas| ==> TipoDecision in filas[i]
    ensures |r| == |filas| && forall i :: 0 <= i < |filas| ==> r[i] == EnriquecerFila(filas[i])
  {
    seq(|filas|, i requires 0 <= i < |filas| => EnriquecerFila(filas[i]))
  }

  /** Every enriched record has every column of the enriched frame. */
  lemma EnriquecidaBienFormada(t: Tabla, r: Tabla)
    requires BienFormada(t) && TipoDecision in t.columnas
    requires r.columnas == AgregarColumnas(t.columnas, ColumnasTeoria + ColumnasDesglose)
    requires |r.filas| == |t.filas|
    requires forall i :: 0 <= i < |t.filas| ==> r.filas[i] == EnriquecerFila(t.filas[i])
    ensures BienFormada(r)
  {
    forall i, c | 0 <= i < |r.filas| && c in r.columnas ensures c in r.filas[i] {
      assert c in t.columnas || c in ColumnasTeoria || c in ColumnasDesglose;
    }
  }

  /** `df[cols_final]`: the frame cut down to the sheet's columns. */
  function Seleccionar(t: Tabla): (r: Tabla)
    ensures r.columnas == ColumnasFinales(t.columnas)
    ensures |r.filas| == |t.filas|
    ensures forall i :: 0 <= i < |t.filas| ==> r.filas[i] == Proyectar(t.filas[i], r.columnas)
    ensures BienFormada(t) ==> BienFormada(r)
  {
    var finales := ColumnasFinales(t.columnas);
    Tabla(finales, seq(|t.filas|, i requires 0 <= i < |t.filas| => Proyectar(t.filas[i], finales)))
  }

  /** `analizar_boletin` without the spreadsheet write. */
  function AnalizarBoletin(t: Tabla): (r: Result<Informe, Error>)
    requires BienFormada(t)
    ensures r.Failure? <==> TipoDecision !in t.columnas
    ensures r.Failure? ==> r.error == ColumnaFaltante(TipoDecision)
    ensures r.Success? ==>
      |r.value.tabla.filas| == |t.filas| && |r.value.hoja.filas| == |t.filas|
      && BienFormada(r.value.tabla) && BienFormada(r.value.hoja)
      && |t.columnas| <= |r.value.tabla.columnas|
      && r.value.tabla.columnas[..|t.columnas|] == t.columnas
      && r.value.glosario == Glosario
  {
    if TipoDecision !in t.columnas then Failure(ColumnaFaltante(TipoDecision))
    else
      var enriquecida := Enriquecer(t);
      Success(Informe(enriquecida, Seleccionar(enriquecida), Glosario))
  }

  /** The sheet's columns: a subsequence of the fixed order, holding every name of that
      order the enriched frame has, so always the category, the index, its formula and
      the three matrix columns, plus whichever of fecha, seccion, detalle and link the
      bulletin had. */
  lemma HojaColumnas(t: Tabla)
    requires BienFormada(t) && TipoDecision in t.columnas
    ensures var h := AnalizarBoletin(t).value.hoja.columnas;
            IsSubsequence(h, ColumnasOrdenadas)
            && (forall c :: c in h <==> c in ColumnasOrdenadas && (c in t.columnas || c in ColumnasTeoria || c in ColumnasDesglose))
  {
    var cols := Enriquecer(t).columnas;
    assert AnalizarBoletin(t).value.hoja.columnas == ColumnasFinales(cols);
  }

  /** The sheet record of a bulletin record holds that record's formula and the
      origin, destination and mechanism of its category. */
  lemma CeldasDeHoja(t: Tabla, i: nat)
    requires BienFormada(t) && TipoDecision in t.columnas && i < |t.filas|
    ensures var h := AnalizarBoletin(t).value.hoja.filas[i];
            var tipo := t.filas[i][TipoDecision];
            var e := AplicarMatrizTeorica(tipo);
            "elaboracion_indice" in h && h["elaboracion_indice"] == Texto(DesglosarIndice(tipo).elaboracion)
            && "origen" in h && h["origen"] == Texto(e.origen)
            && "destino" in h && h["destino"] == Texto(e.destino)
            && "mecanismo" in h && h["mecanismo"] == Texto(e.mecanismo)
  {
    var enriquecida := Enriquecer(t);
    var hoja := Seleccionar(enriquecida);
    FilaEnriquecida(t.filas[i]);
    assert forall c :: c in ColumnasTeoria + ColumnasDesglose ==> c in enriquecida.columnas;
    assert "elaboracion_indice" in ColumnasOrdenadas && "origen" in ColumnasOrdenadas;
    assert "destino" in ColumnasOrdenadas && "mecanismo" in ColumnasOrdenadas;
  }

  /** A bulletin with a date, a section, a summary and a link gets a sheet with all
      ten columns, in the sheet order. */
  lemma HojaCompleta(t: Tabla)
    requires BienFormada(t) && TipoDecision in t.columnas
    requires "fecha" in t.columnas && "seccion" in t.columnas && "detalle" in t.columnas && "link" in t.columnas
    ensures AnalizarBoletin(t).value.hoja.columnas == ColumnasOrdenadas
  {
    var cols := Enriquecer(t).columnas;
    forall i | 0 <= i < |ColumnasOrdenadas| ensures ColumnasOrdenadas[i] in cols {
      assert ColumnasOrdenadas[i] in t.columnas || ColumnasOrdenadas[i] in ColumnasTeoria + ColumnasDesglose;
    }
    ColumnasFinalesCompletas(cols);
  }

  /** Record by record: the enriched frame holds the record with its own enrichment,
      and the sheet holds that record cut down to the sheet's columns, with its index. */
  lemma FilasAnalizadas(t: Tabla, i: nat)
    requires BienFormada(t) && TipoDecision in t.columnas && i < |t.filas|
    ensures var inf := AnalizarBoletin(t).value;
            inf.tabla.filas[i] == EnriquecerFila(t.filas[i])
            && inf.hoja.filas[i] == Proyectar(inf.tabla.filas[i], inf.hoja.columnas)
            && IndiceTotal in inf.hoja.filas[i]
            && inf.hoja.filas[i][IndiceTotal] == Numero(DesglosarIndice(t.filas[i][TipoDecision]).indiceTotal)
  {
    var enriquecida := Enriquecer(t);
    var hoja := Seleccionar(enriquecida);
    FilaEnriquecida(t.filas[i]);
    assert IndiceTotal in ColumnasOrdenadas && IndiceTotal in ColumnasDesglose;
    assert IndiceTotal in hoja.columnas;
  }
}
