# Great-corruption bulletin analysis and the Monteverde alert matrix

This project models two analyses of the repository in Dafny and proves properties about them.

- `analisis.py` tags records of an official bulletin with the theory matrix of seven state
  decisions (`MATRIZ_TEORICA`). The matrix gives each decision who loses, who gains, the
  mechanism, a certainty level and certainty points.
  - `desglosar_indice` breaks each record's intensity index into legality, discretion and
    certainty, and writes the formula `Legal(30) + Discrec(30) + Certeza <level>(<points>) = <total>%`.
  - `analizar_boletin` appends those columns to the bulletin frame. It cuts the frame down to
    the fixed sheet order and hands back the glossary that describes that sheet.
- `monitor_completo_es.py` (`generar_matriz_monteverde`) flags every awarded contract whose
  upper-cased title contains one of the keywords EMERGENCIA, URGENCIA, DIRECTA or EXCEPCIONAL.
  It pairs each flagged contract with every row of the BOE legislation table, one alert per pair.

Modules:

- `Wrappers`: `Option`, `Result`.
- `Strings`: decimal rendering and reading back, Python's `in` on strings, ASCII upper-casing.
- `Sequences`: order-preserving filtering, that is, a list comprehension with an `if`.
- `Analisis`: `analisis.py`. The Python code there is pure: it maps rows through lookups, so
  the model is made of datatypes, functions and lemmas.
  - A data frame is a `Tabla`: its column names in order and its records, each a map from
    column name to `Celda`. A cell is text, an integer or empty.
- `Monitor`: `monitor_completo_es.py`. The two nested loops that append to `alertas` are
  methods with loop invariants (`GenerarMatrizMonteverde`, `AnadirAlertas`).
  - They are proved equal to the flagged contracts crossed with the laws, in contract-major
    order (`ProductoCruzado`).
  - The CSV files read and written are lists of records passed in and returned.
  - The current date is the parameter `hoy`.

What the code does and does not do:

- No keyword classifier exists. `tipo_decision` is an input column that the code only looks up.
- No discretion keyword scan exists. The discretion component is the constant 30.
- No risk tier is computed.
- Only the sentinel `"No identificado"` scores 0 with the formula `"No aplica"`.
- Any other category missing from the matrix scores 30 + 30 + 0 = 60, with certainty `"Nula"`
  (`IndiceAcotado`).

## Model

| member | source | states |
|---|---|---|
| Analisis.ClavesUnicas | analisis.py:16-66 | no decision category is declared twice in the matrix, so a lookup is unambiguous |
| Analisis.PuntosEnRango | analisis.py:16-66 | every category of the matrix carries between 25 and 40 certainty points |
| Analisis.Buscar | analisis.py:70-79 | `dict.get`: nothing exactly when no entry has the key; otherwise an entry stored under that key |
| Analisis.TeoriaDe | analisis.py:96 | the matrix entry of a cell: found exactly when the cell is the text of one of the seven categories, and then that category's entry |
| Analisis.AplicarMatrizTeorica | analisis.py:69-79 | a known category gets the entry the matrix stores under that very category; anything else gets the "Indeterminado" default |
| Analisis.AplicarConocida | analisis.py:69-79 | each of the seven categories gets exactly its own entry |
| Analisis.AplicarDesconocida | analisis.py:72-78 | any other cell gets origin and destination "Indeterminado", mechanism "No detectado", certainty "Nula" with 0 points |
| Analisis.DesglosarIndice | analisis.py:82-111 | the total is the sum of its three components and at most 100; the formula is "No aplica" exactly for the "No identificado" sentinel |
| Analisis.DesglosarNoIdentificado | analisis.py:83-92 | the sentinel scores 0 in every component and total, with formula "No aplica" |
| Analisis.DesglosarSegunMatriz | analisis.py:94-101 | any other record scores legality 30, discretion 30 and the certainty points of its matrix entry; the formula shows those numbers and the level |
| Analisis.IndiceAcotado | analisis.py:94-100 | a known category totals 85 to 100; any other non-sentinel record totals exactly 60 |
| Analisis.Elaboracion | analisis.py:101 | the formula starts with `Legal(` and ends with `%`, and whatever the addends, reading the number before that `%` gives back the total written there |
| Analisis.ElaboracionLegible | analisis.py:100-101 | the formula of every non-sentinel record states the same total that is stored as `indice_total` |
| Analisis.NoAplicaSinTotal | analisis.py:90 | the sentinel's formula holds no total |
| Analisis.CeldasTeoria | analisis.py:121-122 | the normalized matrix entry has exactly the five matrix columns: origin, destination, mechanism, certainty level and certainty points, each copied from the entry |
| Analisis.CeldasDesglose | analisis.py:103-110 | the breakdown has exactly the five breakdown columns: `idx_legalidad`, `idx_discrecionalidad`, `idx_certeza`, `indice_total` and `elaboracion_indice`, each holding its component |
| Analisis.EnriquecerFila | analisis.py:121-128 | an enriched record has its own columns plus the ten added ones; the columns it already had and that are not added keep their values |
| Analisis.FilaEnriquecida | analisis.py:121-128 | an enriched record keeps its category; it takes origin, destination, mechanism, certainty level and points from its category's entry; its `idx_legalidad`, `idx_discrecionalidad`, `idx_certeza`, `indice_total` and `elaboracion_indice` are those of the category's breakdown, and its `indice_total` is the sum of the three index columns and lies in 0..100 |
| Analisis.AgregarColumnas | analisis.py:123-128 | the columns after the concatenations start with the old columns, the new ones follow in the order they were added, and a name is among them exactly when it was an old or an added one |
| Analisis.EnriquecidaBienFormada | analisis.py:121-128 | after enrichment every record has a cell in every column of the frame |
| Analisis.EnriquecerFilas | analisis.py:121-127 | every record is enriched, in place and in order |
| Analisis.Enriquecer | analisis.py:121-128 | the enriched frame has the same number of records, each record enriched in place, and is a well-formed frame |
| Analisis.ColumnasFinales | analisis.py:173-185 | `cols_final` keeps the order of `columnas_ordenadas` and holds exactly the names of that order that the frame has |
| Analisis.ColumnasFinalesCompletas | analisis.py:185 | a frame with every sheet column gets the whole sheet order |
| Analisis.Proyectar | analisis.py:186 | a record of `df[cols_final]` holds exactly the selected columns, with unchanged values |
| Analisis.Seleccionar | analisis.py:185-186 | the sheet has the columns of `cols_final` and every record cut down to them; a well-formed frame gives a well-formed sheet |
| Analisis.GlosarioDescribeHoja | analisis.py:131-184 | the glossary describes exactly the ten sheet columns, one row each, in sheet order |
| Analisis.AnalizarBoletin | analisis.py:119-202 | fails exactly when the frame lacks `tipo_decision`, the column that is indexed first; otherwise it returns the enriched frame, the sheet and the glossary, with as many records as the input, the input columns first, every frame well formed |
| Analisis.HojaColumnas | analisis.py:173-186 | the sheet's columns follow the sheet order; a name appears in it exactly when it is in that order and was in the bulletin or added by the matrix or the breakdown |
| Analisis.CeldasDeHoja | analisis.py:119-186 | in every record of the sheet, the formula `elaboracion_indice` is that of the record's category, and origin, destination and mechanism (when the sheet has them) are the category's matrix entry |
| Analisis.HojaCompleta | analisis.py:173-186 | a bulletin with date, section, summary and link gives a sheet with exactly the ten columns in sheet order |
| Analisis.FilasAnalizadas | analisis.py:119-186 | record `i` of the output is record `i` of the input, enriched, and the sheet's record `i` is that record cut down to the sheet columns, with its index |
| Monitor.ContieneAlguna | monitor_completo_es.py:23 | `any(k in obj for k in keywords)`: true exactly when one of the keywords occurs in the text |
| Monitor.EsSospechoso | monitor_completo_es.py:22-23 | a contract is flagged exactly when it has a title and one of the keywords occurs in the upper-cased title |
| Monitor.PalabrasClaveEnMayusculas | monitor_completo_es.py:15 | the keywords are upper case, so upper-casing leaves them unchanged |
| Monitor.SinTituloNoSeMarca | monitor_completo_es.py:22-23 | a contract without a title is read as "" and is never flagged |
| Monitor.SospechosoEnCualquierCaja | monitor_completo_es.py:22-23 | a title containing a keyword written in any ASCII letter case is flagged |
| Monitor.ConClaveSeMarca | monitor_completo_es.py:15-23 | a title containing a keyword exactly as listed is flagged |
| Monitor.NuevaAlerta | monitor_completo_es.py:28-35 | an alert has the current date, the contract's title (or "N/D"), its body (or "Administración Pública"), the fixed risk type and phase, and the law's title |
| Monitor.AlertasDe | monitor_completo_es.py:27-35 | a flagged contract yields one alert per law, in law order |
| Monitor.SospechosoDeLaTabla | monitor_completo_es.py:20-23 | every contract taken as flagged is a contract of the table that carries a keyword |
| Monitor.SospechososRepetidos | monitor_completo_es.py:20-23 | a flagged contract listed several times in the table is taken as many times; an unflagged one never |
| Monitor.ProductoCruzado | monitor_completo_es.py:20-35 | the cross product of the flagged contracts and the laws has one alert per pair |
| Monitor.ProductoEn | monitor_completo_es.py:20-35 | alert `i * #laws + j` of the product pairs contract `i` with law `j` |
| Monitor.ProductoEnPosicion | monitor_completo_es.py:20-35 | alert `k` of the product pairs contract `k / #laws` with law `k % #laws` |
| Monitor.MatrizAlertas | monitor_completo_es.py:20-35 | what the loops append after the contracts of the table is the flagged contracts, in table order, crossed with the laws |
| Monitor.AnadirAlertas | monitor_completo_es.py:27-35 | the inner loop appends exactly the contract's alerts, one per law, in law order, after what was there |
| Monitor.GenerarMatrizMonteverde | monitor_completo_es.py:4-43 | the rows written are the flagged contracts crossed with the laws; the header is the six alert columns, or `fecha_alerta, tipo_riesgo` when there is no alert |
| Monitor.NumeroAlertas | monitor_completo_es.py:20-35 | there are (#flagged contracts) × (#laws) alerts |
| Monitor.AlertaEn | monitor_completo_es.py:20-35 | alert `i * #laws + j` is flagged contract `i` with law `j` |
| Monitor.OrdenAlertas | monitor_completo_es.py:20-35 | for flagged contracts `i1 < i2` and any laws `j1`, `j2`, the alert of (`i1`, `j1`) is written before the alert of (`i2`, `j2`); for one contract and laws `j1 < j2`, the alert of `j1` is written before that of `j2`; each of the two is the alert built from its contract and law |
| Monitor.CamposDeAlerta | monitor_completo_es.py:28-35 | alert `k` belongs to a flagged contract of the table and links law `k % #laws`, with the fixed risk type, phase and date |
| Monitor.SinAlertas | monitor_completo_es.py:38-43 | no alert is written exactly when there is no law or no contract is flagged |
| Strings.NatToString | analisis.py:101 | a number is written as a non-empty run of decimal digits with no leading zero |
| Strings.ParseNatToString | analisis.py:101 | reading back a written number gives the number |
| Strings.TrailingDigitsAfter | analisis.py:101 | digits written right after a non-digit are exactly the trailing run of digits |
| Strings.Contains | monitor_completo_es.py:23 | `sub in s` holds exactly when `sub` occurs at some position of `s` |
| Strings.Upper | monitor_completo_es.py:22 | ASCII upper-casing, standing in for `.upper()`: it keeps the length, upper-cases each ASCII letter and leaves every other character alone |
| Strings.UpperFixesUpper | monitor_completo_es.py:22 | upper-casing an upper-case string changes nothing |
| Strings.UpperKeepsOccurrence | monitor_completo_es.py:22-23 | an occurrence of a word survives upper-casing, as the upper-cased word at the same position |
| Sequences.Filter | analisis.py:185 | a comprehension with `if` keeps only elements that pass and every element that passes |
| Sequences.FilterMultiplicity | analisis.py:185 | the comprehension keeps every copy of an element that passes and no copy of one that does not |
| Sequences.FilterIsSubsequence | analisis.py:185 | the comprehension keeps the original order |
| Sequences.FilterKeepsAll | analisis.py:185 | when every element passes, the comprehension gives the list back unchanged |
| Sequences.FilterEmpty | monitor_completo_es.py:38 | filtering gives nothing exactly when no element passes |

## Left out

- Spreadsheet and CSV input and output are not modelled: `pd.read_csv`, `ExcelWriter`, sheet
  names, column widths, `DATA_DIR`, the output file name and the `utf-8-sig` encoding. The
  model returns the written tables as values.
- `print` is not modelled, and neither is the early return when a CSV file cannot be read.
- `datetime.now()` is not modelled. The date is the parameter `hoy` and is not formatted.
- Analisis.AnalizarBoletin: the output path is not returned, because it only names the file.
- Analisis.AgregarColumnas: `pd.concat` would add a second column of the same name when the
  bulletin already has one of the added columns. The model keeps one column, whose value is the
  added one.
- pandas on a frame with no records is not modelled. `json_normalize` of an empty list adds no
  columns there, while the model always adds the ten columns.
- Missing values (NaN) are not modelled. A cell is text, an integer or empty, and an empty cell
  matches no category. The model does not capture that `str(NaN)` is the text "nan".
- Strings.Upper: only ASCII letters are upper-cased. Python's `.upper()` also maps `á` to `Á`,
  and `ß` to `SS`, which changes the length. A title whose keyword appears only through such a
  non-ASCII mapping is flagged by Python but not by the model.
- Monitor.EsSospechoso: upper-casing covers ASCII letters only. Python's Unicode `upper()` also
  maps letters such as `ß`, `ı` or `ſ` and can change a string's length; that is not modelled.
- Monitor.GenerarMatrizMonteverde: the KeyError raised when the BOE table has no `titulo`
  column is not modelled. A law is always a title.
- Monitor.GenerarMatrizMonteverde: the model takes a contract's title and body as present or
  absent, which is what `contrato.get` distinguishes. Other column types are not modelled.
- The repository's other scripts are not part of this model: `main.py`, `app.py`,
  `dashboard.py`, `diario.py` and `diario_es.py`. They hold scraping, dashboards and duplicated
  report code.
