/** The Monteverde alert matrix of monitor_completo_es.py: every awarded contract whose
    title shows a discretionary procedure is paired with every BOE law row. */
module Monitor {
  import opened Wrappers
  import opened Strings
  import opened Sequences

  /** Title words that mark a procedure escaping the standard controls. */
  const Keywords: seq<string> := ["EMERGENCIA", "URGENCIA", "DIRECTA", "EXCEPCIONAL"]

  /** A row of the awards table; `None` stands for a column the table does not have. */
  datatype Contrato = Contrato(titulo: Option<string>, organo: Option<string>)

  /** A row of the BOE legislation table. */
  datatype Ley = Ley(titulo: string)

  datatype Alerta = Alerta(
    fechaAlerta: string,
    empresaAdjudicataria: string,
    organismo: string,
    tipoRiesgo: string,
    leyVinculada: string,
    faseCorrupcion: string)

  const TipoRiesgo := "Discrecionalidad Técnica Detectada"
  const FaseCorrupcion := "Ejecución / Ocultación"
  const SinEmpresa := "N/D"
  const OrganismoPorDefecto := "Administración Pública"

  /** `any(k in s for k in ks)`. */
  function ContieneAlguna(s: string, ks: seq<string>): (b: bool)
    ensures b <==> exists i :: 0 <= i < |ks| && Contains(s, ks[i])
  {
    if ks == [] then false else Contains(s, ks[0]) || ContieneAlguna(s, ks[1..])
  }

  /** The contract's title, upper-cased, with a missing title read as "". */
  function TituloMayusculas(c: Contrato): string {
    Upper(c.titulo.GetOr(""))
  }

  /** No keyword occurs in the empty title. */
  lemma NingunaEnVacio()
    ensures forall k :: 0 <= k < |Keywords| ==> !Contains([], Keywords[k])
  {
    forall k | 0 <= k < |Keywords| ensures !Contains([], Keywords[k]) {
      EmptyContainsNothing(Keywords[k]);
    }
  }

  /** The contract carries a risk indicator: it has a title, and one of the keywords
      occurs somewhere in that title once upper-cased. */
  predicate EsSospechoso(c: Contrato): (b: bool)
    ensures b <==> c.titulo.Some? && exists k :: 0 <= k < |Keywords| && Contains(Upper(c.titulo.value), Keywords[k])
  {
    if c.titulo.None? then
      NingunaEnVacio();
      assert TituloMayusculas(c) == [];
      ContieneAlguna(TituloMayusculas(c), Keywords)
    else
      ContieneAlguna(TituloMayusculas(c), Keywords)
  }

  /** A contract without a title is never flagged. */
  lemma SinTituloNoSeMarca(c: Contrato)
    requires c.titulo.None?
    ensures !EsSospechoso(c)
  {
  }

  /** The keywords are written in upper case, so comparing them with an upper-cased
      title is a case-insensitive comparison. */
  lemma PalabrasClaveEnMayusculas()
    ensures forall k :: 0 <= k < |Keywords| ==> Upper(Keywords[k]) == Keywords[k]
  {
    forall k | 0 <= k < |Keywords| ensures Upper(Keywords[k]) == Keywords[k] {
      UpperFixesUpper(Keywords[k]);
    }
  }

  /** Flagging ignores letter case: a title with a keyword written in any ASCII case is flagged. */
  lemma SospechosoEnCualquierCaja(c: Contrato, palabra: string, i: int, k: nat)
    requires c.titulo.Some? && OccursAt(c.titulo.value, palabra, i)
    requires k < |Keywords| && Upper(palabra) == Keywords[k]
    ensures EsSospechoso(c)
  {
    UpperKeepsOccurrence(c.titulo.value, palabra, i);
    assert Contains(TituloMayusculas(c), Keywords[k]);
  }

  /** A title that holds a keyword exactly as listed is flagged. */
  lemma ConClaveSeMarca(c: Contrato, k: nat, i: int)
    requires c.titulo.Some? && k < |Keywords| && OccursAt(c.titulo.value, Keywords[k], i)
    ensures EsSospechoso(c)
  {
    PalabrasClaveEnMayusculas();
    SospechosoEnCualquierCaja(c, Keywords[k], i, k);
  }

  /** The alert raised for a flagged contract and one law. */
  function NuevaAlerta(c: Contrato, ley: Ley, hoy: string): (a: Alerta)
    ensures a.tipoRiesgo == TipoRiesgo && a.faseCorrupcion == FaseCorrupcion && a.fechaAlerta == hoy
    ensures a.leyVinculada == ley.titulo
    ensures a.empresaAdjudicataria == (if c.titulo.Some? then c.titulo.value else SinEmpresa)
    ensures a.organismo == (if c.organo.Some? then c.organo.value else OrganismoPorDefecto)
  {
    Alerta(hoy, c.titulo.GetOr(SinEmpresa), c.organo.GetOr(OrganismoPorDefecto),
           TipoRiesgo, ley.titulo, FaseCorrupcion)
  }

  /** The alerts of one contract against a list of laws, in law order. */
  function AlertasDe(c: Contrato, leyes: seq<Ley>, hoy: string): (r: seq<Alerta>)
    ensures |r| == |leyes|
    ensures forall j :: 0 <= j < |leyes| ==> r[j] == NuevaAlerta(c, leyes[j], hoy)
  {
    seq(|leyes|, j requires 0 <= j < |leyes| => NuevaAlerta(c, leyes[j], hoy))
  }

  /** The flagged contracts, in table order. */
  function Sospechosos(adj: seq<Contrato>): seq<Contrato> {
    Filter(adj, EsSospechoso)
  }

  /** Each flagged contract is a contract of the table that carries a keyword. */
  lemma SospechosoDeLaTabla(adj: seq<Contrato>, i: nat)
    requires i < |Sospechosos(adj)|
    ensures Sospechosos(adj)[i] in adj && EsSospechoso(Sospechosos(adj)[i])
  {
  }

  /** A flagged contract listed several times in the table is flagged as many times (and
      raises its alerts as many times); an unflagged one is never kept. */
  lemma SospechososRepetidos(adj: seq<Contrato>)
    ensures forall c :: multiset(Sospechosos(adj))[c] == if EsSospechoso(c) then multiset(adj)[c] else 0
  {
    FilterMultiplicity(adj, EsSospechoso);
  }

  /** Multiplying by a positive number keeps the order. */
  lemma MulMonotona(x: int, y: int, b: int)
    requires b > 0
    ensures x < y ==> x * b < y * b
    ensures x <= y ==> x * b <= y * b
  {
    assert y * b - x * b == (y - x) * b;
  }

  lemma DivMenor(k: int, n: nat, b: nat)
    requires 0 <= k < n * b
    ensures b > 0 && 0 <= k / b < n
  {
    assert b != 0;
    MulMonotona(n, k / b, b);
  }

  lemma DivModUnico(q: int, b: int, j: int)
    requires 0 <= j < b
    ensures (q * b + j) / b == q && (q * b + j) % b == j
  {
    var k := q * b + j;
    var d, m := k / b, k % b;
    assert k == d * b + m;
    MulMonotona(q + 1, d, b);
    MulMonotona(d + 1, q, b);
    assert (q + 1) * b == q * b + b && (d + 1) * b == d * b + b;
    assert d == q;
  }

  lemma IndiceEnProducto(i: nat, j: nat, n: nat, b: nat)
    requires i < n && j < b
    ensures i * b + j < n * b && (i * b + j) / b == i && (i * b + j) % b == j
  {
    MulMonotona(i + 1, n, b);
    assert (i + 1) * b == i * b + b;
    DivModUnico(i, b, j);
  }

  /** Quotient and remainder of a natural division, with the identity that links them. */
  lemma Division(k: nat, b: nat) returns (q: nat, r: nat)
    requires b > 0
    ensures q == k / b && r == k % b && r < b && q * b + r == k
  {
    q, r := k / b, k % b;
  }

  /** Reference definition: the cross product of contracts and laws, contract-major. */
  function ProductoCruzado(cs: seq<Contrato>, leyes: seq<Ley>, hoy: string): (r: seq<Alerta>)
    ensures |r| == |cs| * |leyes|
  {
    if cs == [] then []
    else
      assert |cs| * |leyes| == (|cs| - 1) * |leyes| + |leyes|;
      ProductoCruzado(cs[..|cs| - 1], leyes, hoy) + AlertasDe(cs[|cs| - 1], leyes, hoy)
  }

  /** Entry `i * |leyes| + j` of the product pairs contract `i` with law `j`. */
  lemma {:induction false} ProductoEn(cs: seq<Contrato>, leyes: seq<Ley>, hoy: string, i: nat, j: nat)
    requires i < |cs| && j < |leyes|
    ensures var p := ProductoCruzado(cs, leyes, hoy);
            i * |leyes| + j < |p| && p[i * |leyes| + j] == NuevaAlerta(cs[i], leyes[j], hoy)
    decreases |cs|
  {
    var n, b := |cs|, |leyes|;
    var init := cs[..n - 1];
    var previo := ProductoCruzado(init, leyes, hoy);
    assert ProductoCruzado(cs, leyes, hoy) == previo + AlertasDe(cs[n - 1], leyes, hoy);
    IndiceEnProducto(i, j, n, b);
    if i < n - 1 {
      ProductoEn(init, leyes, hoy, i, j);
      IndiceEnProducto(i, j, n - 1, b);
    } else {
      assert i * b + j == |previo| + j;
    }
  }

  /** Every entry of the product: entry `k` pairs contract `k / |leyes|` with law `k % |leyes|`. */
  lemma ProductoEnPosicion(cs: seq<Contrato>, leyes: seq<Ley>, hoy: string, k: nat)
    requires k < |cs| * |leyes|
    ensures |leyes| > 0 && k / |leyes| < |cs|
    ensures ProductoCruzado(cs, leyes, hoy)[k] == NuevaAlerta(cs[k / |leyes|], leyes[k % |leyes|], hoy)
  {
    DivMenor(k, |cs|, |leyes|);
    var q, r := Division(k, |leyes|);
    ProductoEn(cs, leyes, hoy, q, r);
  }

  /** What the two nested loops have appended after the contracts of `adj`: the flagged
      contracts, in table order, crossed with the laws. */
  function MatrizAlertas(adj: seq<Contrato>, boe: seq<Ley>, hoy: string): (r: seq<Alerta>)
    ensures r == ProductoCruzado(Sospechosos(adj), boe, hoy)
  {
    if adj == [] then
      assert Sospechosos(adj) == [];
      []
    else
      var init, c := adj[..|adj| - 1], adj[|adj| - 1];
      var si := Sospechosos(init);
      if EsSospechoso(c) then
        assert Sospechosos(adj) == si + [c];
        assert (si + [c])[..|si|] == si;
        MatrizAlertas(init, boe, hoy) + AlertasDe(c, boe, hoy)
      else
        assert Sospechosos(adj) == si;
        MatrizAlertas(init, boe, hoy)
  }

  /** The CSV the function writes: the alerts under the full header, or, with no
      alerts, an empty file under a two-column header. */
  datatype Salida = Salida(columnas: seq<string>, filas: seq<Alerta>)

  const ColumnasAlerta: seq<string> := [
    "fecha_alerta", "empresa_adjudicataria", "organismo", "tipo_riesgo", "ley_vinculada", "fase_corrupcion"
  ]
  const ColumnasVacio: seq<string> := ["fecha_alerta", "tipo_riesgo"]

  /** One more law appends one more alert. */
  lemma AlertasDeSiguiente(c: Contrato, leyes: seq<Ley>, hoy: string, j: nat)
    requires j < |leyes|
    ensures AlertasDe(c, leyes[..j + 1], hoy) == AlertasDe(c, leyes[..j], hoy) + [NuevaAlerta(c, leyes[j], hoy)]
  {
  }

  lemma AnadirAlFinal(a: seq<Alerta>, b: seq<Alerta>, x: Alerta)
    ensures (a + b) + [x] == a + (b + [x])
  {
  }

  /** One more contract appends its alerts when it is flagged, nothing otherwise. */
  lemma MatrizSiguiente(adj: seq<Contrato>, boe: seq<Ley>, hoy: string, i: nat)
    requires i < |adj|
    ensures MatrizAlertas(adj[..i + 1], boe, hoy)
            == MatrizAlertas(adj[..i], boe, hoy) + (if EsSospechoso(adj[i]) then AlertasDe(adj[i], boe, hoy) else [])
  {
    assert adj[..i + 1][..i] == adj[..i];
  }

  /** The inner loop of `generar_matriz_monteverde`: one alert per law is appended,
      in law order, for a flagged contract. */
  method AnadirAlertas(alertas: seq<Alerta>, contrato: Contrato, boe: seq<Ley>, hoy: string)
    returns (r: seq<Alerta>)
    ensures r == alertas + AlertasDe(contrato, boe, hoy)
  {
    r := alertas;
    var j := 0;
    while j < |boe|
      invariant 0 <= j <= |boe|
      invariant r == alertas + AlertasDe(contrato, boe[..j], hoy)
    {
      AlertasDeSiguiente(contrato, boe, hoy, j);
      AnadirAlFinal(alertas, AlertasDe(contrato, boe[..j], hoy), NuevaAlerta(contrato, boe[j], hoy));
      r := r + [NuevaAlerta(contrato, boe[j], hoy)];
      j := j + 1;
    }
    assert boe[..j] == boe;
  }

  /** `generar_matriz_monteverde` with its two CSV files given as row lists and the
      current date given as `hoy`. */
  method GenerarMatrizMonteverde(adj: seq<Contrato>, boe: seq<Ley>, hoy: string) returns (salida: Salida)
    ensures salida.filas == ProductoCruzado(Sospechosos(adj), boe, hoy)
    ensures salida.columnas == if salida.filas == [] then ColumnasVacio else ColumnasAlerta
  {
    var alertas: seq<Alerta> := [];
    var i := 0;
    while i < |adj|
      invariant 0 <= i <= |adj|
      invariant alertas == MatrizAlertas(adj[..i], boe, hoy)
    {
      var contrato := adj[i];
      if EsSospechoso(contrato) {
        alertas := AnadirAlertas(alertas, contrato, boe, hoy);
      }
      MatrizSiguiente(adj, boe, hoy, i);
      i := i + 1;
    }
    assert adj[..i] == adj;
    if alertas != [] {
      salida := Salida(ColumnasAlerta, alertas);
    } else {
      salida := Salida(ColumnasVacio, alertas);
    }
  }

  /** One alert per (flagged contract, law) pair: unflagged contracts contribute nothing. */
  lemma NumeroAlertas(adj: seq<Contrato>, boe: seq<Ley>, hoy: string)
    ensures |MatrizAlertas(adj, boe, hoy)| == |Sospechosos(adj)| * |boe|
  {
  }

  /** Alert `i * |boe| + j` pairs the `i`-th flagged contract with the `j`-th law. */
  lemma AlertaEn(adj: seq<Contrato>, boe: seq<Ley>, hoy: string, i: nat, j: nat)
    requires i < |Sospechosos(adj)| && j < |boe|
    ensures var m := MatrizAlertas(adj, boe, hoy);
            0 <= i * |boe| + j < |m| && m[i * |boe| + j] == NuevaAlerta(Sospechosos(adj)[i], boe[j], hoy)
  {
    var m, s := MatrizAlertas(adj, boe, hoy), Sospechosos(adj);
    MulMonotona(0, i, |boe|);
    assert m == ProductoCruzado(s, boe, hoy);
    ProductoEn(s, boe, hoy, i, j);
  }

  /** Order: every alert of an earlier flagged contract comes before every alert of a
      later one, and the alerts of one contract follow the order of the laws. */
  lemma OrdenAlertas(adj: seq<Contrato>, boe: seq<Ley>, hoy: string, i1: nat, j1: nat, i2: nat, j2: nat)
    requires i1 < |Sospechosos(adj)| && i2 < |Sospechosos(adj)| && j1 < |boe| && j2 < |boe|
    requires i1 < i2 || (i1 == i2 && j1 < j2)
    ensures var m, k1, k2 := MatrizAlertas(adj, boe, hoy), i1 * |boe| + j1, i2 * |boe| + j2;
            0 <= k1 < k2 < |m|
            && m[k1] == NuevaAlerta(Sospechosos(adj)[i1], boe[j1], hoy)
            && m[k2] == NuevaAlerta(Sospechosos(adj)[i2], boe[j2], hoy)
  {
    AlertaEn(adj, boe, hoy, i1, j1);
    AlertaEn(adj, boe, hoy, i2, j2);
    if i1 < i2 {
      MulMonotona(i1 + 1, i2, |boe|);
      assert (i1 + 1) * |boe| == i1 * |boe| + |boe|;
    }
  }

  /** Alert `k` belongs to flagged contract `k / |boe|` (a contract of the table that
      carries a keyword) and links law `k % |boe|`; its risk type, phase and date are
      the fixed ones. */
  lemma CamposDeAlerta(adj: seq<Contrato>, boe: seq<Ley>, hoy: string, k: nat)
    requires k < |MatrizAlertas(adj, boe, hoy)|
    ensures |boe| > 0 && 0 <= k / |boe| < |Sospechosos(adj)|
    ensures var c := Sospechosos(adj)[k / |boe|];
            c in adj && EsSospechoso(c) && MatrizAlertas(adj, boe, hoy)[k] == NuevaAlerta(c, boe[k % |boe|], hoy)
    ensures var a := MatrizAlertas(adj, boe, hoy)[k];
            a.tipoRiesgo == TipoRiesgo && a.faseCorrupcion == FaseCorrupcion && a.fechaAlerta == hoy
            && a.leyVinculada == boe[k % |boe|].titulo
  {
    var m, s := MatrizAlertas(adj, boe, hoy), Sospechosos(adj);
    assert m == ProductoCruzado(s, boe, hoy);
    ProductoEnPosicion(s, boe, hoy, k);
    var q, r := Division(k, |boe|);
    SospechosoDeLaTabla(adj, q);
    assert m[k] == NuevaAlerta(s[q], boe[r], hoy);
  }

  /** No alert at all exactly when there is no law or no flagged contract. */
  lemma SinAlertas(adj: seq<Contrato>, boe: seq<Ley>, hoy: string)
    ensures MatrizAlertas(adj, boe, hoy) == [] <==> boe == [] || forall i :: 0 <= i < |adj| ==> !EsSospechoso(adj[i])
  {
    NumeroAlertas(adj, boe, hoy);
    FilterEmpty(adj, EsSospechoso);
    var n, b := |Sospechosos(adj)|, |boe|;
    assert n * b == 0 <==> n == 0 || b == 0;
  }
}
