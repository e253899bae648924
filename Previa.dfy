/** What `obtener_vista_previa` reports about a directory without touching
    it: for each category, the names of the files that would go there, and
    the number of files that would be left alone. */
module Previa {
  import opened Clasificador
  import opened Disco
  import opened Plan

  /** The dictionary `obtener_vista_previa` returns. */
  datatype Vista = VistaFallo | Vista(preview: map<string, seq<string>>, omitidos: nat)

  /** Every category a file can be given: the keys, then "Otros". */
  const Todas: seq<string> := Claves + [Otros]

  /** The `preview` dictionary over the scanned names `xs`, built as the
      loop builds it: a skipped file leaves it as it is; any other file is
      appended to the list of its category, created when missing. */
  function MapaVista(xs: seq<string>): map<string, seq<string>>
  {
    if xs == [] then map[]
    else
      var m, x := MapaVista(xs[..|xs| - 1]), xs[|xs| - 1];
      if Omitido(x) then m
      else
        var c := ObtenerCategoria(x);
        m[c := Lista(m, c) + [x]]
  }

  /** The successful preview of a directory whose files are `xs`. */
  function VistaDe(xs: seq<string>): Vista
  {
    Vista(MapaVista(xs), NumOmitidos(xs))
  }

  /** The list under key `c`, or the empty list when `c` is not a key. */
  function Lista(m: map<string, seq<string>>, c: string): seq<string>
  {
    if c in m then m[c] else []
  }

  lemma TodasDistintas()
    ensures forall i, j :: 0 <= i < j < |Todas| ==> Todas[i] != Todas[j]
  {
    ClavesDistintas();
  }

  /** Every file's category is one of `Todas`. */
  lemma CategoriaEnTodas(x: string)
    ensures ObtenerCategoria(x) in Todas
  {
    CategoriaValida(x);
  }

  /** The list of every category is the files of that category in scan
      order. */
  lemma {:induction false} MapaVistaCaracteriza(xs: seq<string>)
    ensures forall c :: Lista(MapaVista(xs), c) == EnCategoria(xs, c)
  {
    if xs != [] {
      var init, x := xs[..|xs| - 1], xs[|xs| - 1];
      assert xs == init + [x];
      MapaVistaCaracteriza(init);
      forall c ensures Lista(MapaVista(xs), c) == EnCategoria(xs, c) {
        EnCategoriaUltimo(init, x, c);
      }
    }
  }

  /** The keys of the preview are categories and no list is empty. */
  lemma {:induction false} MapaVistaClaves(xs: seq<string>)
    ensures forall c :: c in MapaVista(xs) ==> c in Todas && MapaVista(xs)[c] != []
  {
    if xs != [] {
      var x := xs[|xs| - 1];
      MapaVistaClaves(xs[..|xs| - 1]);
      CategoriaEnTodas(x);
    }
  }

  lemma EnCategoriaUltimo(xs: seq<string>, x: string, c: string)
    ensures EnCategoria(xs + [x], c) ==
      EnCategoria(xs, c) + (if !Omitido(x) && ObtenerCategoria(x) == c then [x] else [])
  {
    assert (xs + [x])[..|xs|] == xs;
  }

  /** Updating the same key twice keeps only the second value. */
  lemma Reescribir<K, V>(m: map<K, V>, k: K, a: V, b: V)
    ensures m[k := a][k := b] == m[k := b]
  {
    assert m[k := a][k := b].Keys == m[k := b].Keys;
  }

  /** How often `x` occurs in the list of category `c`: as often as in the
      scan when `x` is not skipped and `c` is its category, never otherwise. */
  lemma {:induction false} EnCategoriaCuenta(xs: seq<string>, c: string, x: string)
    ensures multiset(EnCategoria(xs, c))[x] ==
      if !Omitido(x) && ObtenerCategoria(x) == c then multiset(xs)[x] else 0
  {
    if xs != [] {
      var init, y := xs[..|xs| - 1], xs[|xs| - 1];
      assert xs == init + [y];
      EnCategoriaCuenta(init, c, x);
    }
  }

  /** The preview splits the scanned files: every file that is not skipped
      is listed under its category, under no other, and as many times as it
      was scanned; a skipped file is listed nowhere; every key is a
      category and no list is empty. */
  lemma VistaParticion(xs: seq<string>, x: string)
    ensures var m := MapaVista(xs);
      && (forall c :: c in m ==> c in Todas && m[c] != [])
      && (forall c :: c in m ==>
            multiset(m[c])[x] == if !Omitido(x) && ObtenerCategoria(x) == c then multiset(xs)[x] else 0)
      && (x in xs && !Omitido(x) ==> ObtenerCategoria(x) in m)
  {
    MapaVistaCaracteriza(xs);
    MapaVistaClaves(xs);
    var m := MapaVista(xs);
    forall c | c in m
      ensures multiset(m[c])[x] == if !Omitido(x) && ObtenerCategoria(x) == c then multiset(xs)[x] else 0
    {
      assert Lista(m, c) == m[c];
      EnCategoriaCuenta(xs, c, x);
    }
    if x in xs && !Omitido(x) {
      var c := ObtenerCategoria(x);
      EnCategoriaCuenta(xs, c, x);
      assert x in multiset(EnCategoria(xs, c));
    }
  }

  /** On a well-formed directory, where each file name occurs once, the
      preview lists every file that is not skipped exactly once, under its
      own category and under no other, and lists no skipped file. */
  lemma VistaUnaVez(d: Directorio, x: string)
    requires Bien(d)
    requires x in ArchivosDe(d.entradas)
    ensures var m := MapaVista(ArchivosDe(d.entradas));
      && (Omitido(x) ==> forall c :: c in m ==> x !in m[c])
      && (!Omitido(x) ==>
            && ObtenerCategoria(x) in m
            && multiset(m[ObtenerCategoria(x)])[x] == 1
            && forall c :: c in m && c != ObtenerCategoria(x) ==> x !in m[c])
  {
    VistaParticion(ArchivosDe(d.entradas), x);
    ArchivosDeUnicos(d.entradas);
  }

  // ---------------------------------------------------------------------
  // Counting

  /** The total length of the lists of `m` under the keys `cs`. */
  function TotalVista(m: map<string, seq<string>>, cs: seq<string>): nat
  {
    if cs == [] then 0 else |Lista(m, cs[0])| + TotalVista(m, cs[1..])
  }

  /** The number of files of the categories `cs`. */
  function SumaCategorias(xs: seq<string>, cs: seq<string>): nat
  {
    if cs == [] then 0 else |EnCategoria(xs, cs[0])| + SumaCategorias(xs, cs[1..])
  }

  lemma {:induction false} TotalComoSuma(xs: seq<string>, cs: seq<string>)
    ensures TotalVista(MapaVista(xs), cs) == SumaCategorias(xs, cs)
  {
    if cs != [] {
      MapaVistaCaracteriza(xs);
      TotalComoSuma(xs, cs[1..]);
    }
  }

  lemma {:induction false} SumaPaso(xs: seq<string>, x: string, cs: seq<string>)
    requires forall i, j :: 0 <= i < j < |cs| ==> cs[i] != cs[j]
    ensures SumaCategorias(xs + [x], cs) ==
      SumaCategorias(xs, cs) + (if !Omitido(x) && ObtenerCategoria(x) in cs then 1 else 0)
  {
    if cs != [] {
      assert (xs + [x])[..|xs|] == xs;
      SumaPaso(xs, x, cs[1..]);
      if ObtenerCategoria(x) == cs[0] {
        assert ObtenerCategoria(x) !in cs[1..];
      }
    }
  }

  lemma {:induction false} SumaVacia(cs: seq<string>)
    ensures SumaCategorias([], cs) == 0
  {
    if cs != [] {
      SumaVacia(cs[1..]);
    }
  }

  lemma {:induction false} SumaEsPlan(xs: seq<string>)
    ensures SumaCategorias(xs, Todas) == |PlanDe(xs)|
  {
    if xs == [] {
      SumaVacia(Todas);
    } else {
      var init, x := xs[..|xs| - 1], xs[|xs| - 1];
      assert xs == init + [x];
      SumaEsPlan(init);
      TodasDistintas();
      SumaPaso(init, x, Todas);
      assert ObtenerCategoria(x) in Todas;
      assert |PlanDe(xs)| == |PlanDe(init)| + (if Omitido(x) then 0 else 1);
    }
  }

  /** The lists of the preview together with `omitidos` account for every
      scanned file exactly once. */
  lemma VistaCuenta(xs: seq<string>)
    ensures TotalVista(MapaVista(xs), Todas) + NumOmitidos(xs) == |xs|
  {
    TotalComoSuma(xs, Todas);
    SumaEsPlan(xs);
    PlanMasOmitidos(xs);
  }

  // ---------------------------------------------------------------------
  // The preview predicts the organize pass

  /** The names paired with category `c` in a plan, in plan order. */
  function NombresCon(ps: seq<(string, string)>, c: string): seq<string>
  {
    if ps == [] then []
    else NombresCon(ps[..|ps| - 1], c) + (if ps[|ps| - 1].1 == c then [ps[|ps| - 1].0] else [])
  }

  lemma {:induction false} EnCategoriaEsPlan(xs: seq<string>, c: string)
    ensures EnCategoria(xs, c) == NombresCon(PlanDe(xs), c)
  {
    if xs != [] {
      var init, x := xs[..|xs| - 1], xs[|xs| - 1];
      EnCategoriaEsPlan(init, c);
      var ps := PlanDe(xs);
      if !Omitido(x) {
        assert ps == PlanDe(init) + [(x, ObtenerCategoria(x))];
        assert ps[..|ps| - 1] == PlanDe(init);
      } else {
        assert ps == PlanDe(init);
      }
    }
  }

  /** For a directory that `organizar` gets to process, each list of the
      preview taken just before is exactly the sequence of files the pass
      then records under that category, in the same order, and a category
      missing from the preview gets no record. */
  lemma VistaPredice(d: Directorio, f: Fallos)
    requires OrganizarEn(d, f).resultado.Exito?
    ensures var m, rs := MapaVista(ArchivosDe(d.entradas)), OrganizarEn(d, f).resultado.resultados;
      forall c :: NombresCon(Proyeccion(rs), c) == Lista(m, c)
  {
    OrganizarContabilidad(d, f);
    var xs := ArchivosDe(d.entradas);
    MapaVistaCaracteriza(xs);
    forall c ensures NombresCon(PlanDe(xs), c) == Lista(MapaVista(xs), c) {
      EnCategoriaEsPlan(xs, c);
    }
  }
}
