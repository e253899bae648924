/** What the organize pass and the preview compute, as functions of the
    directory they scan. The methods of the organizer are proved against
    these definitions; the lemmas here state the bookkeeping the program
    promises. */
module Plan {
  import opened Texto
  import opened Clasificador
  import opened Disco

  /** `estadisticas`: files moved, moves that failed, files skipped. */
  datatype Estadisticas = Estadisticas(movidos: nat, errores: nat, omitidos: nat)

  const Cero: Estadisticas := Estadisticas(0, 0, 0)

  /** One entry of `resultados` (the message text is not modelled). */
  datatype Registro = Registro(archivo: string, categoria: string, exito: bool)

  /** The dictionary `organizar` returns: a failure, or the statistics and
      the per-file records. */
  datatype Resultado = Fallo | Exito(estadisticas: Estadisticas, resultados: seq<Registro>)

  /** The environment's verdicts on the calls that may raise: the category
      folders whose `mkdir` is refused, and the files whose move fails. */
  datatype Fallos = Fallos(crear: set<string>, mover: set<string>)

  /** The counter update of `mover_archivo`. */
  function Contar(e: Estadisticas, exito: bool): (r: Estadisticas)
    ensures r.omitidos == e.omitidos
    ensures r.movidos + r.errores == e.movidos + e.errores + 1
    ensures r.movidos == e.movidos + (if exito then 1 else 0)
  {
    if exito then e.(movidos := e.movidos + 1) else e.(errores := e.errores + 1)
  }

  // ---------------------------------------------------------------------
  // Reference definitions over the list of scanned names

  /** The (name, category) pairs of the files that are not skipped, in scan
      order: the plan both the preview and the organize pass follow. */
  function PlanDe(xs: seq<string>): seq<(string, string)>
  {
    if xs == [] then []
    else
      var x := xs[|xs| - 1];
      PlanDe(xs[..|xs| - 1]) + (if Omitido(x) then [] else [(x, ObtenerCategoria(x))])
  }

  /** The number of skipped files among `xs`. */
  function NumOmitidos(xs: seq<string>): nat
  {
    if xs == [] then 0
    else NumOmitidos(xs[..|xs| - 1]) + (if Omitido(xs[|xs| - 1]) then 1 else 0)
  }

  /** The names of the files of category `c`, in scan order. */
  function EnCategoria(xs: seq<string>, c: string): seq<string>
  {
    if xs == [] then []
    else
      var x := xs[|xs| - 1];
      EnCategoria(xs[..|xs| - 1], c) + (if !Omitido(x) && ObtenerCategoria(x) == c then [x] else [])
  }

  /** The (name, category) pairs of some records. */
  function Proyeccion(rs: seq<Registro>): (r: seq<(string, string)>)
    ensures |r| == |rs|
  {
    if rs == [] then []
    else Proyeccion(rs[..|rs| - 1]) + [(rs[|rs| - 1].archivo, rs[|rs| - 1].categoria)]
  }

  /** The number of successful records. */
  function Exitos(rs: seq<Registro>): nat
  {
    if rs == [] then 0
    else Exitos(rs[..|rs| - 1]) + (if rs[|rs| - 1].exito then 1 else 0)
  }

  /** Some record says file `n` was moved. */
  predicate MovidoEn(rs: seq<Registro>, n: string)
  {
    exists r :: r in rs && r.archivo == n && r.exito
  }

  lemma {:induction false} PlanConcat(xs: seq<string>, ys: seq<string>)
    ensures PlanDe(xs + ys) == PlanDe(xs) + PlanDe(ys)
    ensures NumOmitidos(xs + ys) == NumOmitidos(xs) + NumOmitidos(ys)
    decreases |ys|
  {
    if ys == [] {
      assert xs + ys == xs;
    } else {
      var ys' := ys[..|ys| - 1];
      assert (xs + ys)[..|xs + ys| - 1] == xs + ys';
      PlanConcat(xs, ys');
    }
  }

  lemma {:induction false} CategoriaConcat(xs: seq<string>, ys: seq<string>, c: string)
    ensures EnCategoria(xs + ys, c) == EnCategoria(xs, c) + EnCategoria(ys, c)
    decreases |ys|
  {
    if ys == [] {
      assert xs + ys == xs;
    } else {
      var ys' := ys[..|ys| - 1];
      assert (xs + ys)[..|xs + ys| - 1] == xs + ys';
      CategoriaConcat(xs, ys', c);
    }
  }

  lemma {:induction false} RegistrosConcat(rs: seq<Registro>, ss: seq<Registro>)
    ensures Proyeccion(rs + ss) == Proyeccion(rs) + Proyeccion(ss)
    ensures Exitos(rs + ss) == Exitos(rs) + Exitos(ss)
    decreases |ss|
  {
    if ss == [] {
      assert rs + ss == rs;
    } else {
      var ss' := ss[..|ss| - 1];
      assert (rs + ss)[..|rs + ss| - 1] == rs + ss';
      RegistrosConcat(rs, ss');
    }
  }

  /** Every file is either skipped or planned, never both: the plan and the
      skip count together account for every scanned name. */
  lemma {:induction false} PlanMasOmitidos(xs: seq<string>)
    ensures |PlanDe(xs)| + NumOmitidos(xs) == |xs|
  {
    if xs != [] {
      PlanMasOmitidos(xs[..|xs| - 1]);
    }
  }

  // ---------------------------------------------------------------------
  // The organize pass

  /** The loop state of `organizar`: the directory, the counters and the
      records so far. */
  datatype Progreso = Progreso(dir: Directorio, est: Estadisticas, resultados: seq<Registro>)

  /** One iteration of the `organizar` loop on file `nombre`. */
  function Paso(p: Progreso, nombre: string, fallaMover: set<string>): Progreso
  {
    if EsArchivoSistema(nombre) || EsExtensionBloqueada(nombre) then
      p.(est := p.est.(omitidos := p.est.omitidos + 1))
    else
      var categoria := ObtenerCategoria(nombre);
      var m := Mover(p.dir, nombre, categoria, nombre in fallaMover);
      Progreso(m.dir, Contar(p.est, m.exito), p.resultados + [Registro(nombre, categoria, m.exito)])
  }

  /** The `organizar` loop over the files `xs`, in order. */
  function Procesar(p: Progreso, xs: seq<string>, fallaMover: set<string>): Progreso
    decreases |xs|
  {
    if xs == [] then p else Procesar(Paso(p, xs[0], fallaMover), xs[1..], fallaMover)
  }

  /** The plan and the skip count of a single file. */
  lemma PlanUno(x: string)
    ensures PlanDe([x]) == if Omitido(x) then [] else [(x, ObtenerCategoria(x))]
    ensures NumOmitidos([x]) == if Omitido(x) then 1 else 0
  {
    assert [x][..0] == [];
  }

  /** The plan and the skip count, unfolded at the front. */
  lemma PlanCabeza(xs: seq<string>)
    requires xs != []
    ensures PlanDe(xs) == (if Omitido(xs[0]) then [] else [(xs[0], ObtenerCategoria(xs[0]))]) + PlanDe(xs[1..])
    ensures NumOmitidos(xs) == (if Omitido(xs[0]) then 1 else 0) + NumOmitidos(xs[1..])
  {
    PlanConcat([xs[0]], xs[1..]);
    PlanUno(xs[0]);
    assert [xs[0]] + xs[1..] == xs;
  }

  /** Appending one record. */
  lemma RegistroAlFinal(rs: seq<Registro>, r: Registro)
    ensures (rs + [r])[..|rs|] == rs
    ensures Proyeccion(rs + [r]) == Proyeccion(rs) + [(r.archivo, r.categoria)]
    ensures Exitos(rs + [r]) == Exitos(rs) + (if r.exito then 1 else 0)
  {
    assert (rs + [r])[..|rs + [r]| - 1] == rs;
  }

  /** The loop only appends records: those already there stay in front. */
  lemma {:induction false} ProcesarPrefijo(p: Progreso, xs: seq<string>, fm: set<string>)
    ensures var q := Procesar(p, xs, fm);
      |p.resultados| <= |q.resultados| && q.resultados[..|p.resultados|] == p.resultados
    decreases |xs|
  {
    if xs != [] {
      var p1 := Paso(p, xs[0], fm);
      var q := Procesar(p1, xs[1..], fm);
      ProcesarPrefijo(p1, xs[1..], fm);
      assert p1.resultados[..|p.resultados|] == p.resultados;
      assert q.resultados[..|p.resultados|] == q.resultados[..|p1.resultados|][..|p.resultados|];
    }
  }

  /** The records of the loop are the plan of its files, appended in scan
      order after the records already there. */
  lemma {:induction false} ProcesarRegistros(p: Progreso, xs: seq<string>, fm: set<string>)
    ensures Proyeccion(Procesar(p, xs, fm).resultados) == Proyeccion(p.resultados) + PlanDe(xs)
    decreases |xs|
  {
    if xs != [] {
      var x := xs[0];
      var p1 := Paso(p, x, fm);
      var q := Procesar(p1, xs[1..], fm);
      ProcesarRegistros(p1, xs[1..], fm);
      PlanCabeza(xs);
      if !Omitido(x) {
        var m := Mover(p.dir, x, ObtenerCategoria(x), x in fm);
        var r := Registro(x, ObtenerCategoria(x), m.exito);
        assert p1.resultados == p.resultados + [r];
        RegistroAlFinal(p.resultados, r);
        var a, b, c := Proyeccion(p.resultados), [(x, ObtenerCategoria(x))], PlanDe(xs[1..]);
        assert Proyeccion(q.resultados) == (a + b) + c;
        assert PlanDe(xs) == b + c;
        Asociativa(a, b, c);
      } else {
        assert p1.resultados == p.resultados;
        assert PlanDe(xs) == PlanDe(xs[1..]);
      }
    }
  }

  /** Each counter moves as the program says: one skip per skipped file,
      one success or one failure per planned file, and `movidos` grows by
      exactly the number of new successful records. */
  lemma {:induction false} ProcesarContadores(p: Progreso, xs: seq<string>, fm: set<string>)
    ensures var q := Procesar(p, xs, fm);
      && q.est.omitidos == p.est.omitidos + NumOmitidos(xs)
      && q.est.movidos + q.est.errores == p.est.movidos + p.est.errores + |PlanDe(xs)|
      && q.est.movidos + Exitos(p.resultados) == p.est.movidos + Exitos(q.resultados)
    decreases |xs|
  {
    if xs != [] {
      var x := xs[0];
      var p1 := Paso(p, x, fm);
      ProcesarContadores(p1, xs[1..], fm);
      PlanCabeza(xs);
      if !Omitido(x) {
        var m := Mover(p.dir, x, ObtenerCategoria(x), x in fm);
        var r := Registro(x, ObtenerCategoria(x), m.exito);
        assert p1.resultados == p.resultados + [r];
        assert p1.est == Contar(p.est, m.exito);
        RegistroAlFinal(p.resultados, r);
      }
    }
  }

  /** The part of `q` after a prefix `a + [r]`. */
  lemma TrasPrefijo<T>(q: seq<T>, a: seq<T>, r: T)
    requires |a| + 1 <= |q| && q[..|a| + 1] == a + [r]
    ensures q[|a|] == r
    ensures q[|a|..] == [r] + q[|a| + 1..]
  {
    assert q[|a|] == q[..|a| + 1][|a|];
  }

  lemma MovidoEnConcat(a: seq<Registro>, b: seq<Registro>, n: string)
    ensures MovidoEn(a + b, n) <==> MovidoEn(a, n) || MovidoEn(b, n)
  {
    if MovidoEn(a + b, n) {
      var s :| s in a + b && s.archivo == n && s.exito;
      assert s in a || s in b;
    }
    if MovidoEn(a, n) {
      var s :| s in a && s.archivo == n && s.exito;
      assert s in a + b;
    }
    if MovidoEn(b, n) {
      var s :| s in b && s.archivo == n && s.exito;
      assert s in a + b;
    }
  }

  /** The loop never loses a name from a folder: no folder appears or
      disappears, every folder keeps what it held, and a record marked as
      moved names a category whose folder existed before the loop. */
  lemma {:induction false} ProcesarCarpetas(p: Progreso, xs: seq<string>, fm: set<string>)
    ensures var q := Procesar(p, xs, fm);
      && q.dir.carpetas.Keys == p.dir.carpetas.Keys
      && q.dir.legible == p.dir.legible
      && (forall c :: c in p.dir.carpetas ==> p.dir.carpetas[c] <= q.dir.carpetas[c])
      && |p.resultados| <= |q.resultados|
      && (forall i :: |p.resultados| <= i < |q.resultados| && q.resultados[i].exito ==>
            q.resultados[i].categoria in p.dir.carpetas)
    decreases |xs|
  {
    ProcesarPrefijo(p, xs, fm);
    if xs != [] {
      var x := xs[0];
      var p1 := Paso(p, x, fm);
      var q := Procesar(p1, xs[1..], fm);
      ProcesarCarpetas(p1, xs[1..], fm);
      ProcesarPrefijo(p1, xs[1..], fm);
      if !Omitido(x) {
        var m := Mover(p.dir, x, ObtenerCategoria(x), x in fm);
        MoverNoSobrescribe(p.dir, x, ObtenerCategoria(x), x in fm);
        var r := Registro(x, ObtenerCategoria(x), m.exito);
        assert p1.resultados == p.resultados + [r];
        assert p1.dir == m.dir;
        TrasPrefijo(q.resultados, p.resultados, r);
      }
    }
  }

  /** A top-level file is gone after the loop exactly when one of the new
      records says it was moved. */
  lemma {:induction false} ProcesarQuita(p: Progreso, xs: seq<string>, fm: set<string>, n: string)
    ensures var q := Procesar(p, xs, fm);
      && |p.resultados| <= |q.resultados|
      && (Entrada(n, true) in q.dir.entradas <==>
            Entrada(n, true) in p.dir.entradas && !MovidoEn(q.resultados[|p.resultados|..], n))
    decreases |xs|
  {
    ProcesarPrefijo(p, xs, fm);
    if xs != [] {
      var x := xs[0];
      var p1 := Paso(p, x, fm);
      var q := Procesar(p1, xs[1..], fm);
      ProcesarQuita(p1, xs[1..], fm, n);
      ProcesarPrefijo(p1, xs[1..], fm);
      if !Omitido(x) {
        var m := Mover(p.dir, x, ObtenerCategoria(x), x in fm);
        MoverNoSobrescribe(p.dir, x, ObtenerCategoria(x), x in fm);
        var r := Registro(x, ObtenerCategoria(x), m.exito);
        assert p1.resultados == p.resultados + [r];
        assert p1.dir == m.dir;
        TrasPrefijo(q.resultados, p.resultados, r);
        MovidoEnConcat([r], q.resultados[|p1.resultados|..], n);
        assert MovidoEn([r], n) <==> r.archivo == n && r.exito by {
          if r.archivo == n && r.exito { assert r in [r]; }
        }
        if m.exito && x != n {
          assert Entrada(n, true) in m.dir.entradas <==> Entrada(n, true) in p.dir.entradas;
        }
      } else {
        assert p1.dir == p.dir && p1.resultados == p.resultados;
      }
    }
  }

  /** The elements of a list of names. */
  function Conjunto(claves: seq<string>): set<string>
  {
    set k | k in claves
  }

  /** `crear_carpetas`: `mkdir` of each key in order, stopping at the first
      that raises. */
  function CrearCarpetasEn(d: Directorio, claves: seq<string>, sinPermiso: set<string>): Creacion
    decreases |claves|
  {
    if claves == [] then Creacion(true, d)
    else
      var c := CrearCarpeta(d, claves[0], sinPermiso);
      if !c.ok then c else CrearCarpetasEn(c.dir, claves[1..], sinPermiso)
  }

  /** Folder creation leaves every file and every existing folder alone,
      creates no folder outside `claves`, only empty ones, and on success
      every key has its folder. */
  lemma {:induction false} CrearCarpetasConserva(d: Directorio, claves: seq<string>, sinPermiso: set<string>)
    ensures var c := CrearCarpetasEn(d, claves, sinPermiso);
      && ArchivosDe(c.dir.entradas) == ArchivosDe(d.entradas)
      && c.dir.legible == d.legible
      && d.carpetas.Keys <= c.dir.carpetas.Keys
      && c.dir.carpetas.Keys <= d.carpetas.Keys + Conjunto(claves)
      && (forall k :: k in d.carpetas ==> c.dir.carpetas[k] == d.carpetas[k])
      && (forall k :: k in c.dir.carpetas && k !in d.carpetas ==> c.dir.carpetas[k] == {})
      && (c.ok ==> forall k :: k in claves ==> k in c.dir.carpetas)
    decreases |claves|
  {
    if claves != [] {
      var c1 := CrearCarpeta(d, claves[0], sinPermiso);
      CrearCarpetaConserva(d, claves[0], sinPermiso);
      if c1.ok {
        var c := CrearCarpetasEn(c1.dir, claves[1..], sinPermiso);
        CrearCarpetasConserva(c1.dir, claves[1..], sinPermiso);
        var todas, resto := Conjunto(claves), Conjunto(claves[1..]);
        assert resto <= todas;
        assert claves[0] in todas;
        assert c1.dir.carpetas.Keys <= d.carpetas.Keys + todas;
        assert c.dir.carpetas.Keys <= d.carpetas.Keys + todas;
        forall k | k in claves && c.ok ensures k in c.dir.carpetas {
          if k != claves[0] {
            var i :| 0 <= i < |claves| && claves[i] == k;
            assert claves[1..][i - 1] == k;
          }
        }
      }
    }
  }

  /** The part of `CrearCarpetasConserva` about the files. */
  lemma CrearCarpetasArchivos(d: Directorio, claves: seq<string>, sinPermiso: set<string>)
    ensures var c := CrearCarpetasEn(d, claves, sinPermiso);
      ArchivosDe(c.dir.entradas) == ArchivosDe(d.entradas) && c.dir.legible == d.legible
  {
    CrearCarpetasConserva(d, claves, sinPermiso);
  }

  /** When every key already has its folder, `crear_carpetas` succeeds and
      changes nothing. */
  lemma {:induction false} CrearCarpetasExistentes(d: Directorio, claves: seq<string>, sinPermiso: set<string>)
    requires forall k :: k in claves ==> k in d.carpetas
    ensures CrearCarpetasEn(d, claves, sinPermiso) == Creacion(true, d)
    decreases |claves|
  {
    if claves != [] {
      assert claves[0] in claves;
      forall k | k in claves[1..] ensures k in d.carpetas {
        assert k in claves;
      }
      CrearCarpetasExistentes(d, claves[1..], sinPermiso);
    }
  }

  /** Folder creation keeps a directory well-formed. */
  lemma {:induction false} CrearCarpetasBien(d: Directorio, claves: seq<string>, sinPermiso: set<string>)
    requires Bien(d)
    ensures Bien(CrearCarpetasEn(d, claves, sinPermiso).dir)
    decreases |claves|
  {
    if claves != [] {
      CrearCarpetaBien(d, claves[0], sinPermiso);
      var c := CrearCarpeta(d, claves[0], sinPermiso);
      if c.ok {
        CrearCarpetasBien(c.dir, claves[1..], sinPermiso);
      }
    }
  }

  /** The loop keeps the directory well-formed. */
  lemma {:induction false} ProcesarBien(p: Progreso, xs: seq<string>, fm: set<string>)
    requires Bien(p.dir)
    ensures Bien(Procesar(p, xs, fm).dir)
    decreases |xs|
  {
    if xs != [] {
      var x := xs[0];
      if !Omitido(x) {
        MoverBien(p.dir, x, ObtenerCategoria(x), x in fm);
      }
      ProcesarBien(Paso(p, x, fm), xs[1..], fm);
    }
  }

  /** What `organizar` does to an existing base directory: the result, the
      counters it leaves in `estadisticas`, and the directory afterwards. */
  datatype Efecto = Efecto(resultado: Resultado, estadisticas: Estadisticas, dir: Directorio)

  /** `organizar` once the base path is set and names a directory: reset the
      counters, create the folders (abort on failure), list the files (abort
      if the listing raises), then run the loop. */
  function OrganizarEn(d: Directorio, f: Fallos): Efecto
  {
    var c := CrearCarpetasEn(d, Claves, f.crear);
    if !c.ok || !c.dir.legible then Efecto(Fallo, Cero, c.dir)
    else
      var p := Procesar(Progreso(c.dir, Cero, []), ArchivosDe(c.dir.entradas), f.mover);
      Efecto(Exito(p.est, p.resultados), p.est, p.dir)
  }

  /** The bookkeeping of a successful `organizar`: the counters it returns
      are the ones it keeps, `movidos + errores` is the number of records,
      `omitidos` plus the number of records is the number of files scanned,
      `movidos` is the number of successful records, and the records are the
      non-skipped files in scan order with their categories. A failed call
      leaves the counters at zero. */
  lemma OrganizarContabilidad(d: Directorio, f: Fallos)
    ensures var e := OrganizarEn(d, f);
      && (e.resultado.Fallo? ==> e.estadisticas == Cero)
      && (e.resultado.Exito? ==>
            var est, rs := e.resultado.estadisticas, e.resultado.resultados;
            && est == e.estadisticas
            && est.movidos + est.errores == |rs|
            && est.omitidos + |rs| == |ArchivosDe(d.entradas)|
            && est.movidos == Exitos(rs)
            && Proyeccion(rs) == PlanDe(ArchivosDe(d.entradas)))
  {
    var c := CrearCarpetasEn(d, Claves, f.crear);
    CrearCarpetasConserva(d, Claves, f.crear);
    var xs := ArchivosDe(c.dir.entradas);
    if c.ok && c.dir.legible {
      ProcesarRegistros(Progreso(c.dir, Cero, []), xs, f.mover);
      ProcesarContadores(Progreso(c.dir, Cero, []), xs, f.mover);
      PlanMasOmitidos(xs);
    }
  }

  /** Whatever happens, no folder disappears or loses a name, so no
      existing file is ever overwritten. */
  lemma OrganizarConservaCarpetas(d: Directorio, f: Fallos)
    ensures var e := OrganizarEn(d, f);
      forall k :: k in d.carpetas ==> k in e.dir.carpetas && d.carpetas[k] <= e.dir.carpetas[k]
  {
    var c := CrearCarpetasEn(d, Claves, f.crear);
    CrearCarpetasConserva(d, Claves, f.crear);
    ProcesarCarpetas(Progreso(c.dir, Cero, []), ArchivosDe(c.dir.entradas), f.mover);
  }

  /** The folders after a successful `organizar` are exactly the old ones
      plus the category keys; "Otros" is not one of them. */
  lemma OrganizarCarpetas(d: Directorio, f: Fallos)
    ensures var e := OrganizarEn(d, f);
      e.resultado.Exito? ==> e.dir.carpetas.Keys == d.carpetas.Keys + Conjunto(Claves)
    ensures Otros !in Claves
  {
    ClavesDistintas();
    var c := CrearCarpetasEn(d, Claves, f.crear);
    CrearCarpetasConserva(d, Claves, f.crear);
    ProcesarCarpetas(Progreso(c.dir, Cero, []), ArchivosDe(c.dir.entradas), f.mover);
  }

  /** A pass leaves a well-formed directory well-formed. */
  lemma OrganizarBien(d: Directorio, f: Fallos)
    requires Bien(d)
    ensures Bien(OrganizarEn(d, f).dir)
  {
    CrearCarpetasBien(d, Claves, f.crear);
    var c := CrearCarpetasEn(d, Claves, f.crear);
    ProcesarBien(Progreso(c.dir, Cero, []), ArchivosDe(c.dir.entradas), f.mover);
  }

  /** A failed `organizar` moves nothing: the top-level files are the same. */
  lemma OrganizarFalloNoMueve(d: Directorio, f: Fallos)
    requires OrganizarEn(d, f).resultado.Fallo?
    ensures ArchivosDe(OrganizarEn(d, f).dir.entradas) == ArchivosDe(d.entradas)
  {
    CrearCarpetasConserva(d, Claves, f.crear);
  }

  /** `crear_carpetas` never makes an "Otros" folder, and a move into a
      missing folder fails: unless "Otros" already existed, every file of
      an unknown extension is recorded as an error. */
  lemma OtrosSinCarpeta(d: Directorio, f: Fallos)
    requires Otros !in d.carpetas
    ensures var e := OrganizarEn(d, f);
      e.resultado.Exito? ==>
        forall r :: r in e.resultado.resultados && r.categoria == Otros ==> !r.exito
  {
    ClavesDistintas();
    var c := CrearCarpetasEn(d, Claves, f.crear);
    CrearCarpetasConserva(d, Claves, f.crear);
    var p := Progreso(c.dir, Cero, []);
    var q := Procesar(p, ArchivosDe(c.dir.entradas), f.mover);
    ProcesarCarpetas(p, ArchivosDe(c.dir.entradas), f.mover);
    assert Otros !in c.dir.carpetas;
    forall r | r in q.resultados && r.categoria == Otros ensures !r.exito {
      var i :| 0 <= i < |q.resultados| && q.resultados[i] == r;
    }
  }

  /** A loop over files that are all skipped only counts them. */
  lemma {:induction false} ProcesarSinPlan(p: Progreso, xs: seq<string>, fm: set<string>)
    requires PlanDe(xs) == []
    ensures var q := Procesar(p, xs, fm);
      && q.dir == p.dir && q.resultados == p.resultados
      && q.est == Estadisticas(p.est.movidos, p.est.errores, p.est.omitidos + |xs|)
    decreases |xs|
  {
    if xs != [] {
      PlanConcat([xs[0]], xs[1..]);
      assert [xs[0]] + xs[1..] == xs;
      assert [xs[0]][..0] == [];
      ProcesarSinPlan(Paso(p, xs[0], fm), xs[1..], fm);
    }
  }

  /** With nothing eligible at the top level, a successful `organizar` moves
      nothing, fails nothing, records nothing and counts every file as
      skipped; only the category folders may have been created. */
  lemma OrganizarSinElegibles(d: Directorio, f: Fallos)
    requires PlanDe(ArchivosDe(d.entradas)) == []
    ensures var e := OrganizarEn(d, f);
      e.resultado.Exito? ==>
        && e.resultado == Exito(Estadisticas(0, 0, |ArchivosDe(d.entradas)|), [])
        && ArchivosDe(e.dir.entradas) == ArchivosDe(d.entradas)
  {
    var c := CrearCarpetasEn(d, Claves, f.crear);
    CrearCarpetasArchivos(d, Claves, f.crear);
    var xs := ArchivosDe(c.dir.entradas);
    ProcesarSinPlan(Progreso(c.dir, Cero, []), xs, f.mover);
  }

  /** A file that is scanned and not skipped is in the plan. */
  lemma {:induction false} PlanContiene(xs: seq<string>, n: string)
    requires n in xs && !Omitido(n)
    ensures (n, ObtenerCategoria(n)) in PlanDe(xs)
  {
    var init := xs[..|xs| - 1];
    if n != xs[|xs| - 1] {
      assert xs == init + [xs[|xs| - 1]];
      assert n in init;
      PlanContiene(init, n);
    }
  }

  /** A plan with only skipped files is empty. */
  lemma {:induction false} PlanVacio(xs: seq<string>)
    requires forall x :: x in xs ==> Omitido(x)
    ensures PlanDe(xs) == []
  {
    if xs != [] {
      assert xs[|xs| - 1] in xs;
      forall x | x in xs[..|xs| - 1] ensures Omitido(x) {
        assert x in xs;
      }
      PlanVacio(xs[..|xs| - 1]);
    }
  }

  /** A pair in the projection of some records comes from one of them. */
  lemma {:induction false} ProyeccionContiene(rs: seq<Registro>, n: string, c: string)
    requires (n, c) in Proyeccion(rs)
    ensures exists r :: r in rs && r.archivo == n
  {
    var init := rs[..|rs| - 1];
    if (n, c) in Proyeccion(init) {
      ProyeccionContiene(init, n, c);
      var r :| r in init && r.archivo == n;
      assert r in rs;
    } else {
      assert rs[|rs| - 1] in rs;
    }
  }

  /** When every move of a loop over the listed files succeeds, only
      skipped files are left at the top level. */
  lemma QuedanOmitidos(d: Directorio, fm: set<string>)
    requires forall r :: r in Procesar(Progreso(d, Cero, []), ArchivosDe(d.entradas), fm).resultados ==> r.exito
    ensures forall n :: n in ArchivosDe(Procesar(Progreso(d, Cero, []), ArchivosDe(d.entradas), fm).dir.entradas) ==> Omitido(n)
  {
    var xs := ArchivosDe(d.entradas);
    var p0 := Progreso(d, Cero, []);
    var q := Procesar(p0, xs, fm);
    ProcesarRegistros(p0, xs, fm);
    assert q.resultados[0..] == q.resultados;
    ArchivosDeMiembros(d.entradas);
    ArchivosDeMiembros(q.dir.entradas);
    forall n | n in ArchivosDe(q.dir.entradas) ensures Omitido(n) {
      ProcesarQuita(p0, xs, fm, n);
      if !Omitido(n) {
        PlanContiene(xs, n);
        ProyeccionContiene(q.resultados, n, ObtenerCategoria(n));
        assert false;
      }
    }
  }

  /** Running `organizar` again after a run in which every move succeeded
      finds nothing left to move: every remaining top-level file is one the
      first run skipped, and the second run succeeds with no move, no error,
      no record and those files counted as skipped. */
  lemma SegundaPasada(d: Directorio, f: Fallos, f2: Fallos)
    requires OrganizarEn(d, f).resultado.Exito?
    requires forall r :: r in OrganizarEn(d, f).resultado.resultados ==> r.exito
    ensures var d2 := OrganizarEn(d, f).dir;
      && (forall n :: n in ArchivosDe(d2.entradas) ==> Omitido(n))
      && OrganizarEn(d2, f2).resultado == Exito(Estadisticas(0, 0, |ArchivosDe(d2.entradas)|), [])
  {
    var c := CrearCarpetasEn(d, Claves, f.crear);
    CrearCarpetasConserva(d, Claves, f.crear);
    var p0 := Progreso(c.dir, Cero, []);
    var q := Procesar(p0, ArchivosDe(c.dir.entradas), f.mover);
    ProcesarCarpetas(p0, ArchivosDe(c.dir.entradas), f.mover);
    QuedanOmitidos(c.dir, f.mover);
    PlanVacio(ArchivosDe(q.dir.entradas));
    OrganizarListo(q.dir, f2);
  }

  /** `organizar` on a readable directory that already has every category
      folder and holds only files to skip succeeds and only counts them. */
  lemma OrganizarListo(d: Directorio, f: Fallos)
    requires d.legible
    requires forall k :: k in Claves ==> k in d.carpetas
    requires PlanDe(ArchivosDe(d.entradas)) == []
    ensures OrganizarEn(d, f).resultado == Exito(Estadisticas(0, 0, |ArchivosDe(d.entradas)|), [])
  {
    CrearCarpetasExistentes(d, Claves, f.crear);
    OrganizarSinCrear(d, f);
    ProcesarSinPlan(Progreso(d, Cero, []), ArchivosDe(d.entradas), f.mover);
  }

  /** `organizar` on a directory where creating the folders changes nothing
      is just the loop. */
  lemma OrganizarSinCrear(d: Directorio, f: Fallos)
    requires d.legible
    requires CrearCarpetasEn(d, Claves, f.crear) == Creacion(true, d)
    ensures var q := Procesar(Progreso(d, Cero, []), ArchivosDe(d.entradas), f.mover);
      OrganizarEn(d, f).resultado == Exito(q.est, q.resultados)
  {
  }
}
