/** The part of the file system the organizer touches, as values: a base
    directory's top-level entries in enumeration order and the names held by
    each of its sub-folders. The two file-system operations the organizer
    performs on it are here too: creating one category folder and moving one
    file into its category folder, with the collision renaming that picks
    the destination name. */
module Disco {
  import opened Texto

  type Ruta = string

  /** One entry that `iterdir()` yields: its name and whether `is_file()`. */
  datatype Entrada = Entrada(nombre: string, esArchivo: bool)

  /** A directory as the organizer sees it. `entradas` is the enumeration
      order of its top-level entries; `carpetas` maps each sub-folder name to
      the names it holds; `legible` is false when listing it raises. */
  datatype Directorio = Directorio(entradas: seq<Entrada>, carpetas: map<string, set<string>>, legible: bool)

  /** Entry names are unique, as in a real directory. */
  predicate NombresUnicos(entradas: seq<Entrada>)
  {
    forall i, j :: 0 <= i < j < |entradas| ==> entradas[i].nombre != entradas[j].nombre
  }

  /** A value that stands for a real directory: entry names are unique and
      the sub-folders are exactly the entries that are not plain files. */
  ghost predicate Bien(d: Directorio)
  {
    && NombresUnicos(d.entradas)
    && forall c :: c in d.carpetas <==> Entrada(c, false) in d.entradas
  }

  /** The machine's file system: which paths exist as plain files and which
      as directories, with the contents of the latter. */
  class SistemaArchivos {
    var archivos: set<Ruta>
    var directorios: map<Ruta, Directorio>

    /** `Path(ruta).exists()` */
    predicate Existe(ruta: Ruta)
      reads this
    {
      ruta in archivos || ruta in directorios
    }

    /** `Path(ruta).is_dir()` */
    predicate EsDirectorio(ruta: Ruta)
      reads this
    {
      ruta in directorios
    }
  }

  /** `[f for f in iterdir() if f.is_file()]`, as names, in enumeration order. */
  function ArchivosDe(entradas: seq<Entrada>): (r: seq<string>)
    ensures |r| <= |entradas|
  {
    if entradas == [] then []
    else (if entradas[0].esArchivo then [entradas[0].nombre] else []) + ArchivosDe(entradas[1..])
  }

  /** The listing holds exactly the names of the plain files. */
  lemma {:induction false} ArchivosDeMiembros(entradas: seq<Entrada>)
    ensures forall n :: n in ArchivosDe(entradas) <==> Entrada(n, true) in entradas
  {
    if entradas != [] {
      ArchivosDeMiembros(entradas[1..]);
      assert entradas == [entradas[0]] + entradas[1..];
    }
  }

  /** The entries left once the file `nombre` has been moved away. */
  function Quitar(entradas: seq<Entrada>, nombre: string): (r: seq<Entrada>)
    ensures forall e :: e in r <==> e in entradas && e != Entrada(nombre, true)
  {
    if entradas == [] then []
    else (if entradas[0] == Entrada(nombre, true) then [] else [entradas[0]]) + Quitar(entradas[1..], nombre)
  }

  // ---------------------------------------------------------------------
  // Collision renaming

  /** The name tried on the `k`-th probe: `f"{stem}_{k}{suffix}"`. */
  function Candidato(raiz: string, sufijo: string, k: nat): string
  {
    raiz + "_" + Decimal(k) + sufijo
  }

  /** Different probes try different names. */
  lemma CandidatoInyectivo(raiz: string, sufijo: string, a: nat, b: nat)
    requires Candidato(raiz, sufijo, a) == Candidato(raiz, sufijo, b)
    ensures a == b
  {
    var p := raiz + "_";
    var ca, cb := Candidato(raiz, sufijo, a), Candidato(raiz, sufijo, b);
    assert |Decimal(a)| == |Decimal(b)|;
    assert ca[|p|..|p| + |Decimal(a)|] == Decimal(a);
    assert cb[|p|..|p| + |Decimal(b)|] == Decimal(b);
    DecimalInyectivo(a, b);
  }

  /** The names tried by the first `k - 1` probes. */
  function Probados(raiz: string, sufijo: string, k: nat): set<string>
  {
    set j | 1 <= j < k :: Candidato(raiz, sufijo, j)
  }

  lemma {:induction false} ProbadosTamano(raiz: string, sufijo: string, k: nat)
    requires 1 <= k
    ensures |Probados(raiz, sufijo, k)| == k - 1
  {
    if k > 1 {
      ProbadosTamano(raiz, sufijo, k - 1);
      var c := Candidato(raiz, sufijo, k - 1);
      assert Probados(raiz, sufijo, k) == Probados(raiz, sufijo, k - 1) + {c};
      if c in Probados(raiz, sufijo, k - 1) {
        var j :| 1 <= j < k - 1 && Candidato(raiz, sufijo, j) == c;
        CandidatoInyectivo(raiz, sufijo, j, k - 1);
      }
    }
  }

  /** A folder of `|carpeta|` names can reject at most `|carpeta|` probes:
      this is why the probe loop ends. */
  lemma CandidatosOcupados(carpeta: set<string>, raiz: string, sufijo: string, k: nat)
    requires 1 <= k
    requires forall j :: 1 <= j < k ==> Candidato(raiz, sufijo, j) in carpeta
    ensures k - 1 <= |carpeta|
  {
    var probados := Probados(raiz, sufijo, k);
    ProbadosTamano(raiz, sufijo, k);
    assert carpeta == probados + (carpeta - probados);
  }

  /** The first probe number, from `k` on, whose name is free. */
  function PrimerLibre(carpeta: set<string>, raiz: string, sufijo: string, k: nat): (n: nat)
    requires 1 <= k
    requires forall j :: 1 <= j < k ==> Candidato(raiz, sufijo, j) in carpeta
    ensures k <= n
    ensures Candidato(raiz, sufijo, n) !in carpeta
    ensures forall j :: 1 <= j < n ==> Candidato(raiz, sufijo, j) in carpeta
    decreases |carpeta| + 1 - k
  {
    CandidatosOcupados(carpeta, raiz, sufijo, k);
    if Candidato(raiz, sufijo, k) !in carpeta then k
    else PrimerLibre(carpeta, raiz, sufijo, k + 1)
  }

  /** The destination name `mover_archivo` settles on inside a folder that
      already holds `carpeta`: the name itself when free, otherwise the
      first free `stem_k.suffix`. */
  function NombreDestino(carpeta: set<string>, nombre: string): (r: string)
    ensures r !in carpeta
    ensures nombre !in carpeta ==> r == nombre
  {
    if nombre !in carpeta then nombre
    else Candidato(Raiz(nombre), Sufijo(nombre), PrimerLibre(carpeta, Raiz(nombre), Sufijo(nombre), 1))
  }

  /** When the name is taken, the destination is `stem_k + suffix` for the
      smallest `k >= 1` whose name is free, and for no other `k`. */
  lemma NombreDestinoMinimo(carpeta: set<string>, nombre: string, k: nat)
    requires nombre in carpeta
    requires 1 <= k
    ensures NombreDestino(carpeta, nombre) == Candidato(Raiz(nombre), Sufijo(nombre), k) <==>
      (Candidato(Raiz(nombre), Sufijo(nombre), k) !in carpeta &&
       forall j :: 1 <= j < k ==> Candidato(Raiz(nombre), Sufijo(nombre), j) in carpeta)
  {
    var raiz, sufijo := Raiz(nombre), Sufijo(nombre);
    var n := PrimerLibre(carpeta, raiz, sufijo, 1);
    if NombreDestino(carpeta, nombre) == Candidato(raiz, sufijo, k) {
      CandidatoInyectivo(raiz, sufijo, n, k);
    }
  }

  /** The probe loop of `mover_archivo`: while the destination exists, try
      `stem_1.suffix`, `stem_2.suffix`, and so on. */
  method ElegirDestino(carpeta: set<string>, nombre: string) returns (destino: string)
    ensures destino == NombreDestino(carpeta, nombre)
  {
    destino := nombre;
    if destino in carpeta {
      var raiz, sufijo := Raiz(nombre), Sufijo(nombre);
      var contador := 1;
      while destino in carpeta
        invariant 1 <= contador
        invariant destino == if contador == 1 then nombre else Candidato(raiz, sufijo, contador - 1)
        invariant forall j :: 1 <= j < contador - 1 ==> Candidato(raiz, sufijo, j) in carpeta
        decreases |carpeta| + 1 - contador
      {
        CandidatosOcupados(carpeta, raiz, sufijo, contador);
        destino := Candidato(raiz, sufijo, contador);
        contador := contador + 1;
      }
      NombreDestinoMinimo(carpeta, nombre, contador - 1);
    }
  }

  // ---------------------------------------------------------------------
  // One move and one folder creation

  /** What one `shutil.move` left behind: whether it succeeded and the
      directory afterwards. */
  datatype Movimiento = Movimiento(exito: bool, dir: Directorio)

  /** `shutil.move` of top-level file `nombre` into sub-folder `categoria`.
      It fails when the file is no longer there, when the folder does not
      exist (the parent of the destination is missing) or when the
      environment makes it fail (`falla`: permissions, a locked file). The
      model treats every failure as all-or-nothing: a failed move changes
      nothing, leaving out the copy that the copy-then-delete fallback of
      `shutil.move` can leave behind when the final delete fails. */
  function Mover(d: Directorio, nombre: string, categoria: string, falla: bool): Movimiento
  {
    if categoria in d.carpetas && Entrada(nombre, true) in d.entradas && !falla then
      var destino := NombreDestino(d.carpetas[categoria], nombre);
      Movimiento(true, d.(entradas := Quitar(d.entradas, nombre),
                          carpetas := d.carpetas[categoria := d.carpetas[categoria] + {destino}]))
    else
      Movimiento(false, d)
  }

  /** A move never overwrites: every folder keeps every name it held, no
      folder appears or disappears, and a successful move adds exactly one
      new name to the category folder and takes the file off the top level. */
  lemma MoverNoSobrescribe(d: Directorio, nombre: string, categoria: string, falla: bool)
    ensures var m := Mover(d, nombre, categoria, falla);
      && m.dir.carpetas.Keys == d.carpetas.Keys
      && m.dir.legible == d.legible
      && (forall c :: c in d.carpetas ==> d.carpetas[c] <= m.dir.carpetas[c])
      && (forall c :: c in d.carpetas && c != categoria ==> m.dir.carpetas[c] == d.carpetas[c])
      && (m.exito <==> categoria in d.carpetas && Entrada(nombre, true) in d.entradas && !falla)
      && (m.exito ==> m.dir.carpetas[categoria] == d.carpetas[categoria] + {NombreDestino(d.carpetas[categoria], nombre)})
      && (m.exito ==> |m.dir.carpetas[categoria]| == |d.carpetas[categoria]| + 1)
      && (m.exito ==> Entrada(nombre, true) !in m.dir.entradas)
      && (!m.exito ==> m.dir == d)
  {
    var m := Mover(d, nombre, categoria, falla);
    if m.exito {
      var destino := NombreDestino(d.carpetas[categoria], nombre);
      assert m.dir.carpetas[categoria] == d.carpetas[categoria] + {destino};
    }
  }

  /** What one `mkdir(exist_ok=True)` left behind. */
  datatype Creacion = Creacion(ok: bool, dir: Directorio)

  /** Some top-level entry is called `nombre`. */
  predicate NombreOcupado(entradas: seq<Entrada>, nombre: string)
  {
    exists e :: e in entradas && e.nombre == nombre
  }

  /** `(base / carpeta).mkdir(exist_ok=True)`: an existing folder is kept as
      it is; a plain file of that name, or a refusal by the environment
      (`sinPermiso`), makes it raise; otherwise an empty folder appears. */
  function CrearCarpeta(d: Directorio, carpeta: string, sinPermiso: set<string>): Creacion
  {
    if carpeta in d.carpetas then Creacion(true, d)
    else if NombreOcupado(d.entradas, carpeta) || carpeta in sinPermiso then Creacion(false, d)
    else Creacion(true, d.(entradas := d.entradas + [Entrada(carpeta, false)], carpetas := d.carpetas[carpeta := {}]))
  }

  /** Creating a folder never touches the files: the top-level file list and
      every existing folder stay as they were, and on success the folder
      exists. */
  lemma CrearCarpetaConserva(d: Directorio, carpeta: string, sinPermiso: set<string>)
    ensures var c := CrearCarpeta(d, carpeta, sinPermiso);
      && ArchivosDe(c.dir.entradas) == ArchivosDe(d.entradas)
      && c.dir.legible == d.legible
      && d.carpetas.Keys <= c.dir.carpetas.Keys
      && (forall k :: k in d.carpetas ==> c.dir.carpetas[k] == d.carpetas[k])
      && (c.ok ==> c.dir.carpetas.Keys == d.carpetas.Keys + {carpeta})
      && (!c.ok ==> c.dir == d)
  {
    ArchivosDeConcat(d.entradas, [Entrada(carpeta, false)]);
  }

  lemma Asociativa<T>(a: seq<T>, b: seq<T>, c: seq<T>)
    ensures (a + b) + c == a + (b + c)
  {
  }

  /** The entries left by `Quitar` keep unique names. */
  lemma {:induction false} QuitarUnicos(entradas: seq<Entrada>, nombre: string)
    requires NombresUnicos(entradas)
    ensures NombresUnicos(Quitar(entradas, nombre))
  {
    if entradas != [] {
      var cola := entradas[1..];
      assert NombresUnicos(cola) by {
        forall i, j | 0 <= i < j < |cola| ensures cola[i].nombre != cola[j].nombre {
          assert cola[i] == entradas[i + 1] && cola[j] == entradas[j + 1];
        }
      }
      QuitarUnicos(cola, nombre);
      forall x | x in cola ensures x.nombre != entradas[0].nombre {
        var k :| 0 <= k < |cola| && cola[k] == x;
        assert entradas[k + 1] == x;
      }
    }
  }

  /** On a well-formed directory a folder that is already an entry is kept:
      `mkdir(exist_ok=True)` succeeds without change. Creating a folder keeps
      the directory well-formed. */
  lemma CrearCarpetaBien(d: Directorio, carpeta: string, sinPermiso: set<string>)
    requires Bien(d)
    ensures Entrada(carpeta, false) in d.entradas ==> CrearCarpeta(d, carpeta, sinPermiso) == Creacion(true, d)
    ensures Bien(CrearCarpeta(d, carpeta, sinPermiso).dir)
  {
    var c := CrearCarpeta(d, carpeta, sinPermiso);
    if c.dir != d {
      var e := d.entradas;
      forall i | 0 <= i < |e| ensures e[i].nombre != carpeta {
        assert e[i] in e;
      }
      assert c.dir.entradas == e + [Entrada(carpeta, false)];
    }
  }

  /** Moving a file keeps the directory well-formed. */
  lemma MoverBien(d: Directorio, nombre: string, categoria: string, falla: bool)
    requires Bien(d)
    ensures Bien(Mover(d, nombre, categoria, falla).dir)
  {
    QuitarUnicos(d.entradas, nombre);
  }

  /** In a well-formed directory the listing names each file once. */
  lemma {:induction false} ArchivosDeUnicos(entradas: seq<Entrada>)
    requires NombresUnicos(entradas)
    ensures forall x :: x in ArchivosDe(entradas) ==> multiset(ArchivosDe(entradas))[x] == 1
  {
    if entradas != [] {
      var cola := entradas[1..];
      assert NombresUnicos(cola) by {
        forall i, j | 0 <= i < j < |cola| ensures cola[i].nombre != cola[j].nombre {
          assert cola[i] == entradas[i + 1] && cola[j] == entradas[j + 1];
        }
      }
      ArchivosDeUnicos(cola);
      ArchivosDeMiembros(cola);
      var n := entradas[0].nombre;
      forall k | 0 <= k < |cola| ensures cola[k].nombre != n {
        assert cola[k] == entradas[k + 1];
      }
    }
  }

  /** Listing distributes over concatenation. */
  lemma {:induction false} ArchivosDeConcat(a: seq<Entrada>, b: seq<Entrada>)
    ensures ArchivosDe(a + b) == ArchivosDe(a) + ArchivosDe(b)
  {
    if a == [] {
      assert a + b == b;
    } else {
      assert (a + b)[0] == a[0];
      assert (a + b)[1..] == a[1..] + b;
      ArchivosDeConcat(a[1..], b);
      Asociativa(if a[0].esArchivo then [a[0].nombre] else [], ArchivosDe(a[1..]), ArchivosDe(b));
    }
  }
}
