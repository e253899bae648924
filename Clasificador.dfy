/** The classification rules of the organizer: the extension table that
    names each destination folder, the blocked extensions and the system
    file names, and the three predicates built on them. */
module Clasificador {
  import opened Texto

  /** `CATEGORIAS`, in declaration order: folder name and the extensions it
      collects (script_ordenar_archivos.py:18-27). */
  const Categorias: seq<(string, seq<string>)> := [
    ("Imagenes", [".jpg", ".jpeg", ".png", ".gif", ".bmp", ".svg", ".webp", ".ico"]),
    ("Documentos_PDFs", [".pdf"]),
    ("Documentos_Word", [".doc", ".docx"]),
    ("Documentos_Excel", [".xls", ".xlsx", ".csv"]),
    ("Documentos_PowerPoint", [".ppt", ".pptx"]),
    ("Documentos_txt", [".txt", ".md"]),
    ("Videos", [".mp4", ".avi", ".mkv", ".mov", ".wmv", ".flv", ".webm"]),
    ("Musica", [".mp3", ".wav", ".flac", ".aac", ".ogg", ".m4a"])
  ]

  /** The category of a file whose extension is in no list. */
  const Otros: string := "Otros"

  /** `CATEGORIAS.keys()`, in order. Written out rather than computed from
      `Categorias` so that facts about the keys alone are decided without
      unfolding the extension lists; `ClavesDeCategorias` proves the two
      agree. */
  const Claves: seq<string> := [
    "Imagenes", "Documentos_PDFs", "Documentos_Word", "Documentos_Excel",
    "Documentos_PowerPoint", "Documentos_txt", "Videos", "Musica"
  ]

  /** `EXTENSIONES_BLOQUEADAS`: archives and executables. */
  const ExtensionesBloqueadas: set<string> := {
    ".zip", ".rar", ".7z", ".tar", ".gz", ".bz2", ".xz",
    ".exe", ".msi", ".bat", ".cmd", ".com", ".scr",
    ".dll", ".sys", ".ini", ".log"
  }

  /** `OrganizadorArchivos.ARCHIVOS_SISTEMA`, already lower-case. */
  const ArchivosSistema: set<string> := {
    "desktop.ini", "thumbs.db", "pagefile.sys", "hiberfil.sys",
    "$recycle.bin", "system volume information", "organizador_archivos.log"
  }

  /** `es_archivo_sistema`: hidden names, Office lock files and the Windows
      system files, the latter compared case-insensitively. */
  predicate EsArchivoSistema(nombre: string)
  {
    EmpiezaCon(nombre, ".") || Minusculas(nombre) in ArchivosSistema || EmpiezaCon(nombre, "~$")
  }

  /** `es_extension_bloqueada`: the lower-cased suffix is a blocked one. */
  predicate EsExtensionBloqueada(nombre: string)
  {
    Minusculas(Sufijo(nombre)) in ExtensionesBloqueadas
  }

  /** A file that both the preview and the organize pass leave where it is. */
  predicate Omitido(nombre: string)
  {
    EsArchivoSistema(nombre) || EsExtensionBloqueada(nombre)
  }

  /** Index of the first table row, from `desde` on, whose list holds `ext`;
      `|tabla|` when none does. This is the `for ... in CATEGORIAS.items()`
      scan with its early return. */
  function PrimeraFila(tabla: seq<(string, seq<string>)>, ext: string, desde: nat): (i: nat)
    requires desde <= |tabla|
    ensures desde <= i <= |tabla|
    ensures i < |tabla| ==> ext in tabla[i].1
    decreases |tabla| - desde
  {
    if desde == |tabla| then desde
    else if ext in tabla[desde].1 then desde
    else PrimeraFila(tabla, ext, desde + 1)
  }

  /** `obtener_categoria`: the first key whose list holds the lower-cased
      suffix, or "Otros". */
  function ObtenerCategoria(nombre: string): (r: string)
  {
    var i := PrimeraFila(Categorias, Minusculas(Sufijo(nombre)), 0);
    if i < |Categorias| then Categorias[i].0 else Otros
  }

  /** No row before the one `PrimeraFila` stops at holds `ext`. */
  lemma {:induction false} PrimeraFilaEsPrimera(tabla: seq<(string, seq<string>)>, ext: string, desde: nat)
    requires desde <= |tabla|
    ensures forall j :: desde <= j < PrimeraFila(tabla, ext, desde) ==> ext !in tabla[j].1
    decreases |tabla| - desde
  {
    if desde < |tabla| && ext !in tabla[desde].1 {
      PrimeraFilaEsPrimera(tabla, ext, desde + 1);
    }
  }

  /** Every file gets one of the keys or "Otros". */
  lemma CategoriaValida(nombre: string)
    ensures ObtenerCategoria(nombre) in Claves || ObtenerCategoria(nombre) == Otros
  {
    ClavesDeCategorias();
  }

  /** No extension belongs to two categories. */
  predicate ListasDisjuntas(tabla: seq<(string, seq<string>)>)
  {
    forall i, j, e :: 0 <= i < j < |tabla| && e in tabla[i].1 ==> e !in tabla[j].1
  }

  lemma CategoriasDisjuntas()
    ensures ListasDisjuntas(Categorias)
  {
    ImagenesDisjuntas();
    RestoDisjunto();
  }

  lemma ImagenesDisjuntas()
    ensures forall j, e :: 0 < j < |Categorias| && e in Categorias[0].1 ==> e !in Categorias[j].1
  {
  }

  lemma RestoDisjunto()
    ensures forall i, j, e :: 0 < i < j < |Categorias| && e in Categorias[i].1 ==> e !in Categorias[j].1
  {
  }

  /** The category keys are pairwise distinct and "Otros" is not one of them. */
  lemma ClavesDistintas()
    ensures forall i, j :: 0 <= i < j < |Claves| ==> Claves[i] != Claves[j]
    ensures Otros !in Claves
  {
  }

  /** No blocked extension is listed under any category. */
  lemma BloqueadasFueraDeCategorias()
    ensures forall i, e :: 0 <= i < |Categorias| && e in Categorias[i].1 ==> e !in ExtensionesBloqueadas
  {
  }

  /** Keys are pairwise distinct and differ from "Otros". */
  predicate ClavesValidas(tabla: seq<(string, seq<string>)>)
  {
    && (forall i, j :: 0 <= i < j < |tabla| ==> tabla[i].0 != tabla[j].0)
    && (forall i :: 0 <= i < |tabla| ==> tabla[i].0 != Otros)
  }

  /** The lookup over any table whose keys are valid: key `i` comes out
      exactly when row `i` is the first holding `ext`. */
  lemma {:induction false} PrimeraFilaCaracteriza(tabla: seq<(string, seq<string>)>, ext: string, i: nat)
    requires ClavesValidas(tabla)
    requires i < |tabla|
    ensures var k := PrimeraFila(tabla, ext, 0);
      (k < |tabla| && tabla[k].0 == tabla[i].0) <==>
        (ext in tabla[i].1 && forall j :: 0 <= j < i ==> ext !in tabla[j].1)
  {
    var k := PrimeraFila(tabla, ext, 0);
    PrimeraFilaEsPrimera(tabla, ext, 0);
    if k < i {
      assert tabla[k].0 != tabla[i].0;
    } else if i < k {
      assert ext !in tabla[i].1;
      if k < |tabla| {
        assert tabla[i].0 != tabla[k].0;
      }
    }
  }

  lemma ClavesDeCategorias()
    ensures |Claves| == |Categorias|
    ensures forall i :: 0 <= i < |Categorias| ==> Claves[i] == Categorias[i].0
    ensures ClavesValidas(Categorias)
  {
  }

  /** First-match lookup, stated against the table: the result is the key of
      row `i` exactly when row `i` is the first whose list holds the
      lower-cased suffix, and "Otros" exactly when no row does. */
  lemma CategoriaEsPrimeraCoincidencia(nombre: string, i: nat)
    requires i < |Categorias|
    ensures ObtenerCategoria(nombre) == Claves[i] <==>
      var ext := Minusculas(Sufijo(nombre));
      ext in Categorias[i].1 && forall j :: 0 <= j < i ==> ext !in Categorias[j].1
  {
    ClavesDeCategorias();
    PrimeraFilaCaracteriza(Categorias, Minusculas(Sufijo(nombre)), i);
  }

  /** The fallback: "Otros" exactly when no list holds the lower-cased suffix. */
  lemma CategoriaOtros(nombre: string)
    ensures ObtenerCategoria(nombre) == Otros <==>
      forall j :: 0 <= j < |Categorias| ==> Minusculas(Sufijo(nombre)) !in Categorias[j].1
  {
    ClavesDeCategorias();
    PrimeraFilaEsPrimera(Categorias, Minusculas(Sufijo(nombre)), 0);
  }

  /** Because the lists are disjoint, the category of a name is key `i`
      exactly when its lower-cased suffix is in list `i`. */
  lemma CategoriaSegunLista(nombre: string, i: nat)
    requires i < |Categorias|
    ensures ObtenerCategoria(nombre) == Claves[i] <==> Minusculas(Sufijo(nombre)) in Categorias[i].1
  {
    CategoriasDisjuntas();
    CategoriaEsPrimeraCoincidencia(nombre, i);
  }

  /** A blocked file could never be given a real category. */
  lemma BloqueadaEsOtros(nombre: string)
    requires EsExtensionBloqueada(nombre)
    ensures ObtenerCategoria(nombre) == Otros
  {
    BloqueadasFueraDeCategorias();
    CategoriaOtros(nombre);
  }

  /** Classification ignores letter case: a name and its lower-cased form
      get the same category and the same blocked verdict. */
  lemma ExtensionSinMayusculas(nombre: string)
    ensures ObtenerCategoria(Minusculas(nombre)) == ObtenerCategoria(nombre)
    ensures EsExtensionBloqueada(Minusculas(nombre)) == EsExtensionBloqueada(nombre)
  {
    SufijoMinusculas(nombre);
    MinusculasIdempotente(Sufijo(nombre));
    assert Minusculas(Sufijo(Minusculas(nombre))) == Minusculas(Sufijo(nombre));
  }

  /** The system-file check ignores letter case too: the characters it looks
      for at the start of a name, '.', '~' and '$', are not letters. */
  lemma SistemaSinMayusculas(nombre: string)
    ensures EsArchivoSistema(Minusculas(nombre)) == EsArchivoSistema(nombre)
  {
    MinusculasIdempotente(nombre);
    var m := Minusculas(nombre);
    assert EmpiezaCon(m, ".") == EmpiezaCon(nombre, ".") by {
      if |nombre| > 0 {
        assert m[..1] == [MinusculaChar(nombre[0])];
        assert nombre[..1] == [nombre[0]];
      }
    }
    assert EmpiezaCon(m, "~$") == EmpiezaCon(nombre, "~$") by {
      if |nombre| > 1 {
        assert m[..2] == [MinusculaChar(nombre[0]), MinusculaChar(nombre[1])];
        assert nombre[..2] == [nombre[0], nombre[1]];
      }
    }
  }
}
