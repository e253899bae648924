# OrganizadorArchivos — a Dafny model of the classify-and-move engine

OrganizadorArchivos is a small desktop tool. It tidies one directory by
moving each top-level file into a sub-folder named after its category:
images, PDFs, Word, Excel and PowerPoint documents, text, videos, music.
It leaves alone hidden files, Office lock files, Windows system files,
archives and executables. Before moving anything it can show a preview:
for each category, the files that would go there, plus how many files
would be skipped.

This project models the engine of `script_ordenar_archivos.py` and proves
what it promises. The engine is made of:
- the three tables `CATEGORIAS`, `EXTENSIONES_BLOQUEADAS` and `ARCHIVOS_SISTEMA`;
- the classification predicates;
- the organizer object (`OrganizadorArchivos`), with its base path and its counters;
- the organize pass with collision renaming;
- the preview.

Modules:

- `Texto` covers ASCII lower-casing, the path library's `suffix` / `stem`
  split (a leading dot alone is no suffix, so `.bashrc` has none) and the
  decimal rendering of the collision counter.
- `Clasificador` holds the three tables, `es_archivo_sistema`,
  `es_extension_bloqueada` and `obtener_categoria` as a first-match table
  lookup, and the facts about the tables:
  - the extension lists are disjoint;
  - the keys are distinct and differ from "Otros";
  - no blocked extension has a category.
- `Disco` is the file system as values.
  - A directory is its top-level entries in enumeration order (name,
    is-a-file), a map from sub-folder name to the names inside it, and
    whether it can be listed.
  - The class `SistemaArchivos` holds the plain files and the directories
    the organizer can be pointed at, and is updated in place.
  - It also has one `mkdir(exist_ok=True)`, one `shutil.move`, and the
    probe loop that picks a free destination name.
- `Plan` holds the reference definitions the methods are proved against:
  - the plan of a scan (the non-skipped files with their categories, in
    order);
  - one loop step and the whole loop of `organizar`;
  - folder creation and the whole pass;
  - the lemmas about counters, records, folders and a second run.
- `Previa` holds the preview dictionary as the loop builds it, and its
  partition, order, shape and count properties. It also proves that the
  preview predicts the records of a following organize pass.
- `Motor` holds the class `Organizador`, with fields `rutaBase` and
  `estadisticas` and one method per operation, each written with the
  source's loops. It also holds the module-level `ObtenerVistaPrevia`.

The operating system's answers are parameters of type `Fallos`: the set of
folders whose `mkdir` raises, and the set of files whose move raises.
A directory whose listing raises has `legible == false`.

Three behaviours of the code are worth knowing before reading the proofs:
- On a name collision the file is renamed to `stem_k.suffix` with the
  smallest free `k` (`script_ordenar_archivos.py:105-113`); the move is not
  refused.
- The eight category folders are created up front, before any file is
  looked at, and "Otros" is never created. A move into a missing folder
  fails, so every move to "Otros" fails unless that folder already exists
  (lemma `Plan.OtrosSinCarpeta`).
- Path validation checks only `exists()` and `is_dir()`
  (`script_ordenar_archivos.py:68-71`).

## Model

| member | source | states |
|---|---|---|
| Texto.MinusculasIndice | script_ordenar_archivos.py:53 | lower-casing maps each character on its own: position `i` of the result is character `i` lower-cased |
| Texto.MinusculasIdempotente | script_ordenar_archivos.py:53 | lower-casing twice is lower-casing once |
| Texto.Sufijo | script_ordenar_archivos.py:62 | the suffix is empty, or it starts with a dot, has at least one more character and is shorter than the name (a leading dot alone is no suffix) |
| Texto.SufijoCompleto | script_ordenar_archivos.py:62 | when the last dot of a name is neither its first nor its last character, the suffix is everything from that dot on, so "photo.jpg" has suffix ".jpg" |
| Texto.SufijoUnSoloPunto | script_ordenar_archivos.py:62 | a suffix holds one dot only, at its start: it is the last dot-segment |
| Texto.RaizMasSufijo | script_ordenar_archivos.py:111 | stem followed by suffix gives back the whole name; a non-empty suffix leaves a non-empty stem |
| Texto.SufijoMinusculas | script_ordenar_archivos.py:96 | the suffix of the lower-cased name is the lower-cased suffix |
| Texto.EmpiezaCon | script_ordenar_archivos.py:55-57 | `str.startswith`: the name begins with the given prefix. `SistemaSinMayusculas` uses it to show the "." and "~$" tests ignore letter case |
| Texto.Minusculas | script_ordenar_archivos.py:53 | `str.lower()` on ASCII letters, one character at a time; keeps the length. Its properties are in `MinusculasIndice` and `MinusculasIdempotente` |
| Texto.Raiz | script_ordenar_archivos.py:111 | `Path.stem`: the name up to its suffix, or the whole name when there is none. `RaizMasSufijo` relates it to `Sufijo` |
| Texto.Decimal | script_ordenar_archivos.py:111 | the digits an f-string prints for the counter; at least one digit, two from ten on. `DecimalInyectivo` carries its property |
| Texto.DecimalInyectivo | script_ordenar_archivos.py:111 | two different counters never render as the same digits |
| Clasificador.Categorias | script_ordenar_archivos.py:18-27 | `CATEGORIAS` as declared, in declaration order: eight folder names with their extension lists. `CategoriasDisjuntas`, `ClavesDeCategorias` and `BloqueadasFueraDeCategorias` carry its facts |
| Clasificador.Otros | script_ordenar_archivos.py:100 | the fallback category "Otros". `ClavesDistintas` proves it is not a key, and `CategoriaOtros` says when it comes out |
| Clasificador.Claves | script_ordenar_archivos.py:80 | `CATEGORIAS.keys()` in declaration order, the folders `crear_carpetas` makes. `ClavesDeCategorias` proves it is the table's keys, and `ClavesDistintas` that they are distinct |
| Clasificador.ExtensionesBloqueadas | script_ordenar_archivos.py:30-34 | `EXTENSIONES_BLOQUEADAS` as declared: the seventeen archive and executable extensions. `BloqueadasFueraDeCategorias` carries its fact |
| Clasificador.ArchivosSistema | script_ordenar_archivos.py:38-41 | `ARCHIVOS_SISTEMA` as declared: the seven Windows system names, all lower-case. `SistemaSinMayusculas` carries its fact |
| Clasificador.EsArchivoSistema | script_ordenar_archivos.py:51-58 | `es_archivo_sistema`: the name starts with "." or "~$", or its lower-cased form is one of `ARCHIVOS_SISTEMA`. `SistemaSinMayusculas` carries its property |
| Clasificador.EsExtensionBloqueada | script_ordenar_archivos.py:60-62 | `es_extension_bloqueada`: the lower-cased suffix is one of `EXTENSIONES_BLOQUEADAS`. `BloqueadaEsOtros` and `ExtensionSinMayusculas` carry its properties |
| Clasificador.Omitido | script_ordenar_archivos.py:153-162 | a file the loop skips: a system file or a blocked extension, tested in that order |
| Clasificador.ObtenerCategoria | script_ordenar_archivos.py:94-100 | `obtener_categoria`: the key of the first row whose list holds the lower-cased suffix, or "Otros". Its properties are in `CategoriaValida`, `CategoriaEsPrimeraCoincidencia`, `CategoriaOtros`, `CategoriaSegunLista` and `ExtensionSinMayusculas` |
| Clasificador.PrimeraFila | script_ordenar_archivos.py:97-99 | the scan stops at a row whose list holds the extension, or after the last row |
| Clasificador.PrimeraFilaEsPrimera | script_ordenar_archivos.py:97-99 | no row before the one the scan stops at holds the extension |
| Clasificador.CategoriaValida | script_ordenar_archivos.py:94-100 | every name gets one of the `CATEGORIAS` keys or "Otros": the lookup is total |
| Clasificador.CategoriasDisjuntas | script_ordenar_archivos.py:18-27 | no extension is listed under two categories |
| Clasificador.ClavesDistintas | script_ordenar_archivos.py:18-27 | the category keys are pairwise distinct and none is "Otros" |
| Clasificador.ClavesDeCategorias | script_ordenar_archivos.py:18-27 | the key list is the table's keys in order, and the keys are valid |
| Clasificador.BloqueadasFueraDeCategorias | script_ordenar_archivos.py:18-34 | no blocked extension appears in any category list |
| Clasificador.PrimeraFilaCaracteriza | script_ordenar_archivos.py:97-99 | for any table with distinct keys other than "Otros": the lookup yields key `i` iff row `i` is the first whose list holds the extension |
| Clasificador.CategoriaEsPrimeraCoincidencia | script_ordenar_archivos.py:94-100 | the category is key `i` iff list `i` is the first to hold the lower-cased suffix |
| Clasificador.CategoriaOtros | script_ordenar_archivos.py:94-100 | the category is "Otros" iff no list holds the lower-cased suffix |
| Clasificador.CategoriaSegunLista | script_ordenar_archivos.py:94-100 | the lists are disjoint, so the category is key `i` iff list `i` holds the lower-cased suffix |
| Clasificador.BloqueadaEsOtros | script_ordenar_archivos.py:60-62 | a file with a blocked extension could only ever be classified "Otros" |
| Clasificador.ExtensionSinMayusculas | script_ordenar_archivos.py:94-96 | the category and the blocked verdict ignore letter case |
| Clasificador.SistemaSinMayusculas | script_ordenar_archivos.py:51-58 | the system-file verdict ignores letter case |
| Disco.SistemaArchivos.Existe | script_ordenar_archivos.py:68 | `Path.exists()`: the path is a plain file or a directory. `Motor.Organizador.EstablecerRuta` states its answer with it |
| Disco.SistemaArchivos.EsDirectorio | script_ordenar_archivos.py:70 | `Path.is_dir()`: the path is a directory. `Motor.Organizador.EstablecerRuta` states its answer with it |
| Disco.ArchivosDe | script_ordenar_archivos.py:149 | `[f for f in iterdir() if f.is_file()]` as names, in enumeration order; never longer than the listing. `ArchivosDeMiembros` carries its property |
| Disco.Mover | script_ordenar_archivos.py:115 | `shutil.move` into the category folder under the chosen name. It fails when the folder or the file is missing or the environment refuses; in the model a failed move changes nothing (see `Disco.Mover` under Left out). `MoverNoSobrescribe` carries its properties |
| Disco.CrearCarpeta | script_ordenar_archivos.py:82 | `mkdir(exist_ok=True)`: an existing folder is kept; a plain file of that name or a refusal makes it raise; otherwise an empty folder appears. `CrearCarpetaConserva` carries its properties |
| Disco.ArchivosDeMiembros | script_ordenar_archivos.py:149 | the listing holds a name iff a plain file of that name is a top-level entry; directories are ignored |
| Disco.Quitar | script_ordenar_archivos.py:115 | after a move the top level keeps every entry except the moved file |
| Disco.Candidato | script_ordenar_archivos.py:111 | the name `f"{stem}_{k}{suffix}"` tried by probe `k`. `CandidatoInyectivo`, `NombreDestinoMinimo` and `ElegirDestino` carry its properties |
| Disco.CandidatoInyectivo | script_ordenar_archivos.py:111 | different probe numbers give different names |
| Disco.CandidatosOcupados | script_ordenar_archivos.py:109-113 | a folder of `n` names can reject at most `n` probes, so the probe loop terminates |
| Disco.PrimerLibre | script_ordenar_archivos.py:109-113 | the probe number found is free, and every earlier one is taken |
| Disco.NombreDestino | script_ordenar_archivos.py:105-113 | the destination name is not taken in the folder, and it is the file's own name when that is free |
| Disco.NombreDestinoMinimo | script_ordenar_archivos.py:105-113 | when the name is taken, the destination is `stem_k + suffix` iff `k` is the smallest probe whose name is free |
| Disco.ElegirDestino | script_ordenar_archivos.py:105-113 | the probe loop returns exactly that destination name |
| Disco.MoverNoSobrescribe | script_ordenar_archivos.py:105-115 | a move overwrites nothing. It succeeds iff the folder exists, the file is there and the environment allows it. On success the folder gains exactly one name, the one `NombreDestino` picks, and the file leaves the top level. Other folders are untouched. In the model a failed move changes nothing |
| Disco.QuitarUnicos | script_ordenar_archivos.py:115 | taking a moved file off the top level keeps entry names unique |
| Disco.CrearCarpetaBien | script_ordenar_archivos.py:82 | on a well-formed directory (`Bien`: unique entry names, folders exactly the non-file entries), `mkdir(exist_ok=True)` of a folder that is already an entry succeeds without change, and creating a folder keeps the directory well-formed |
| Disco.MoverBien | script_ordenar_archivos.py:115 | a move keeps a well-formed directory well-formed |
| Disco.ArchivosDeUnicos | script_ordenar_archivos.py:149 | in a directory with unique entry names, the listing holds each file name exactly once |
| Disco.CrearCarpetaConserva | script_ordenar_archivos.py:81-82 | `mkdir(exist_ok=True)` keeps the file list and every folder. On success the folder set gains exactly that folder; on failure nothing changes |
| Plan.Contar | script_ordenar_archivos.py:115-127 | one move changes `movidos + errores` by exactly one, `movidos` grows only on success, and `omitidos` is unchanged |
| Plan.Paso | script_ordenar_archivos.py:151-166 | one iteration of the `organizar` loop: a skipped file only bumps `omitidos`; any other file is moved with `Mover`, counted with `Contar` and recorded |
| Plan.Procesar | script_ordenar_archivos.py:151-166 | the loop over the listed files in order. Its properties are in `ProcesarPrefijo`, `ProcesarRegistros`, `ProcesarContadores`, `ProcesarCarpetas` and `ProcesarQuita` |
| Plan.CrearCarpetasEn | script_ordenar_archivos.py:80-92 | `crear_carpetas`: `CrearCarpeta` for each key in order, stopping at the first failure. `CrearCarpetasConserva` and `CrearCarpetasExistentes` carry its properties |
| Plan.OrganizarEn | script_ordenar_archivos.py:130-177 | `organizar` on an existing base directory: zeroed counters, folder creation (failure aborts), the listing (failure aborts), then the loop. Its properties are in the `Organizar…`, `OtrosSinCarpeta` and `SegundaPasada` lemmas |
| Plan.PlanMasOmitidos | script_ordenar_archivos.py:151-162 | every scanned file is either skipped or planned: the two counts add up to the number scanned |
| Plan.ProcesarPrefijo | script_ordenar_archivos.py:166 | the loop only appends records |
| Plan.ProcesarRegistros | script_ordenar_archivos.py:151-166 | the records' (name, category) pairs are the non-skipped files, in scan order, each with `obtener_categoria` of its name |
| Plan.ProcesarContadores | script_ordenar_archivos.py:151-166 | `omitidos` grows by the skipped count, `movidos + errores` by the number of planned files, and `movidos` by the number of successful records |
| Plan.ProcesarCarpetas | script_ordenar_archivos.py:151-166 | the loop keeps every folder and every name in it, and every record marked moved names a folder that existed |
| Plan.ProcesarQuita | script_ordenar_archivos.py:151-166 | a top-level file is gone after the loop iff a new record says it was moved |
| Plan.CrearCarpetasConserva | script_ordenar_archivos.py:77-92 | folder creation keeps every file and folder, creates only empty folders named by keys, and on success every key has a folder |
| Plan.CrearCarpetasArchivos | script_ordenar_archivos.py:77-92 | folder creation leaves the file list and readability as they were |
| Plan.CrearCarpetasExistentes | script_ordenar_archivos.py:80-84 | with every folder already present, folder creation succeeds and changes nothing |
| Plan.OrganizarContabilidad | script_ordenar_archivos.py:130-172 | a failed pass leaves the counters at zero. On success: the returned counters are the kept ones; `movidos + errores` is the record count; `omitidos + records` is the scan count; `movidos` is the successful records; the records follow the plan |
| Plan.OrganizarConservaCarpetas | script_ordenar_archivos.py:130-172 | no folder disappears or loses a name, whatever happens |
| Plan.CrearCarpetasBien | script_ordenar_archivos.py:80-92 | `crear_carpetas` keeps a well-formed directory well-formed |
| Plan.ProcesarBien | script_ordenar_archivos.py:151-166 | the loop keeps a well-formed directory well-formed |
| Plan.OrganizarBien | script_ordenar_archivos.py:130-177 | a whole pass keeps a well-formed directory well-formed |
| Plan.OrganizarCarpetas | script_ordenar_archivos.py:139-145 | after success the folders are exactly the old ones plus the `CATEGORIAS` keys, and "Otros" is not a key |
| Plan.OrganizarFalloNoMueve | script_ordenar_archivos.py:139-142 | a pass that fails moves no file |
| Plan.OtrosSinCarpeta | script_ordenar_archivos.py:164-166 | without a pre-existing "Otros" folder, every "Otros" record is a failure |
| Plan.ProcesarSinPlan | script_ordenar_archivos.py:151-162 | a loop over skipped files only counts them |
| Plan.OrganizarSinElegibles | script_ordenar_archivos.py:130-172 | with nothing eligible, a successful pass records nothing, counts every file as skipped and moves no file |
| Plan.QuedanOmitidos | script_ordenar_archivos.py:151-166 | when every move succeeds, only skipped files remain at the top level |
| Plan.SegundaPasada | script_ordenar_archivos.py:130-172 | after a pass where every move succeeded, a second pass succeeds with no move, no error and no record |
| Plan.OrganizarListo | script_ordenar_archivos.py:130-172 | on a readable directory with every folder present and nothing eligible, the pass succeeds and only counts |
| Previa.MapaVista | script_ordenar_archivos.py:221-238 | the `preview` dictionary as the loop builds it: skipped files leave it alone, any other file is appended to its category's list, created when missing. Its properties are in `MapaVistaCaracteriza`, `MapaVistaClaves`, `VistaParticion` and `VistaCuenta` |
| Previa.VistaDe | script_ordenar_archivos.py:240 | the success dictionary of the preview: the `preview` map built by `MapaVista` and the skip count. `Motor.ObtenerVistaPrevia` is proved to return it |
| Previa.CategoriaEnTodas | script_ordenar_archivos.py:235 | every category is a key or "Otros" |
| Previa.MapaVistaCaracteriza | script_ordenar_archivos.py:224-238 | each category's list is exactly the files of that category in scan order |
| Previa.MapaVistaClaves | script_ordenar_archivos.py:236-238 | every key is a category and no list is empty |
| Previa.EnCategoriaCuenta | script_ordenar_archivos.py:224-238 | a non-skipped file is listed under its category as often as scanned, and under no other; a skipped file is listed nowhere |
| Previa.VistaUnaVez | script_ordenar_archivos.py:220-240 | in a well-formed directory each listed file that is not skipped appears exactly once, under its own category and under no other, and a skipped file appears nowhere |
| Previa.VistaParticion | script_ordenar_archivos.py:220-240 | the preview partitions the files: each non-skipped file appears under its own category, as often as it was scanned, and under no other; skipped files appear nowhere; keys are categories and lists are non-empty |
| Previa.VistaCuenta | script_ordenar_archivos.py:220-240 | the list lengths plus `omitidos` equal the number of files scanned |
| Previa.EnCategoriaEsPlan | script_ordenar_archivos.py:235-238 | each list of the preview is the plan's names of that category |
| Previa.VistaPredice | script_ordenar_archivos.py:151-166 | when a pass succeeds, its records under each category are exactly the preview's list for it, in the same order |
| Motor.Organizador.constructor | script_ordenar_archivos.py:43-49 | no base path, all counters zero |
| Motor.Organizador.EstablecerRuta | script_ordenar_archivos.py:64-75 | the path is stored even on failure; the answer is true iff the path exists and is a directory; the counters are unchanged |
| Motor.Organizador.CrearCarpetas | script_ordenar_archivos.py:77-92 | with no base path, or one that is not a directory, it fails and changes nothing; otherwise the base directory becomes what `CrearCarpetasEn` gives |
| Motor.Organizador.MoverArchivo | script_ordenar_archivos.py:102-128 | the counters change as `Contar` says; the base directory becomes what `Mover` gives; with no base path or no directory the move fails |
| Motor.Organizador.Organizar | script_ordenar_archivos.py:130-177 | with no base path it fails and touches nothing. With a missing directory it fails with zeroed counters. Otherwise the result, the counters and the directory are those of `OrganizarEn` |
| Motor.Organizador.Recorrer | script_ordenar_archivos.py:151-172 | the loop leaves the result, the counters and the directory as `Procesar` gives them |
| Motor.Organizador.ActualizarVista | script_ordenar_archivos.py:245-253 | no base path gives failure; otherwise it is the preview of the base path |
| Motor.ObtenerVistaPrevia | script_ordenar_archivos.py:213-242 | a path that is not a readable directory gives failure; otherwise the preview is `MapaVista` and the skip count of the listed files |

## Left out

- Logging setup and every `logging` call, and all message strings (results carry no message).
- The `eel` wrappers, `obtener_ruta_documentos`, `iniciar_app` and the web front end: framework and UI glue with no logic of the engine.
- Disco.Mover: a failed move is modelled as changing nothing. When `os.rename` fails, `shutil.move` copies the file and then deletes the original. If that delete fails (a file held open, a base directory that cannot be written), the copy stays in the category folder, the original stays at the top level, and the move is still counted as an error. `MoverNoSobrescribe`, `Plan.OrganizarConservaCarpetas`, `Plan.SegundaPasada` and `Plan.OrganizarFalloNoMueve` hold of the model under this assumption.
- `Path(ruta)` normalisation and the real semantics of `iterdir`, `mkdir` and `shutil.move`. They are replaced by the abstract directory and the failure sets in `Fallos`; which OS error was raised is not modelled.
- `str.lower()` is modelled for ASCII letters only; non-ASCII case folding is not.
- Sub-folders are modelled only as name sets inside their base directory. They are not separate paths in `SistemaArchivos.directorios`, and the move never creates nested paths.
- Dictionary key order of the preview: the model uses a map. The order of each list is modelled.
- `Motor.Organizador.Organizar`: the dictionary `estadisticas` is returned by reference in the source; the model returns a copy, so later aliasing is not captured.
- Disco.NombreDestino: names are compared case-sensitively, here and in `Disco.NombreOcupado`. On a case-insensitive file system such as Windows, `destino.exists()` also matches a name differing only in case. There `Foto.JPG` beside an existing `foto.jpg` becomes `Foto_1.JPG`, while the model moves it under its own name.
- The global `organizador` instance and concurrent calls are not modelled.
