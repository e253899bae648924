/** The organizer object and the two preview entry points, written as the
    program runs them: step by step, changing the organizer's fields and
    the file system in place. Each method is proved against the functions
    of `Plan` and `Previa`, whose properties are proved there. */
module Motor {
  import opened Clasificador
  import opened Disco
  import opened Plan
  import opened Previa

  datatype Opcion<T> = Ninguna | Algun(valor: T)

  /** `OrganizadorArchivos`: the base path chosen by the user and the
      counters of the last organize pass. */
  class Organizador {
    var rutaBase: Opcion<Ruta>
    var estadisticas: Estadisticas

    /** A new organizer has no base path and zeroed counters. */
    constructor ()
      ensures rutaBase == Ninguna && estadisticas == Cero
    {
      rutaBase := Ninguna;
      estadisticas := Cero;
    }

    /** `establecer_ruta`: the path is stored whatever happens; the answer
        says whether it names an existing directory. */
    method EstablecerRuta(disco: SistemaArchivos, ruta: Ruta) returns (ok: bool)
      modifies this
      ensures rutaBase == Algun(ruta)
      ensures estadisticas == old(estadisticas)
      ensures ok <==> disco.Existe(ruta) && disco.EsDirectorio(ruta)
    {
      rutaBase := Algun(ruta);
      ok := disco.Existe(ruta) && disco.EsDirectorio(ruta);
    }

    /** `crear_carpetas`: `mkdir(exist_ok=True)` of every category key in
        turn, stopping at the first that raises. With no base path, or one
        that is not a directory, the very first call raises. */
    method CrearCarpetas(disco: SistemaArchivos, sinPermiso: set<string>) returns (ok: bool)
      modifies disco
      ensures disco.archivos == old(disco.archivos)
      ensures rutaBase.Ninguna? || rutaBase.valor !in old(disco.directorios) ==>
        !ok && disco.directorios == old(disco.directorios)
      ensures rutaBase.Algun? && rutaBase.valor in old(disco.directorios) ==>
        var base := rutaBase.valor;
        var c := CrearCarpetasEn(old(disco.directorios)[base], Claves, sinPermiso);
        ok == c.ok && disco.directorios == old(disco.directorios)[base := c.dir]
    {
      if rutaBase.Ninguna? || rutaBase.valor !in disco.directorios {
        return false;
      }
      var base := rutaBase.valor;
      ghost var d0 := disco.directorios[base];
      var i := 0;
      while i < |Claves|
        invariant 0 <= i <= |Claves|
        invariant disco.archivos == old(disco.archivos)
        invariant base in disco.directorios
        invariant disco.directorios == old(disco.directorios)[base := disco.directorios[base]]
        invariant CrearCarpetasEn(d0, Claves, sinPermiso) == CrearCarpetasEn(disco.directorios[base], Claves[i..], sinPermiso)
      {
        assert Claves[i..][0] == Claves[i] && Claves[i..][1..] == Claves[i + 1..];
        var c := CrearCarpeta(disco.directorios[base], Claves[i], sinPermiso);
        if !c.ok {
          return false;
        }
        disco.directorios := disco.directorios[base := c.dir];
        i := i + 1;
      }
      ok := true;
    }

    /** `mover_archivo`: pick the destination name inside the category
        folder with the probe loop, move the file, and count the outcome as
        moved or as an error. */
    method MoverArchivo(disco: SistemaArchivos, nombre: string, categoria: string, falla: bool) returns (exito: bool)
      modifies this, disco
      ensures rutaBase == old(rutaBase)
      ensures estadisticas == Contar(old(estadisticas), exito)
      ensures disco.archivos == old(disco.archivos)
      ensures rutaBase.Ninguna? || rutaBase.valor !in old(disco.directorios) ==>
        !exito && disco.directorios == old(disco.directorios)
      ensures rutaBase.Algun? && rutaBase.valor in old(disco.directorios) ==>
        var base := rutaBase.valor;
        var m := Mover(old(disco.directorios)[base], nombre, categoria, falla);
        exito == m.exito && disco.directorios == old(disco.directorios)[base := m.dir]
    {
      if rutaBase.Ninguna? || rutaBase.valor !in disco.directorios {
        exito := false;
      } else {
        var base := rutaBase.valor;
        var d := disco.directorios[base];
        var carpeta := if categoria in d.carpetas then d.carpetas[categoria] else {};
        var destino := ElegirDestino(carpeta, nombre);
        if categoria in d.carpetas && Entrada(nombre, true) in d.entradas && !falla {
          disco.directorios := disco.directorios[base := d.(entradas := Quitar(d.entradas, nombre),
                                                             carpetas := d.carpetas[categoria := carpeta + {destino}])];
          exito := true;
        } else {
          exito := false;
        }
      }
      estadisticas := Contar(estadisticas, exito);
    }

    /** `organizar`: reset the counters, create the folders, list the files
        once, then skip, or classify and move, each of them in order. */
    method Organizar(disco: SistemaArchivos, f: Fallos) returns (r: Resultado)
      modifies this, disco
      ensures rutaBase == old(rutaBase)
      ensures disco.archivos == old(disco.archivos)
      ensures rutaBase.Ninguna? ==>
        r == Fallo && estadisticas == old(estadisticas) && disco.directorios == old(disco.directorios)
      ensures rutaBase.Algun? && rutaBase.valor !in old(disco.directorios) ==>
        r == Fallo && estadisticas == Cero && disco.directorios == old(disco.directorios)
      ensures rutaBase.Algun? && rutaBase.valor in old(disco.directorios) ==>
        var base := rutaBase.valor;
        var e := OrganizarEn(old(disco.directorios)[base], f);
        r == e.resultado && estadisticas == e.estadisticas && disco.directorios == old(disco.directorios)[base := e.dir]
    {
      if rutaBase.Ninguna? {
        r := Fallo;
      } else {
        estadisticas := Cero;
        var ok := CrearCarpetas(disco, f.crear);
        if !ok || !disco.directorios[rutaBase.valor].legible {
          r := Fallo;
        } else {
          var d := disco.directorios[rutaBase.valor];
          r := Recorrer(disco, ArchivosDe(d.entradas), f.mover);
          Reescribir(old(disco.directorios), rutaBase.valor, d, disco.directorios[rutaBase.valor]);
        }
      }
    }

    /** The loop of `organizar` over the files listed at its start: skip
        system files and blocked extensions, counting them, and classify
        and move every other one, recording the outcome. */
    method Recorrer(disco: SistemaArchivos, archivos: seq<string>, fm: set<string>) returns (r: Resultado)
      requires rutaBase.Algun? && rutaBase.valor in disco.directorios
      modifies this, disco
      ensures rutaBase == old(rutaBase)
      ensures disco.archivos == old(disco.archivos)
      ensures var base := rutaBase.valor;
        var q := Procesar(Progreso(old(disco.directorios)[base], old(estadisticas), []), archivos, fm);
        && r == Exito(q.est, q.resultados) && estadisticas == q.est
        && disco.directorios == old(disco.directorios)[base := q.dir]
    {
      var base := rutaBase.valor;
      ghost var inicio := Progreso(disco.directorios[base], estadisticas, []);
      Reescribir(old(disco.directorios), base, disco.directorios[base], disco.directorios[base]);
      var resultados: seq<Registro> := [];
      var i := 0;
      while i < |archivos|
        invariant 0 <= i <= |archivos|
        invariant rutaBase == Algun(base) && base in disco.directorios
        invariant disco.directorios == old(disco.directorios)[base := disco.directorios[base]]
        invariant disco.archivos == old(disco.archivos)
        invariant Procesar(inicio, archivos, fm) ==
          Procesar(Progreso(disco.directorios[base], estadisticas, resultados), archivos[i..], fm)
      {
        var archivo := archivos[i];
        assert archivos[i..][0] == archivo && archivos[i..][1..] == archivos[i + 1..];
        ghost var antes := disco.directorios;
        ghost var p := Progreso(disco.directorios[base], estadisticas, resultados);
        if EsArchivoSistema(archivo) {
          estadisticas := estadisticas.(omitidos := estadisticas.omitidos + 1);
        } else if EsExtensionBloqueada(archivo) {
          estadisticas := estadisticas.(omitidos := estadisticas.omitidos + 1);
        } else {
          var categoria := ObtenerCategoria(archivo);
          var exito := MoverArchivo(disco, archivo, categoria, archivo in fm);
          resultados := resultados + [Registro(archivo, categoria, exito)];
          Reescribir(old(disco.directorios), base, antes[base], disco.directorios[base]);
        }
        assert Progreso(disco.directorios[base], estadisticas, resultados) == Paso(p, archivo, fm);
        i := i + 1;
      }
      assert archivos[i..] == [];
      r := Exito(estadisticas, resultados);
    }

    /** `actualizar_vista`: no base path is a failure; otherwise the preview
        of the base path. */
    method ActualizarVista(disco: SistemaArchivos) returns (v: Vista)
      ensures rutaBase.Ninguna? ==> v == VistaFallo
      ensures rutaBase.Algun? ==>
        var ruta := rutaBase.valor;
        v == if ruta in disco.directorios && disco.directorios[ruta].legible
             then VistaDe(ArchivosDe(disco.directorios[ruta].entradas)) else VistaFallo
    {
      if rutaBase.Ninguna? {
        return VistaFallo;
      }
      v := ObtenerVistaPrevia(disco, rutaBase.valor);
    }
  }

  /** `obtener_vista_previa`: a path that is not a readable directory is a
      failure; otherwise the files are listed once and each is counted as
      skipped or appended to the list of its category. Nothing is changed. */
  method ObtenerVistaPrevia(disco: SistemaArchivos, ruta: Ruta) returns (v: Vista)
    ensures v == if ruta in disco.directorios && disco.directorios[ruta].legible
                 then VistaDe(ArchivosDe(disco.directorios[ruta].entradas)) else VistaFallo
  {
    if ruta !in disco.directorios || !disco.directorios[ruta].legible {
      return VistaFallo;
    }
    var archivos := ArchivosDe(disco.directorios[ruta].entradas);
    var preview: map<string, seq<string>> := map[];
    var omitidos := 0;
    assert archivos[..0] == [];
    for i := 0 to |archivos|
      invariant preview == MapaVista(archivos[..i])
      invariant omitidos == NumOmitidos(archivos[..i])
    {
      var archivo := archivos[i];
      assert archivos[..i + 1][..i] == archivos[..i];
      if EsArchivoSistema(archivo) {
        omitidos := omitidos + 1;
      } else if EsExtensionBloqueada(archivo) {
        omitidos := omitidos + 1;
      } else {
        var categoria := ObtenerCategoria(archivo);
        ghost var antes := preview;
        if categoria !in preview {
          preview := preview[categoria := []];
        }
        preview := preview[categoria := preview[categoria] + [archivo]];
        if categoria !in antes {
          Reescribir(antes, categoria, [], [] + [archivo]);
        }
      }
    }
    assert archivos[..|archivos|] == archivos;
    v := Vista(preview, omitidos);
  }
}
