/** The admin page's property form: the picked image files and their preview cards, the
    feature-tag list, the required-field check and the create/update dispatch of the submit
    handler, the form reset and the loading of a property into the form for editing; and the
    modal form's change handler. */
module Admin {
  import opened Wrappers
  import opened Seqs
  import opened Texto
  import opened Propiedades

  /** At most this many files of one selection are kept. */
  const MAX_IMAGENES := 6

  /** A preview card: the file it shows, the file's name and its position number. */
  datatype Preview = Preview(archivo: Archivo, nombre: string, order: nat)

  /** A value of the modal form: a text input holds text, the checkbox holds a flag. */
  datatype ValorCampo = Cadena(s: string) | Casilla(b: bool)

  /** The toast a submit shows. */
  datatype Aviso = Exito(mensaje: string) | Fallo(mensaje: string)

  const ERROR_REQUERIDOS := "Por favor completa todos los campos requeridos"
  const EXITO_ACTUALIZAR := "Propiedad actualizada exitosamente"
  const EXITO_CREAR := "Propiedad creada exitosamente"
  const ERROR_ACTUALIZAR := "Error al actualizar la propiedad"
  const ERROR_CREAR := "Error al crear la propiedad"

  /** Every field of the property form empty and no feature tags. */
  const FORMULARIO_VACIO := PropiedadData("", "", "", "", "", "", "", "", "", "", "", [])

  /** The modal form as the page first shows it. */
  const FORMULARIO_MODAL_INICIAL: map<string, ValorCampo> := map[
    "titulo" := Cadena(""), "contenido" := Cadena(""), "imagen_url" := Cadena(""),
    "color_fondo" := Cadena("#ffffff"), "color_texto" := Cadena("#000000"),
    "tamaño" := Cadena("mediano"), "activo" := Casilla(false)]

  /** `editandoId` is truthy: a property is being edited. */
  predicate Editando(editandoId: Option<nat>)
  {
    editandoId.Some? && editandoId.value != 0
  }

  /** Each preview card shows the file at its own position. */
  predicate Corresponden(imagenes: seq<Archivo>, previews: seq<Preview>)
  {
    && |previews| == |imagenes|
    && forall k :: 0 <= k < |previews| ==>
         previews[k].archivo == imagenes[k] && previews[k].nombre == imagenes[k].nombre
  }

  /** Each preview card's `order` is its position. */
  predicate Numeradas(previews: seq<Preview>)
  {
    forall k :: 0 <= k < |previews| ==> previews[k].order == k
  }

  /** The cards `previews` with every `order` set to the card's position. */
  function ConOrden(previews: seq<Preview>): (r: seq<Preview>)
    ensures |r| == |previews| && Numeradas(r)
    ensures forall imagenes :: Corresponden(imagenes, previews) ==> Corresponden(imagenes, r)
  {
    seq(|previews|, k requires 0 <= k < |previews| => previews[k].(order := k))
  }

  /** The `forEach` that writes each card's position into its `order`. */
  method Renumerar(previews: seq<Preview>) returns (r: seq<Preview>)
    ensures r == ConOrden(previews)
  {
    r := previews;
    var i := 0;
    while i < |r|
      invariant 0 <= i <= |r| == |previews|
      invariant forall k :: 0 <= k < i ==> r[k] == previews[k].(order := k)
      invariant forall k :: i <= k < |r| ==> r[k] == previews[k]
    {
      r := r[i := r[i].(order := i)];
      i := i + 1;
    }
  }

  /** The first `MAX_IMAGENES` files of a selection, in order. */
  function Recortar(files: seq<Archivo>): (r: seq<Archivo>)
    ensures |r| <= MAX_IMAGENES && |r| <= |files|
    ensures |files| <= MAX_IMAGENES ==> r == files
    ensures r == files[..|r|] && (|r| == MAX_IMAGENES || r == files)
  {
    if |files| <= MAX_IMAGENES then files else files[..MAX_IMAGENES]
  }

  /** One card per file, numbered by position. */
  function PreviewsDe(files: seq<Archivo>): (r: seq<Preview>)
    ensures Corresponden(files, r) && Numeradas(r)
  {
    seq(|files|, k requires 0 <= k < |files| => Preview(files[k], files[k].nombre, k))
  }

  /** The feature tags after adding `nueva`: its trimmed text at the end, or nothing when that
      text is empty. */
  function Agregada(caracteristicas: seq<string>, nueva: string): (r: seq<string>)
    ensures Trim(nueva) != "" ==> r == caracteristicas + [Trim(nueva)]
    ensures Trim(nueva) == "" ==> r == caracteristicas
  {
    var t := Trim(nueva);
    if t != "" then caracteristicas + [t] else caracteristicas
  }

  /** Every tag is non-empty and has no white space at either end. */
  predicate Limpias(caracteristicas: seq<string>)
  {
    forall k :: 0 <= k < |caracteristicas| ==> caracteristicas[k] != "" && Trim(caracteristicas[k]) == caracteristicas[k]
  }

  /** Adding through the form keeps a tag list clean, whatever was typed. */
  lemma AgregadaLimpia(caracteristicas: seq<string>, nueva: string)
    requires Limpias(caracteristicas)
    ensures Limpias(Agregada(caracteristicas, nueva))
  {
    TrimIdempotent(nueva);
  }

  /** Removing a tag keeps a tag list clean. */
  lemma QuitadaLimpia(caracteristicas: seq<string>, k: int)
    requires Limpias(caracteristicas)
    ensures Limpias(WithoutIndex(caracteristicas, k))
  {
    WithoutIndexSlices(caracteristicas, k);
    var r := WithoutIndex(caracteristicas, k);
    if 0 <= k < |caracteristicas| {
      forall j | 0 <= j < |r|
        ensures r[j] != "" && Trim(r[j]) == r[j]
      {
        assert r[j] == caracteristicas[if j < k then j else j + 1];
      }
    }
  }

  /** The five fields the submit handler requires are all filled in. */
  predicate CamposRequeridos(d: PropiedadData)
  {
    d.titulo != "" && d.descripcion != "" && d.precio != "" && d.tipoPropiedad != "" && d.ubicacion != ""
  }

  /** `n?.toString() || ''`: the numeral of a stored number, '' for none. */
  function Numeral(n: Option<int>): (r: string)
    ensures Coercion(r) == n
    ensures r == "" <==> n.None?
  {
    match n
    case None => ""
    case Some(v) =>
      IntToStringRoundTrip(v);
      IntToString(v)
  }

  /** The form `handleEditarPropiedad` fills from the row `p`. */
  function FormularioDe(p: Propiedad): PropiedadData
  {
    PropiedadData(
      p.titulo, p.descripcion, Numeral(p.precio), Numeral(p.precioUsd), p.tipoPropiedad, p.ubicacion,
      Numeral(p.areaTotal), Numeral(p.dormitorios), Numeral(p.banos), Numeral(p.estacionamientos),
      Numeral(p.anoConstruccion), p.caracteristicas)
  }

  /** Loading a row into the form and saving it unchanged writes back the same row: every
      absent number becomes '' and is stored as none again, every present one is written as
      its numeral and read back as itself. */
  lemma EditarSinCambios(p: Propiedad)
    ensures Fila(p.id, FormularioDe(p), p.activa, p.fechaCreacion) == p
  {
    var d := FormularioDe(p);
    assert Coercion(d.precio) == p.precio;
    assert (if d.precioUsd != "" then Coercion(d.precioUsd) else None) == p.precioUsd;
  }

  /** The form after `handleModalChange`: the named field takes the checkbox's flag or the
      input's text, and no other field changes. */
  function CambioModal(form: map<string, ValorCampo>, name: string, tipo: string, value: string, checked: bool)
    : (r: map<string, ValorCampo>)
    ensures r.Keys == form.Keys + {name}
    ensures r[name] == if tipo == "checkbox" then Casilla(checked) else Cadena(value)
    ensures forall k :: k in form && k != name ==> r[k] == form[k]
  {
    form[name := if tipo == "checkbox" then Casilla(checked) else Cadena(value)]
  }

  class AdminPage {
    /** The property form. */
    var formulario: PropiedadData
    /** The picked image files, at most `MAX_IMAGENES` right after a selection. */
    var imagenes: seq<Archivo>
    /** One preview card per picked file. */
    var previews: seq<Preview>
    /** The feature-tag input. */
    var nuevaCaracteristica: string
    /** The id of the property being edited; `None` when creating. */
    var editandoId: Option<nat>
    /** The modal form, keyed by input name. */
    var formularioModal: map<string, ValorCampo>
    /** The admin property list. */
    var propiedades: seq<Listado>
    var activeTab: string

    /** Each preview card shows the picked file at its position. */
    ghost predicate Valid()
      reads this
    {
      Corresponden(imagenes, previews)
    }

    constructor ()
      ensures Valid()
      ensures formulario == FORMULARIO_VACIO && imagenes == [] && previews == []
      ensures nuevaCaracteristica == "" && editandoId == None
      ensures formularioModal == FORMULARIO_MODAL_INICIAL
      ensures propiedades == [] && activeTab == "dashboard"
    {
      formulario := FORMULARIO_VACIO;
      imagenes := [];
      previews := [];
      nuevaCaracteristica := "";
      editandoId := None;
      formularioModal := FORMULARIO_MODAL_INICIAL;
      propiedades := [];
      activeTab := "dashboard";
    }

    /** `handleImagenesChange`: keeps the first six files of the selection, in order, and
        makes one card per kept file whose `order` is its position. */
    method HandleImagenesChange(files: seq<Archivo>)
      modifies this`imagenes, this`previews
      ensures Valid() && Numeradas(previews)
      ensures imagenes == Recortar(files)
    {
      imagenes := Recortar(files);
      previews := PreviewsDe(imagenes);
    }

    /** `reorderImages(dragIndex, dropIndex)` as the `onDrop` handler calls it, with `dragIndex`
        read by `parseInt` and `dropIndex` the position of the card dropped on. With `dragIndex`
        a position of the lists, the two positions trade places in both lists and every card's
        `order` is set to its new position. Otherwise (NaN, or a position outside the lists) the
        swap leaves no card at `dropIndex`, so the renumbering stops there with an error: no list
        is replaced, but the cards before `dropIndex`, shared with the shown list, have already
        taken their position as `order`. */
    method ReorderImages(dragIndex: Numero, dropIndex: nat)
      requires Valid() && dropIndex < |imagenes|
      modifies this`imagenes, this`previews
      ensures Valid()
      ensures dragIndex.Valor? && 0 <= dragIndex.n < |old(imagenes)| ==>
        && Numeradas(previews)
        && imagenes == Swap(old(imagenes), dragIndex.n, dropIndex)
        && previews == ConOrden(Swap(old(previews), dragIndex.n, dropIndex))
        && multiset(imagenes) == multiset(old(imagenes))
      ensures !(dragIndex.Valor? && 0 <= dragIndex.n < |old(imagenes)|) ==>
        && imagenes == old(imagenes)
        && previews == ConOrden(old(previews)[..dropIndex]) + old(previews)[dropIndex..]
    {
      if dragIndex.Valor? && 0 <= dragIndex.n < |imagenes| {
        var i := dragIndex.n;
        SwapPermutation(imagenes, i, dropIndex);
        var nuevasImagenes := Swap(imagenes, i, dropIndex);
        var nuevasPreviews := Swap(previews, i, dropIndex);
        assert Corresponden(nuevasImagenes, nuevasPreviews);
        nuevasPreviews := Renumerar(nuevasPreviews);
        imagenes := nuevasImagenes;
        previews := nuevasPreviews;
      } else {
        var hechas := Renumerar(previews[..dropIndex]);
        assert Corresponden(imagenes[..dropIndex], previews[..dropIndex]);
        previews := hechas + previews[dropIndex..];
      }
    }

    /** `eliminarImagen`: removes position `k` from both lists and keeps the rest in order; a
        position outside the lists removes nothing. */
    method EliminarImagen(k: int)
      requires Valid()
      modifies this`imagenes, this`previews
      ensures Valid()
      ensures imagenes == if 0 <= k < |old(imagenes)| then old(imagenes)[..k] + old(imagenes)[k + 1..] else old(imagenes)
      ensures previews == if 0 <= k < |old(previews)| then old(previews)[..k] + old(previews)[k + 1..] else old(previews)
    {
      WithoutIndexSlices(imagenes, k);
      WithoutIndexSlices(previews, k);
      var nuevasImagenes := WithoutIndex(imagenes, k);
      var nuevasPreviews := WithoutIndex(previews, k);
      if 0 <= k < |imagenes| {
        forall j | 0 <= j < |nuevasPreviews|
          ensures nuevasPreviews[j].archivo == nuevasImagenes[j] && nuevasPreviews[j].nombre == nuevasImagenes[j].nombre
        {
          var j' := if j < k then j else j + 1;
          assert nuevasPreviews[j] == previews[j'] && nuevasImagenes[j] == imagenes[j'];
        }
      }
      imagenes := nuevasImagenes;
      previews := nuevasPreviews;
    }

    /** `agregarCaracteristica`: appends the trimmed tag and clears the input when the trimmed
        text is not empty; otherwise changes nothing. */
    method AgregarCaracteristica()
      modifies this`formulario, this`nuevaCaracteristica
      ensures formulario == old(formulario).(caracteristicas := Agregada(old(formulario).caracteristicas, old(nuevaCaracteristica)))
      ensures nuevaCaracteristica == if Trim(old(nuevaCaracteristica)) != "" then "" else old(nuevaCaracteristica)
      ensures Limpias(old(formulario).caracteristicas) ==> Limpias(formulario.caracteristicas)
    {
      if Limpias(formulario.caracteristicas) {
        AgregadaLimpia(formulario.caracteristicas, nuevaCaracteristica);
      }
      var t := Trim(nuevaCaracteristica);
      if t != "" {
        formulario := formulario.(caracteristicas := formulario.caracteristicas + [t]);
        nuevaCaracteristica := "";
      }
    }

    /** `eliminarCaracteristica`: removes tag `k` and keeps the rest in order; a position
        outside the list removes nothing. */
    method EliminarCaracteristica(k: int)
      modifies this`formulario
      ensures formulario == old(formulario).(caracteristicas := WithoutIndex(old(formulario).caracteristicas, k))
      ensures var cs := old(formulario).caracteristicas;
        formulario.caracteristicas == if 0 <= k < |cs| then cs[..k] + cs[k + 1..] else cs
      ensures Limpias(old(formulario).caracteristicas) ==> Limpias(formulario.caracteristicas)
    {
      WithoutIndexSlices(formulario.caracteristicas, k);
      if Limpias(formulario.caracteristicas) {
        QuitadaLimpia(formulario.caracteristicas, k);
      }
      formulario := formulario.(caracteristicas := WithoutIndex(formulario.caracteristicas, k));
    }

    /** `limpiarFormulario`: every form field empty, no files, no cards, no tag text, and no
        property being edited. */
    method LimpiarFormulario()
      modifies this`formulario, this`imagenes, this`previews, this`nuevaCaracteristica, this`editandoId
      ensures Valid()
      ensures formulario == FORMULARIO_VACIO && imagenes == [] && previews == []
      ensures nuevaCaracteristica == "" && editandoId == None
    {
      formulario := FORMULARIO_VACIO;
      imagenes := [];
      previews := [];
      nuevaCaracteristica := "";
      editandoId := None;
    }

    /** `handleEditarPropiedad`: fills the form from the row, marks it as being edited and
        switches to the form tab. The picked files are left as they are. */
    method HandleEditarPropiedad(p: Propiedad)
      modifies this`formulario, this`editandoId, this`activeTab
      ensures formulario == FormularioDe(p) && editandoId == Some(p.id) && activeTab == "crear"
      ensures Fila(p.id, formulario, p.activa, p.fechaCreacion) == p
    {
      formulario := FormularioDe(p);
      editandoId := Some(p.id);
      activeTab := "crear";
      EditarSinCambios(p);
    }

    /** `handleModalChange`. */
    method HandleModalChange(name: string, tipo: string, value: string, checked: bool)
      modifies this`formularioModal
      ensures formularioModal == CambioModal(old(formularioModal), name, tipo, value, checked)
    {
      formularioModal := formularioModal[name := if tipo == "checkbox" then Casilla(checked) else Cadena(value)];
    }

    /** The page after a successful save: an empty form with nothing being edited, the admin
        listing of the tables `ps`/`imgs`, and the list tab shown. */
    ghost predicate TrasGuardar(ps: seq<Propiedad>, imgs: seq<Imagen>)
      reads this
    {
      && formulario == FORMULARIO_VACIO && imagenes == [] && previews == []
      && nuevaCaracteristica == "" && editandoId == None
      && propiedades == ListarAdmin(ps, imgs)
      && activeTab == "propiedades"
    }

    /** What `handleSubmit` does after a successful save: `limpiarFormulario`, then
        `cargarPropiedades` (the admin listing of the tables `ps`/`imgs` the save left), then the
        list tab. */
    method Recargar(ps: seq<Propiedad>, imgs: seq<Imagen>)
      modifies this`formulario, this`imagenes, this`previews, this`nuevaCaracteristica, this`editandoId
      modifies this`propiedades, this`activeTab
      ensures Valid() && TrasGuardar(ps, imgs)
    {
      formulario := FORMULARIO_VACIO;
      imagenes := [];
      previews := [];
      nuevaCaracteristica := "";
      editandoId := None;
      propiedades := ListarAdmin(ps, imgs);
      activeTab := "propiedades";
    }

    /** The service call of `handleSubmit`: the update of the edited property (with no files
        when none are picked) or the creation of a new one, and the toast it leads to. */
    method Guardar(store: Store, leer: Archivo -> Option<string>, ahora: int) returns (aviso: Aviso)
      requires store.Valid()
      modifies store
      ensures store.Valid()
      ensures store.consultas == old(store.consultas) && store.siguienteConsultaId == old(store.siguienteConsultaId)
      ensures !Editando(editandoId) ==>
        ResultadoAlta(formulario, imagenes, leer, ahora, old(store.propiedades), old(store.imagenes),
                      old(store.siguienteId), old(store.siguienteImagenId), store.propiedades, store.imagenes, aviso)
      ensures Editando(editandoId) ==>
        ResultadoEdicion(editandoId.value, formulario, imagenes, leer, old(store.propiedades), old(store.imagenes),
                         old(store.siguienteImagenId), store.propiedades, store.imagenes, aviso)
    {
      var editando := editandoId.Some? && editandoId.value != 0;
      var result: Result<Propiedad>;
      if editando {
        result := store.ActualizarPropiedad(editandoId.value, formulario, if |imagenes| > 0 then Some(imagenes) else None, leer);
      } else {
        result := store.CrearPropiedad(formulario, imagenes, leer, ahora);
      }
      if result.Ok? {
        aviso := Exito(if editando then EXITO_ACTUALIZAR else EXITO_CREAR);
      } else {
        aviso := Fallo(if result.error != "" then result.error else if editando then ERROR_ACTUALIZAR else ERROR_CREAR);
      }
    }

    /** `handleSubmit`. With a required field empty it reports so and calls nothing. Otherwise
        it saves the form; on success it clears the form, reloads the list and shows the list
        tab, and on failure it reports the store's message and leaves the page as it was. */
    method HandleSubmit(store: Store, leer: Archivo -> Option<string>, ahora: int) returns (aviso: Aviso)
      requires store.Valid() && Valid()
      modifies this`formulario, this`imagenes, this`previews, this`nuevaCaracteristica, this`editandoId
      modifies this`propiedades, this`activeTab, store
      ensures store.Valid() && Valid()
      ensures store.consultas == old(store.consultas) && store.siguienteConsultaId == old(store.siguienteConsultaId)
      ensures !CamposRequeridos(old(formulario)) ==>
        aviso == Fallo(ERROR_REQUERIDOS) && unchanged(this) && unchanged(store)
      ensures CamposRequeridos(old(formulario)) && !Editando(old(editandoId)) ==>
        ResultadoAlta(old(formulario), old(imagenes), leer, ahora, old(store.propiedades), old(store.imagenes),
                      old(store.siguienteId), old(store.siguienteImagenId), store.propiedades, store.imagenes, aviso)
      ensures CamposRequeridos(old(formulario)) && Editando(old(editandoId)) ==>
        ResultadoEdicion(old(editandoId).value, old(formulario), old(imagenes), leer,
                         old(store.propiedades), old(store.imagenes), old(store.siguienteImagenId),
                         store.propiedades, store.imagenes, aviso)
      ensures aviso.Exito? ==> TrasGuardar(store.propiedades, store.imagenes)
      ensures aviso.Fallo? ==> unchanged(this)
    {
      if !(formulario.titulo != "" && formulario.descripcion != "" && formulario.precio != ""
           && formulario.tipoPropiedad != "" && formulario.ubicacion != "") {
        return Fallo(ERROR_REQUERIDOS);
      }
      aviso := Guardar(store, leer, ahora);
      if aviso.Exito? {
        Recargar(store.propiedades, store.imagenes);
      }
    }
  }

  /** What a create submit of form `d` and files `archivos` does to the tables `ps`/`imgs`
      (giving `ps2`/`imgs2`) and reports: a new active row with the next id and the clock's
      time, an image row for each readable file, and success. */
  ghost predicate ResultadoAlta(
    d: PropiedadData, archivos: seq<Archivo>, leer: Archivo -> Option<string>, ahora: int,
    ps: seq<Propiedad>, imgs: seq<Imagen>, siguienteId: nat, siguienteImagenId: nat,
    ps2: seq<Propiedad>, imgs2: seq<Imagen>, aviso: Aviso)
  {
    && aviso == Exito(EXITO_CREAR)
    && ps2 == ps + [Fila(siguienteId, d, true, ahora)]
    && imgs2 == imgs + Numerar(NuevasImagenes(siguienteId, archivos, leer), siguienteImagenId)
  }

  /** What an update submit of form `d` and files `archivos` for property `id` does to the
      tables `ps`/`imgs` (giving `ps2`/`imgs2`) and reports: with no such row nothing changes
      and the store's message is shown; otherwise the row is rewritten, its images are replaced
      only when files were picked, and success is shown. */
  ghost predicate ResultadoEdicion(
    id: nat, d: PropiedadData, archivos: seq<Archivo>, leer: Archivo -> Option<string>,
    ps: seq<Propiedad>, imgs: seq<Imagen>, siguienteImagenId: nat,
    ps2: seq<Propiedad>, imgs2: seq<Imagen>, aviso: Aviso)
  {
    match IndicePorId(ps, id)
    case None => aviso == Fallo(ERROR_SIN_FILAS) && ps2 == ps && imgs2 == imgs
    case Some(k) =>
      && aviso == Exito(EXITO_ACTUALIZAR)
      && ps2 == ps[k := Fila(id, d, ps[k].activa, ps[k].fechaCreacion)]
      && imgs2 == if archivos == [] then imgs
                  else SinImagenesDe(imgs, id) + Numerar(NuevasImagenes(id, archivos, leer), siguienteImagenId)
  }
}
