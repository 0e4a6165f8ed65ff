/** The public catalogue page: six filter fields read from the URL, a loader that runs the
    filtered search when some field is set and the plain active listing otherwise, and the
    handlers that change one field or clear them all. */
module Catalogo {
  import opened Wrappers
  import opened Propiedades

  const ERROR_CARGA := "Error al cargar las propiedades"

  /** The six filter inputs. */
  datatype Campo = TipoPropiedad | PrecioMin | PrecioMax | Dormitorios | Banos | Ubicacion

  /** The name of a filter input, which is also the URL parameter it starts from. */
  function Nombre(c: Campo): string
  {
    match c
    case TipoPropiedad => "tipo_propiedad"
    case PrecioMin => "precio_min"
    case PrecioMax => "precio_max"
    case Dormitorios => "dormitorios"
    case Banos => "banos"
    case Ubicacion => "ubicacion"
  }

  /** The text of field `c` of `f`. */
  function Valor(f: Filtros, c: Campo): string
  {
    match c
    case TipoPropiedad => f.tipoPropiedad
    case PrecioMin => f.precioMin
    case PrecioMax => f.precioMax
    case Dormitorios => f.dormitorios
    case Banos => f.banos
    case Ubicacion => f.ubicacion
  }

  /** `searchParams.get(name) || ''`. */
  function Parametro(params: map<string, string>, name: string): string
  {
    if name in params then params[name] else ""
  }

  /** The filters the page starts with: each field from the URL parameter of its name, or ''
      when that parameter is absent. */
  function FiltrosDeUrl(params: map<string, string>): (r: Filtros)
    ensures forall c :: Valor(r, c) == Parametro(params, Nombre(c))
  {
    Filtros(
      Parametro(params, "tipo_propiedad"), Parametro(params, "precio_min"),
      Parametro(params, "precio_max"), Parametro(params, "dormitorios"),
      Parametro(params, "banos"), Parametro(params, "ubicacion"))
  }

  /** `f` with field `c` set to `v`: that field reads `v` and every other field is as before. */
  function ConCampo(f: Filtros, c: Campo, v: string): (r: Filtros)
    ensures Valor(r, c) == v
    ensures forall c' :: c' != c ==> Valor(r, c') == Valor(f, c')
  {
    match c
    case TipoPropiedad => f.(tipoPropiedad := v)
    case PrecioMin => f.(precioMin := v)
    case PrecioMax => f.(precioMax := v)
    case Dormitorios => f.(dormitorios := v)
    case Banos => f.(banos := v)
    case Ubicacion => f.(ubicacion := v)
  }

  /** `Object.values(filtros).some(value => value !== '')`. */
  predicate TieneParametros(f: Filtros)
  {
    exists c :: Valor(f, c) != ""
  }

  /** No field is set exactly when the filters are the cleared ones. */
  lemma SinParametros(f: Filtros)
    ensures !TieneParametros(f) <==> f == SIN_FILTROS
  {
    if !TieneParametros(f) {
      assert Valor(f, TipoPropiedad) == "" && Valor(f, PrecioMin) == "" && Valor(f, PrecioMax) == "";
      assert Valor(f, Dormitorios) == "" && Valor(f, Banos) == "" && Valor(f, Ubicacion) == "";
    } else {
      var c :| Valor(f, c) != "";
      assert Valor(SIN_FILTROS, c) == "";
    }
  }

  /** What `cargarPropiedades` asks the store for: the filtered search when some field is
      set, the active listing otherwise. */
  function Cargar(ps: seq<Propiedad>, imgs: seq<Imagen>, f: Filtros): Result<seq<Listado>>
  {
    if TieneParametros(f) then Buscar(ps, imgs, f) else Ok(Listar(ps, imgs))
  }

  /** The choice is invisible: the page shows what the filtered search alone would return,
      because with no field set the search is the active listing. */
  lemma DespachoEquivalente(ps: seq<Propiedad>, imgs: seq<Imagen>, f: Filtros)
    ensures Cargar(ps, imgs, f) == Buscar(ps, imgs, f)
  {
    if !TieneParametros(f) {
      SinParametros(f);
      BuscarSinFiltros(ps, imgs, f);
    }
  }

  class CatalogoPage {
    var filtros: Filtros
    /** The cards on show. */
    var propiedades: seq<Listado>
    var loading: bool

    /** The page as first rendered with the URL parameters `params`. */
    constructor (params: map<string, string>)
      ensures filtros == FiltrosDeUrl(params)
      ensures propiedades == [] && loading
    {
      filtros := FiltrosDeUrl(params);
      propiedades := [];
      loading := true;
    }

    /** `cargarPropiedades`: on success shows the rows of the store's answer; on failure keeps
        the cards on show and reports the load error. Loading ends either way. */
    method CargarPropiedades(store: Store) returns (aviso: Option<string>)
      modifies this`propiedades, this`loading
      ensures var res := Cargar(store.propiedades, store.imagenes, filtros);
        && (res.Ok? ==> propiedades == res.value && aviso == None)
        && (res.Err? ==> propiedades == old(propiedades) && aviso == Some(ERROR_CARGA))
      ensures !loading
    {
      loading := true;
      var tieneParametros := filtros.tipoPropiedad != "" || filtros.precioMin != "" || filtros.precioMax != ""
                             || filtros.dormitorios != "" || filtros.banos != "" || filtros.ubicacion != "";
      SinParametros(filtros);
      assert tieneParametros <==> TieneParametros(filtros);
      var result := if tieneParametros then Buscar(store.propiedades, store.imagenes, filtros)
                    else Ok(Listar(store.propiedades, store.imagenes));
      if result.Ok? {
        propiedades := result.value;
        aviso := None;
      } else {
        aviso := Some(ERROR_CARGA);
      }
      loading := false;
    }

    /** `handleFiltroChange`: field `c` takes `v`; no other field changes. */
    method HandleFiltroChange(c: Campo, v: string)
      modifies this`filtros
      ensures filtros == ConCampo(old(filtros), c, v)
    {
      filtros := ConCampo(filtros, c, v);
    }

    /** `limpiarFiltros`: every field back to ''. */
    method LimpiarFiltros()
      modifies this`filtros
      ensures filtros == SIN_FILTROS && !TieneParametros(filtros)
    {
      filtros := SIN_FILTROS;
      SinParametros(filtros);
    }
  }
}
