/** The property service: the `propiedades`, `imagenes_propiedades` and `consultas` tables held
    in memory, the queries the site runs against them (active listing, admin listing, lookup by
    id, filtered search) and the writers (create, update, soft delete, hard delete, inquiry). */
module Propiedades {
  import opened Wrappers
  import opened Seqs
  import opened Texto

  /** A row of `propiedades`. A numeric column holds `None` when it is null or NaN. */
  datatype Propiedad = Propiedad(
    id: nat,
    titulo: string,
    descripcion: string,
    precio: Option<int>,
    precioUsd: Option<int>,
    tipoPropiedad: string,
    ubicacion: string,
    areaTotal: Option<int>,
    dormitorios: Option<int>,
    banos: Option<int>,
    estacionamientos: Option<int>,
    anoConstruccion: Option<int>,
    caracteristicas: seq<string>,
    activa: bool,
    fechaCreacion: int)

  /** A row of `imagenes_propiedades`. */
  datatype Imagen = Imagen(id: nat, propiedadId: nat, urlImagen: string, esPrincipal: bool)

  /** A property as the listing queries return it, with its image rows attached. */
  datatype Listado = Listado(propiedad: Propiedad, imagenes: seq<Imagen>)

  /** The text fields of the admin form, as handed to `crearPropiedad`/`actualizarPropiedad`. */
  datatype PropiedadData = PropiedadData(
    titulo: string,
    descripcion: string,
    precio: string,
    precioUsd: string,
    tipoPropiedad: string,
    ubicacion: string,
    areaTotal: string,
    dormitorios: string,
    banos: string,
    estacionamientos: string,
    anoConstruccion: string,
    caracteristicas: seq<string>)

  /** A file picked in the admin form. */
  datatype Archivo = Archivo(nombre: string, contenido: string)

  /** An image row before the store gives it an id. */
  datatype NuevaImagen = NuevaImagen(propiedadId: nat, urlImagen: string, esPrincipal: bool)

  datatype EstadoConsulta = Pendiente | Completada

  /** What the contact forms submit. */
  datatype ConsultaData = ConsultaData(
    nombreCompleto: string, telefono: string, email: string, mensaje: string,
    propiedadId: Option<nat>)

  /** A row of `consultas`. */
  datatype Consulta = Consulta(id: nat, datos: ConsultaData, fechaConsulta: int, estado: EstadoConsulta)

  /** The failure of a search whose numeric filter operand is NaN, which an integer column
      refuses. The text stands for the store's own message, which is not modelled. */
  const ERROR_NAN := "NaN operand for an integer column"

  function IdDe(p: Propiedad): int { p.id }
  function FechaDe(p: Propiedad): int { p.fechaCreacion }
  function FechaConsultaDe(c: Consulta): int { c.fechaConsulta }
  function ImagenIdDe(i: Imagen): int { i.id }
  function ConsultaIdDe(c: Consulta): int { c.id }

  // ---------------------------------------------------------------------------------------
  // Coercion of form text into stored rows

  /** `parseFloat(s)` / `parseInt(s)` as stored in a numeric column: NaN is stored as no number. */
  function Coercion(s: string): (r: Option<int>)
    ensures r.Some? <==> ParseNumero(s).Valor?
  {
    match ParseNumero(s)
    case Valor(n) => Some(n)
    case NaN => None
  }

  /** The row written by an insert (`activa` and `fecha_creacion` given) or an update (`id`,
      `activa` and `fecha_creacion` kept from the old row) of the form data `d`. */
  function Fila(id: nat, d: PropiedadData, activa: bool, fecha: int): Propiedad
  {
    Propiedad(
      id, d.titulo, d.descripcion,
      Coercion(d.precio),
      if d.precioUsd != "" then Coercion(d.precioUsd) else None,
      d.tipoPropiedad, d.ubicacion,
      Coercion(d.areaTotal), Coercion(d.dormitorios), Coercion(d.banos),
      Coercion(d.estacionamientos), Coercion(d.anoConstruccion),
      d.caracteristicas, activa, fecha)
  }

  // ---------------------------------------------------------------------------------------
  // Queries

  /** The image rows of property `pid`, in table order (the nested `imagenes_propiedades` select). */
  function ImagenesDe(imgs: seq<Imagen>, pid: nat): seq<Imagen>
  {
    Filter(imgs, (i: Imagen) => i.propiedadId == pid)
  }

  /** The image rows that do not belong to property `pid` (what `delete().eq('propiedad_id', pid)` leaves). */
  function SinImagenesDe(imgs: seq<Imagen>, pid: nat): (r: seq<Imagen>)
    ensures forall k :: 0 <= k < |r| ==> r[k] in imgs && r[k].propiedadId != pid
    ensures forall k :: 0 <= k < |imgs| && imgs[k].propiedadId != pid ==> imgs[k] in r
  {
    Filter(imgs, (i: Imagen) => i.propiedadId != pid)
  }

  /** Attaches to each property its image rows. */
  function Join(ps: seq<Propiedad>, imgs: seq<Imagen>): (r: seq<Listado>)
    ensures |r| == |ps|
    ensures forall k :: 0 <= k < |ps| ==> r[k] == Listado(ps[k], ImagenesDe(imgs, ps[k].id))
  {
    seq(|ps|, k requires 0 <= k < |ps| => Listado(ps[k], ImagenesDe(imgs, ps[k].id)))
  }

  /** The properties of a listing, in listing order. */
  function Props(ls: seq<Listado>): (r: seq<Propiedad>)
    ensures |r| == |ls| && forall k :: 0 <= k < |ls| ==> r[k] == ls[k].propiedad
  {
    seq(|ls|, k requires 0 <= k < |ls| => ls[k].propiedad)
  }

  /** One clause of a `propiedades` query, as the query builder chains them. Numeric operands
      are what `parseFloat`/`parseInt` made of the filter text. */
  datatype Clausula =
    | ActivaEs(b: bool)              // .eq('activa', b)
    | PrecioDesde(n: Numero)         // .gte('precio', n)
    | PrecioHasta(n: Numero)         // .lte('precio', n)
    | TipoEs(t: string)              // .eq('tipo_propiedad', t)
    | DormitoriosDesde(n: Numero)    // .gte('dormitorios', n)
    | BanosDesde(n: Numero)          // .gte('banos', n)
    | UbicacionComo(patron: string)  // .ilike('ubicacion', '%patron%')

  /** `v >= n` in the store: false when the column is null. */
  predicate AlMenos(v: Option<int>, n: Numero)
  {
    n.Valor? && v.Some? && v.value >= n.n
  }

  /** `v <= n` in the store: false when the column is null. */
  predicate AlMaximo(v: Option<int>, n: Numero)
  {
    n.Valor? && v.Some? && v.value <= n.n
  }

  predicate Satisface(c: Clausula, p: Propiedad)
  {
    match c
    case ActivaEs(b) => p.activa == b
    case PrecioDesde(n) => AlMenos(p.precio, n)
    case PrecioHasta(n) => AlMaximo(p.precio, n)
    case TipoEs(t) => p.tipoPropiedad == t
    case DormitoriosDesde(n) => AlMenos(p.dormitorios, n)
    case BanosDesde(n) => AlMenos(p.banos, n)
    case UbicacionComo(t) => ContainsIgnoreCase(p.ubicacion, t)
  }

  /** A row satisfies a query when it satisfies every clause. */
  predicate Cumple(q: seq<Clausula>, p: Propiedad)
  {
    q == [] || (Satisface(q[0], p) && Cumple(q[1..], p))
  }

  /** A clause whose numeric operand is NaN, which the store refuses. */
  predicate OperandoNaN(c: Clausula)
  {
    (c.PrecioDesde? || c.PrecioHasta? || c.DormitoriosDesde? || c.BanosDesde?) && c.n.NaN?
  }

  /** The rows of `ps` that satisfy `q` (the WHERE of a select), in table order. */
  function Seleccionar(ps: seq<Propiedad>, q: seq<Clausula>): (r: seq<Propiedad>)
    ensures forall k :: 0 <= k < |r| ==> r[k] in ps && Cumple(q, r[k])
    ensures forall k :: 0 <= k < |ps| && Cumple(q, ps[k]) ==> ps[k] in r
    ensures multiset(r) <= multiset(ps)
    ensures q == [] ==> r == ps
  {
    Filter(ps, (p: Propiedad) => Cumple(q, p))
  }

  /** Runs a `propiedades` select: the rows satisfying `q`, newest `fecha_creacion` first, each
      with its image rows. */
  function Ejecutar(ps: seq<Propiedad>, imgs: seq<Imagen>, q: seq<Clausula>): (r: seq<Listado>)
    ensures |r| <= |ps|
    ensures multiset(Props(r)) == multiset(Seleccionar(ps, q))
    ensures forall k :: 0 <= k < |r| ==> r[k].propiedad in ps && Cumple(q, r[k].propiedad)
    ensures forall k :: 0 <= k < |r| ==> r[k].imagenes == ImagenesDe(imgs, r[k].propiedad.id)
    ensures forall p :: p in ps && Cumple(q, p) ==> p in Props(r)
    ensures SortedDesc(Props(r), FechaDe)
  {
    var sorted := SortDesc(Seleccionar(ps, q), FechaDe);
    OrdenarSeleccion(ps, q, sorted);
    PropsJoin(sorted, imgs);
    Join(sorted, imgs)
  }

  lemma PropsJoin(ps: seq<Propiedad>, imgs: seq<Imagen>)
    ensures Props(Join(ps, imgs)) == ps
  {
  }

  /** Any reordering of the selected rows still holds exactly the rows of `ps` satisfying `q`. */
  lemma OrdenarSeleccion(ps: seq<Propiedad>, q: seq<Clausula>, sorted: seq<Propiedad>)
    requires multiset(sorted) == multiset(Seleccionar(ps, q))
    ensures |sorted| <= |ps|
    ensures forall k :: 0 <= k < |sorted| ==> sorted[k] in ps && Cumple(q, sorted[k])
    ensures forall p :: p in ps && Cumple(q, p) ==> p in sorted
  {
    var sel := Seleccionar(ps, q);
    assert |sorted| == |multiset(sorted)| == |multiset(sel)| == |sel|;
    assert |sel| == |multiset(sel)| <= |multiset(ps)| == |ps|;
    forall k | 0 <= k < |sorted|
      ensures sorted[k] in ps && Cumple(q, sorted[k])
    {
      assert sorted[k] in multiset(sorted);
      assert sorted[k] in multiset(sel);
      var j :| 0 <= j < |sel| && sel[j] == sorted[k];
    }
    forall p | p in ps && Cumple(q, p)
      ensures p in sorted
    {
      var j :| 0 <= j < |ps| && ps[j] == p;
      assert p in sel;
      assert p in multiset(sel);
      assert p in multiset(sorted);
    }
  }

  /** The single clause of `getPropiedades`. */
  const CONSULTA_ACTIVAS := [ActivaEs(true)]

  /** `getPropiedades`: exactly the active rows, newest first, each with its images. */
  function Listar(ps: seq<Propiedad>, imgs: seq<Imagen>): (r: seq<Listado>)
    ensures forall k :: 0 <= k < |r| ==> r[k].propiedad in ps && r[k].propiedad.activa
    ensures forall p :: p in ps && p.activa ==> p in Props(r)
    ensures forall k :: 0 <= k < |r| ==> r[k].imagenes == ImagenesDe(imgs, r[k].propiedad.id)
    ensures SortedDesc(Props(r), FechaDe)
    ensures multiset(Props(r)) <= multiset(ps)
  {
    forall p ensures Cumple(CONSULTA_ACTIVAS, p) <==> p.activa {
      CumpleOpcional(true, ActivaEs(true), p);
    }
    Ejecutar(ps, imgs, CONSULTA_ACTIVAS)
  }

  /** `getPropiedadesAdmin`: every row, active or not, newest first, each with its images. */
  function ListarAdmin(ps: seq<Propiedad>, imgs: seq<Imagen>): (r: seq<Listado>)
    ensures multiset(Props(r)) == multiset(ps)
    ensures forall k :: 0 <= k < |r| ==> r[k].imagenes == ImagenesDe(imgs, r[k].propiedad.id)
    ensures SortedDesc(Props(r), FechaDe)
  {
    Ejecutar(ps, imgs, [])
  }

  /** The position of the row with id `id`, if any. */
  function IndicePorId(ps: seq<Propiedad>, id: nat): (r: Option<nat>)
    ensures r.Some? ==> r.value < |ps| && ps[r.value].id == id
    ensures r.None? ==> forall k :: 0 <= k < |ps| ==> ps[k].id != id
  {
    FirstIndex(ps, (p: Propiedad) => p.id == id)
  }

  /** `getPropiedadById`: matches on the id alone, so an inactive row is found too. */
  function ObtenerPorId(ps: seq<Propiedad>, imgs: seq<Imagen>, id: nat): (r: Result<Listado>)
    ensures r.Ok? <==> exists k :: 0 <= k < |ps| && ps[k].id == id
    ensures r.Ok? ==> r.value.propiedad in ps && r.value.propiedad.id == id
                      && r.value.imagenes == ImagenesDe(imgs, id)
    ensures r.Err? ==> r.error == ERROR_SIN_FILAS
  {
    match IndicePorId(ps, id)
    case None => Err(ERROR_SIN_FILAS)
    case Some(k) => Ok(Listado(ps[k], ImagenesDe(imgs, id)))
  }

  /** `getConsultas`: every inquiry, newest `fecha_consulta` first. */
  function ListarConsultas(cs: seq<Consulta>): (r: seq<Consulta>)
    ensures multiset(r) == multiset(cs)
    ensures SortedDesc(r, FechaConsultaDe)
  {
    SortDesc(cs, FechaConsultaDe)
  }

  // ---------------------------------------------------------------------------------------
  // The filtered search

  /** The catalogue's filter state: one text per filter field, '' when the field is unset. */
  datatype Filtros = Filtros(
    tipoPropiedad: string,
    precioMin: string,
    precioMax: string,
    dormitorios: string,
    banos: string,
    ubicacion: string)

  const SIN_FILTROS := Filtros("", "", "", "", "", "")

  /** The one-clause query when `cond` holds, the empty one otherwise (an `if` around a chained filter). */
  function Opcional(cond: bool, c: Clausula): seq<Clausula>
  {
    if cond then [c] else []
  }

  /** The clauses `buscarPropiedades` chains onto the query: the `activa` clause, then one
      clause per non-empty filter field, in the order the source tests them. */
  function ConstruirConsulta(f: Filtros): seq<Clausula>
  {
    ClausulasDePrecio(f) + ClausulasDeFicha(f)
  }

  /** The `activa` clause and the price and type filters. */
  function ClausulasDePrecio(f: Filtros): seq<Clausula>
  {
    [ActivaEs(true)]
    + Opcional(f.precioMin != "", PrecioDesde(ParseNumero(f.precioMin)))
    + Opcional(f.precioMax != "", PrecioHasta(ParseNumero(f.precioMax)))
    + Opcional(f.tipoPropiedad != "", TipoEs(f.tipoPropiedad))
  }

  /** The bedroom, bathroom and location filters. */
  function ClausulasDeFicha(f: Filtros): seq<Clausula>
  {
    Opcional(f.dormitorios != "", DormitoriosDesde(ParseNumero(f.dormitorios)))
    + Opcional(f.banos != "", BanosDesde(ParseNumero(f.banos)))
    + Opcional(f.ubicacion != "", UbicacionComo(f.ubicacion))
  }

  /** Some clause of `q` has a NaN operand. */
  predicate TieneNaN(q: seq<Clausula>)
  {
    q != [] && (OperandoNaN(q[0]) || TieneNaN(q[1..]))
  }

  lemma CumpleOpcional(cond: bool, c: Clausula, p: Propiedad)
    ensures Cumple(Opcional(cond, c), p) <==> (cond ==> Satisface(c, p))
  {
    if cond {
      assert Opcional(cond, c)[1..] == [];
    }
  }

  lemma NaNOpcional(cond: bool, c: Clausula)
    ensures TieneNaN(Opcional(cond, c)) <==> cond && OperandoNaN(c)
  {
    if cond {
      assert Opcional(cond, c)[1..] == [];
    }
  }

  /** A chain of clauses holds when both halves hold. */
  lemma {:induction false} CumpleConcat(a: seq<Clausula>, b: seq<Clausula>, p: Propiedad)
    ensures Cumple(a + b, p) <==> Cumple(a, p) && Cumple(b, p)
  {
    if a != [] {
      assert (a + b)[0] == a[0];
      assert (a + b)[1..] == a[1..] + b;
      CumpleConcat(a[1..], b, p);
    } else {
      assert a + b == b;
    }
  }

  /** A chain of clauses has a NaN operand when either half does. */
  lemma {:induction false} NaNConcat(a: seq<Clausula>, b: seq<Clausula>)
    ensures TieneNaN(a + b) <==> TieneNaN(a) || TieneNaN(b)
  {
    if a != [] {
      assert (a + b)[0] == a[0];
      assert (a + b)[1..] == a[1..] + b;
      NaNConcat(a[1..], b);
    } else {
      assert a + b == b;
    }
  }

  /** Chaining an optional clause onto a query adds a NaN operand exactly when the clause has one. */
  lemma NaNPaso(q: seq<Clausula>, cond: bool, c: Clausula)
    ensures TieneNaN(q + Opcional(cond, c)) <==> TieneNaN(q) || (cond && OperandoNaN(c))
  {
    NaNConcat(q, Opcional(cond, c));
    NaNOpcional(cond, c);
  }

  /** `buscarPropiedades(filtros)`. */
  function Buscar(ps: seq<Propiedad>, imgs: seq<Imagen>, f: Filtros): Result<seq<Listado>>
  {
    var q := ConstruirConsulta(f);
    if TieneNaN(q) then Err(ERROR_NAN) else Ok(Ejecutar(ps, imgs, q))
  }

  /** A numeric filter field is usable when empty or when `parseInt`/`parseFloat` reads a number. */
  predicate NumeroValido(s: string)
  {
    s == "" || ParseNumero(s).Valor?
  }

  predicate FiltrosValidos(f: Filtros)
  {
    NumeroValido(f.precioMin) && NumeroValido(f.precioMax)
    && NumeroValido(f.dormitorios) && NumeroValido(f.banos)
  }

  /** What a filter record asks of a row, field by field: the row is active; each non-empty
      field constrains it (inclusive price bounds, "N or more" bedrooms and bathrooms, exact
      type, case-insensitive substring of the location); an empty field constrains nothing. */
  predicate CoincideConFiltros(f: Filtros, p: Propiedad)
  {
    && p.activa
    && (f.precioMin != "" ==> AlMenos(p.precio, ParseNumero(f.precioMin)))
    && (f.precioMax != "" ==> AlMaximo(p.precio, ParseNumero(f.precioMax)))
    && (f.tipoPropiedad != "" ==> p.tipoPropiedad == f.tipoPropiedad)
    && (f.dormitorios != "" ==> AlMenos(p.dormitorios, ParseNumero(f.dormitorios)))
    && (f.banos != "" ==> AlMenos(p.banos, ParseNumero(f.banos)))
    && (f.ubicacion != "" ==> ContainsIgnoreCase(p.ubicacion, f.ubicacion))
  }

  /** Chaining an optional clause onto a query adds that clause's condition. */
  lemma Paso(q: seq<Clausula>, cond: bool, c: Clausula, p: Propiedad)
    ensures Cumple(q + Opcional(cond, c), p) <==> Cumple(q, p) && (cond ==> Satisface(c, p))
  {
    CumpleConcat(q, Opcional(cond, c), p);
    CumpleOpcional(cond, c, p);
  }

  lemma {:induction false} PrecioSignificado(f: Filtros, p: Propiedad)
    ensures Cumple(ClausulasDePrecio(f), p) <==>
      && p.activa
      && (f.precioMin != "" ==> AlMenos(p.precio, ParseNumero(f.precioMin)))
      && (f.precioMax != "" ==> AlMaximo(p.precio, ParseNumero(f.precioMax)))
      && (f.tipoPropiedad != "" ==> p.tipoPropiedad == f.tipoPropiedad)
  {
    var q0 := [ActivaEs(true)];
    var q1 := q0 + Opcional(f.precioMin != "", PrecioDesde(ParseNumero(f.precioMin)));
    var q2 := q1 + Opcional(f.precioMax != "", PrecioHasta(ParseNumero(f.precioMax)));
    assert Cumple(q0, p) <==> p.activa by { CumpleOpcional(true, ActivaEs(true), p); }
    Paso(q0, f.precioMin != "", PrecioDesde(ParseNumero(f.precioMin)), p);
    Paso(q1, f.precioMax != "", PrecioHasta(ParseNumero(f.precioMax)), p);
    Paso(q2, f.tipoPropiedad != "", TipoEs(f.tipoPropiedad), p);
  }

  lemma {:induction false} FichaSignificado(f: Filtros, p: Propiedad)
    ensures Cumple(ClausulasDeFicha(f), p) <==>
      && (f.dormitorios != "" ==> AlMenos(p.dormitorios, ParseNumero(f.dormitorios)))
      && (f.banos != "" ==> AlMenos(p.banos, ParseNumero(f.banos)))
      && (f.ubicacion != "" ==> ContainsIgnoreCase(p.ubicacion, f.ubicacion))
  {
    var r0 := Opcional(f.dormitorios != "", DormitoriosDesde(ParseNumero(f.dormitorios)));
    var r1 := r0 + Opcional(f.banos != "", BanosDesde(ParseNumero(f.banos)));
    CumpleOpcional(f.dormitorios != "", DormitoriosDesde(ParseNumero(f.dormitorios)), p);
    Paso(r0, f.banos != "", BanosDesde(ParseNumero(f.banos)), p);
    Paso(r1, f.ubicacion != "", UbicacionComo(f.ubicacion), p);
  }

  /** The chained clauses mean exactly what the filter record asks. */
  lemma {:induction false} ConsultaSignificado(f: Filtros, p: Propiedad)
    ensures Cumple(ConstruirConsulta(f), p) <==> CoincideConFiltros(f, p)
  {
    PrecioSignificado(f, p);
    FichaSignificado(f, p);
    CumpleConcat(ClausulasDePrecio(f), ClausulasDeFicha(f), p);
  }

  lemma {:induction false} PrecioConNaN(f: Filtros)
    ensures TieneNaN(ClausulasDePrecio(f)) <==> !NumeroValido(f.precioMin) || !NumeroValido(f.precioMax)
  {
    var q0 := [ActivaEs(true)];
    var q1 := q0 + Opcional(f.precioMin != "", PrecioDesde(ParseNumero(f.precioMin)));
    var q2 := q1 + Opcional(f.precioMax != "", PrecioHasta(ParseNumero(f.precioMax)));
    assert !TieneNaN(q0) by { NaNOpcional(true, ActivaEs(true)); }
    NaNPaso(q0, f.precioMin != "", PrecioDesde(ParseNumero(f.precioMin)));
    NaNPaso(q1, f.precioMax != "", PrecioHasta(ParseNumero(f.precioMax)));
    NaNPaso(q2, f.tipoPropiedad != "", TipoEs(f.tipoPropiedad));
  }

  lemma {:induction false} FichaConNaN(f: Filtros)
    ensures TieneNaN(ClausulasDeFicha(f)) <==> !NumeroValido(f.dormitorios) || !NumeroValido(f.banos)
  {
    var r0 := Opcional(f.dormitorios != "", DormitoriosDesde(ParseNumero(f.dormitorios)));
    var r1 := r0 + Opcional(f.banos != "", BanosDesde(ParseNumero(f.banos)));
    NaNOpcional(f.dormitorios != "", DormitoriosDesde(ParseNumero(f.dormitorios)));
    NaNPaso(r0, f.banos != "", BanosDesde(ParseNumero(f.banos)));
    NaNPaso(r1, f.ubicacion != "", UbicacionComo(f.ubicacion));
  }

  /** The chained clauses carry a NaN operand exactly when a non-empty numeric field is not a number. */
  lemma {:induction false} ConsultaConNaN(f: Filtros)
    ensures TieneNaN(ConstruirConsulta(f)) <==> !FiltrosValidos(f)
  {
    PrecioConNaN(f);
    FichaConNaN(f);
    NaNConcat(ClausulasDePrecio(f), ClausulasDeFicha(f));
  }

  /** `buscarPropiedades` fails exactly when a numeric filter is not a number; otherwise it
      returns exactly the rows that match the filters (so only active ones), newest first,
      each with its images. */
  lemma BuscarSpec(ps: seq<Propiedad>, imgs: seq<Imagen>, f: Filtros)
    ensures Buscar(ps, imgs, f).Ok? <==> FiltrosValidos(f)
    ensures Buscar(ps, imgs, f).Ok? ==>
      var r := Buscar(ps, imgs, f).value;
      && (forall k :: 0 <= k < |r| ==> r[k].propiedad in ps && CoincideConFiltros(f, r[k].propiedad))
      && (forall p :: p in ps && CoincideConFiltros(f, p) ==> p in Props(r))
      && (forall k :: 0 <= k < |r| ==> r[k].imagenes == ImagenesDe(imgs, r[k].propiedad.id))
      && SortedDesc(Props(r), FechaDe)
      && multiset(Props(r)) <= multiset(ps)
  {
    var q := ConstruirConsulta(f);
    forall p ensures Cumple(q, p) <==> CoincideConFiltros(f, p) {
      ConsultaSignificado(f, p);
    }
    ConsultaConNaN(f);
  }

  /** With every filter empty the search is the plain listing: same rows, same order. */
  lemma BuscarSinFiltros(ps: seq<Propiedad>, imgs: seq<Imagen>, f: Filtros)
    requires f == SIN_FILTROS
    ensures Buscar(ps, imgs, f) == Ok(Listar(ps, imgs))
  {
    assert ConstruirConsulta(f) == CONSULTA_ACTIVAS;
    assert !OperandoNaN(ActivaEs(true));
  }

  // ---------------------------------------------------------------------------------------
  // Writers' pure parts

  /** The image rows `crearPropiedad`/`actualizarPropiedad` build for property `pid`: one per
      file that `leer` (the image encoder) could read, in input order, flagged `es_principal`
      when the file was at input index 0. */
  function NuevasImagenes(pid: nat, archivos: seq<Archivo>, leer: Archivo -> Option<string>): seq<NuevaImagen>
    decreases |archivos|
  {
    if archivos == [] then []
    else
      var n := |archivos| - 1;
      NuevasImagenes(pid, archivos[..n], leer)
      + (match leer(archivos[n])
         case Some(url) => [NuevaImagen(pid, url, n == 0)]
         case None => [])
  }

  /** `leer` can read the file: the encoder gives it a URL. */
  function Legible(leer: Archivo -> Option<string>): Archivo -> bool
  {
    a => leer(a).Some?
  }

  /** One image per readable file, in input order, carrying the URL `leer` gives that file. */
  lemma {:induction false} NuevasImagenesUrls(pid: nat, archivos: seq<Archivo>, leer: Archivo -> Option<string>)
    ensures var r := NuevasImagenes(pid, archivos, leer);
      var legibles := Filter(archivos, Legible(leer));
      && |r| == |legibles|
      && (forall k :: 0 <= k < |r| ==> Some(r[k].urlImagen) == leer(legibles[k]))
    decreases |archivos|
  {
    if archivos != [] {
      var n := |archivos| - 1;
      var pre := archivos[..n];
      var x := archivos[n];
      NuevasImagenesUrls(pid, pre, leer);
      assert archivos == pre + [x];
      FilterSnoc(pre, x, Legible(leer));
      var r0 := NuevasImagenes(pid, pre, leer);
      var l0 := Filter(pre, Legible(leer));
      if leer(x).Some? {
        UrlsSnoc(r0, l0, NuevaImagen(pid, leer(x).value, n == 0), x, leer);
      }
    }
  }

  /** Appending a row and the file it came from keeps rows and readable files in step. */
  lemma UrlsSnoc(r: seq<NuevaImagen>, l: seq<Archivo>, y: NuevaImagen, x: Archivo, leer: Archivo -> Option<string>)
    requires |r| == |l| && forall k :: 0 <= k < |r| ==> Some(r[k].urlImagen) == leer(l[k])
    requires Some(y.urlImagen) == leer(x)
    ensures |r + [y]| == |l + [x]|
    ensures forall k :: 0 <= k < |r + [y]| ==> Some((r + [y])[k].urlImagen) == leer((l + [x])[k])
  {
    forall k | 0 <= k < |r + [y]| ensures Some((r + [y])[k].urlImagen) == leer((l + [x])[k]) {
      if k < |r| {
        assert (r + [y])[k] == r[k] && (l + [x])[k] == l[k];
      }
    }
  }

  /** All the images are owned by `pid`; an image is principal exactly when it is the first one
      and came from the file at index 0, so when that file cannot be read no image is principal. */
  lemma {:induction false} NuevasImagenesPrincipal(pid: nat, archivos: seq<Archivo>, leer: Archivo -> Option<string>)
    ensures var r := NuevasImagenes(pid, archivos, leer);
      && (forall k :: 0 <= k < |r| ==> r[k].propiedadId == pid)
      && (forall k :: 0 <= k < |r| ==> (r[k].esPrincipal <==> k == 0 && leer(archivos[0]).Some?))
      && (archivos != [] && leer(archivos[0]).Some? ==> r != [])
    decreases |archivos|
  {
    if archivos != [] {
      var n := |archivos| - 1;
      var pre := archivos[..n];
      NuevasImagenesPrincipal(pid, pre, leer);
      if n > 0 {
        assert pre[0] == archivos[0];
      }
    }
  }

  /** The image rows built from `archivos`: one per readable file, in input order, carrying the
      URL `leer` gives it, all owned by `pid`, the first one principal exactly when the file at
      index 0 was read. */
  lemma NuevasImagenesSpec(pid: nat, archivos: seq<Archivo>, leer: Archivo -> Option<string>)
    ensures var r := NuevasImagenes(pid, archivos, leer);
      var legibles := Filter(archivos, Legible(leer));
      && |r| == |legibles|
      && (forall k :: 0 <= k < |r| ==> Some(r[k].urlImagen) == leer(legibles[k]))
      && (forall k :: 0 <= k < |r| ==> r[k].propiedadId == pid)
      && (forall k :: 0 <= k < |r| ==> (r[k].esPrincipal <==> k == 0 && leer(archivos[0]).Some?))
  {
    NuevasImagenesUrls(pid, archivos, leer);
    NuevasImagenesPrincipal(pid, archivos, leer);
  }

  /** Builds the image rows with the loop of `crearPropiedad`/`actualizarPropiedad`. */
  method ProcesarImagenes(pid: nat, archivos: seq<Archivo>, leer: Archivo -> Option<string>)
    returns (data: seq<NuevaImagen>)
    ensures data == NuevasImagenes(pid, archivos, leer)
  {
    data := [];
    var i := 0;
    while i < |archivos|
      invariant 0 <= i <= |archivos|
      invariant data == NuevasImagenes(pid, archivos[..i], leer)
    {
      assert archivos[..i + 1][..i] == archivos[..i];
      match leer(archivos[i]) {
        case Some(url) =>
          data := data + [NuevaImagen(pid, url, i == 0)];
        case None =>
      }
      i := i + 1;
    }
    assert archivos[..i] == archivos;
  }

  /** Gives consecutive ids, from `desde`, to new image rows. */
  function Numerar(data: seq<NuevaImagen>, desde: nat): (r: seq<Imagen>)
    ensures |r| == |data|
    ensures forall k :: 0 <= k < |data| ==>
      r[k] == Imagen(desde + k, data[k].propiedadId, data[k].urlImagen, data[k].esPrincipal)
  {
    seq(|data|, k requires 0 <= k < |data| => Imagen(desde + k, data[k].propiedadId, data[k].urlImagen, data[k].esPrincipal))
  }

  /** Numbering rows from a counter above every id in the table gives ids no row of the table
      carries, and the ids stay increasing and below the advanced counter. */
  lemma NumerarFrescos(imgs: seq<Imagen>, data: seq<NuevaImagen>, desde: nat)
    requires Increasing(imgs, ImagenIdDe)
    requires forall k :: 0 <= k < |imgs| ==> imgs[k].id < desde
    ensures var nuevas := Numerar(data, desde);
      && (forall i, j :: 0 <= i < |imgs| && 0 <= j < |nuevas| ==> imgs[i].id != nuevas[j].id)
      && Increasing(imgs + nuevas, ImagenIdDe)
      && (forall k :: 0 <= k < |imgs + nuevas| ==> (imgs + nuevas)[k].id < desde + |data|)
  {
    var nuevas := Numerar(data, desde);
    var todas := imgs + nuevas;
    forall i, j | 0 <= i < j < |todas| ensures ImagenIdDe(todas[i]) < ImagenIdDe(todas[j]) {
      if j < |imgs| {
        assert todas[i] == imgs[i] && todas[j] == imgs[j];
      } else if i < |imgs| {
        assert todas[j] == nuevas[j - |imgs|];
      } else {
        assert todas[i] == nuevas[i - |imgs|] && todas[j] == nuevas[j - |imgs|];
      }
    }
  }

  /** After the images of `id` are deleted and `nuevas`, all owned by `id`, appended, the
      property's images are exactly `nuevas`. */
  lemma ImagenesTrasReemplazo(imgs: seq<Imagen>, id: nat, nuevas: seq<Imagen>)
    requires forall k :: 0 <= k < |nuevas| ==> nuevas[k].propiedadId == id
    ensures ImagenesDe(SinImagenesDe(imgs, id) + nuevas, id) == nuevas
  {
    var resto := SinImagenesDe(imgs, id);
    FilterConcat(resto, nuevas, (i: Imagen) => i.propiedadId == id);
    FilterNone(resto, (i: Imagen) => i.propiedadId == id);
  }

  /** Replacing the images of `id` with the files `archivos`: afterwards the
      property's images are exactly the new rows; when every file is readable there is one per
      file, carrying that file's URL, in input order, and the first one is principal. */
  lemma ReemplazoImagenes(imgs: seq<Imagen>, id: nat, archivos: seq<Archivo>, leer: Archivo -> Option<string>, desde: nat)
    ensures ImagenesDe(SinImagenesDe(imgs, id) + Numerar(NuevasImagenes(id, archivos, leer), desde), id)
            == Numerar(NuevasImagenes(id, archivos, leer), desde)
    ensures (forall k :: 0 <= k < |archivos| ==> leer(archivos[k]).Some?) ==>
      var r := ImagenesDe(SinImagenesDe(imgs, id) + Numerar(NuevasImagenes(id, archivos, leer), desde), id);
      && |r| == |archivos|
      && (forall k :: 0 <= k < |r| ==> Some(r[k].urlImagen) == leer(archivos[k]))
      && (|r| > 0 ==> r[0].esPrincipal)
  {
    var nuevas := Numerar(NuevasImagenes(id, archivos, leer), desde);
    NuevasImagenesPrincipal(id, archivos, leer);
    ImagenesTrasReemplazo(imgs, id, nuevas);
    if forall k :: 0 <= k < |archivos| ==> leer(archivos[k]).Some? {
      TodasLegibles(id, archivos, leer, desde);
    }
  }

  /** With every file readable the new rows are one per file, carrying its URL, in order, and
      the first is principal. */
  lemma TodasLegibles(pid: nat, archivos: seq<Archivo>, leer: Archivo -> Option<string>, desde: nat)
    requires forall k :: 0 <= k < |archivos| ==> leer(archivos[k]).Some?
    ensures var r := Numerar(NuevasImagenes(pid, archivos, leer), desde);
      && |r| == |archivos|
      && (forall k :: 0 <= k < |r| ==> Some(r[k].urlImagen) == leer(archivos[k]))
      && (|r| > 0 ==> r[0].esPrincipal)
  {
    assert forall k :: 0 <= k < |archivos| ==> Legible(leer)(archivos[k]);
    assert Filter(archivos, Legible(leer)) == archivos;
    NuevasImagenesSpec(pid, archivos, leer);
  }

  /** With increasing ids a row is the only one carrying its id. */
  lemma IdUnico(ps: seq<Propiedad>, k: nat)
    requires Increasing(ps, IdDe) && k < |ps|
    ensures forall p :: p in ps && p.id == ps[k].id ==> p == ps[k]
  {
    forall p | p in ps && p.id == ps[k].id ensures p == ps[k] {
      var j :| 0 <= j < |ps| && ps[j] == p;
      assert IdDe(ps[j]) == IdDe(ps[k]);
    }
  }

  /** Overwriting a row with one carrying the same id keeps the ids increasing. */
  lemma MismoId(ps: seq<Propiedad>, k: nat, fila: Propiedad)
    requires Increasing(ps, IdDe) && k < |ps| && fila.id == ps[k].id
    ensures Increasing(ps[k := fila], IdDe)
    ensures forall j :: 0 <= j < |ps| ==> ps[k := fila][j].id == ps[j].id
  {
  }

  /** The table after `eliminarPropiedad` clears `activa` on row `k`. */
  function Desactivada(ps: seq<Propiedad>, k: nat): (r: seq<Propiedad>)
    requires k < |ps|
    ensures |r| == |ps| && r[k] == ps[k].(activa := false)
    ensures forall j :: 0 <= j < |ps| ==> r[j].id == ps[j].id
    ensures forall j :: 0 <= j < |ps| && j != k ==> r[j] == ps[j]
    ensures Increasing(ps, IdDe) ==> Increasing(r, IdDe)
  {
    ps[k := ps[k].(activa := false)]
  }

  /** After a soft delete the row is gone from the public listing. */
  lemma SoftDeleteOcultaListado(ps: seq<Propiedad>, imgs: seq<Imagen>, k: nat)
    requires Increasing(ps, IdDe) && k < |ps|
    ensures forall l :: l in Listar(Desactivada(ps, k), imgs) ==> l.propiedad.id != ps[k].id
  {
    var after := Desactivada(ps, k);
    SinInactiva(after, k, Listar(after, imgs));
  }

  /** A listing of active rows of a table with unique ids never shows the id of an inactive row. */
  lemma SinInactiva(ps: seq<Propiedad>, k: nat, ls: seq<Listado>)
    requires Increasing(ps, IdDe) && k < |ps| && !ps[k].activa
    requires forall j :: 0 <= j < |ls| ==> ls[j].propiedad in ps && ls[j].propiedad.activa
    ensures forall l :: l in ls ==> l.propiedad.id != ps[k].id
  {
    IdUnico(ps, k);
    forall l | l in ls ensures l.propiedad.id != ps[k].id {
      var j :| 0 <= j < |ls| && ls[j] == l;
    }
  }

  /** After a soft delete the row is gone from every search. */
  lemma SoftDeleteOcultaBusqueda(ps: seq<Propiedad>, imgs: seq<Imagen>, k: nat, f: Filtros)
    requires Increasing(ps, IdDe) && k < |ps|
    ensures Buscar(Desactivada(ps, k), imgs, f).Ok? ==>
      forall l :: l in Buscar(Desactivada(ps, k), imgs, f).value ==> l.propiedad.id != ps[k].id
  {
    var after := Desactivada(ps, k);
    BuscarSpec(after, imgs, f);
    if Buscar(after, imgs, f).Ok? {
      SinInactiva(after, k, Buscar(after, imgs, f).value);
    }
  }

  /** After a soft delete the row is still in the admin listing, now inactive, and is still
      found by id. */
  lemma SoftDeleteConserva(ps: seq<Propiedad>, imgs: seq<Imagen>, k: nat)
    requires Increasing(ps, IdDe) && k < |ps|
    ensures var after := Desactivada(ps, k);
      && after[k] in Props(ListarAdmin(after, imgs))
      && ObtenerPorId(after, imgs, ps[k].id) == Ok(Listado(after[k], ImagenesDe(imgs, ps[k].id)))
  {
    var after := Desactivada(ps, k);
    var admin := ListarAdmin(after, imgs);
    assert after[k] in multiset(after);
    assert after[k] in multiset(Props(admin));
    if IndicePorId(after, ps[k].id).Some? {
      var j := IndicePorId(after, ps[k].id).value;
      assert IdDe(after[j]) == IdDe(after[k]);
    }
  }

  // ---------------------------------------------------------------------------------------
  // The store

  class Store {
    var propiedades: seq<Propiedad>
    var imagenes: seq<Imagen>
    var consultas: seq<Consulta>
    var siguienteId: nat
    var siguienteImagenId: nat
    var siguienteConsultaId: nat

    /** In each table the ids are positive, increase in table order and stay below that
        table's next id, so every id the store hands out is new. */
    ghost predicate Valid()
      reads this
    {
      PropiedadesValidas() && ImagenesValidas() && ConsultasValidas()
    }

    /** The property part of `Valid`. */
    ghost predicate PropiedadesValidas()
      reads this`propiedades, this`siguienteId
    {
      && 1 <= siguienteId
      && Increasing(propiedades, IdDe)
      && (forall k :: 0 <= k < |propiedades| ==> 1 <= propiedades[k].id < siguienteId)
    }

    /** The inquiry part of `Valid`. */
    ghost predicate ConsultasValidas()
      reads this`consultas, this`siguienteConsultaId
    {
      && 1 <= siguienteConsultaId
      && Increasing(consultas, ConsultaIdDe)
      && (forall k :: 0 <= k < |consultas| ==> 1 <= consultas[k].id < siguienteConsultaId)
    }

    /** The image part of `Valid`. */
    ghost predicate ImagenesValidas()
      reads this`imagenes, this`siguienteImagenId
    {
      && 1 <= siguienteImagenId
      && Increasing(imagenes, ImagenIdDe)
      && (forall k :: 0 <= k < |imagenes| ==> 1 <= imagenes[k].id < siguienteImagenId)
    }

    constructor ()
      ensures Valid()
      ensures propiedades == [] && imagenes == [] && consultas == []
      ensures siguienteId == 1 && siguienteImagenId == 1 && siguienteConsultaId == 1
    {
      propiedades, imagenes, consultas := [], [], [];
      siguienteId, siguienteImagenId, siguienteConsultaId := 1, 1, 1;
    }

    /** Appends image rows with fresh ids. */
    method InsertarImagenes(data: seq<NuevaImagen>)
      requires ImagenesValidas()
      modifies this`imagenes, this`siguienteImagenId
      ensures ImagenesValidas()
      ensures imagenes == old(imagenes) + Numerar(data, old(siguienteImagenId))
      ensures siguienteImagenId == old(siguienteImagenId) + |data|
    {
      NumerarFrescos(imagenes, data, siguienteImagenId);
      imagenes := imagenes + Numerar(data, siguienteImagenId);
      siguienteImagenId := siguienteImagenId + |data|;
    }

    /** The image step of `crearPropiedad`/`actualizarPropiedad`: builds one row per readable
        file and inserts them, when there are any. */
    method InsertarNuevas(pid: nat, archivos: seq<Archivo>, leer: Archivo -> Option<string>)
      requires ImagenesValidas()
      modifies this`imagenes, this`siguienteImagenId
      ensures ImagenesValidas()
      ensures imagenes == old(imagenes) + Numerar(NuevasImagenes(pid, archivos, leer), old(siguienteImagenId))
    {
      if |archivos| > 0 {
        var data := ProcesarImagenes(pid, archivos, leer);
        if |data| > 0 {
          InsertarImagenes(data);
        } else {
          assert imagenes + Numerar(data, siguienteImagenId) == imagenes;
        }
      } else {
        assert imagenes + Numerar(NuevasImagenes(pid, archivos, leer), siguienteImagenId) == imagenes;
      }
    }

    /** `delete().eq('propiedad_id', id)` on the image table. */
    method BorrarImagenes(id: nat)
      requires ImagenesValidas()
      modifies this`imagenes
      ensures ImagenesValidas()
      ensures imagenes == SinImagenesDe(old(imagenes), id)
    {
      FilterIncreasing(imagenes, (i: Imagen) => i.propiedadId != id, ImagenIdDe);
      imagenes := SinImagenesDe(imagenes, id);
    }

    /** `crearPropiedad`: inserts an active row stamped `ahora`, then one image row per
        readable file, the one from index 0 principal. */
    method CrearPropiedad(d: PropiedadData, archivos: seq<Archivo>, leer: Archivo -> Option<string>, ahora: int)
      returns (r: Result<Propiedad>)
      requires Valid()
      modifies this
      ensures Valid()
      ensures r == Ok(Fila(old(siguienteId), d, true, ahora))
      ensures propiedades == old(propiedades) + [r.value]
      ensures imagenes == old(imagenes) + Numerar(NuevasImagenes(r.value.id, archivos, leer), old(siguienteImagenId))
      ensures consultas == old(consultas) && siguienteConsultaId == old(siguienteConsultaId)
    {
      var fila := Fila(siguienteId, d, true, ahora);
      propiedades := propiedades + [fila];
      siguienteId := siguienteId + 1;
      InsertarNuevas(fila.id, archivos, leer);
      r := Ok(fila);
    }

    /** The image step of `actualizarPropiedad`: deletes every image row of `id`, then inserts
        one row per readable file as `crearPropiedad` does. */
    method ReemplazarImagenes(id: nat, archivos: seq<Archivo>, leer: Archivo -> Option<string>)
      requires ImagenesValidas()
      modifies this`imagenes, this`siguienteImagenId
      ensures ImagenesValidas()
      ensures imagenes == SinImagenesDe(old(imagenes), id)
                          + Numerar(NuevasImagenes(id, archivos, leer), old(siguienteImagenId))
      ensures ImagenesDe(imagenes, id) == Numerar(NuevasImagenes(id, archivos, leer), old(siguienteImagenId))
    {
      ReemplazoImagenes(imagenes, id, archivos, leer, siguienteImagenId);
      BorrarImagenes(id);
      InsertarNuevas(id, archivos, leer);
    }

    /** `actualizarPropiedad`: overwrites every form field of the row with id `id`, keeping its
        `activa` and `fecha_creacion`; when `archivos` holds files, replaces the row's images
        with the new set. No row, no change. */
    method ActualizarPropiedad(id: nat, d: PropiedadData, archivos: Option<seq<Archivo>>, leer: Archivo -> Option<string>)
      returns (r: Result<Propiedad>)
      requires Valid()
      modifies this`propiedades, this`imagenes, this`siguienteImagenId
      ensures Valid()
      ensures old(IndicePorId(propiedades, id)).None? ==>
        r == Err(ERROR_SIN_FILAS) && propiedades == old(propiedades) && imagenes == old(imagenes)
      ensures old(IndicePorId(propiedades, id)).Some? ==>
        var k := old(IndicePorId(propiedades, id)).value;
        var antes := old(propiedades)[k];
        && r == Ok(Fila(id, d, antes.activa, antes.fechaCreacion))
        && propiedades == old(propiedades)[k := r.value]
        && (archivos.None? || archivos.value == [] ==> imagenes == old(imagenes))
        && (archivos.Some? && archivos.value != [] ==>
              imagenes == SinImagenesDe(old(imagenes), id)
                          + Numerar(NuevasImagenes(id, archivos.value, leer), old(siguienteImagenId)))
    {
      match IndicePorId(propiedades, id) {
        case None =>
          r := Err(ERROR_SIN_FILAS);
        case Some(k) =>
          var antes := propiedades[k];
          var fila := Fila(id, d, antes.activa, antes.fechaCreacion);
          SobrescribirFila(k, fila);
          if archivos.Some? && |archivos.value| > 0 {
            ReemplazarImagenes(id, archivos.value, leer);
          }
          r := Ok(fila);
      }
    }

    /** `eliminarPropiedad` (soft delete): clears `activa` on the row with id `id` and changes
        nothing else. No row, no change. */
    method EliminarPropiedad(id: nat) returns (r: Result<Propiedad>)
      requires Valid()
      modifies this`propiedades
      ensures Valid()
      ensures old(IndicePorId(propiedades, id)).None? ==> r == Err(ERROR_SIN_FILAS) && propiedades == old(propiedades)
      ensures old(IndicePorId(propiedades, id)).Some? ==>
        var k := old(IndicePorId(propiedades, id)).value;
        && propiedades == Desactivada(old(propiedades), k)
        && r == Ok(propiedades[k])
    {
      match IndicePorId(propiedades, id) {
        case None =>
          r := Err(ERROR_SIN_FILAS);
        case Some(k) =>
          propiedades := Desactivada(propiedades, k);
          r := Ok(propiedades[k]);
      }
    }

    /** `eliminarPropiedadPermanente`: deletes every image row of `id`, then the row itself;
        when there is no such row the images are gone all the same and the call fails. */
    method EliminarPropiedadPermanente(id: nat) returns (r: Result<Propiedad>)
      requires Valid()
      modifies this`propiedades, this`imagenes
      ensures Valid()
      ensures imagenes == SinImagenesDe(old(imagenes), id)
      ensures old(IndicePorId(propiedades, id)).None? ==> r == Err(ERROR_SIN_FILAS) && propiedades == old(propiedades)
      ensures old(IndicePorId(propiedades, id)).Some? ==>
        var k := old(IndicePorId(propiedades, id)).value;
        && r == Ok(old(propiedades)[k])
        && propiedades == old(propiedades)[..k] + old(propiedades)[k + 1..]
    {
      BorrarImagenes(id);
      match IndicePorId(propiedades, id) {
        case None =>
          r := Err(ERROR_SIN_FILAS);
        case Some(k) =>
          r := Ok(propiedades[k]);
          BorrarFila(k);
      }
    }

    /** Overwrites row `k` of the property table with a row carrying the same id. */
    method SobrescribirFila(k: nat, fila: Propiedad)
      requires PropiedadesValidas() && k < |propiedades| && fila.id == propiedades[k].id
      modifies this`propiedades
      ensures PropiedadesValidas()
      ensures propiedades == old(propiedades)[k := fila]
    {
      MismoId(propiedades, k, fila);
      propiedades := propiedades[k := fila];
    }

    /** Deletes row `k` of the property table; the other rows keep their order. */
    method BorrarFila(k: nat)
      requires PropiedadesValidas() && k < |propiedades|
      modifies this`propiedades
      ensures PropiedadesValidas()
      ensures propiedades == old(propiedades)[..k] + old(propiedades)[k + 1..]
    {
      IncreasingRemove(propiedades, k, IdDe);
      var resto := propiedades[..k] + propiedades[k + 1..];
      assert forall j :: 0 <= j < |resto| ==> resto[j] == propiedades[if j < k then j else j + 1];
      propiedades := resto;
    }

    /** `enviarConsulta`: stores the inquiry stamped `ahora`, always `pendiente`. */
    method EnviarConsulta(d: ConsultaData, ahora: int) returns (r: Result<Consulta>)
      requires Valid()
      modifies this`consultas, this`siguienteConsultaId
      ensures Valid()
      ensures r == Ok(Consulta(old(siguienteConsultaId), d, ahora, Pendiente))
      ensures consultas == old(consultas) + [r.value]
    {
      var c := Consulta(siguienteConsultaId, d, ahora, Pendiente);
      consultas := consultas + [c];
      siguienteConsultaId := siguienteConsultaId + 1;
      r := Ok(c);
    }
  }
}
