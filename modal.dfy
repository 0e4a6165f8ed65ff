/** The promotional modal service: the `modal_config` table held in memory, the query for the
    one active modal, the admin listing, and the writers, which keep at most one row active by
    clearing every other row's flag before they set one. */
module Modal {
  import opened Wrappers
  import opened Seqs

  /** A row of `modal_config`. */
  datatype ModalConfig = ModalConfig(
    id: nat,
    titulo: string,
    contenido: string,
    imagenUrl: Option<string>,
    colorFondo: string,
    colorTexto: string,
    tamano: string,
    activo: bool,
    createdAt: int,
    updatedAt: Option<int>)

  /** What the admin modal form submits. */
  datatype ModalData = ModalData(
    titulo: string,
    contenido: string,
    imagenUrl: string,
    colorFondo: string,
    colorTexto: string,
    tamano: string,
    activo: bool)

  const COLOR_FONDO_DEFECTO := "#ffffff"
  const COLOR_TEXTO_DEFECTO := "#000000"
  const TAMANO_DEFECTO := "mediano"

  function IdDe(m: ModalConfig): int { m.id }
  function CreadoDe(m: ModalConfig): int { m.createdAt }

  /** At most one row has its flag set. */
  predicate AlMasUnoActivo(ms: seq<ModalConfig>)
  {
    forall i, j :: 0 <= i < |ms| && 0 <= j < |ms| && ms[i].activo && ms[j].activo ==> i == j
  }

  /** `imagen_url || null`. */
  function UrlOpcional(s: string): (r: Option<string>)
    ensures r.None? <==> s == ""
    ensures r.Some? ==> r.value == s
  {
    if s == "" then None else Some(s)
  }

  /** `x || defecto` on a text field. */
  function ODefecto(s: string, defecto: string): (r: string)
    ensures s != "" ==> r == s
    ensures s == "" ==> r == defecto
  {
    if s == "" then defecto else s
  }

  /** The row `crearModal` inserts: the form's values, with the defaults for empty ones. */
  function NuevoModal(id: nat, d: ModalData, ahora: int): ModalConfig
  {
    ModalConfig(id, d.titulo, d.contenido, UrlOpcional(d.imagenUrl),
      ODefecto(d.colorFondo, COLOR_FONDO_DEFECTO), ODefecto(d.colorTexto, COLOR_TEXTO_DEFECTO),
      ODefecto(d.tamano, TAMANO_DEFECTO), d.activo, ahora, None)
  }

  /** The row `actualizarModal` writes over `m`: the form's values as given (no defaults, an
      empty image URL stored as null), its flag, and the update time. */
  function Editado(m: ModalConfig, d: ModalData, ahora: int): ModalConfig
  {
    m.(titulo := d.titulo, contenido := d.contenido, imagenUrl := UrlOpcional(d.imagenUrl),
       colorFondo := d.colorFondo, colorTexto := d.colorTexto, tamano := d.tamano,
       activo := d.activo, updatedAt := Some(ahora))
  }

  /** `update({activo: false}).neq('id', x)`: clears the flag of every row whose id is not
      `excepto` (`None` stands for the `'temp'` sentinel, which no row carries). */
  function DesactivarOtros(ms: seq<ModalConfig>, excepto: Option<nat>): (r: seq<ModalConfig>)
    ensures |r| == |ms|
    ensures forall k :: 0 <= k < |ms| ==> r[k].(activo := ms[k].activo) == ms[k]
    ensures forall k :: 0 <= k < |ms| ==> (r[k].activo <==> ms[k].activo && excepto == Some(ms[k].id))
  {
    seq(|ms|, k requires 0 <= k < |ms| =>
      if excepto == Some(ms[k].id) then ms[k] else ms[k].(activo := false))
  }

  /** The position of the row with id `id`, if any. */
  function IndicePorId(ms: seq<ModalConfig>, id: nat): (r: Option<nat>)
    ensures r.Some? ==> r.value < |ms| && ms[r.value].id == id
    ensures r.None? ==> forall k :: 0 <= k < |ms| ==> ms[k].id != id
  {
    FirstIndex(ms, (m: ModalConfig) => m.id == id)
  }

  predicate EsActivo(m: ModalConfig) { m.activo }

  /** The active rows, in table order (`.eq('activo', true)`). */
  function Activos(ms: seq<ModalConfig>): seq<ModalConfig>
  {
    Filter(ms, EsActivo)
  }

  /** `getModalActivo`: `.eq('activo', true).single()` yields the active row when there is
      exactly one; with none, or several, the store answers "no single row", which the
      service reports as no modal. */
  function ModalActivo(ms: seq<ModalConfig>): (r: Option<ModalConfig>)
    ensures r.Some? ==> r.value in ms && r.value.activo
    ensures (forall k :: 0 <= k < |ms| ==> !ms[k].activo) ==> r.None?
  {
    var a := Activos(ms);
    if |a| == 1 then Some(a[0]) else None
  }

  /** `getAllModales`: every row, newest `created_at` first. */
  function TodosLosModales(ms: seq<ModalConfig>): (r: seq<ModalConfig>)
    ensures multiset(r) == multiset(ms)
    ensures SortedDesc(r, CreadoDe)
  {
    SortDesc(ms, CreadoDe)
  }

  /** With at most one active row there is at most one row in the active selection. */
  lemma {:induction false} ActivosAlMasUno(ms: seq<ModalConfig>)
    requires AlMasUnoActivo(ms)
    ensures |Activos(ms)| <= 1
    decreases |ms|
  {
    if ms != [] {
      var resto := ms[1..];
      assert AlMasUnoActivo(resto) by {
        forall i, j | 0 <= i < |resto| && 0 <= j < |resto| && resto[i].activo && resto[j].activo
          ensures i == j
        {
          assert ms[i + 1] == resto[i] && ms[j + 1] == resto[j];
        }
      }
      ActivosAlMasUno(resto);
      if ms[0].activo {
        forall j | 0 <= j < |resto| ensures !EsActivo(resto[j]) {
          assert ms[j + 1] == resto[j];
        }
        FilterNone(resto, EsActivo);
      }
    }
  }

  /** When at most one row is active, `getModalActivo` finds a modal exactly when some row is
      active, and then it is that row. */
  lemma ModalActivoSpec(ms: seq<ModalConfig>)
    requires AlMasUnoActivo(ms)
    ensures ModalActivo(ms).Some? <==> exists k :: 0 <= k < |ms| && ms[k].activo
    ensures forall k :: 0 <= k < |ms| && ms[k].activo ==> ModalActivo(ms) == Some(ms[k])
  {
    ActivosAlMasUno(ms);
    var a := Activos(ms);
    forall k | 0 <= k < |ms| && ms[k].activo
      ensures ModalActivo(ms) == Some(ms[k])
    {
      assert ms[k] in a;
      var j :| 0 <= j < |ms| && ms[j] == a[0];
    }
  }

  /** Clearing every row but `id` and then setting the flag on the row with id `id` leaves
      that row the only active one, so `getModalActivo` returns it. */
  lemma ActivarUnico(ms: seq<ModalConfig>, k: nat, fila: ModalConfig)
    requires Increasing(ms, IdDe) && k < |ms| && fila.activo && fila.id == ms[k].id
    ensures var r := DesactivarOtros(ms, Some(ms[k].id))[k := fila];
      && AlMasUnoActivo(r)
      && ModalActivo(r) == Some(fila)
  {
    var r := DesactivarOtros(ms, Some(ms[k].id))[k := fila];
    forall j | 0 <= j < |r| && r[j].activo ensures j == k {
      assert IdDe(r[j]) == IdDe(ms[k]);
    }
    assert AlMasUnoActivo(r);
    assert r[k] == fila;
    ModalActivoSpec(r);
  }

  /** Clearing every flag and then appending an active row leaves that row the only active one. */
  lemma InsertarUnico(ms: seq<ModalConfig>, fila: ModalConfig)
    requires fila.activo && forall k :: 0 <= k < |ms| ==> ms[k].id != fila.id
    ensures var r := DesactivarOtros(ms, None) + [fila];
      && AlMasUnoActivo(r)
      && ModalActivo(r) == Some(fila)
  {
    var r := DesactivarOtros(ms, None) + [fila];
    assert r[|ms|] == fila;
    ModalActivoSpec(r);
  }

  /** Changing rows' flags only to false never breaks "at most one active". */
  lemma SinActivarSeConserva(ms: seq<ModalConfig>, r: seq<ModalConfig>)
    requires AlMasUnoActivo(ms) && |r| == |ms|
    requires forall k :: 0 <= k < |ms| && r[k].activo ==> ms[k].activo
    ensures AlMasUnoActivo(r)
  {
  }

  /** Ids are positive, increase in table order and stay below the next id; at most one row
      is active. */
  predicate TablaValida(ms: seq<ModalConfig>, siguienteId: nat)
  {
    && 1 <= siguienteId
    && Increasing(ms, IdDe)
    && (forall k :: 0 <= k < |ms| ==> 1 <= ms[k].id < siguienteId)
    && AlMasUnoActivo(ms)
  }

  /** Clearing flags keeps a valid table valid. */
  lemma LimpiarValida(ms: seq<ModalConfig>, sig: nat, excepto: Option<nat>)
    requires TablaValida(ms, sig)
    ensures TablaValida(DesactivarOtros(ms, excepto), sig)
  {
    var r := DesactivarOtros(ms, excepto);
    assert forall j :: 0 <= j < |r| ==> r[j].id == ms[j].id;
  }

  /** The write shared by `actualizarModal` and `toggleModalActivo` on the row at `k`: when it
      sets the flag, every other row's flag is cleared first. The table stays valid and, when
      the flag is set, the written row is the active modal. */
  lemma EscribirValida(ms: seq<ModalConfig>, sig: nat, k: nat, fila: ModalConfig)
    requires TablaValida(ms, sig) && k < |ms| && fila.id == ms[k].id
    ensures var limpio := if fila.activo then DesactivarOtros(ms, Some(ms[k].id)) else ms;
      && TablaValida(limpio[k := fila], sig)
      && (fila.activo ==> ModalActivo(limpio[k := fila]) == Some(fila))
  {
    var limpio := if fila.activo then DesactivarOtros(ms, Some(ms[k].id)) else ms;
    var r := limpio[k := fila];
    LimpiarValida(ms, sig, Some(ms[k].id));
    assert forall j :: 0 <= j < |r| ==> r[j].id == ms[j].id;
    if fila.activo {
      ActivarUnico(ms, k, fila);
    } else {
      SinActivarSeConserva(ms, r);
    }
  }

  class ModalStore {
    var modales: seq<ModalConfig>
    var siguienteId: nat

    ghost predicate Valid()
      reads this
    {
      TablaValida(modales, siguienteId)
    }

    constructor ()
      ensures Valid() && modales == [] && siguienteId == 1
    {
      modales, siguienteId := [], 1;
    }

    /** `crearModal`: when the new modal is active, first clears every row's flag; then inserts
        the row with defaults for empty fields, stamped `ahora`. */
    method CrearModal(d: ModalData, ahora: int) returns (r: Result<ModalConfig>)
      requires Valid()
      modifies this
      ensures Valid()
      ensures r == Ok(NuevoModal(old(siguienteId), d, ahora))
      ensures modales == (if d.activo then DesactivarOtros(old(modales), None) else old(modales)) + [r.value]
      ensures d.activo ==> ModalActivo(modales) == Some(r.value)
    {
      var fila := NuevoModal(siguienteId, d, ahora);
      if d.activo {
        InsertarUnico(modales, fila);
        modales := DesactivarOtros(modales, None);
      }
      modales := modales + [fila];
      siguienteId := siguienteId + 1;
      r := Ok(fila);
    }

    /** `actualizarModal`: when the form is active, clears the flag of every row but `id`
        (even when no row has that id); then overwrites the row with id `id`, or fails. */
    method ActualizarModal(id: nat, d: ModalData, ahora: int) returns (r: Result<ModalConfig>)
      requires Valid()
      modifies this`modales
      ensures Valid()
      ensures var limpio := if d.activo then DesactivarOtros(old(modales), Some(id)) else old(modales);
        match old(IndicePorId(modales, id))
        case None => r == Err(ERROR_SIN_FILAS) && modales == limpio
        case Some(k) =>
          && r == Ok(Editado(old(modales)[k], d, ahora))
          && modales == limpio[k := r.value]
          && (d.activo ==> ModalActivo(modales) == Some(r.value))
    {
      var limpio := if d.activo then DesactivarOtros(modales, Some(id)) else modales;
      match IndicePorId(modales, id) {
        case None =>
          LimpiarValida(modales, siguienteId, Some(id));
          modales := limpio;
          r := Err(ERROR_SIN_FILAS);
        case Some(k) =>
          var fila := Editado(modales[k], d, ahora);
          EscribirValida(modales, siguienteId, k, fila);
          modales := limpio[k := fila];
          r := Ok(fila);
      }
    }

    /** `eliminarModal`: deletes the row with id `id`, or fails when there is none. */
    method EliminarModal(id: nat) returns (r: Result<ModalConfig>)
      requires Valid()
      modifies this`modales
      ensures Valid()
      ensures old(IndicePorId(modales, id)).None? ==> r == Err(ERROR_SIN_FILAS) && modales == old(modales)
      ensures old(IndicePorId(modales, id)).Some? ==>
        var k := old(IndicePorId(modales, id)).value;
        && r == Ok(old(modales)[k])
        && modales == old(modales)[..k] + old(modales)[k + 1..]
    {
      match IndicePorId(modales, id) {
        case None =>
          r := Err(ERROR_SIN_FILAS);
        case Some(k) =>
          r := Ok(modales[k]);
          IncreasingRemove(modales, k, IdDe);
          var resto := modales[..k] + modales[k + 1..];
          assert forall j :: 0 <= j < |resto| ==> resto[j] == modales[if j < k then j else j + 1];
          modales := resto;
      }
    }

    /** `toggleModalActivo`: when activating, clears the flag of every row but `id` (even when
        no row has that id); then sets the flag of the row with id `id` and stamps it, or fails. */
    method ToggleModalActivo(id: nat, activo: bool, ahora: int) returns (r: Result<ModalConfig>)
      requires Valid()
      modifies this`modales
      ensures Valid()
      ensures var limpio := if activo then DesactivarOtros(old(modales), Some(id)) else old(modales);
        match old(IndicePorId(modales, id))
        case None => r == Err(ERROR_SIN_FILAS) && modales == limpio
        case Some(k) =>
          && r == Ok(old(modales)[k].(activo := activo, updatedAt := Some(ahora)))
          && modales == limpio[k := r.value]
          && (activo ==> ModalActivo(modales) == Some(r.value))
          && (!activo ==> forall j :: 0 <= j < |modales| && j != k ==> modales[j] == old(modales)[j])
    {
      var limpio := if activo then DesactivarOtros(modales, Some(id)) else modales;
      match IndicePorId(modales, id) {
        case None =>
          LimpiarValida(modales, siguienteId, Some(id));
          modales := limpio;
          r := Err(ERROR_SIN_FILAS);
        case Some(k) =>
          var fila := modales[k].(activo := activo, updatedAt := Some(ahora));
          EscribirValida(modales, siguienteId, k, fila);
          modales := limpio[k := fila];
          r := Ok(fila);
      }
    }
  }
}
