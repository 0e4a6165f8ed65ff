# Tecnomadas real-estate site: a verified model of its service layer and form logic

This project is a Dafny model of the logic of the Tecnomadas property site. The React
rendering and the hosted table store are replaced by in-memory tables, and calls are taken
to run one after another.

The model covers five parts of the site:

- **Property service** (`Propiedades`). The `propiedades`, `imagenes_propiedades` and
  `consultas` tables are fields of a `Store` class. Each writer is a method:
  - create: a new active row, plus image rows of which only input file 0 can be principal;
  - update: rewrites the form fields and replaces the images only when files are given;
  - soft delete: clears `activa` only;
  - hard delete: removes the image rows, then the property row;
  - inquiry: stored as `pendiente`.

  The queries are functions over the tables:
  - the active listing and the admin listing, both newest first;
  - lookup by id;
  - the filtered search, built from a sparse filter record as a list of query clauses.

  Lemmas state what a filter record means row by row, when the search fails, and that with
  no filter set the search is the active listing.
- **Promotional modal** (`Modal`). The `modal_config` table is a field of `ModalStore`.
  Every writer that sets `activo` first clears the flag on the other rows. The class
  invariant proved across all four writers is "at most one modal is active". The modal a
  writer activates is then the one `getModalActivo` returns.
- **Admin session** (`Auth`). `localStorage` is a `map<string, string>` field, and the clock
  is a parameter. Login checks the fixed credential pair and writes three keys. The 24-hour
  expiry is checked lazily: a check that finds the session expired clears all three keys.
  Logout removes the three keys and can be repeated without effect.
- **Admin property form** (`Admin`). An `AdminPage` class holds the form state. It models:
  - keeping at most six picked files;
  - swapping two files together with their preview cards, then renumbering the cards;
  - removing a file or a feature tag by position;
  - adding a trimmed, non-empty feature tag;
  - the required-field check and the create/update dispatch of the submit handler;
  - resetting the form, and loading a row into the form for editing;
  - the modal form's change handler.
- **Catalogue** (`Catalogo`). A `CatalogoPage` class holds the six filter fields, read from
  the URL. Its loader runs the filtered search when some field is set, and the active
  listing otherwise. A lemma shows the choice makes no difference to what is shown.

Shared pieces:
- `Seqs`: filter, stable descending sort, index removal, swap, first match.
- `Texto`: JavaScript `trim`, the case-insensitive substring test behind `ilike '%x%'`, and
  the integer numerals written by `toString` and read by `parseInt`/`parseFloat`.
- `Wrappers`: `Option` and `Result`.

Behaviour kept from the code as written:
- A numeric filter that `parseInt`/`parseFloat` cannot read becomes a NaN operand. With the
  numeric columns taken to be integer columns (see "Left out"), the store refuses it. The
  search then fails, and the catalogue keeps its cards and reports the load error.
- A stored login time that `parseInt` cannot read compares as NaN, so that session never
  expires.
- `actualizarModal` and `toggleModalActivo` clear the other rows' flags before they look
  for the target row. When the id matches no row, they still deactivate every modal and
  then fail.
- `handleEditarPropiedad` does not touch the picked files.
- `eliminarImagen` does not renumber the remaining preview cards.

## Model

| member | source | states |
|---|---|---|
| Seqs.Filter | src/services/propiedades.js:16 | the selected rows are elements of the table that pass the test, every passing row is selected, nothing is duplicated, and a test that passes everything returns the table |
| Seqs.SortDesc | src/services/propiedades.js:17 | the result is in non-increasing key order and is a permutation of the input |
| Seqs.FilterConcat | src/services/propiedades.js:215-233 | filtering a concatenation filters each part, in order |
| Seqs.FilterIncreasing | src/services/propiedades.js:272-275 | the rows a filter keeps stay in increasing id order |
| Seqs.WithoutIndexSlices | src/pages/Admin/Admin.js:144-149 | filtering out index `k` removes exactly position `k` and keeps the rest in order; an index outside the list removes nothing |
| Seqs.Swap | src/pages/Admin/Admin.js:131-133 | positions `i` and `j` trade places; the length and every other position are unchanged |
| Seqs.SwapPermutation | src/pages/Admin/Admin.js:131-133 | a swap is a permutation, and repeating it restores the list |
| Seqs.FirstIndex | src/services/propiedades.js:40-41 | the index of the first match; none exactly when no element matches |
| Texto.TrimSlice | src/pages/Admin/Admin.js:153 | `trim` removes only white space, from either end, and the result neither starts nor ends with white space |
| Texto.TrimEmpty | src/pages/Admin/Admin.js:153 | the trimmed text is empty exactly when the input is all white space |
| Texto.TrimIdempotent | src/pages/Admin/Admin.js:155 | trimming a trimmed tag changes nothing |
| Texto.ContainsIgnoreCaseSpec | src/services/propiedades.js:82-84 | an exact substring also matches `ilike '%t%'`, and the pattern's case does not matter |
| Texto.DigitPrefixLength | src/services/propiedades.js:140 | `parseInt` reads the longest run of leading digits |
| Texto.ParseNumero | src/services/propiedades.js:137-143 | `parseInt`/`parseFloat` on integer text; its meaning is stated by `DigitPrefixLength` (how many digits are read) and `IntToStringRoundTrip` (it reads back every numeral `toString` writes) |
| Texto.IntToStringRoundTrip | src/pages/Admin/Admin.js:266 | `parseInt(n.toString()) == n` for every integer |
| Propiedades.Coercion | src/services/propiedades.js:137-143 | a numeric column holds a number exactly when `parseInt`/`parseFloat` reads one from the form text; NaN is stored as no number |
| Propiedades.Fila | src/services/propiedades.js:133-147 | the row `crearPropiedad`/`actualizarPropiedad` write from the form; each numeric column is `Coercion` of its text, and `Admin.EditarSinCambios` shows that a row loaded into the form and written back is the same row |
| Propiedades.SinImagenesDe | src/services/propiedades.js:272-275 | after deleting by `propiedad_id`, exactly the other properties' image rows remain |
| Propiedades.Join | src/services/propiedades.js:8-15 | each listed property carries exactly its own image rows |
| Propiedades.Seleccionar | src/services/propiedades.js:54-84 | the selected rows are table rows satisfying every clause, and every satisfying row is selected |
| Propiedades.Ejecutar | src/services/propiedades.js:54-86 | a select returns a permutation of the satisfying rows, newest `fecha_creacion` first, each with its images |
| Propiedades.CumpleConcat | src/services/propiedades.js:66-84 | chaining clauses onto a query conjoins them |
| Propiedades.Listar | src/services/propiedades.js:4-25 | `getPropiedades` returns exactly the active rows, newest first, each with its images |
| Propiedades.ListarAdmin | src/services/propiedades.js:294-314 | `getPropiedadesAdmin` returns every row, active or not, newest first, each with its images |
| Propiedades.ObtenerPorId | src/services/propiedades.js:28-49 | found exactly when some row has the id, whatever its `activa`; the "no rows" error otherwise |
| Propiedades.ListarConsultas | src/services/propiedades.js:317-336 | every inquiry, newest `fecha_consulta` first |
| Propiedades.PrecioSignificado | src/services/propiedades.js:64-75 | the `activa` clause plus the price and type clauses hold exactly when the row is active, the price bounds hold inclusively, and the type is equal, each only for a non-empty field |
| Propiedades.FichaSignificado | src/services/propiedades.js:76-84 | the bedroom and bathroom clauses are "N or more" and the location clause is a case-insensitive substring, each only for a non-empty field |
| Propiedades.ConsultaSignificado | src/services/propiedades.js:64-84 | a row satisfies the built query exactly when it matches the filter record field by field; empty fields constrain nothing |
| Propiedades.ConsultaConNaN | src/services/propiedades.js:67-81 | the query has a NaN operand exactly when a non-empty numeric filter is not a number |
| Propiedades.ConstruirConsulta | src/services/propiedades.js:52-84 | the query `buscarPropiedades` chains; `ConsultaSignificado` states which rows it matches and `ConsultaConNaN` when it carries a NaN operand |
| Propiedades.Buscar | src/services/propiedades.js:52-94 | `buscarPropiedades`; `BuscarSpec` states when it succeeds and exactly which rows it returns, in which order |
| Propiedades.BuscarSpec | src/services/propiedades.js:52-94 | the search succeeds exactly when the numeric filters are numbers; it then returns only active, matching rows, every matching row, newest first, with images |
| Propiedades.BuscarSinFiltros | src/services/propiedades.js:52-86 | with every filter empty, the search returns the same rows in the same order as `getPropiedades` |
| Propiedades.NuevasImagenesSpec | src/services/propiedades.js:156-169 | one image row per file `procesarImagen` reads, in input order, each carrying that file's URL, all for the property; an image is principal exactly when it came from input index 0, so none is principal when file 0 fails |
| Propiedades.NuevasImagenes | src/services/propiedades.js:156-169 | the image rows the upload loop builds; `NuevasImagenesSpec` states their count, URLs, owner and principal flag |
| Propiedades.NuevasImagenesUrls | src/services/propiedades.js:159-168 | the rows are as many as the readable files, and row k carries the URL of the k-th readable file |
| Propiedades.NuevasImagenesPrincipal | src/services/propiedades.js:159-168 | every row is for the property; only a row from file 0 is principal, and a readable file 0 always yields a row |
| Propiedades.ImagenesTrasReemplazo | src/services/propiedades.js:215-233 | after the delete by `propiedad_id` and the insert of rows for that id, the property's images are exactly the inserted rows |
| Propiedades.TodasLegibles | src/services/propiedades.js:159-168 | when every file is read, the new rows are one per file with that file's URL, in input order, the first principal |
| Propiedades.ReemplazoImagenes | src/services/propiedades.js:213-234 | replacing images leaves exactly the new rows for the id; with every file readable that is one row per file with its URL, in input order, the first principal |
| Propiedades.ProcesarImagenes | src/services/propiedades.js:157-169 | the loop builds the image rows that `NuevasImagenes` specifies |
| Propiedades.Numerar | src/services/propiedades.js:172-174 | the inserted image rows take consecutive ids from the counter and keep their data; that these ids are new is `NumerarFrescos` |
| Propiedades.NumerarFrescos | src/services/propiedades.js:172-174 | numbered from a counter above every id in the table, the new rows carry ids no old row has, and the table's ids stay increasing and below the advanced counter |
| Propiedades.Desactivada | src/services/propiedades.js:253-258 | a soft delete sets `activa` to false on that row and keeps its other columns; every other row is unchanged |
| Propiedades.SoftDeleteOcultaListado | src/services/propiedades.js:255-256 | after a soft delete the row is absent from `getPropiedades` |
| Propiedades.SinInactiva | src/services/propiedades.js:255-256 | with unique ids, a listing of active rows never shows the id of an inactive row |
| Propiedades.SoftDeleteOcultaBusqueda | src/services/propiedades.js:64 | after a soft delete the row is absent from every search |
| Propiedades.SoftDeleteConserva | src/services/propiedades.js:294-306 | after a soft delete the row is still in the admin listing and is still found by id |
| Propiedades.Store.InsertarImagenes | src/services/propiedades.js:172-174 | appends the numbered image rows, advances the image id counter, and keeps image ids unique and increasing |
| Propiedades.Store.BorrarImagenes | src/services/propiedades.js:217-220 | removes exactly the property's image rows and keeps image ids increasing |
| Propiedades.Store.CrearPropiedad | src/services/propiedades.js:130-185 | appends an active row stamped with the clock and the next id, and that row's image rows; every table keeps unique, increasing ids below its counter |
| Propiedades.Store.ReemplazarImagenes | src/services/propiedades.js:213-241 | deletes the property's image rows, then appends the new set; afterwards the property's images are exactly the new rows |
| Propiedades.Store.SobrescribirFila | src/services/propiedades.js:191-208 | overwrites one row with a row of the same id and keeps property ids increasing |
| Propiedades.Store.InsertarNuevas | src/services/propiedades.js:156-177 | appends one numbered image row per readable file, or nothing, and keeps image ids unique and increasing |
| Propiedades.Store.ActualizarPropiedad | src/services/propiedades.js:188-248 | rewrites the row's form fields and keeps `activa` and `fecha_creacion`; images are untouched when no files are given and replaced otherwise; an unknown id changes nothing and fails |
| Propiedades.Store.EliminarPropiedad | src/services/propiedades.js:251-266 | the table becomes `Desactivada` at the row with that id; an unknown id changes nothing and fails |
| Propiedades.Store.EliminarPropiedadPermanente | src/services/propiedades.js:269-291 | removes the property's image rows, even when no row has the id, then removes the row |
| Propiedades.Store.BorrarFila | src/services/propiedades.js:278-283 | removes one row, keeps the others in order, and keeps property ids increasing |
| Propiedades.Store.EnviarConsulta | src/services/propiedades.js:339-357 | appends the inquiry stamped with the clock in state `pendiente`, with a new id |
| Modal.UrlOpcional | src/services/modal.js:58 | an empty image URL is stored as null |
| Modal.ODefecto | src/services/modal.js:59-61 | an empty field takes the default, and a non-empty one is kept |
| Modal.NuevoModal | src/services/modal.js:55-64 | the row `crearModal` inserts, with the defaults for empty fields; `ModalStore.CrearModal` inserts it and `InsertarUnico` shows an active one is then the only active row |
| Modal.Editado | src/services/modal.js:89-98 | the row `actualizarModal` writes, with no defaults; `EscribirValida` shows writing it after the clear keeps at most one row active |
| Modal.DesactivarOtros | src/services/modal.js:46-51 | only `activo` changes, and afterwards a row is active exactly when it was active and is the excepted id |
| Modal.IndicePorId | src/services/modal.js:99-101 | the position of the row with the id, or none when no row has it |
| Modal.ModalActivo | src/services/modal.js:4-24 | a reported modal is an active row; with no active row the answer is no modal, not an error |
| Modal.TodosLosModales | src/services/modal.js:27-40 | every row, newest `created_at` first |
| Modal.ActivosAlMasUno | src/services/modal.js:6-10 | with at most one active row, the `activo = true` selection has at most one row |
| Modal.ModalActivoSpec | src/services/modal.js:4-24 | with at most one active row, a modal is found exactly when some row is active, and it is that row |
| Modal.ActivarUnico | src/services/modal.js:133-146 | clearing the other rows and then activating the target leaves the target the only active row |
| Modal.InsertarUnico | src/services/modal.js:46-66 | clearing every row and then inserting an active row leaves the new row the only active one |
| Modal.LimpiarValida | src/services/modal.js:80-85 | clearing flags keeps ids valid and at most one row active |
| Modal.EscribirValida | src/services/modal.js:80-101 | the clear-then-write of an update keeps at most one row active, and an activated row is the active modal |
| Modal.ModalStore.CrearModal | src/services/modal.js:43-74 | inserts the row with defaults, after clearing every flag when it is active; at most one row stays active, and an active new row is the active modal |
| Modal.ModalStore.ActualizarModal | src/services/modal.js:77-109 | clears the other flags when the form is active, then overwrites the target; an inactive update changes only the target; at most one row stays active |
| Modal.ModalStore.EliminarModal | src/services/modal.js:112-127 | removes only the row with the id; at most one row stays active |
| Modal.ModalStore.ToggleModalActivo | src/services/modal.js:130-156 | activating clears every other flag first; deactivating changes only the target; at most one row stays active |
| Auth.IniciarSesion | src/services/auth.js:16-21 | login writes the token, the email and a login time that reads back as the clock, and leaves other keys alone |
| Auth.CerrarSesion | src/services/auth.js:78-80 | logout removes exactly the three session keys |
| Auth.InfoAdmin | src/services/auth.js:60-73 | reports the stored email or null, and the login time read by `parseInt` or null when it is absent or empty |
| Auth.Expirada | src/services/auth.js:42-50 | the 24-hour test of `isAdminLoggedIn`; `LoginLuegoValida` states when a fresh session expires and `ExpiradaNoValida` that an expired one is not valid |
| Auth.SesionValida | src/services/auth.js:34-57 | the answer of `isAdminLoggedIn`; `LoginLuegoValida` and `LogoutSpec` state it after a login and after a logout |
| Auth.LoginLuegoValida | src/services/auth.js:42-52 | a fresh session is valid exactly while at most 24 hours have passed (still valid at exactly 24 h), and its info is the email and the login time |
| Auth.LogoutSpec | src/services/auth.js:76-86 | after logout no session is valid and the info is empty; a second logout changes nothing |
| Auth.ExpiradaNoValida | src/services/auth.js:46-50 | an expired session is not valid, before or after it is cleared |
| Auth.AdminSession.LoginAdmin | src/services/auth.js:11-31 | succeeds exactly with the fixed pair and then stores the session; otherwise writes nothing and fails with 'Credenciales incorrectas' |
| Auth.AdminSession.LogoutAdmin | src/services/auth.js:76-86 | the storage becomes `CerrarSesion` of the old storage |
| Auth.AdminSession.IsAdminLoggedIn | src/services/auth.js:34-57 | false when the token or login time is missing; false and all three keys removed exactly when expired; a true answer changes nothing |
| Auth.AdminSession.GetAdminInfo | src/services/auth.js:60-73 | returns `InfoAdmin` of the storage and changes nothing |
| Auth.AdminSession.UseAdminAuth | src/services/auth.js:89-99 | the login answer for the storage before the check; the storage loses the three session keys exactly when the session has expired and is otherwise unchanged; the info is read after the check, so it is empty for an expired session |
| Admin.Recortar | src/pages/Admin/Admin.js:113-115 | keeps the first six files of a selection, in order, and all of them when there are six or fewer |
| Admin.PreviewsDe | src/pages/Admin/Admin.js:117-124 | one card per kept file, showing that file, with `order` equal to its index |
| Admin.ConOrden | src/pages/Admin/Admin.js:136-139 | every card's `order` becomes its index, and each card still shows the same file |
| Admin.Renumerar | src/pages/Admin/Admin.js:136-139 | the loop over the cards produces `ConOrden` of them |
| Admin.Agregada | src/pages/Admin/Admin.js:152-160 | appends the trimmed text exactly when it is not empty, and otherwise changes nothing |
| Admin.AgregadaLimpia | src/pages/Admin/Admin.js:152-160 | adding through the form keeps every tag non-empty and free of surrounding white space |
| Admin.QuitadaLimpia | src/pages/Admin/Admin.js:162-168 | removing a tag keeps the tags non-empty and trimmed |
| Admin.Numeral | src/pages/Admin/Admin.js:266-274 | an absent number becomes '' and a present one its numeral, and the store reads that text back as the same value |
| Admin.FormularioDe | src/pages/Admin/Admin.js:263-276 | the form `handleEditarPropiedad` fills from a row; `EditarSinCambios` shows that saving it unchanged writes back the same row |
| Admin.EditarSinCambios | src/pages/Admin/Admin.js:262-288 | loading a row into the form and saving it unchanged writes back the same row |
| Admin.CambioModal | src/pages/Admin/Admin.js:312-318 | the named field takes `checked` for a checkbox and `value` otherwise, and no other field changes |
| Admin.AdminPage.constructor | src/pages/Admin/Admin.js:21-49 | empty property form, no files, and the modal form with its default colours, size and inactive flag |
| Admin.AdminPage.HandleImagenesChange | src/pages/Admin/Admin.js:110-125 | keeps the first six files in order; each card shows its file, with `order` equal to its index |
| Admin.AdminPage.ReorderImages | src/pages/Admin/Admin.js:127-142 | with the parsed drag index a position of the lists, swaps it with the drop position in both lists, keeps cards matched to files and sets every `order` to its index; with a NaN or out-of-range drag index the files are untouched and only the cards before the drop position take their index as `order`, where the renumbering throws |
| Admin.AdminPage.EliminarImagen | src/pages/Admin/Admin.js:144-150 | removes index `k` from both lists and keeps the rest in order, still matched |
| Admin.AdminPage.AgregarCaracteristica | src/pages/Admin/Admin.js:152-160 | appends the trimmed tag and clears the input only when the trimmed text is non-empty; otherwise nothing changes |
| Admin.AdminPage.EliminarCaracteristica | src/pages/Admin/Admin.js:162-168 | removes tag `k` and keeps the rest in order |
| Admin.AdminPage.LimpiarFormulario | src/pages/Admin/Admin.js:240-260 | every form field empty, no files or cards, no tag text, nothing being edited |
| Admin.AdminPage.HandleEditarPropiedad | src/pages/Admin/Admin.js:262-288 | fills the form from the row, marks the row as edited, shows the form tab; saving that form unchanged rewrites the same row |
| Admin.AdminPage.HandleModalChange | src/pages/Admin/Admin.js:312-318 | the modal form becomes `CambioModal` of the old form |
| Admin.AdminPage.Recargar | src/pages/Admin/Admin.js:225-228 | after a save: empty form, the admin listing of the new tables, and the list tab |
| Admin.AdminPage.Guardar | src/pages/Admin/Admin.js:206-232 | when editing, updates the row (passing no files when none are picked) and reports success or the store's error; otherwise creates the row and its images and reports success; the inquiries table and its counter are unchanged |
| Admin.AdminPage.HandleSubmit | src/pages/Admin/Admin.js:176-238 | with a required field empty it reports so and changes nothing; otherwise it saves; on success the page is reset and reloaded, on failure the page is unchanged; the inquiries table and its counter are never touched |
| Catalogo.FiltrosDeUrl | src/pages/Catalogo/Catalogo.js:12-19 | each of the six fields comes from the URL parameter of the same name, or is '' when absent |
| Catalogo.ConCampo | src/pages/Catalogo/Catalogo.js:48-53 | only the named field changes |
| Catalogo.SinParametros | src/pages/Catalogo/Catalogo.js:30 | no field is set exactly when every field is '' |
| Catalogo.Cargar | src/pages/Catalogo/Catalogo.js:30-34 | the store call `cargarPropiedades` makes; `DespachoEquivalente` shows it always equals the filtered search |
| Catalogo.DespachoEquivalente | src/pages/Catalogo/Catalogo.js:30-34 | calling `getPropiedades` when no field is set gives what `buscarPropiedades` would have given |
| Catalogo.CatalogoPage.constructor | src/pages/Catalogo/Catalogo.js:9-19 | fields from the URL, no cards, loading |
| Catalogo.CatalogoPage.CargarPropiedades | src/pages/Catalogo/Catalogo.js:26-46 | searches when some field is set and lists otherwise; success replaces the cards, failure keeps them and reports 'Error al cargar las propiedades'; loading ends |
| Catalogo.CatalogoPage.HandleFiltroChange | src/pages/Catalogo/Catalogo.js:48-53 | the filters become `ConCampo` of the old filters |
| Catalogo.CatalogoPage.LimpiarFiltros | src/pages/Catalogo/Catalogo.js:59-67 | all six fields become '' |

## Left out

- The hosted table store's transport failures, which lead to `success: false`, are not modelled. The error paths modelled are:
  - the "no rows" answer of `.single()`;
  - the store's refusal of a NaN operand.
- `.single()` on several matching rows is not modelled, because ids are unique in the model. `getModalActivo` is the exception: there several active rows also count as "no single row".
- Column types are not in the source, so two are assumed:
  - `precio`, `dormitorios` and `banos` are integer columns, which refuse a NaN operand. If `precio` were a PostgreSQL `numeric` column, NaN would be accepted and would sort above every number: `precio_min=abc` would then give an empty listing and `precio_max=abc` would filter nothing, where the model fails the search. The form inputs are number fields and selects, so NaN arrives only through a hand-written URL.
  - `id` of `modales` is a text column, or the store's refusal of `'temp'` is ignored, so the `.neq('id', 'temp')` update matches every row. With an integer or uuid `id` the store would refuse `'temp'`. `crearModal` and `actualizarModal` do not check that result, so the clear would do nothing, and two active rows would make `getModalActivo` return null.
- `Propiedades.BuscarSpec`: "Ok exactly when every non-empty numeric filter is a number" holds under the integer-column assumption above; the failure's text `ERROR_NAN` stands for the store's message, which is not modelled.
- `procesarImagen`/`convertirImagenABase64` (FileReader and base64 data URLs) are a parameter `leer` that gives each file a URL or fails. The generated file name is not kept.
- `btoa` and the token's contents: the token is an opaque text built from the email and the clock.
- Clocks are passed in as parameters:
  - `loginAdmin` reads `Date.now()` twice, which the model treats as one reading;
  - `new Date().toISOString()` timestamps are integers, whose order matches the ISO strings' order.
- Ties in `fecha_creacion`, `fecha_consulta` or `created_at`: the model sorts stably. The store promises no tie order.
- `parseInt`/`parseFloat` are modelled on integers only: an optional sign and a run of leading digits. Digit runs are read exactly at any length; JavaScript rounds numbers above 2^53 to the nearest double, which is not modelled. Also not modelled:
  - fractions, exponents and `Infinity`;
  - leading white space;
  - `parseInt`'s other radix prefixes.
- The wildcards `%` and `_` inside the user's location text are matched literally. Case folding covers Basic Latin and Latin-1 letters only.
- Concurrency and non-atomic sequences are not modelled; all calls run one after another. This covers:
  - the clear-then-set writes of the modal service;
  - the delete-then-insert of images;
  - the delayed reload after `limpiarFiltros`.
- `coordenadas` and `ubicacionMapa` (map coordinates) are not modelled, nor is the `caracteristicas` branch that parses a JSON string. Feature tags are always a list.
- The join of `getConsultas` with each property's title is not modelled.
- `URL.createObjectURL` preview URLs are not kept on the cards. The source mutates the preview objects in place; the model copies values, and writes out the one visible effect of that sharing: the cards a failed `reorderImages` renumbered before it threw.
- `handleFiltroChange` and `handleModalChange` take their field name from the input element:
  - the catalogue filter takes one of the six names;
  - the modal form takes any name.
- Transient UI flags (`guardando`, `guardandoModal`) are not modelled, and toasts are output values, not state.
- Not modelled: the other admin handlers, namely the property delete, view and logout handlers, the modal submit, edit and reset handlers, the modal image picker and `cargarDatos`.
- `Admin.AdminPage.Recargar`: does not model the case where `getPropiedadesAdmin` fails (the list then stays as it was), because the in-memory store never fails that query.
- Outside the core and not part of this model:
  - the EmailJS wrapper;
  - the property detail and contact pages;
  - the map components;
  - the header, footer, modal, home, login and route-guard components;
  - the older copy of the admin page;
  - all rendering and `Intl.NumberFormat` price formatting.
