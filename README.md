# experticie: a verified model of the store's stock, order and session logic

This project models in Dafny the parts of the experticie store (a Django back end with
two React front ends, one under `src/` and one under `prexcol/`) where the program keeps
counts, checks input and moves state, and it proves what those parts promise.

- **Catalogue and orders (back end).**
  - Products with their stock, orders with their state and total, and order lines. The
    tables are maps and sequences on a `Db` class, and money is integer cents.
  - `reducir_stock` and `aumentar_stock`, the order total kept equal to the sum of the line
    subtotals, and the forward chain `pendiente → preparando → en_transito → entregado`
    with an unguarded `cancelado` that gives the stock back.
  - The endpoints of both view variants: `ajustar_stock`, `config_stock`,
    `ejecutar_recarga`, `asignar_productos_masivo`, order visibility by role, the
    all-or-nothing `crear_pedido` (with the payment check in the `src` variant) and
    `cambiar_estado`. `transaction.atomic` is "commit the new tables or restore the saved
    ones" (`Inventory.Db.Restore`).
  - The order serializer's validators, with the limits each role has on a target state.
- **Accounts.**
  - The account-status views (self deactivation and reactivation, admin suspension and
    reactivation, the status read).
  - The user manager and the password history kept by `set_password` and `save`.
- **Sales and notifications.**
  - The signal that records one sale per paid order.
  - The notification endpoints.
- **Token clients (browser).**
  - Four axios clients that attach a `Bearer` credential (section 2.1 of RFC 6750) and
    answer a 401 by refreshing the token.
  - The server is a script of replies and the browser's `localStorage` is a map.
  - For each client a pure function (`Despacho`) says what a request does, and a method on
    a `Navegador` object does it step by step and is proved to agree.
- **Browser pages.**
  - The carts (with and without a stock cap) and the catalogue filters, sorted by price.
  - The admin dashboard's filters, role sort, pages of ten and statistics cards.
  - The provider pages' optimistic stock updates and quantity checks.
  - The provider assignment page, the admin tabs and the reset-password checks.
  - React state is the fields of a class whose methods are the handlers, and a reply from
    the server is a parameter of the handler.

JavaScript and Python semantics are written out where the code depends on them:
- truthiness and `a || b` (`O`, `GetOr`);
- `parseInt`, `Number` and `isNaN` on text;
- Python's `int(str)` and `str(int)`;
- lower-casing (ASCII only);
- the stable `Array.prototype.sort` as insertion sort.

A render that throws (a method called on `null`) is `None` in the model.

## Model

| member | source | states |
|---|---|---|
| Inventory.ParseEstado | backend/apps/productos/models.py:110-116 | a name is read as a state only if it is that state's stored name |
| Inventory.ParseEstadoName | backend/apps/productos/models.py:110-116 | each of the five state names reads back as its own state, so the names are distinct |
| Inventory.TotalConcat | backend/apps/productos/models.py:147-152 | an order's total over two tables joined is the sum of the two totals |
| Inventory.TotalWithoutLines | backend/apps/productos/models.py:147-152 | an order no line belongs to totals 0 |
| Inventory.LineasDe | backend/apps/productos/models.py:149 | `pedido.detalles` holds exactly the table's lines of that order |
| Inventory.TotalLineasDe | backend/apps/productos/models.py:147-152 | summing the subtotals of the order's own lines gives the order's total over the whole table (also lines 195-198) |
| Inventory.TotalRemove | backend/apps/productos/models.py:205-209 | removing one line lowers its own order's total by its subtotal and leaves every other order's total alone |
| Inventory.Reducir | backend/apps/productos/models.py:85-93 | refused exactly when the stock is below the amount; otherwise the stock drops by the amount and nothing else changes |
| Inventory.Aumentar | backend/apps/productos/models.py:95-99 | the stock grows by the amount, refused only when the non-negative column would go below 0; nothing else changes |
| Inventory.ReducirThenAumentar | backend/apps/productos/models.py:85-99 | reducing by an available amount and then increasing by it restores the product |
| Inventory.AumentarThenReducir | backend/apps/productos/models.py:85-99 | increasing and then reducing by the same amount restores the product |
| Inventory.TransitionsFollowChain | backend/apps/productos/models.py:154-164 | each guard admits exactly its predecessor state, at most one guard holds at a time, and none holds for a delivered or cancelled order |
| Inventory.ConsistentProductKeys | backend/apps/productos/models.py:175-190 | the table invariant (lines point at stored rows, one line per product and order, totals equal the sum of subtotals) survives any change of product rows that keeps their keys |
| Inventory.Db.ReducirStock | backend/apps/productos/models.py:85-93 | `reducir_stock` plus `save`: refusal iff stock below amount with every table unchanged; otherwise only that product's stock changes and the new stock is returned |
| Inventory.Db.AumentarStock | backend/apps/productos/models.py:95-99 | `aumentar_stock` plus `save`: only that product's stock grows, the new stock is returned, the invariant is kept |
| Inventory.Db.CalcularTotal | backend/apps/productos/models.py:147-152 | the order's stored total becomes the sum of its lines' subtotals and is returned; nothing else changes |
| Inventory.Db.CrearPedido | backend/apps/productos/models.py:126-129 | a new order under a fresh key, state `pendiente`, total 0; no other table changes |
| Inventory.Db.CrearDetalle | backend/apps/productos/models.py:181-203 | saved iff the quantity is non-negative and the order has no line for that product yet; then the line is appended and the order total grows by its subtotal; otherwise nothing changes |
| Inventory.Db.EliminarDetalle | backend/apps/productos/models.py:205-209 | the line is removed and its order's total drops by its subtotal; the invariant is kept |
| PedidoLineas.LineasCreadas | src/backend/apps/productos/views.py:483-488 | one stored line per requested detail, in request order |
| PedidoLineas.HasLineCreadas | src/backend/apps/productos/views.py:473-488 | after the loop the new order has a line for product `k` exactly when some detail asked for `k` |
| PedidoLineas.PideSplit | src/backend/apps/productos/views.py:473-475 | a product is asked for by a list of details iff it is asked for by all but the last detail or by the last one |
| PedidoLineas.LineasOkEfecto | src/backend/apps/productos/views.py:473-488 | a loop that ends without error had admissible details (known, distinct products, quantities between 0 and stock), reduced each requested product by its quantity and appended exactly the created lines |
| PedidoLineas.PasoOk | src/backend/apps/productos/views.py:477-488 | one iteration succeeds only for a known product with enough stock and no line yet, and then reduces that stock and appends the priced line |
| PedidoLineas.PasoEfecto | src/backend/apps/productos/views.py:473-488 | one more successful iteration extends admissibility and the stock effect from a prefix of the details to the whole list |
| PedidoLineas.AdmisiblesLineasOk | src/backend/apps/productos/views.py:473-488 | admissible details always get through the loop without error |
| PedidoLineas.LineasSpec | src/backend/apps/productos/views.py:473-488 | the loop succeeds iff the details are admissible, and then each requested product's stock drops by its quantity, other products are unchanged, and the created lines are appended |
| PedidoLineas.TotalCreadas | src/backend/apps/productos/views.py:483-491 | the new order's total over the created lines is the sum of quantity × price at creation |
| PedidoLineas.PedidasDistintas | src/backend/apps/productos/views.py:473-475 | with distinct products, the units asked of a product are 0 when it is not asked for and that detail's quantity when it is |
| PedidoLineas.Reponer | src/backend/apps/productos/views.py:547-549 | the cancellation loop keeps the product keys and raises each product's stock by the units the order's lines hold of it, changing nothing else |
| PedidoLineas.ReponerDosVeces | src/backend/apps/productos/views.py:544-549 | cancelling twice gives each product's units back twice, since nothing checks the current state |
| PedidoLineas.UnidadesConcat | src/backend/apps/productos/views.py:547-549 | units held by an order over two joined tables add up |
| PedidoLineas.UnidadesSinLineas | src/backend/apps/productos/views.py:547-549 | an order with no lines holds no units of any product |
| PedidoLineas.UnidadesCreadas | src/backend/apps/productos/views.py:473-488 | the created lines hold of each product exactly the units the details asked for |
| PedidoLineas.CancelarTrasCrear | src/backend/apps/productos/views.py:473-488 | cancelling a freshly created order restores the product table it was created from (also lines 547-549) |
| PedidoLineas.CreadaEs | src/backend/apps/productos/views.py:483-488 | created line `i` is detail `i` under the new order, priced from the product table |
| PedidoLineas.CreadasDeOtro | src/backend/apps/productos/views.py:483-488 | the created lines all belong to the new order, so every other order's total is unchanged |
| Vistas.Rechazo | src/backend/apps/productos/views.py:78-93 | a request is admitted iff the permission is public, or a user is signed in and (for a role permission) has a listed role; it is 401 exactly when a non-public permission meets an anonymous request, and every other refusal is 403 |
| Vistas.RechazoMonotono | src/backend/apps/productos/views.py:78-93 | a role permission admits no one `IsAuthenticated` refuses, listing more roles refuses no one more, a public action admits everyone, and an anonymous request a role permission refuses gets 401 |
| Vistas.ErrorDeRechazo | src/backend/apps/productos/views.py:113 | a 401 or 403 of the permission check becomes the `ajustar_stock` error answered with that same status |
| Vistas.AjusteStatus | src/backend/apps/productos/views.py:113-162 | the permission check's refusals are 401 and 403, an unknown product 404, an unconvertible `cantidad` type 500, and every other refusal of `ajustar_stock` 400; each of 401, 403, 404 and 500 comes from exactly one error |
| Vistas.ValidarAjuste | src/backend/apps/productos/views.py:118-152 | an accepted body always carries a quantity above 0 |
| Vistas.ValidarAjusteSpec | src/backend/apps/productos/views.py:118-152 | the body is accepted iff `cantidad` converts with `int` to a positive number and `operacion` is absent, `aumentar` or `reducir`; absent means `aumentar`; a missing `cantidad` and a non-numeric text give their own errors |
| Vistas.AjustarStock | src/backend/apps/productos/views.py:113-162 | a requester `IsAdmin | IsProveedor` refuses gets its 401 or 403 and nothing changes; otherwise refused iff the product is not visible, the body is refused, or `reducir` asks for more than is in stock, and then nothing changes; otherwise only that product's stock moves by the quantity and the new stock is returned |
| Vistas.AjusteIdaYVuelta | src/backend/apps/productos/views.py:141-147 | reducing by an accepted quantity and then increasing by it restores the product |
| Vistas.CrearDetalles | src/backend/apps/productos/views.py:473-488 | the loop succeeds exactly when the pure loop model does and leaves the same product and line tables; order rows keep their keys and all but their totals |
| Vistas.LineasErrPrefix | src/backend/apps/productos/views.py:477-482 | once a detail fails, the loop as a whole fails |
| Vistas.ReponerStock | src/backend/apps/productos/views.py:547-549 | the restocking loop leaves the products as the pure cancellation model says and changes no other table |
| Vistas.ReponerLinea | src/backend/apps/productos/views.py:548-549 | one turn of the restock loop extends that agreement by one line |
| Vistas.CancelarSiemprePermitido | src/backend/apps/productos/views.py:528-549 | `cancelado` passes from every state; each forward target passes exactly from its predecessor |
| Vistas.AplicarEstado | src/backend/apps/productos/views.py:528-549 | a refused change (400) leaves every table as it was; an accepted one stores the new state, and a cancellation gives every line's quantity back, with no further change |
| Vistas.Create | src/backend/apps/productos/views.py:435-439 | the plain create route always answers 405 |
| Vistas.NuevoSinLineas | src/backend/apps/productos/views.py:467-469 | a freshly created order starts with no lines |
| Vistas.AbrirPedido | src/backend/apps/productos/views.py:466-491 | creating the order and running the loop succeeds iff the details are admissible; then the order is new, pending, and totals quantity × price, each requested product loses its quantity, exactly the new lines are stored, and no other row changes |
| SrcViews.DecoradorIgnorado | src/backend/apps/productos/views.py:78-93 | as written the enforced and the declared permission agree only on `ajustar_stock`; `config_stock`, `ejecutar_recarga` and `asignar_productos_masivo` admit any signed-in account, so a `cliente` the decorator would refuse with 403 gets through; the enforced check is never stricter |
| SrcViews.DeclaradoSoloPersonal | src/backend/apps/productos/views.py:197-346 | under the declared checks only admins and providers reach `config_stock`, and only admins reach `ejecutar_recarga` and `asignar_productos_masivo` |
| SrcViews.ConfigSpec | src/backend/apps/productos/views.py:225-246 | a new configuration defaults to minimum 10, refill 50 and active, taking each supplied truthy value instead; an update changes exactly the supplied fields, an empty update changes nothing, and repeating an update is idempotent |
| SrcViews.CeroSegunCamino | src/backend/apps/productos/views.py:232-243 | a supplied 0 is replaced by the default on creation (`or`) but stored as 0 on update (`is not None`) |
| SrcViews.ConfigStock | src/backend/apps/productos/views.py:197-254 | a requester the declared `IsAdmin | IsProveedor` refuses gets 401 or 403; then a product not found is 404; a read changes nothing and is 404 exactly when there is no configuration; a write answers 201 exactly when it creates, stores the defaults or the field-wise update, and touches no other table |
| SrcViews.EjecutarRecarga | src/backend/apps/productos/views.py:256-292 | a requester the declared `IsAdmin` refuses gets 401 or 403; 404 for a product not found, 400 without a configuration, all with nothing changed; otherwise one history row (before, before + amount, by the requester) is written and the stock grows by the refill amount, and when the stock column refuses (500) the history row stays |
| Peticion.ClaveJson | src/backend/apps/productos/views.py:369 | `objects.get(id=v)` on a body value: `null` is the `isnull` lookup that finds no row, and any other value is read as `int` reads it, failing with the same error |
| Peticion.ClaveJsonEfecto | src/backend/apps/productos/views.py:369 | an integer and its decimal text name the same key, and exactly lists and objects fail with the type error |
| SrcViews.Reasignar | src/backend/apps/productos/views.py:367-371 | the loop keeps the product keys |
| SrcViews.NombradoInit | src/backend/apps/productos/views.py:367 | an id list names product `k` iff all but its last id do or its last id does |
| SrcViews.ReasignarSpec | src/backend/apps/productos/views.py:367-371 | a named product gets the new provider and nothing else; every other product is untouched |
| SrcViews.ListasSpec | src/backend/apps/productos/views.py:364-377 | the updated keys and the missing ids together number the requested ids; updated keys exist and were asked for; missing ids were asked for and find no product, a null id included |
| SrcViews.RepartoExacto | src/backend/apps/productos/views.py:364-386 | each requested id lands in exactly one list: updated when its product exists, missing when it does not or when it is null |
| SrcViews.ValidarAsignacion | src/backend/apps/productos/views.py:350-362 | 400 exactly when the provider id is falsy or the product ids are not a non-empty list; otherwise 500 for an id `int` cannot read, 404 unless it names an active provider; a pass yields that provider and the non-empty id list |
| SrcViews.Reasignacion | src/backend/apps/productos/views.py:364-377 | the loop finishes iff every id is readable, and then the products, updated keys and missing ids are as the specification functions say; no other table changes |
| SrcViews.AsignarProductosMasivo | src/backend/apps/productos/views.py:345-387 | a requester the declared `IsAdmin` refuses gets 401 or 403; a refused request answers its status and changes nothing; past validation the answer is 200 iff every id reads as a key (null ones included) and 500 otherwise; a 200 reassigns exactly the named products, lists their keys, and gives `errores` as null when no id was missing |
| SrcViews.CrearPedido | src/backend/apps/productos/views.py:441-511 | a requester `IsCliente` refuses gets 401 or 403 and nothing changes; for a body the serializer has accepted (lines 443-447 are not modelled), the request commits iff exactly one active payment method matches, every detail is admissible and the amount equals the total; a failure leaves every table unchanged; a success, always for a `cliente`, stores the pending order, the priced lines, the reduced stock and exactly one payment of the total |
| SrcViews.RegistrarPedido | src/backend/apps/productos/views.py:466-505 | after the payment method is found, succeeds iff the details are admissible and the amount equals quantity × price summed, and then stores order, lines, stock and the one pending payment |
| SrcViews.PedidoDeEjemplo | backend/tests/test_atomic_order.py:35-75 | two units of a product priced 100.00 with 50 in stock are admissible, total 200.00, and leave 48 in stock |
| SrcViews.MontoDistintoRechaza | src/backend/apps/productos/views.py:495-496 | an amount that differs from the total is refused even when every detail can be served |
| SrcViews.CambiarEstado | src/backend/apps/productos/views.py:416-556 | a requester `IsAdmin | IsLogistica` refuses gets 401 or 403; 404 unless the requester's order list holds the order; for a state the serializer has accepted (lines 520-524 are not modelled), 400 exactly when the transition guard refuses, with nothing changed; otherwise the state is stored and a cancellation restocks every line |
| PrexcolViews.VisibilidadSegunVariante | prexcol/backend/productos/views.py:170-180 | the two order views agree for `admin`, superusers and `cliente`; `logistica` sees pending and delivered orders only in the src variant, and `comprador` sees pending and preparing orders only in this one |
| PrexcolViews.Claves | prexcol/backend/productos/serializers.py:51-54 | what the imported model serializer validates holds both foreign keys and model columns only, never `tienda_id` or `detalles` |
| PrexcolViews.CrearPedidoTalCual | prexcol/backend/productos/views.py:216-256 | as written, with the imported model serializer: a requester `IsCliente` refuses gets 401 or 403 and every other request is 400, so no order is ever stored |
| PrexcolViews.CrearPedido | prexcol/backend/productos/views.py:216-256 | with the serializer of prexcol/productos/serializers.py, and line 239 taking the `Producto` that serializer has already resolved (as written it passes the instance to `get(id=…)`, which raises and answers 400): a requester `IsCliente` refuses gets 401 or 403; 201 iff the serializer accepts the body and the details are admissible; a 400 leaves every table as it was; a 201 stores a pending order whose total is quantity × price summed, the priced lines and the reduced stock |
| PrexcolViews.ValidoSeGuarda | prexcol/backend/productos/views.py:216-256 | in the corrected view (that serializer, and the resolved product used at line 239), a body the serializer accepts with distinct products is admissible here, while the same details with a differing payment amount are refused by the src variant |
| PrexcolViews.LeerEstado | prexcol/backend/productos/serializers.py:56-59 | the imported serializer's `estado`: absent passes with no value, a stored state name selects that state, anything else fails validation |
| PrexcolViews.CambiarEstadoTalCual | prexcol/backend/productos/views.py:258-301 | as written: 401 or 403 from the permission check, 404 for an order the requester is not shown, 500 exactly when `estado` is absent, 400 for an invalid name or a refused transition, all changing nothing; otherwise the state is stored for any admitted role and a cancellation restocks every line |
| PrexcolViews.RolesSinLimite | prexcol/backend/productos/views.py:258-301 | as written a `comprador` or `logistica` account passes the check and can cancel any order it is shown, a cancellation the role limits of the other serializer refuse |
| PrexcolViews.CambiarEstado | prexcol/backend/productos/views.py:258-301 | with the serializer of prexcol/productos/serializers.py: 401 or 403 from the permission check; 404 unless the requester's order list holds the order; 400 exactly when the serializer refuses the target for the role or the guard refuses it, with nothing changed; otherwise the state is stored and a cancellation restocks every line |
| PrexcolViews.RolesAvanzanUnPaso | prexcol/backend/productos/views.py:263-290 | for `comprador` and `logistica` an accepted change moves the order exactly one step forward along the chain, so neither can cancel |
| PrexcolViews.PorPedido | prexcol/backend/productos/views.py:341-367 | 401 exactly for an anonymous request (the viewset's `IsAuthenticated`, line 329); for a signed-in one, 400 exactly for an absent or empty id, 500 for a non-integer one, 404 for an unknown order, 403 for a requester not allowed, otherwise 200 with exactly that order's lines |
| PrexcolViews.PorPedidoSuma | prexcol/backend/productos/views.py:341-367 | asking by an order's own key gives its lines, and their subtotals add up to its stored total |
| Serializers.ValidarCantidad | prexcol/productos/serializers.py:152-156 | a detail's quantity is accepted exactly when it is positive, and then unchanged |
| Serializers.ValidarDetalle | prexcol/productos/serializers.py:232-238 | one detail passes exactly when its product is stored and its quantity is positive (also lines 152-156) |
| Serializers.DetallesExisten | prexcol/productos/serializers.py:232-238 | when the detail check passes, every detail names a stored product with a positive quantity |
| Serializers.ValidarDetallesSpec | prexcol/productos/serializers.py:211-217 | the detail checks pass exactly when every detail names a stored product and a positive quantity (also lines 152-156, 232-238) |
| Serializers.ValidarExistenciasSpec | prexcol/productos/serializers.py:227-252 | for stored products, the loop of `validate` passes exactly when every product belongs to the order's store and has at least the asked units in stock |
| Serializers.ValidarPedidoSpec | prexcol/productos/serializers.py:207-252 | an order body is valid exactly when it has a detail, names a stored store, and every detail is a positive quantity of a stored product of that store with enough stock |
| Serializers.ValidoYDistintoEsAdmisible | prexcol/productos/serializers.py:227-252 | a valid body whose details name distinct products can be served in full by the view's detail loop |
| Serializers.RepetidoPasaElSerializador | prexcol/productos/serializers.py:232-250 | two details of one unit each for a product with one unit in stock pass the serializer, yet the view cannot serve them |
| Serializers.EstadoDestino | prexcol/productos/serializers.py:261-263 | only the four listed states are accepted as targets, never `pendiente`, and each maps back to its own name |
| Serializers.ValidarEstado | prexcol/productos/serializers.py:261-293 | an accepted value is one of the listed target states |
| Serializers.ValidarEstadoSpec | prexcol/productos/serializers.py:265-293 | with an order in the context a listed state is accepted exactly when the role may target it (`comprador` only `preparando`, `logistica` only transit and delivery, `admin` any); without one, whenever it is listed |
| Serializers.SoloAdminCancela | prexcol/productos/serializers.py:276-291 | of all roles, only `admin` may cancel a known order |
| Cuentas.GetAccountStatus | backend/apps/usuarios/views/view_account_management.py:150-165 | a user can reactivate themselves exactly when self-deactivated and not suspended; the suspension reason and date are shown only while suspended; the flags are reported as stored |
| Cuentas.SelfReactivateAsWritten | backend/apps/usuarios/views/view_account_management.py:59-80 | as written, a correct password reactivates every self-deactivated account, also one an administrator has suspended since |
| Cuentas.SelfReactivateDecision | backend/apps/usuarios/views/view_account_management.py:59-80 | a correct password reactivates exactly the accounts whose status says they can reactivate themselves; a suspended account is always refused with 403 and is never left active (also line 164) |
| Cuentas.AsWrittenReactivatesSuspended | backend/apps/usuarios/views/view_account_management.py:64-80 | deactivating one's account, being suspended, then reactivating yields an account that is active and still suspended, although its status says it cannot reactivate itself (also lines 111-114) |
| Cuentas.DecisionRefusesSuspended | backend/apps/usuarios/views/view_account_management.py:64-71 | with the intended check the same sequence is refused with 403 (also lines 111-114) |
| Cuentas.DecisionsAgreeUnlessSuspended | backend/apps/usuarios/views/view_account_management.py:59-80 | the two decisions agree on every account that is not both self-deactivated and suspended |
| Cuentas.DeactivateThenReactivate | backend/apps/usuarios/views/view_account_management.py:27-28 | an unsuspended user who deactivates their account can reactivate it and gets back the account, active (also lines 78-79) |
| Cuentas.AdminReactivateClears | backend/apps/usuarios/views/view_account_management.py:111-141 | after a suspension, an administrator's reactivation leaves an active account with no flag, reason or date |
| Cuentas.SelfDeactivate | backend/apps/usuarios/views/view_account_management.py:11-34 | an anonymous request is refused with 401 by `IsAuthenticated`; a suspended user is refused with 403; in both cases nothing changes; otherwise 200 and only that user's row turns self-deactivated and inactive |
| Cuentas.SelfReactivate | backend/apps/usuarios/views/view_account_management.py:38-85 | applies the corrected reactivation decision: a missing email or password is 400; an unknown email is 404; otherwise the one stored user with that email decides: 200 exactly when that decision allows it, and then only that row is reactivated, else the decision's own status (401 wrong password, 403 suspended, 400 not self-deactivated); every answer other than 200 changes nothing |
| Cuentas.AdminSuspendUser | backend/apps/usuarios/views/view_account_management.py:88-120 | the `IsAdminUser` refusal comes first (401 anonymous, 403 not staff); then an unknown id is 404 and an administrator cannot be suspended (403); 200 exactly otherwise, storing in that row only the suspension, its date and the reason as read from the body (the default text if the key is absent, none if it is `null`) |
| Cuentas.AdminReactivateUser | backend/apps/usuarios/views/view_account_management.py:123-147 | the `IsAdminUser` refusal comes first (401 anonymous, 403 not staff); 200 exactly for a staff caller and a stored id, clearing that row's suspension and deactivation; otherwise 404, and nothing changes on any refusal |
| Cuentas.RechazoAdmin | backend/apps/usuarios/views/view_account_management.py:89 | DRF's `IsAdminUser` under JWT authentication: a request passes exactly when it comes from a signed-in staff user; an anonymous one is 401, any other refusal 403 |
| Cuentas.SuspensionVisible | backend/apps/usuarios/views/view_account_management.py:95-114 | after a suspension the status shows the account suspended, inactive, not self-reactivatable, with its date and the reason as given: the default text for an absent key, none for a JSON `null` (also lines 158-164) |
| Usuarios.MakePassword | backend/apps/usuarios/models.py:75 | the stored hash is never blank and matches exactly the password it was made from; no password gives a hash nothing matches |
| Usuarios.NormalizeWithoutAt | backend/apps/usuarios/models.py:19 | an address without `@` is stored exactly as typed |
| Usuarios.UsuarioDb.SetPassword | backend/apps/usuarios/models.py:66-75 | a saved user is refused exactly when the password matches one of its own history rows; otherwise the instance gets the new hash and no table changes |
| Usuarios.UsuarioDb.Save | backend/apps/usuarios/models.py:77-94 | an email held by another row is refused and nothing changes; otherwise the row is written under its key (a fresh one for a new user) and a history row is added exactly when the password is new and not blank; the tables stay consistent (also line 44) |
| Usuarios.UsuarioDb.CreateUser | backend/apps/usuarios/models.py:13-23 | a blank email (first) or name is refused; otherwise creation succeeds exactly when no row holds the normalized email, and fails with the duplicate-email error when one does; a created user has the normalized email, the model defaults, the given password, a fresh key, and its first history row |
| Usuarios.UsuarioDb.CreateSuperuser | backend/apps/usuarios/models.py:25-29 | as `create_user` (the same blank and duplicate-email refusals, the same new row and first history row), with role `admin`, staff and superuser unless the caller said otherwise |
| Usuarios.UsuarioDb.CambiarYRepetir | backend/apps/usuarios/models.py:66-94 | `set_password(raw)`, `save()`, `set_password(raw)`: the first is refused exactly for a reused password, the save exactly for a taken email, and the repeat exactly when the save recorded the password as new for that row |
| Usuarios.NewCuenta | backend/apps/usuarios/models.py:20-49 | a new instance is unsaved, active and unflagged, with role `cliente` unless one is given |
| Usuarios.SuperDefaults | backend/apps/usuarios/models.py:26-28 | given values win over the superuser defaults |
| Usuarios.SavedPasswordIsUsed | backend/apps/usuarios/models.py:70-94 | a password saved for a user is in that user's history, so it cannot be chosen again |
| Usuarios.UsedBeforeMonotone | backend/apps/usuarios/models.py:70-94 | adding history rows never lets an already refused password through |
| Usuarios.UnusableNeverBlocks | backend/apps/usuarios/models.py:72-94 | an unusable password in the history never refuses any later password |
| Ventas.Registro.CrearVentaAlAprobarPago | src/backend/apps/ventas/signals.py:8-48 | a payment outside the approved states, or for an order that already has a sale, changes nothing; otherwise exactly one sale is added under the order, with its client, its total and the units on its lines, and the order's lines are copied after the existing sale lines |
| Ventas.CopiasFieles | src/backend/apps/ventas/signals.py:34-41 | each sale line copies the product, quantity and unit price of the order line at its place, with quantity × price as subtotal |
| Ventas.SubtotalesDeCopias | src/backend/apps/ventas/signals.py:34-44 | the subtotals of an order's copied lines add up to the order's computed total |
| Ventas.RegistrarDosVeces | src/backend/apps/ventas/signals.py:15-20 | after one approved payment of an order is recorded, saving it or any other payment of that order again records nothing more |
| Ventas.VentaCuadra | src/backend/apps/ventas/signals.py:22-48 | in a consistent database the new sale's total is the order's total and equals the sum of its new sale lines' subtotals, and the earlier sale lines are kept |
| Notificaciones.Propias | backend/apps/notificaciones/views.py:16-17 | a user's list holds only stored notifications |
| Notificaciones.Enviar | backend/apps/notificaciones/views.py:22-57 | 401 exactly for an anonymous request (the viewset's `IsAuthenticated`, line 14); 200 exactly when the requester is signed in and type, message and destination are all present and truthy and the type names a stored notification type; every other body is 400 |
| Notificaciones.Leida | backend/apps/notificaciones/views.py:62-65 | afterwards the notification is read; an already read one is left exactly as it was, an unread one gets the reading time |
| Notificaciones.LeidaIdempotente | backend/apps/notificaciones/views.py:62-65 | marking twice is marking once, so the first reading time is kept |
| Notificaciones.Bandeja.MarcarLeida | backend/apps/notificaciones/views.py:59-66 | 401 exactly for an anonymous request (`IsAuthenticated`, line 14) and 404 exactly for a key outside the requester's own notifications, both changing nothing; otherwise 200 with that notification marked read and no other notification changed |
| Notificaciones.TamanoPagina | src/backend/pagination.py:9-11 | the page size lies in 1..10000: a positive `?page_size=` capped at 10000, and 10 when it is absent, unreadable or not positive |
| Notificaciones.NumeroPagina | src/backend/pagination.py:5-11 | an absent or empty `?page=` is page 1 and `last` the last page; a page number chosen lies in 1..the page count; an integer text is accepted iff it is in that range, and then it is the page chosen |
| Notificaciones.Corte | backend/apps/notificaciones/views.py:75-78 | a page holds at most the page size, and its item `j` is item `(n - 1) × size + j` of the list |
| Notificaciones.ListaDe | backend/apps/notificaciones/views.py:74 | the listed keys are exactly the stored notifications of that user, in table order |
| Notificaciones.Historial | backend/apps/notificaciones/views.py:68-81 | 401 exactly for an anonymous request (`IsAuthenticated`, line 14); for a signed-in one, 403 exactly when the path is not the requester's own key as text and the requester is not staff; 500 exactly when an allowed path is not an integer; 404 exactly for a page number the pager refuses; otherwise 200 with the count of that user's notifications and the requested page of them, at most the page size |
| Notificaciones.HistorialSoloPropio | backend/apps/notificaciones/views.py:71-78 | a requester who is not staff only ever gets their own notifications, and the count is the length of their own list |
| Notificaciones.PaginaDe | backend/apps/notificaciones/views.py:74-78 | nothing is lost to paging: item `i` of a user's list is item `i % size` of page `i / size + 1` |
| Notificaciones.PaginaPropia | backend/apps/notificaciones/views.py:71-78 | a requester asking for their own path with a page number the pager accepts gets 200, the count of their list and that page of it |
| Notificaciones.PaginaLeida | src/backend/pagination.py:5-11 | any `?page=` text that reads as an in-range number selects that page |
| Notificaciones.PaginaVaciaEsPrimera | src/backend/pagination.py:5-11 | an empty `?page=` on one's own history answers 200 with the first page, the same answer as no parameter (DRF reads the page number as `… or 1`) |
| Notificaciones.CorteDe | backend/apps/notificaciones/views.py:75-78 | page `i / size + 1` exists for every item `i` of the list and holds it at position `i % size` |
| Notificaciones.CeroInicial | backend/apps/notificaciones/views.py:71-78 | the path `07` is refused to user 7, yet staff asking for it get user 7's first ten notifications and their count |
| Http.Bearer | frontend/src/services/api.js:57 | the header value is `Bearer ` followed by exactly the token |
| Http.BearerInjective | frontend/src/services/api.js:57 | two tokens give the same header only when they are equal (also line 102) |
| ApiSrc.Primero | frontend/src/services/api.js:23-24 | the first of two stored keys whose value is truthy, else the empty text |
| Http.Token | prexcol/prexcol/frontend/src/services/api.js:25-26 | a token getter gives the stored text under its key when that is truthy, and the empty text otherwise |
| Http.ConCredencial | frontend/src/services/api.js:50-59 | only the header changes, to `Bearer` and the token when it is not empty; an empty token leaves the request as it was |
| ApiSrc.Interceptar | frontend/src/services/api.js:50-59 | a request leaves with `Bearer` and the stored access token when there is one, and unchanged otherwise; nothing else about it changes |
| ApiSrc.RutaRefrescoMarcada | frontend/src/services/api.js:34 | the refresh call's own path carries the marker, so a 401 on it ends the session and never refreshes again (also line 88) |
| ApiSrc.Despacho | frontend/src/services/api.js:70-116 | the request goes out first, as the interceptor leaves it; at most three requests go out; a refresh call or a retried request sends only itself and leaves the store alone when it succeeds |
| ApiSrc.Refresco | frontend/src/services/api.js:29-45 | with no refresh token it is false and sends nothing; at most one request goes out; true only after writing the new access token under `token` and `accessToken` and changing nothing else |
| ApiSrc.OtroErrorSeRechaza | frontend/src/services/api.js:86-115 | an error other than 401 is rejected as it came, after one request and with the store untouched |
| ApiSrc.NoAutorizadoTermina | frontend/src/services/api.js:88-95 | a 401 on the refresh path or on a retried request clears the session and redirects to `/login` |
| ApiSrc.RefrescoFallidoTermina | frontend/src/services/api.js:98-112 | a first 401 whose refresh fails is rejected with that 401, after clearing the session and redirecting to `/login` |
| ApiSrc.RefrescoYReenvio | frontend/src/services/api.js:98-103 | a first 401 is followed by one refresh call with the stored refresh token and, when it yields a new access token, by one resend marked retried and carrying that token |
| ApiSrc.RefrescoExitoso | frontend/src/services/api.js:29-45 | a refresh whose reply carries `access` is true, sends exactly one call and stores that token under both `token` and `accessToken` |
| ApiSrc.TerminarConservaClaves | frontend/src/services/api.js:90-92 | ending the session removes `token`, `refresh` and `user` only, so the token getters still find `accessToken` and `refreshToken` (also lines 23-24, 107-109) |
| ApiSrc.CerrarSesion | frontend/src/services/api.js:90-110 | the browser after the session is ended is exactly the terminal state |
| ApiSrc.Solicitar | frontend/src/services/api.js:50-116 | step by step, the instance's request resolves and leaves the browser as `Despacho` says |
| ApiSrc.Refrescar | frontend/src/services/api.js:29-45 | step by step, the refresh does what `Refresco` says |
| ApiPrexcol.AccessToken | prexcol/prexcol/frontend/src/services/api.js:25 | the access token is the stored `accessToken` when it is truthy, else empty |
| ApiPrexcol.RefreshToken | prexcol/prexcol/frontend/src/services/api.js:26 | the refresh token is the stored `refreshToken` when it is truthy, else empty |
| ApiPrexcol.Interceptar | prexcol/prexcol/frontend/src/services/api.js:51-58 | a request leaves with `Bearer` and the stored access token when there is one, unchanged otherwise |
| ApiPrexcol.DespachoTalCual | prexcol/prexcol/frontend/src/services/api.js:63-79 | as written: the request goes out first, the browser is never redirected, and nothing but the server's replies bounds how many requests follow |
| ApiPrexcol.RefrescoTalCual | prexcol/prexcol/frontend/src/services/api.js:31-46 | as written: with no refresh token it is false and sends nothing; otherwise the refresh call passes through the same 401 handling (also lines 68-74) |
| ApiPrexcol.RefrescoSinFin | prexcol/prexcol/frontend/src/services/api.js:68-74 | with a refresh token stored and a server refusing everything, `n` refusals make `n + 1` identical refresh calls (also line 36) |
| ApiPrexcol.PeticionSinCota | prexcol/prexcol/frontend/src/services/api.js:63-79 | so one request can be made to send any number of requests |
| ApiPrexcol.RutaRefrescoMarcada | prexcol/prexcol/frontend/src/services/api.js:36 | the refresh call's URL is recognised as one |
| ApiPrexcol.Despacho | prexcol/prexcol/frontend/src/services/api.js:63-79 | with the refresh URL exempted: the request goes out first, at most three requests go out, there is never a redirect, the store changes only by a new `accessToken`, and an exempt call leaves the store alone |
| ApiPrexcol.Refresco | prexcol/prexcol/frontend/src/services/api.js:31-46 | with no refresh token it is false and sends nothing; at most one request goes out; true only after storing a non-empty new `accessToken` and nothing else; false leaves the store as it was |
| ApiPrexcol.CorreccionSoloEnRefresco | prexcol/prexcol/frontend/src/services/api.js:68 | on a retried request away from the refresh URL the corrected client and the code as written agree |
| ApiPrexcol.RechazoAcotado | prexcol/prexcol/frontend/src/services/api.js:63-79 | with the correction, a server refusing everything costs a request at most two calls, and the request is rejected with the 401 and the store untouched |
| ApiPrexcol.SinRefreshSeRechaza | prexcol/prexcol/frontend/src/services/api.js:68-77 | a 401 with no refresh token stored is rejected after that one request, with the store unchanged (also line 33) |
| ApiPrexcol.RefrescoFallidoRechaza | prexcol/prexcol/frontend/src/services/api.js:71-77 | a failed refresh rejects the original 401 with the store as it was and no redirect |
| ApiPrexcol.RefrescoYReenvio | prexcol/prexcol/frontend/src/services/api.js:36-40 | a first 401 is followed by one refresh call and, when it yields a new token, by one resend marked retried and carrying it; only `accessToken` changes in the store (also lines 69-73) |
| ApiPrexcol.Solicitar | prexcol/prexcol/frontend/src/services/api.js:51-79 | step by step, the instance's request does what `Despacho` says |
| ApiPrexcol.Refrescar | prexcol/prexcol/frontend/src/services/api.js:31-46 | step by step, the refresh does what `Refresco` says |
| AuthSrc.Interceptar | frontend/src/services/authservices.js:13-20 | a request leaves with `Bearer` and the stored `token` when it is truthy, unchanged otherwise |
| AuthSrc.Despacho | frontend/src/services/authservices.js:30-59 | the request goes out first, at most three requests go out, a retried request sends only itself, nothing redirects, and the store changes in `token` at most |
| AuthSrc.Salir | frontend/src/services/authservices.js:23-27 | logging out removes exactly `token`, `refresh` and `role` and keeps every other key and value |
| AuthSrc.Login | frontend/src/services/authservices.js:73-81 | one bare POST; a rejection stores nothing; a reply writes `token`, `refresh` and `role` each only from a truthy field and touches no other key |
| AuthSrc.RefrescoYReenvio | frontend/src/services/authservices.js:35-50 | a first 401 with a `refresh` key makes one bare refresh call with it, stores the reply's `access` (the text `undefined` when missing) as `token`, and resends once with that credential |
| AuthSrc.FalloSinBorrar | frontend/src/services/authservices.js:35-57 | without a `refresh` key, or when the refresh fails, the 401 is rejected and no key is removed |
| AuthSrc.SalirSinCredencial | frontend/src/services/authservices.js:14-24 | after logging out no request carries a credential |
| AuthSrc.LoginSinAccess | frontend/src/services/authservices.js:76 | a login reply without `access` leaves the stored credential as it was |
| AuthSrc.Solicitar | frontend/src/services/authservices.js:13-59 | step by step, a request through `authAxios` does what `Despacho` says |
| AuthSrc.CerrarSesion | frontend/src/services/authservices.js:23-27 | step by step, `logout` leaves the store `Salir` describes and nothing else changed |
| AuthSrc.IniciarSesion | frontend/src/services/authservices.js:73-81 | step by step, `login` does what `Login` says |
| AuthPrexcol.Login | prexcol/frontend/src/services/authservices.js:16-37 | one bare POST and no key outside `token`, `refresh` and `role` changes; the store changes only on a 2xx reply carrying `access`; a success returns the data with `role` set from the user's role |
| AuthPrexcol.Salir | prexcol/frontend/src/services/authservices.js:41-44 | logging out removes exactly `token` and `refresh` and keeps `role` and every other key |
| AuthPrexcol.Interceptar | prexcol/frontend/src/services/authservices.js:51-57 | a request leaves with `Bearer` and the stored `token` when it is truthy, unchanged otherwise |
| AuthPrexcol.Despacho | prexcol/frontend/src/services/authservices.js:59-81 | the request goes out first, at most three requests go out, nothing redirects, and a retried request sends only itself and leaves the store as it was |
| AuthPrexcol.LoginSinUsuario | prexcol/frontend/src/services/authservices.js:22-35 | a reply with `access` but no `user` throws after the tokens are already stored |
| AuthPrexcol.RolAusente | prexcol/frontend/src/services/authservices.js:28-32 | a user without a role is stored as the truthy text `undefined` while the returned role is missing |
| AuthPrexcol.SalirConservaRol | prexcol/frontend/src/services/authservices.js:41-54 | after logging out no request carries a credential, yet the stored role stays |
| AuthPrexcol.RefrescoFallidoSale | prexcol/frontend/src/services/authservices.js:63-79 | a first 401 whose refresh call fails logs out and rejects the 401, after exactly two requests |
| AuthPrexcol.SinRefreshSeRechaza | prexcol/frontend/src/services/authservices.js:63-79 | a 401 with no `refresh` key is rejected after that one request, with nothing changed |
| AuthPrexcol.RefrescoYReenvio | prexcol/frontend/src/services/authservices.js:63-73 | a first 401 with a `refresh` key makes one bare refresh call, stores the reply's `access` as `token` and nothing else, and resends once with that credential |
| AuthPrexcol.Solicitar | prexcol/frontend/src/services/authservices.js:47-81 | step by step, a request through `authAxios` does what `Despacho` says |
| AuthPrexcol.CerrarSesion | prexcol/frontend/src/services/authservices.js:41-44 | step by step, `logout` leaves the store `Salir` describes |
| AuthPrexcol.IniciarSesion | prexcol/frontend/src/services/authservices.js:16-37 | step by step, `login` does what `Login` says |
| Carrito.Posicion | prexcol/frontend/src/components/usuarios/PanelComprador.jsx:54 | `find` gives the first entry for the product, and none exactly when no entry has that id |
| Carrito.PorCategoriaParticion | prexcol/frontend/src/components/usuarios/PanelComprador.jsx:139-142 | `basicos` keeps exactly the basic products and `no_basicos` exactly the others, together all of them; any other filter keeps the list as it is |
| Carrito.OrdenarEfecto | src/frontend/src/components/productos/Catalogo.jsx:85-89 | sorting by price keeps the products and orders them up or down by price; no order keeps the list as loaded |
| Carrito.Incremento | prexcol/frontend/src/components/usuarios/PanelComprador.jsx:57-59 | raising the one entry for a product adds one unit there, changes no other entry, and adds one unit's price to the total |
| Carrito.Nuevo | prexcol/frontend/src/components/usuarios/PanelComprador.jsx:62 | appending a product not yet in the cart keeps ids unique and adds its price to the total |
| Carrito.AgregarLibreEfecto | frontend/src/components/clientes/PanelCliente.jsx:58-70 | without a cap a product already in the cart gets exactly one more unit and nothing else changes; a new one is appended with one unit; ids stay unique and the total grows by one unit's price |
| Carrito.AgregarConTopeEfecto | prexcol/frontend/src/components/usuarios/PanelComprador.jsx:53-64 | with a cap the same holds, except that an entry that has reached the stock of the product being added leaves the cart unchanged |
| Carrito.AgregarConTopeAcota | prexcol/frontend/src/components/usuarios/PanelComprador.jsx:53-64 | with the cap, adding a product with stock never takes an entry past its stock |
| Carrito.AgregarLibreExcede | frontend/src/components/clientes/PanelCliente.jsx:58-70 | without the cap two clicks on a product with one unit in stock put two units in the cart |
| Carrito.FiltrarUnicos | prexcol/frontend/src/components/usuarios/PanelComprador.jsx:67 | filtering a cart with unique ids keeps them unique |
| Carrito.EliminarEfecto | prexcol/frontend/src/components/usuarios/PanelComprador.jsx:66-68 | removing drops exactly that product's entries and keeps the rest in order; the total loses exactly their subtotal (also line 105) |
| Carrito.ActualizarCantidadEfecto | prexcol/frontend/src/components/usuarios/PanelComprador.jsx:70-78 | zero or less removes the entry; a positive quantity is capped by the entry's stock and changes no other entry; ids stay unique and a bounded cart stays bounded |
| Carrito.DetallesEfecto | prexcol/frontend/src/components/usuarios/PanelComprador.jsx:87 | the order body has one detail per entry, with its product and quantity, in order, and no product twice |
| Carrito.CarritoAdmisible | prexcol/frontend/src/components/usuarios/PanelComprador.jsx:80-92 | an order sent from a cart that the order serializer accepts can be served in full by the view's detail loop |
| PanelComprador.Panel.CargarProductos | prexcol/frontend/src/components/usuarios/PanelComprador.jsx:43-51 | a completed load replaces the products (none when the reply is not an array) and empties the cart; a failed one changes nothing |
| PanelComprador.Panel.AgregarAlCarrito | prexcol/frontend/src/components/usuarios/PanelComprador.jsx:53-64 | the cart becomes the capped addition and nothing else changes; ids stay unique |
| PanelComprador.Panel.EliminarDelCarrito | prexcol/frontend/src/components/usuarios/PanelComprador.jsx:66-68 | the cart loses that product's entries and nothing else changes |
| PanelComprador.Panel.ActualizarCantidad | prexcol/frontend/src/components/usuarios/PanelComprador.jsx:70-78 | the cart becomes the quantity update, zero or less removing the entry, and nothing else changes |
| PanelComprador.Panel.CrearPedido | prexcol/frontend/src/components/usuarios/PanelComprador.jsx:80-103 | an empty cart shows `El carrito está vacío` and sends nothing; otherwise one detail per entry is sent; a created order empties the cart and shows its number, a failure keeps the cart and shows the error |
| PanelClientePrexcol.Panel.CargarProductos | prexcol/frontend/src/components/clientes/PanelCliente.jsx:44-52 | a completed load replaces the products (none when the reply is not an array) and empties the cart; a failed one changes nothing |
| PanelClientePrexcol.Panel.AgregarAlCarrito | prexcol/frontend/src/components/clientes/PanelCliente.jsx:54-65 | the cart becomes the capped addition and nothing else changes; ids stay unique |
| PanelClientePrexcol.Panel.EliminarDelCarrito | prexcol/frontend/src/components/clientes/PanelCliente.jsx:67-69 | the cart loses that product's entries and nothing else changes |
| PanelClientePrexcol.Panel.CrearPedido | prexcol/frontend/src/components/clientes/PanelCliente.jsx:71-95 | an empty cart shows `El carrito está vacío` and sends nothing; otherwise one detail per entry is sent; a created order empties the cart, closes the form and shows its number; a failure keeps both and shows the error |
| PanelCliente.Panel.CargarProductos | frontend/src/components/clientes/PanelCliente.jsx:21-29 | with a service that provides the call (the import gives none, see Findings): a completed load replaces the products (none when the reply is not an array) and empties the cart; a failed one keeps them and shows `Error cargando productos` |
| PanelCliente.Panel.CargarDatos | frontend/src/components/clientes/PanelCliente.jsx:34-53 | with a service that provides the call (the import gives none, see Findings): the panel's state becomes what the reload function gives for those replies, with `loading` off |
| PanelCliente.Panel.AgregarAlCarrito | frontend/src/components/clientes/PanelCliente.jsx:58-70 | the cart becomes the uncapped addition and nothing else changes; ids stay unique |
| PanelCliente.Panel.EliminarDelCarrito | frontend/src/components/clientes/PanelCliente.jsx:75-77 | the cart loses that product's entries and nothing else changes |
| PanelCliente.Panel.CrearPedido | frontend/src/components/clientes/PanelCliente.jsx:87-112 | with a service that provides the call (the import gives none, see Findings): an empty cart shows `El carrito está vacío` and sends nothing; otherwise the selected store and one detail per entry are sent; success shows the confirmation, empties the cart and then reloads the panel; a failure keeps the cart and shows the error |
| PanelCliente.Panel.CargarProductosTalCual | frontend/src/components/clientes/PanelCliente.jsx:21-29 | as the page runs it, `api.getProductosPorTienda` is not a member of the imported axios instance (frontend/src/services/api.js:123): every load only shows `Error cargando productos`; products and cart stay |
| PanelCliente.Panel.CargarDatosTalCual | frontend/src/components/clientes/PanelCliente.jsx:34-53 | as the page runs it, `api.getMisPedidos` is not a function: every load ends in the first call's failure, showing `Error al cargar datos: ` and the error's message; orders, stores, products and cart stay, and `loading` is off |
| PanelCliente.Panel.CrearPedidoTalCual | frontend/src/components/clientes/PanelCliente.jsx:87-112 | as the page runs it, an empty cart shows `El carrito está vacío`; any other cart sends nothing, because `api.crearPedido` is not a function, and only the error changes, to `Error al crear pedido: ` and the error's message |
| PanelCliente.RecargaNoLlenaCarrito | frontend/src/components/clientes/PanelCliente.jsx:34-53 | a reload keeps the cart or empties it, never fills it; it ends with `loading` off and keeps the category filter and the success message |
| PanelCliente.RecargaSeleccionaPrimera | frontend/src/components/clientes/PanelCliente.jsx:40-47 | a reload with a non-empty store list selects its first store and shows its products once they load; a failed product load keeps the old products and cart and shows its message |
| PanelCliente.RecargaSinTiendasConservaSeleccion | frontend/src/components/clientes/PanelCliente.jsx:40-47 | a reload whose store list is empty or not an array empties the list but keeps the previously selected store, products, cart and message |
| PanelCliente.PedidoCreadoVaciaCarrito | frontend/src/components/clientes/PanelCliente.jsx:104-106 | whatever the reload after a created order gets, the cart ends empty, the confirmation stays and `loading` is off |
| CatalogoSrc.BuscarSeccion | src/frontend/src/components/productos/Catalogo.jsx:65 | the section found has the selected id and is one of the loaded sections; none means no section has that id |
| CatalogoSrc.Paso | src/frontend/src/components/productos/Catalogo.jsx:51-82 | each filter step, run or skipped as its guard says, turns the list narrowed by the earlier tests into the list narrowed by one more |
| CatalogoSrc.TodasLasEtapas | src/frontend/src/components/productos/Catalogo.jsx:48-82 | the six steps together narrow the list exactly by the conjunction of the active filters |
| CatalogoSrc.AplicarFiltros | src/frontend/src/components/productos/Catalogo.jsx:48-92 | step by step, the filtered list is exactly the products passing every active filter, in the chosen price order |
| CatalogoSrc.Etapa | src/frontend/src/components/productos/Catalogo.jsx:52-82 | one step of `aplicarFiltros` turns the products passing the first `k - 1` tests into those passing the first `k` |
| CatalogoSrc.HaySeccion | src/frontend/src/components/productos/Catalogo.jsx:64-66 | the section step runs exactly when a section is selected, found, and carries a product list |
| CatalogoSrc.OrdenarPorPrecio | src/frontend/src/components/productos/Catalogo.jsx:85-89 | the list is sorted up or down by price as chosen, and left alone otherwise |
| CatalogoSrc.CatalogoMiembro | src/frontend/src/components/productos/Catalogo.jsx:48-92 | a product is shown exactly when it is loaded and passes every active filter |
| CatalogoSrc.CatalogoFiltrosActivos | src/frontend/src/components/productos/Catalogo.jsx:51-82 | a shown product contains the search in its name regardless of case, has the chosen category, is in the selected section's list, lies within the price bounds, and is basic when only basic products are asked for |
| CatalogoSrc.CotaNoNumero | src/frontend/src/components/productos/Catalogo.jsx:72-77 | a price bound that is not a number hides every product |
| CatalogoSrc.CatalogoSinOrden | src/frontend/src/components/productos/Catalogo.jsx:49-82 | with no price order the products shown keep their loaded order |
| CatalogoSrc.CatalogoOrdenado | src/frontend/src/components/productos/Catalogo.jsx:85-89 | a price order shows the same products as none, sorted up or down by price |
| CatalogoSrc.SeccionSinLista | src/frontend/src/components/productos/Catalogo.jsx:64-69 | a section that is not found, or has no product list, filters nothing |
| CatalogoSrc.LimpiarMuestraTodo | src/frontend/src/components/productos/Catalogo.jsx:114-124 | under the initial filters every loaded product is shown, in its order (also lines 13-21) |
| CatalogoSrc.Pagina.Actualizar | src/frontend/src/components/productos/Catalogo.jsx:99-101 | the effect sets the filtered list to what the filters select and changes nothing else |
| CatalogoSrc.Pagina.CargarProductos | src/frontend/src/components/productos/Catalogo.jsx:35-46 | a reply that is not an array, or a failed call, leaves no products; the filtered list follows (also lines 99-101) |
| CatalogoSrc.Pagina.CargarSecciones | src/frontend/src/components/productos/Catalogo.jsx:25-33 | an array reply replaces the sections, another reply empties them, a failed call keeps them; the filtered list follows the new sections (also lines 94-101) |
| CatalogoSrc.Pagina.CambiarFiltros | src/frontend/src/components/productos/Catalogo.jsx:99-101 | new filters are stored and the filtered list follows them |
| CatalogoSrc.Pagina.LimpiarFiltros | src/frontend/src/components/productos/Catalogo.jsx:114-124 | the initial filters come back and every loaded product is shown |
| CatalogoSrc.Pagina.AgregarAlCarrito | src/frontend/src/components/productos/Catalogo.jsx:103-112 | the cart becomes the uncapped addition and nothing else changes |
| CatalogoPrexcol.AplicarFiltros | prexcol/frontend/src/components/productos/Catalogo.jsx:31-57 | step by step, the filtered list is exactly the products passing the search, category and basic filters, in the chosen price order |
| CatalogoPrexcol.CatalogoMiembro | prexcol/frontend/src/components/productos/Catalogo.jsx:31-57 | a product is shown exactly when it was loaded and passes the three filters |
| CatalogoPrexcol.CatalogoFiltrosActivos | prexcol/frontend/src/components/productos/Catalogo.jsx:35-47 | a shown product contains the search in its name regardless of case, has the chosen category, and is basic when only basic products are asked for |
| CatalogoPrexcol.CatalogoSinOrden | prexcol/frontend/src/components/productos/Catalogo.jsx:32-47 | with no price order the products shown keep their loaded order |
| CatalogoPrexcol.BusquedaVacia | prexcol/frontend/src/components/productos/Catalogo.jsx:35-37 | an empty search keeps every product, so the initial filters show the list as loaded |
| CatalogoPrexcol.CatalogoOrdenado | prexcol/frontend/src/components/productos/Catalogo.jsx:50-54 | a price order shows the same products as none, sorted up or down by price |
| CatalogoPrexcol.Pagina.Actualizar | prexcol/frontend/src/components/productos/Catalogo.jsx:63-65 | the effect sets the filtered list to what the filters select and changes nothing else |
| CatalogoPrexcol.Pagina.CargarProductos | prexcol/frontend/src/components/productos/Catalogo.jsx:18-29 | store 0 reads the caller's own products and any other store its products; a reply that is not an array, or a failed call, leaves none (also lines 63-65) |
| CatalogoPrexcol.Pagina.CambiarTienda | prexcol/frontend/src/components/productos/Catalogo.jsx:8 | choosing a store reloads from that store's source and keeps the filters and the cart (also line 60) |
| CatalogoPrexcol.Pagina.CambiarFiltros | prexcol/frontend/src/components/productos/Catalogo.jsx:63-65 | new filters are stored and the filtered list follows them |
| CatalogoPrexcol.Pagina.AgregarAlCarrito | prexcol/frontend/src/components/productos/Catalogo.jsx:68-77 | the cart becomes the uncapped addition and nothing else changes |
| CatalogoPrexcol.Pagina.CrearPedido | prexcol/frontend/src/components/productos/Catalogo.jsx:79-93 | the handler sends one detail per entry without checking the cart (the button is disabled while it is empty, line 198); the cart is emptied only when the reply carries a truthy `id` |
| DashboardAdmin.Rango | frontend/src/pages/dashboardAdmin.jsx:487-502 | the rank is 1 to 5 for the five known roles and 99 exactly for any other role |
| DashboardAdmin.AntesQueOrden | frontend/src/pages/dashboardAdmin.jsx:499-506 | the comparator (role rank, then name) is total and transitive, so the sort is well defined |
| DashboardAdmin.UsuariosFiltradosEfecto | frontend/src/pages/dashboardAdmin.jsx:490-506 | the user list holds exactly the users passing the role and state filters, as often as loaded, ordered by role rank and by name within a rank |
| DashboardAdmin.TiendasFiltradasEfecto | frontend/src/pages/dashboardAdmin.jsx:509-515 | `activas` and `inactivas` list exactly the active and inactive stores and split the list between them; any other value lists every store in order |
| DashboardAdmin.ProductosFiltradosEfecto | frontend/src/pages/dashboardAdmin.jsx:518-531 | a product is listed exactly when it passes the store and search filters; a store filter `parseInt` cannot read lists nothing; no filter lists everything |
| DashboardAdmin.PedidosFiltradosEfecto | frontend/src/pages/dashboardAdmin.jsx:534-537 | `todos` lists every order; another value lists exactly the orders in that state, in order |
| DashboardAdmin.TotalPaginas | frontend/src/pages/dashboardAdmin.jsx:551-554 | the page count is the least one whose pages of ten hold the whole list |
| DashboardAdmin.PaginaEfecto | frontend/src/pages/dashboardAdmin.jsx:540-544 | a page holds at most ten items, is the run starting at `(pagina - 1) * 10` cut at the end of the list, and is empty for page 0 and past the last page |
| DashboardAdmin.UnirPrefijo | frontend/src/pages/dashboardAdmin.jsx:540-544 | pages 1 to k one after another are the list's first 10k items |
| DashboardAdmin.PaginasCubrenLista | frontend/src/pages/dashboardAdmin.jsx:540-554 | pages 1 to the page count one after another are the whole list |
| DashboardAdmin.EstadisticasEfecto | frontend/src/pages/dashboardAdmin.jsx:557-591 | active and inactive users, active and inactive stores, basic and normal products each add up to their total; the counters stay within their totals; the pending value plus the others' value is the total value; stock with no negative entries totals at least 0 |
| DashboardAdmin.Tablero.constructor | frontend/src/pages/dashboardAdmin.jsx:66-77 | every list empty, every filter `todos`, an empty search and every tab on page 1 |
| DashboardAdmin.Tablero.CargarUsuarios | frontend/src/pages/dashboardAdmin.jsx:87-98 | an array replaces the users, another value empties them, a failure keeps them and sets the error; nothing else changes |
| DashboardAdmin.Tablero.CargarTiendas | frontend/src/pages/dashboardAdmin.jsx:100-110 | an array replaces the stores, another value empties them, a failure keeps them and sets the error; nothing else changes |
| DashboardAdmin.Tablero.CargarProductos | frontend/src/pages/dashboardAdmin.jsx:112-122 | an array replaces the products, another value empties them, a failure keeps them and sets the error; nothing else changes |
| DashboardAdmin.Tablero.CargarPedidos | frontend/src/pages/dashboardAdmin.jsx:124-134 | an array replaces the orders, another value empties them, a failure keeps them and sets the error; nothing else changes |
| DashboardAdmin.Tablero.CambiarFiltroRol | frontend/src/pages/dashboardAdmin.jsx:790-792 | the role filter is the chosen value and the user list is back on its first page; nothing else changes |
| DashboardAdmin.Tablero.CambiarFiltroEstadoUsuario | frontend/src/pages/dashboardAdmin.jsx:805-807 | the state filter is the chosen value and the user list is back on its first page; nothing else changes |
| DashboardAdmin.Tablero.CambiarBusqueda | frontend/src/pages/dashboardAdmin.jsx:1027-1034 | the search term is the typed text and the product list is back on its first page; nothing else changes |
| DashboardAdmin.Tablero.IrAPagina | frontend/src/pages/dashboardAdmin.jsx:901-904 | the pager changes its own tab's page number and nothing else |
| DashboardAdmin.TableroSinFiltros | frontend/src/pages/dashboardAdmin.jsx:509-537 | with the store and order filters stuck at `todos`, the store and order tabs list everything, and so does the product tab with an empty search (also lines 75-76) |
| ProveedorDashboard.MisProductosEfecto | frontend/src/pages/ProveedorDashboard.jsx:42-45 | a product is kept exactly when its `proveedor` is the user's id or its `proveedor_nombre` the user's name, in the loaded order; with no user none is kept |
| ProveedorDashboard.EstadisticasEfecto | frontend/src/pages/ProveedorDashboard.jsx:167-172 | low-stock and other products add up to the total, a null stock counts as low, basic products stay within the total, and with no negative stock the stock total is at least ten per product not low |
| ProveedorDashboard.StockAltoCuenta | frontend/src/pages/ProveedorDashboard.jsx:169-170 | with no negative stock, the stock total is at least ten times the number of products with stock 10 or more |
| ProveedorDashboard.NumeroAdmitido | frontend/src/pages/ProveedorDashboard.jsx:125-136 | a typed whole number above 0 passes the quantity check and is sent as itself |
| ProveedorDashboard.Rechazos | frontend/src/pages/ProveedorDashboard.jsx:125-130 | a cancelled prompt, an empty answer, `0`, a negative number and a non-number fail the check |
| ProveedorDashboard.FraccionPasa | frontend/src/pages/ProveedorDashboard.jsx:126-134 | `0.5` passes the check but is sent as 0 after `parseInt` |
| ProveedorDashboard.Tablero.constructor | frontend/src/pages/ProveedorDashboard.jsx:18-34 | no products, no messages, the form hidden with the default fields and no product being edited |
| ProveedorDashboard.Tablero.CargarProductos | frontend/src/pages/ProveedorDashboard.jsx:37-50 | a loaded array becomes the user's own products; anything else keeps the list and sets the load error; the form is untouched |
| ProveedorDashboard.Tablero.ResetForm | frontend/src/pages/ProveedorDashboard.jsx:147-158 | the form is back to its defaults and no product is being edited; the rest of the page is unchanged |
| ProveedorDashboard.Tablero.HandleEdit | frontend/src/pages/ProveedorDashboard.jsx:109-121 | the form holds the product's fields, that product is being edited and the form is shown |
| ProveedorDashboard.FormularioDeEfecto | frontend/src/pages/ProveedorDashboard.jsx:110-118 | the edit form copies name, basic flag, stock and store, and shows the `general` category exactly when the product has none |
| ProveedorDashboard.Tablero.AjustarStock | frontend/src/pages/ProveedorDashboard.jsx:124-144 | a refused quantity sends nothing and shows "Cantidad inválida"; otherwise one request with `parseInt` of the answer; success shows the confirmation and then reloads: an array reply gives the own products and keeps the error, any other reload keeps the list and shows the load error; a failure shows the reply's error or the generic message and keeps list and confirmation; a refused quantity also keeps them; the form, its visibility and the product under edit never change |
| ProveedorPanel.OptimistaEfecto | prexcol/frontend/src/components/usuarios/ProveedorPanel.jsx:48-56 | only the entries with the id change, and only in their stock: `aumentar` adds the quantity, `reducir` subtracts it floored at 0 so the stock is never negative, any other operation changes nothing |
| ProveedorPanel.AumentarReducir | prexcol/frontend/src/components/usuarios/ProveedorPanel.jsx:52-53 | from stocks that are not negative, `aumentar` then `reducir` by the same quantity gives the list back |
| ProveedorPanel.ReemplazarEfecto | prexcol/frontend/src/components/usuarios/ProveedorPanel.jsx:46-47 | the product the server sends back replaces exactly the entries with its id; the others are unchanged |
| ProveedorPanel.BotonYGuarda | prexcol/frontend/src/components/usuarios/ProveedorPanel.jsx:182-190 | an enabled button with a positive quantity passes the handler's check; for every typed text, the buttons are enabled yet the handler refuses exactly when `parseInt` reads it as negative, which every `-n` with n > 0 does (also line 35) |
| ProveedorPanel.LeerEfecto | prexcol/frontend/src/components/usuarios/ProveedorPanel.jsx:74-79 | a typed whole number is stored as itself; an empty or non-numeric text is stored as 0 |
| ProveedorPanel.ResumenParticion | prexcol/frontend/src/components/usuarios/ProveedorPanel.jsx:96-140 | the basic and non-basic cards split the products: their counts, units and values add up to the totals |
| ProveedorPanel.Panel.constructor | prexcol/frontend/src/components/usuarios/ProveedorPanel.jsx:6-10 | no products, no quantities, nothing updating and no messages |
| ProveedorPanel.Panel.CargarProductos | prexcol/frontend/src/components/usuarios/ProveedorPanel.jsx:18-31 | an array reply becomes the list, anything else an empty list; a failure shows the load error; quantities are untouched |
| ProveedorPanel.Panel.Teclear | prexcol/frontend/src/components/usuarios/ProveedorPanel.jsx:74-79 | the typed quantity is stored as `parseInt` of the text or 0; nothing else changes (also line 172) |
| ProveedorPanel.Panel.MasUno | prexcol/frontend/src/components/usuarios/ProveedorPanel.jsx:166 | the product's quantity goes up by one; nothing else changes |
| ProveedorPanel.Panel.MenosUno | prexcol/frontend/src/components/usuarios/ProveedorPanel.jsx:167 | the product's quantity goes down by one and never below 0; nothing else changes |
| ProveedorPanel.Panel.AjustarStock | prexcol/frontend/src/components/usuarios/ProveedorPanel.jsx:33-72 | a missing or non-positive quantity shows an error and sends nothing; otherwise the quantity is sent, a returned product replaces its entry, else the entry is updated optimistically; success shows the message and resets the quantity to 0; a null reply or an error reply shows the error; `updating` ends false |
| ProveedorPanel.Panel.Responder | prexcol/frontend/src/components/usuarios/ProveedorPanel.jsx:44-68 | the reply's effect on the list, the quantities and the messages, case by case |
| AsignarProductos.FiltrosParticion | frontend/src/components/admin/AsignarProductos.jsx:91-103 | `con_proveedor` keeps exactly the products with a provider and `sin_proveedor` exactly the others; their counts add up to the total; `todos` keeps every product in order (also lines 61-65) |
| AsignarProductos.BotonEfecto | frontend/src/components/admin/AsignarProductos.jsx:146 | a row as first drawn has its button disabled; an enabled button passes a chosen provider different from the current one (also line 184) |
| AsignarProductos.AsignarEfecto | frontend/src/components/admin/AsignarProductos.jsx:47-51 | only the products with that id change, and only in their provider and its name; the others are unchanged |
| AsignarProductos.Pagina.constructor | frontend/src/components/admin/AsignarProductos.jsx:7-12 | no products, no messages, filter `todos` |
| AsignarProductos.Pagina.CargarDatos | frontend/src/components/admin/AsignarProductos.jsx:18-34 | an array replaces the products, another value empties them, a failure keeps them and shows the load error |
| AsignarProductos.Pagina.HandleAsignar | frontend/src/components/admin/AsignarProductos.jsx:36-59 | the handler as evidently intended, with a service that provides `asignarProveedor`: with no provider chosen it shows "Selecciona un proveedor" and sends nothing; otherwise one request; a reply shows its message and records the provider on that product only; a null reply or an error reply leaves the list and shows the error |
| AsignarProductos.Pagina.HandleAsignarTalCual | frontend/src/components/admin/AsignarProductos.jsx:36-59 | as the page runs it: with no provider chosen it shows "Selecciona un proveedor"; with one chosen, `productosService.asignarProveedor` is not a member of the imported service (frontend/src/services/productosService.js:271-298), so no request is sent, the list and message stay, and the error shows "Error al asignar proveedor" |
| AdminUsersTab.UsuariosFiltradosEfecto | src/frontend/src/components/admin/tabs/AdminUsersTab.jsx:33-40 | a user is listed exactly when it has the chosen role (or the filter is `todos`) and the chosen state; the list keeps the given order; `todos`/`todos` lists every user; a null list lists none |
| AdminUsersTab.AlternadoEfecto | src/frontend/src/components/admin/tabs/AdminUsersTab.jsx:115 | the copy differs from the user only in its negated state; flipping twice gives the user back; an active user's copy passes the `inactivo` filter, and the other way round |
| AdminUsersTab.HandleSubmit | src/frontend/src/components/admin/tabs/AdminUsersTab.jsx:24-56 | the browser submits iff name, e-mail and password are filled in, and a submit hands the form to `onCreate` and hides it |
| AdminUsersTab.HandleSubmitEfecto | src/frontend/src/components/admin/tabs/AdminUsersTab.jsx:12-56 | a complete form is handed to `onCreate` as typed; afterwards it is hidden and back to empty fields, the `cliente` role and no picture, which the browser will not submit until name, e-mail and password are typed again |
| AdminStoresTab.TiendasFiltradasEfecto | src/frontend/src/components/admin/tabs/AdminStoresTab.jsx:15-19 | `activas` lists exactly the active stores, `inactivas` exactly the inactive ones, any other value every store; the list keeps the given order; a null list throws |
| AdminStoresTab.ActivasInactivas | src/frontend/src/components/admin/tabs/AdminStoresTab.jsx:16-17 | every store is listed under exactly one of `activas` and `inactivas`, so their counts add up to the total |
| AdminStoresTab.HandleSubmit | src/frontend/src/components/admin/tabs/AdminStoresTab.jsx:8-35 | the browser submits iff name, address and phone are filled in, and a submit hands the form to `onCreate` and hides it |
| AdminStoresTab.HandleSubmitEfecto | src/frontend/src/components/admin/tabs/AdminStoresTab.jsx:5-35 | a complete form is handed to `onCreate` as typed; afterwards it is hidden and every field is empty, so the next submit waits for all three again |
| AdminProductsTab.Recorrer | src/frontend/src/components/admin/tabs/AdminProductsTab.jsx:19-23 | the search walk throws exactly when some product has no description and a name without the term; otherwise it yields the matching products in order |
| AdminProductsTab.ProductosFiltradosEfecto | src/frontend/src/components/admin/tabs/AdminProductsTab.jsx:19-25 | an empty term lists every product; with a term and every description present, the list holds exactly the products whose name or description contains the term regardless of case, in the given order |
| AdminProductsTab.CoincideEsContiene | src/frontend/src/components/admin/tabs/AdminProductsTab.jsx:22 | `includes` on the lower-cased texts is substring containment |
| AdminProductsTab.SinDescripcionArroja | src/frontend/src/components/admin/tabs/AdminProductsTab.jsx:22 | a product with no description and a name without the term makes a searching render throw |
| AdminProductsTab.InsigniaEfecto | src/frontend/src/components/admin/tabs/AdminProductsTab.jsx:99 | the badge is `danger` exactly for a stock below 10 or a null stock, `success` otherwise |
| AdminProductsTab.HandleSubmit | src/frontend/src/components/admin/tabs/AdminProductsTab.jsx:10-46 | the browser submits iff name, price, stock, store and provider are filled in, and a submit hands the form to `onCreate` and hides it |
| AdminProductsTab.HandleSubmitEfecto | src/frontend/src/components/admin/tabs/AdminProductsTab.jsx:5-46 | a complete form is handed to `onCreate` as typed; afterwards it is hidden and back to empty texts, no provider, a basic product and the `general` category, so neither it nor the initial form can be submitted as they are |
| AdminProductsTab.SinProveedorNoEnvia | src/frontend/src/components/admin/tabs/AdminProductsTab.jsx:5-46 | a form with no provider picked is never submitted, whatever else is filled in |
| AdminOrdersTab.PedidosFiltradosEfecto | src/frontend/src/components/admin/tabs/AdminOrdersTab.jsx:6-9 | `todos` lists every order, another value exactly the orders in that state; the list keeps the given order; a null list lists none |
| ResetPassword.ValidarEfecto | frontend/src/pages/ResetPassword.jsx:25-38 | the checks pass exactly for a password of at least 6 characters equal to its confirmation; each message appears exactly when the earlier checks pass and its own fails |
| ResetPassword.MensajeDeFalloEfecto | frontend/src/pages/ResetPassword.jsx:57-61 | a failure shows the reply's `error`, else its `detail`, else the expired-link message, and never an empty text |
| ResetPassword.Pagina.constructor | frontend/src/pages/ResetPassword.jsx:11-15 | both fields empty, not loading, no messages |
| ResetPassword.Pagina.HandleSubmit | frontend/src/pages/ResetPassword.jsx:19-65 | a failed check shows its message and sends nothing; otherwise the password goes once to the link's reset path; success shows the confirmation and clears both fields, a failure shows the reply's message and keeps them; loading ends false |

## Left out

- Floating point: prices, totals, `parseFloat` sums, the inventory value and the `float(monto_pago) != float(total)` test are integer cents. `toFixed` and `toLocaleString` formatting is not modelled.
- Text: lower-casing covers ASCII letters only. Trimming covers ASCII whitespace only: Python's `strip` and `int` also drop `\x1c` to `\x1f`, JavaScript's `trim`, `Number` and `parseInt` do not, and the model keeps that difference; the non-ASCII blanks either language drops (`\x85`, `\xa0` and the other Unicode spaces) are kept. `localeCompare` is code-point lexicographic order. JavaScript's `.length` counts UTF-16 units, while the model counts characters, so the six-character password rule differs only for characters outside the Basic Multilingual Plane.
- Number parsing: `Number` reads signed decimal numerals only (no exponents, hexadecimal or `Infinity`), and Python's `int` reads no underscores.
- Usuarios.MakePassword: hashing is the identity on the raw text, because the hasher is foreign code; `check_password` becomes equality.
- Time: the clock is a parameter. It supplies the suspension date in Cuentas and `fecha_lectura` in Notificaciones.
- Concurrency and timing are left out, because the model runs one request at a time:
  - `Promise.all` loads;
  - every `setTimeout` (clearing a message, the delayed list reloads, the redirect to `/login` after a password reset and after logout);
  - overlapping refreshes of a token;
  - React's batching of `setState`.
- Server replies and the outcome of each call are parameters of the handlers (`Carga`, `Lectura`, `Respuesta`, the reply script of `Navegador`). The server's side of each front-end request is the back-end model, not a link between the two.
- The Django ORM and `transaction.atomic` are not modelled themselves. A view runs on the tables of a `Db` object, and a rollback restores the saved tables.
- `Venta`, `DetalleVenta` and the sale signal run on their own `Registro` object and do not write back into the product tables.
- SrcViews.CrearPedido and SrcViews.CambiarEstado start after their serializers, `PedidoCreateSerializer` and `PedidoUpdateEstadoSerializer`. src/backend/apps/productos/serializers.py is not part of this model. The 400 for a body they refuse (src/backend/apps/productos/views.py:446-447 and 523-524) is therefore not modelled. The model also takes a detail's `producto` to be the product key that line 478 looks up.
- CatalogoSrc.Pagina.CargarProductos: src/frontend/src/components/productos/Catalogo.jsx:2-3 imports src/frontend/src/services/api.js, which is not part of this model. The model takes `api.getProductos` and `api.getProductosPorTienda` (lines 38-39) to exist and return the reply it is given.
- SrcViews.ConfigStock and Peticion.Json: only integer, boolean, text, null, list and object body values are modelled; a JSON number with a fraction is not. The configuration fields of `config_stock` are integers or absent, so its `or 10` / `is not None` on a text, list or fractional value, which Django would coerce or refuse when saving, is not modelled, and neither is `int()` truncating a fractional id or quantity (`int(2.5) == 2`) or a lookup `filter(id=2.5)`.
- Cuentas.SelfDeactivate, Cuentas.AdminSuspendUser and Cuentas.AdminReactivateUser take the signed-in user as a stored row, or none for an anonymous request. A token whose user no longer exists or is inactive, which the JWT authentication of backend/settings.py:163-165 rejects with 401 before any view runs, is not modelled.
- `request_support` (backend/apps/usuarios/views/view_account_management.py:170) and the response bodies the serializers render are left out: they only echo data.
- The product form's `handleSubmit` and `cargarTiendas` in frontend/src/pages/ProveedorDashboard.jsx, and the create, update and delete handlers of frontend/src/pages/dashboardAdmin.jsx, are left out. They forward a form to the server and add no rule.
- ProveedorPanel.Panel.Deshabilitado: states the Aumentar button's rule only. The Reducir button is also disabled at stock 0, which the handler does not depend on.
- AsignarProductos.Seleccion: a selected provider id is one integer. The page keeps it as text once chosen, and a selected text `"0"` would be truthy where the model's `Id(0)` is refused. Provider ids start at 1, so no real selection differs.
- AdminProductsTab.Producto: `nombre` is never null. A null name would make the search throw like a null description does.
- Password-reset views (backend/apps/usuarios/views/view_password.py and its prexcol copy) are not part of this model. They rest on Django's token generator, base64 and SMTP.
- Seed and test scripts, settings and routing, thin HTTP service wrappers, and presentation-only pages and components are not part of this model. backend/tests/test_atomic_order.py is used only to check one example order (`SrcViews.PedidoDeEjemplo`).
- frontend/src/components/productos/Catalogo.jsx is truncated in the middle of an expression and is not part of this model. Its filter is the same as the prexcol catalogue's.
- prexcol/frontend/src/hooks/useAuth.js is not part of this model: it calls an `api.post` that the imported object does not define.
- src/backend/apps/productos/permissions.py and prexcol/backend/productos/permissions.py are not part of this model. Each role class (`IsAdmin`, `IsProveedor`, `IsCliente`, `IsLogistica`, `IsComprador`) is taken to admit exactly a signed-in user with that `rol`, and the object-level check to admit everyone, as DRF's default does.
- PanelComprador.Panel.ActualizarCantidad: the quantity is an integer, so a cleared field, whose `parseInt` is NaN, is not modelled. In the source NaN is not `<= 0`, so the entry would keep a NaN quantity and the total would become NaN (prexcol/frontend/src/components/usuarios/PanelComprador.jsx:212). The same holds for Carrito.ActualizarCantidad.
- AdminUsersTab.HandleSubmit: the browser's e-mail format check and the validity of number inputs are not modelled; only the `required` attributes are.
- Notificaciones.Historial: backend/settings.py names `pagination.CustomPageNumberPagination`, and the model takes that class to be the one in src/backend/pagination.py. DRF's page-number pager is modelled from its published behaviour (the `page` and `page_size` query parameters, an absent or empty `page` read as 1, `last`, and 404 for a page out of range). The `next` and `previous` links are left out, and the table order is a parameter.

## Notes on the source

- The account views read and write `self_deactivated`, `admin_suspended`, `suspension_reason` and `suspension_date`. backend/apps/usuarios/models.py does not declare these fields. The model gives the user row these fields.
- The prexcol `ajustar_stock` (prexcol/backend/productos/views.py:112-161) repeats the src body line for line, and so does the restocking loop of `cambiar_estado`. Both are modelled once, in `Vistas`.
- The back-end `ajustar_stock` reply carries no `producto`. Against that server the prexcol ProveedorPanel always takes its optimistic branch (`ProveedorPanel.Panel.Responder`, case `SinProducto`).
- In frontend/src/pages/dashboardAdmin.jsx no control sets `filtroTienda` or `filtroEstadoPedido`. The store and order lists are therefore never narrowed (`DashboardAdmin.TableroSinFiltros`).
- In frontend/src/pages/ProveedorDashboard.jsx a typed `0.5` passes the quantity check and is sent as 0 (`ProveedorDashboard.FraccionPasa`).
- The admin stores tab has no `|| []`, so a null store list makes it throw (`AdminStoresTab.TiendasFiltradasEfecto`). The admin products tab throws on a product with a null description whose name does not match the search (`AdminProductsTab.SinDescripcionArroja`).
- In frontend/src/components/clientes/PanelCliente.jsx the order body would name the store `tienda`, where the order serializers read `tienda_id`. No such body is ever sent, because the call before it throws (see Findings). The corrected `PanelCliente.Panel.CrearPedido` keeps the body as written.

## Findings

| source | as written | input that shows it | evidently intended | confidence | as-written member | corrected member |
|---|---|---|---|---|---|---|
| backend/apps/usuarios/views/view_account_management.py:64-80, 164 | self-reactivation checks only `self_deactivated` and then clears it and sets `is_active`, ignoring `admin_suspended` | a user deactivates their own account, an administrator suspends it, and the user reactivates with the right password: the account becomes active while still suspended, although its status says `can_self_reactivate` is false | reactivate only when self-deactivated and not suspended (the rule `get_account_status` reports), otherwise 403 | not executed | Cuentas.SelfReactivateAsWritten (lemma Cuentas.AsWrittenReactivatesSuspended) | Cuentas.SelfReactivateDecision (lemmas Cuentas.DecisionRefusesSuspended, Cuentas.DecisionsAgreeUnlessSuspended, Cuentas.SelfReactivate) |
| prexcol/prexcol/frontend/src/services/api.js:36, 63-79 | the refresh POST goes through the same intercepted instance, and a 401 from `/auth/refresh/` is not exempt | an expired refresh token: each 401 from the refresh endpoint starts another refresh, so the sends grow without bound while the server keeps refusing | a 401 from the refresh endpoint ends the attempt, as in frontend/src/services/api.js, so one request makes at most three sends | not executed | ApiPrexcol.RefrescoTalCual (lemmas ApiPrexcol.RefrescoSinFin, ApiPrexcol.PeticionSinCota) | ApiPrexcol.Despacho (lemma ApiPrexcol.RechazoAcotado) |
| src/backend/apps/productos/views.py:78-93 | `get_permissions` is overridden and returns `IsAuthenticated` for every action other than `ajustar_stock`, so the `permission_classes` given to `@action` for `config_stock`, `ejecutar_recarga` and `asignar_productos_masivo` (lines 197, 256, 345) are never used | a signed-in `cliente` posts to `/productos/5/ejecutar_recarga/`: the refill runs where the decorator says only an admin may | each action is checked against its own decorator, so a `cliente` gets 403 | not executed | SrcViews.PermisoTalCual (lemma SrcViews.DecoradorIgnorado) | SrcViews.PermisoDeclarado (lemmas SrcViews.DeclaradoSoloPersonal, SrcViews.ConfigStock, SrcViews.EjecutarRecarga, SrcViews.AsignarProductosMasivo) |
| prexcol/backend/productos/views.py:216-256 | `crear_pedido` reads `validated_data["tienda_id"]` and `["detalles"]`, but the serializer it imports (prexcol/backend/productos/serializers.py:51-54) is a `fields="__all__"` model serializer that produces neither key, so the `KeyError` lands in `except Exception`. With the serializer of prexcol/productos/serializers.py instead, `detalle_data["producto"]` is already a `Producto` (its `DetallePedidoCreateSerializer`, lines 142-150, is a model serializer), and `Producto.objects.get(id=producto)` at line 239 raises `TypeError`, again a 400 | any order body from a `cliente`, valid or not: the answer is 400 and no order is stored | the serializer of prexcol/productos/serializers.py, which validates `tienda_id` and `detalles`, and line 239 using the `Producto` it resolved (or its `.id`), so a valid body is stored with 201 | not executed | PrexcolViews.CrearPedidoTalCual (lemma PrexcolViews.Claves) | PrexcolViews.CrearPedido (lemma PrexcolViews.ValidoSeGuarda) |
| prexcol/backend/productos/views.py:258-301 | `cambiar_estado` uses the imported `fields=['estado']` serializer (prexcol/backend/productos/serializers.py:56-59), which has no role limits, and then reads `validated_data["estado"]`, which a body without `estado` leaves unset | a `logistica` user posts `{"estado": "cancelado"}` for an order it can see: the order is cancelled and restocked; a body with no `estado` raises `KeyError` and answers 500 | the role-limited check of prexcol/productos/serializers.py: only an admin cancels, the other roles advance one step, and an absent state is 400 | not executed | PrexcolViews.CambiarEstadoTalCual (lemma PrexcolViews.RolesSinLimite) | PrexcolViews.CambiarEstado (lemma PrexcolViews.RolesAvanzanUnPaso) |
| frontend/src/components/admin/AsignarProductos.jsx:43 | `handleAsignar` calls `productosService.asignarProveedor`, which the default export of frontend/src/services/productosService.js:271-298 does not define | choose a provider for any product and press Asignar: the call throws a `TypeError`, no request is sent, and the page shows "Error al asignar proveedor" | a service function that sends the assignment and returns the reply's `mensaje` and `proveedor_nombre` | not executed | AsignarProductos.Pagina.HandleAsignarTalCual | AsignarProductos.Pagina.HandleAsignar (lemma AsignarProductos.AsignarEfecto) |
| frontend/src/components/clientes/PanelCliente.jsx:2 | the panel imports the default export of frontend/src/services/api.js, which is the bare axios instance (api.js:123), and calls `api.getMisPedidos`, `api.getTiendas`, `api.getProductosPorTienda` and `api.crearPedido` on it (lines 23, 37, 40, 99), none of which it has | open the panel: `cargarDatos` throws at its first call and the page shows only `Error al cargar datos: ` with the `TypeError`'s message; pressing the order button with a non-empty cart sends nothing and shows `Error al crear pedido: ` with that message | import the named service functions (frontend/src/services/productosService.js) and call them | not executed | PanelCliente.Panel.CargarDatosTalCual (also PanelCliente.Panel.CargarProductosTalCual, PanelCliente.Panel.CrearPedidoTalCual) | PanelCliente.Panel.CargarDatos (lemmas PanelCliente.RecargaSeleccionaPrimera, PanelCliente.Panel.CrearPedido) |
