/**
 * The endpoints of src/backend/apps/productos/views.py that go beyond the ones it shares with
 * the prexcol variant: the automatic top-up configuration, a manual top-up, bulk provider
 * assignment, order visibility, and order creation with its payment check.
 */
module SrcViews {
  import opened Wrappers
  import opened Text
  import opened Inventory
  import opened PedidoLineas
  import opened Peticion
  import opened Vistas
  import Usuarios

  // ----- ProductoViewSet.get_permissions -----

  /** The `ProductoViewSet` actions this model covers. */
  datatype AccionProducto = AjustarStockAccion | ConfigStockAccion | EjecutarRecargaAccion | AsignarMasivoAccion

  /**
   * `get_permissions` as written, for those actions: it names `ajustar_stock` and sends every
   * action it does not name to `IsAuthenticated`. DRF asks `get_permissions` alone, and the
   * override never reads the `permission_classes` an `@action` decorator stores on the view.
   */
  function PermisoTalCual(a: AccionProducto): Permiso
  {
    if a == AjustarStockAccion then PermisoAjuste else Autenticado
  }

  /** The `permission_classes` each action's decorator declares; the views below enforce these. */
  function PermisoDeclarado(a: AccionProducto): Permiso
  {
    match a
    case AjustarStockAccion => PermisoAjuste
    case ConfigStockAccion => Roles({"admin", "proveedor"})
    case EjecutarRecargaAccion => Roles({"admin"})
    case AsignarMasivoAccion => Roles({"admin"})
  }

  /**
   * As written, every decorated action `get_permissions` does not name is open to any signed-in
   * account, a `cliente` included, where its decorator admits only admins (and, for
   * `config_stock`, providers). The two agree on `ajustar_stock`, and whoever a declared check
   * admits the written one admits too.
   */
  lemma DecoradorIgnorado(a: AccionProducto, u: Solicitante)
    ensures PermisoTalCual(a) == PermisoDeclarado(a) <==> a == AjustarStockAccion
    ensures a != AjustarStockAccion ==> Rechazo(PermisoTalCual(a), Some(u)).None?
    ensures a != AjustarStockAccion && u.rol == "cliente" ==>
      Rechazo(PermisoDeclarado(a), Some(u)) == Some(403)
    ensures Rechazo(PermisoDeclarado(a), Some(u)).None? ==> Rechazo(PermisoTalCual(a), Some(u)).None?
  {
  }

  /**
   * Under the declared checks `ejecutar_recarga` and `asignar_productos_masivo` admit admins
   * only and `config_stock` admins and providers; no other role reaches them.
   */
  lemma DeclaradoSoloPersonal(a: AccionProducto, u: Solicitante)
    requires Rechazo(PermisoDeclarado(a), Some(u)).None?
    ensures u.rol in {"admin", "proveedor"}
    ensures a in {EjecutarRecargaAccion, AsignarMasivoAccion} ==> u.rol == "admin"
  {
  }

  // ----- config_stock -----

  /** The three optional fields of a configuration request (`None` when absent or null). */
  datatype EntradaConfig = EntradaConfig(stockMinimo: Option<int>, cantidadRecarga: Option<int>, recargaActiva: Option<bool>)

  /** Python's `x or d` on an optional integer: an absent value and 0 both give `d`. */
  function OrDefault(x: Option<int>, d: int): int
  {
    if x.Some? && x.value != 0 then x.value else d
  }

  /** The `defaults` of `get_or_create`. */
  function ConfigNueva(e: EntradaConfig): StockConfig
  {
    StockConfig(OrDefault(e.stockMinimo, 10), OrDefault(e.cantidadRecarga, 50), e.recargaActiva.GetOr(true))
  }

  /** The update of an existing configuration: only the fields supplied non-null change. */
  function ConfigActualizada(c: StockConfig, e: EntradaConfig): StockConfig
  {
    StockConfig(e.stockMinimo.GetOr(c.stockMinimo), e.cantidadRecarga.GetOr(c.cantidadRecarga), e.recargaActiva.GetOr(c.recargaActiva))
  }

  /**
   * A new configuration takes 10, 50 and active for what is not supplied, and keeps every
   * non-zero value supplied; an update keeps what is not supplied and takes what is.
   */
  lemma ConfigSpec(c: StockConfig, e: EntradaConfig)
    ensures ConfigNueva(EntradaConfig(None, None, None)) == StockConfig(10, 50, true)
    ensures e.stockMinimo.Some? && e.stockMinimo.value != 0 ==> ConfigNueva(e).stockMinimo == e.stockMinimo.value
    ensures e.cantidadRecarga.Some? && e.cantidadRecarga.value != 0 ==> ConfigNueva(e).cantidadRecarga == e.cantidadRecarga.value
    ensures e.recargaActiva.Some? ==> ConfigNueva(e).recargaActiva == e.recargaActiva.value
    ensures ConfigActualizada(c, EntradaConfig(None, None, None)) == c
    ensures ConfigActualizada(ConfigActualizada(c, e), e) == ConfigActualizada(c, e)
    ensures e.stockMinimo.Some? ==> ConfigActualizada(c, e).stockMinimo == e.stockMinimo.value
  {
  }

  /**
   * The two paths treat an explicit 0 differently: on creation `0 or 10` makes it 10, on update
   * the `is not None` test stores the 0.
   */
  lemma CeroSegunCamino(c: StockConfig)
    ensures ConfigNueva(EntradaConfig(Some(0), Some(0), None)) == StockConfig(10, 50, true)
    ensures ConfigActualizada(c, EntradaConfig(Some(0), Some(0), None)) == c.(stockMinimo := 0, cantidadRecarga := 0)
  {
  }

  /**
   * `config_stock`, behind its declared `IsAdmin | IsProveedor` (401 without a session, 403 for
   * another role, nothing changed). A read (`escritura` absent) changes nothing and answers 404
   * when the product has no configuration; a write creates one from the defaults (201) or
   * updates the existing one field by field (200). A product `get_object` does not find is a 404.
   */
  method ConfigStock(db: Db, u: Option<Solicitante>, id: int, escritura: Option<EntradaConfig>)
    returns (status: int, cfg: Option<StockConfig>)
    requires db.Valid()
    modifies db
    ensures db.Valid()
    ensures Rechazo(PermisoDeclarado(ConfigStockAccion), u).Some? ==>
      status == Rechazo(PermisoDeclarado(ConfigStockAccion), u).value && cfg.None? && db.Snapshot() == old(db.Snapshot())
    ensures Rechazo(PermisoDeclarado(ConfigStockAccion), u).None? && !Encuentra(old(db.productos), u, id) ==>
      status == 404 && cfg.None? && db.Snapshot() == old(db.Snapshot())
    ensures Rechazo(PermisoDeclarado(ConfigStockAccion), u).None? && Encuentra(old(db.productos), u, id) && escritura.None? ==>
      && db.Snapshot() == old(db.Snapshot())
      && (status == 404 <==> id !in db.configs)
      && (status != 404 ==> status == 200 && cfg == Some(db.configs[id]))
    ensures Rechazo(PermisoDeclarado(ConfigStockAccion), u).None? && Encuentra(old(db.productos), u, id) && escritura.Some? ==>
      && (status == 201 <==> id !in old(db.configs))
      && (status != 201 ==> status == 200)
      && cfg == Some(if id in old(db.configs) then ConfigActualizada(old(db.configs[id]), escritura.value) else ConfigNueva(escritura.value))
      && db.configs == old(db.configs)[id := cfg.value]
      && db.Snapshot().(configs := old(db.configs)) == old(db.Snapshot())
  {
    var rechazo := Rechazo(PermisoDeclarado(ConfigStockAccion), u);
    if rechazo.Some? {
      return rechazo.value, None;
    }
    if !Encuentra(db.productos, u, id) {
      return 404, None;
    }
    if escritura.None? {
      if id in db.configs {
        return 200, Some(db.configs[id]);
      }
      return 404, None;
    }
    var e := escritura.value;
    if id in db.configs {
      var c := ConfigActualizada(db.configs[id], e);
      db.configs := db.configs[id := c];
      return 200, Some(c);
    }
    var c := ConfigNueva(e);
    db.configs := db.configs[id := c];
    return 201, Some(c);
  }

  // ----- ejecutar_recarga -----

  const NotaPorDefecto: string := "Recarga manual desde admin"

  /**
   * `ejecutar_recarga`, behind its declared `IsAdmin` (401 or 403 and no change otherwise):
   * without a configuration 400 and no change. Otherwise a history row (before, before +
   * amount) is written first and the stock then grows by the configured amount; the view is not
   * atomic, so when the stock column refuses a negative result (500) the history row stays.
   */
  method EjecutarRecarga(db: Db, u: Option<Solicitante>, id: int, notas: Option<string>) returns (status: int, nuevo: Option<nat>)
    requires db.Valid()
    modifies db
    ensures db.Valid()
    ensures status in {200, 400, 401, 403, 404, 500}
    ensures Rechazo(PermisoDeclarado(EjecutarRecargaAccion), u).Some? ==>
      status == Rechazo(PermisoDeclarado(EjecutarRecargaAccion), u).value
    ensures status == 404 <==> Rechazo(PermisoDeclarado(EjecutarRecargaAccion), u).None? && !Encuentra(old(db.productos), u, id)
    ensures status == 400 <==>
      Rechazo(PermisoDeclarado(EjecutarRecargaAccion), u).None? && Encuentra(old(db.productos), u, id) && id !in old(db.configs)
    ensures status in {400, 401, 403, 404} ==> nuevo.None? && db.Snapshot() == old(db.Snapshot())
    ensures status in {200, 500} ==>
      var c := old(db.configs[id].cantidadRecarga);
      var s := old(db.productos[id].stock);
      && u.Some?
      && db.historial == old(db.historial) + [HistorialRecarga(id, c, s, s + c, u.value.id, notas.GetOr(NotaPorDefecto))]
      && (status == 200 <==> s + c >= 0)
      && (status == 200 ==> nuevo == Some(s + c) && db.productos == old(db.productos)[id := old(db.productos[id]).(stock := s + c)])
      && (status == 500 ==> db.productos == old(db.productos))
      && db.Snapshot().(productos := old(db.productos), historial := old(db.historial)) == old(db.Snapshot())
  {
    var rechazo := Rechazo(PermisoDeclarado(EjecutarRecargaAccion), u);
    if rechazo.Some? {
      return rechazo.value, None;
    }
    if !Encuentra(db.productos, u, id) {
      return 404, None;
    }
    if id !in db.configs {
      return 400, None;
    }
    var c := db.configs[id].cantidadRecarga;
    var anterior := db.productos[id].stock;
    db.historial := db.historial + [HistorialRecarga(id, c, anterior, anterior + c, u.value.id, notas.GetOr(NotaPorDefecto))];
    var r := db.AumentarStock(id, c);
    if r.Err? {
      return 500, None;
    }
    return 200, Some(r.value);
  }

  // ----- asignar_productos_masivo -----

  /** Every requested id is one a lookup can take: `null` or a value `int()` converts. */
  predicate IdsLegibles(elems: seq<Json>)
  {
    forall i :: 0 <= i < |elems| ==> ClaveJson(elems[i]).Ok?
  }

  /** Some requested id looks up product key `k`. */
  predicate Nombrado(elems: seq<Json>, k: int)
  {
    exists i :: 0 <= i < |elems| && ClaveJson(elems[i]) == Ok(Some(k))
  }

  /** `Producto.objects.get(id=e)` finds a row; a `null` id finds none. */
  predicate Halla(ps: map<int, Producto>, e: Json)
    requires ClaveJson(e).Ok?
  {
    ClaveJson(e).value.Some? && ClaveJson(e).value.value in ps
  }

  /** `productos_actualizados`: the keys of the requested products that exist, in request order. */
  function Encontrados(ps: map<int, Producto>, elems: seq<Json>): seq<int>
    requires IdsLegibles(elems)
  {
    if elems == [] then []
    else
      var e := elems[|elems| - 1];
      Encontrados(ps, Init(elems)) + (if Halla(ps, e) then [ClaveJson(e).value.value] else [])
  }

  /** `errores`: the requested ids with no product, `null` included, in request order. */
  function Faltantes(ps: map<int, Producto>, elems: seq<Json>): seq<Json>
    requires IdsLegibles(elems)
  {
    if elems == [] then []
    else
      var e := elems[|elems| - 1];
      Faltantes(ps, Init(elems)) + (if Halla(ps, e) then [] else [e])
  }

  /** The product table after the loop: every product named gets the provider. */
  function Reasignar(ps: map<int, Producto>, elems: seq<Json>, pk: int): (r: map<int, Producto>)
    requires IdsLegibles(elems)
    ensures r.Keys == ps.Keys
  {
    if elems == [] then ps
    else
      var e := elems[|elems| - 1];
      var prev := Reasignar(ps, Init(elems), pk);
      if Halla(prev, e) then prev[ClaveJson(e).value.value := prev[ClaveJson(e).value.value].(proveedor := pk)] else prev
  }

  /** All but the last element; a prefix of readable ids is readable. */
  function Init(elems: seq<Json>): (r: seq<Json>)
    requires elems != []
    ensures |r| == |elems| - 1 && forall j :: 0 <= j < |r| ==> r[j] == elems[j]
    ensures IdsLegibles(elems) ==> IdsLegibles(r)
  {
    elems[..|elems| - 1]
  }

  lemma NombradoInit(elems: seq<Json>, k: int)
    requires elems != []
    ensures Nombrado(elems, k) <==> Nombrado(Init(elems), k) || ClaveJson(elems[|elems| - 1]) == Ok(Some(k))
  {
    var pre := Init(elems);
    if Nombrado(elems, k) {
      var i :| 0 <= i < |elems| && ClaveJson(elems[i]) == Ok(Some(k));
      if i < |pre| { assert ClaveJson(pre[i]) == Ok(Some(k)); }
    }
    if Nombrado(pre, k) {
      var i :| 0 <= i < |pre| && ClaveJson(pre[i]) == Ok(Some(k));
      assert ClaveJson(elems[i]) == Ok(Some(k));
    }
  }

  /** The products named get the new provider and every other product is untouched. */
  lemma {:induction false} ReasignarSpec(ps: map<int, Producto>, elems: seq<Json>, pk: int, k: int)
    requires IdsLegibles(elems) && k in ps
    ensures Reasignar(ps, elems, pk)[k] == (if Nombrado(elems, k) then ps[k].(proveedor := pk) else ps[k])
    decreases |elems|
  {
    if elems != [] {
      ReasignarSpec(ps, Init(elems), pk, k);
      NombradoInit(elems, k);
    }
  }

  /** What the two lists hold: existing keys that were asked for, and ids that find no product. */
  lemma {:induction false} ListasSpec(ps: map<int, Producto>, elems: seq<Json>)
    requires IdsLegibles(elems)
    ensures |Encontrados(ps, elems)| + |Faltantes(ps, elems)| == |elems|
    ensures forall k :: k in Encontrados(ps, elems) ==> k in ps && Nombrado(elems, k)
    ensures forall e :: e in Faltantes(ps, elems) ==> e in elems && ClaveJson(e).Ok? && !Halla(ps, e)
    decreases |elems|
  {
    if elems != [] {
      var pre := Init(elems);
      ListasSpec(ps, pre);
      forall k | k in Encontrados(ps, elems) ensures k in ps && Nombrado(elems, k) {
        NombradoInit(elems, k);
      }
    }
  }

  /**
   * Every requested id lands in exactly one of the two lists: in `productos_actualizados` when
   * it finds a product and in `errores` when it does not, as a `null` id never does.
   */
  lemma {:induction false} RepartoExacto(ps: map<int, Producto>, elems: seq<Json>, i: int)
    requires IdsLegibles(elems) && 0 <= i < |elems|
    ensures Halla(ps, elems[i]) ==>
      ClaveJson(elems[i]).value.value in Encontrados(ps, elems) && elems[i] !in Faltantes(ps, elems)
    ensures !Halla(ps, elems[i]) ==> elems[i] in Faltantes(ps, elems)
    ensures !Halla(ps, elems[i]) && ClaveJson(elems[i]).value.Some? ==>
      ClaveJson(elems[i]).value.value !in Encontrados(ps, elems)
    ensures elems[i] == JNull ==> elems[i] in Faltantes(ps, elems)
    decreases |elems|
  {
    ListasSpec(ps, elems);
    var pre := Init(elems);
    if i < |pre| {
      assert pre[i] == elems[i];
      RepartoExacto(ps, pre, i);
    }
  }

  /**
   * The checks `asignar_productos_masivo` makes before its loop: 400 without a truthy provider
   * id or without a non-empty list of product ids, 500 when the provider id does not convert,
   * and 404 unless it names an active user with role `proveedor`.
   */
  function ValidarAsignacion(usuarios: map<int, Usuarios.Cuenta>, proveedorId: Option<Json>, productoIds: Option<Json>)
    : (r: Result<(int, seq<Json>), int>)
    ensures r.Err? ==> r.error in {400, 404, 500}
    ensures (r.Err? && r.error == 400) <==>
      || !Truthy(proveedorId.GetOr(JNull))
      || !Truthy(productoIds.GetOr(JList([]))) || !productoIds.value.JList?
    ensures r.Ok? ==>
      && productoIds.Some? && productoIds.value.JList? && r.value.1 == productoIds.value.elems && r.value.1 != []
      && proveedorId.Some? && PyIntJson(proveedorId.value) == Ok(r.value.0)
      && r.value.0 in usuarios && usuarios[r.value.0].rol == "proveedor" && usuarios[r.value.0].estado
  {
    if proveedorId.None? || !Truthy(proveedorId.value) then Err(400)
    else if productoIds.None? || !Truthy(productoIds.value) || !productoIds.value.JList? then Err(400)
    else
      var n := PyIntJson(proveedorId.value);
      if n.Err? then Err(500)
      else if !(n.value in usuarios && usuarios[n.value].rol == "proveedor" && usuarios[n.value].estado) then Err(404)
      else Ok((n.value, productoIds.value.elems))
  }

  /**
   * The loop of `asignar_productos_masivo`: each id is looked up and the product saved with the
   * new provider, or the id is recorded as missing (a `null` id included). An id `int()` cannot
   * read raises out of the loop (`ok` false) and the products already saved keep their new
   * provider.
   */
  method Reasignacion(db: Db, elems: seq<Json>, pk: int) returns (ok: bool, actualizados: seq<int>, errs: seq<Json>)
    requires db.Valid()
    modifies db
    ensures db.Valid()
    ensures ok <==> IdsLegibles(elems)
    ensures ok ==>
      && db.productos == Reasignar(old(db.productos), elems, pk)
      && actualizados == Encontrados(old(db.productos), elems)
      && errs == Faltantes(old(db.productos), elems)
    ensures db.productos.Keys == old(db.productos.Keys)
    ensures db.Snapshot().(productos := old(db.productos)) == old(db.Snapshot())
  {
    ghost var ps0 := db.productos;
    actualizados, errs := [], [];
    var i := 0;
    while i < |elems|
      invariant 0 <= i <= |elems|
      invariant IdsLegibles(elems[..i])
      invariant actualizados == Encontrados(ps0, elems[..i]) && errs == Faltantes(ps0, elems[..i])
      invariant db.productos == Reasignar(ps0, elems[..i], pk)
      invariant db.Valid()
      invariant db.Snapshot().(productos := old(db.productos)) == old(db.Snapshot())
    {
      var m := ClaveJson(elems[i]);
      assert Init(elems[..i + 1]) == elems[..i];
      if m.Err? {
        return false, actualizados, errs;
      }
      if m.value.Some? && m.value.value in db.productos {
        var k := m.value.value;
        var antes := db.productos;
        db.productos := db.productos[k := db.productos[k].(proveedor := pk)];
        ConsistentProductKeys(antes, db.productos, db.pedidos, db.detalles, db.nextPedido);
        actualizados := actualizados + [k];
      } else {
        errs := errs + [elems[i]];
      }
      i := i + 1;
    }
    assert elems[..i] == elems;
    return true, actualizados, errs;
  }

  /**
   * `asignar_productos_masivo`, behind its declared `IsAdmin` (401 or 403 and no change
   * otherwise): after the checks of `ValidarAsignacion` (which change nothing), every requested
   * product that exists gets the provider; the response lists the keys updated and the ids not
   * found, `errores` being null when there are none.
   */
  method AsignarProductosMasivo(db: Db, u: Option<Solicitante>, usuarios: map<int, Usuarios.Cuenta>,
                                proveedorId: Option<Json>, productoIds: Option<Json>)
    returns (status: int, actualizados: seq<int>, errores: Option<seq<Json>>)
    requires db.Valid()
    modifies db
    ensures db.Valid()
    ensures status in {200, 400, 401, 403, 404, 500}
    ensures Rechazo(PermisoDeclarado(AsignarMasivoAccion), u).Some? ==>
      status == Rechazo(PermisoDeclarado(AsignarMasivoAccion), u).value && db.Snapshot() == old(db.Snapshot())
    ensures Rechazo(PermisoDeclarado(AsignarMasivoAccion), u).None? && ValidarAsignacion(usuarios, proveedorId, productoIds).Err? ==>
      status == ValidarAsignacion(usuarios, proveedorId, productoIds).error && db.Snapshot() == old(db.Snapshot())
    ensures Rechazo(PermisoDeclarado(AsignarMasivoAccion), u).None? && ValidarAsignacion(usuarios, proveedorId, productoIds).Ok? ==>
      && (status == 200 <==> IdsLegibles(ValidarAsignacion(usuarios, proveedorId, productoIds).value.1))
      && (status != 200 ==> status == 500)
    ensures status == 200 ==>
      && var (pk, elems) := ValidarAsignacion(usuarios, proveedorId, productoIds).value;
      && IdsLegibles(elems)
      && db.productos == Reasignar(old(db.productos), elems, pk)
      && actualizados == Encontrados(old(db.productos), elems)
      && errores == (if Faltantes(old(db.productos), elems) == [] then None else Some(Faltantes(old(db.productos), elems)))
    ensures db.productos.Keys == old(db.productos.Keys)
    ensures db.Snapshot().(productos := old(db.productos)) == old(db.Snapshot())
  {
    var rechazo := Rechazo(PermisoDeclarado(AsignarMasivoAccion), u);
    if rechazo.Some? {
      return rechazo.value, [], None;
    }
    var v := ValidarAsignacion(usuarios, proveedorId, productoIds);
    if v.Err? {
      return v.error, [], None;
    }
    var (pk, elems) := v.value;
    var ok, encontrados, errs := Reasignacion(db, elems, pk);
    if !ok {
      return 500, [], None;
    }
    return 200, encontrados, if errs == [] then None else Some(errs);
  }

  // ----- PedidoViewSet -----

  /**
   * `PedidoViewSet.get_queryset`: admins and superusers see every order, a client its own,
   * logistics every order not cancelled, anyone else none.
   */
  predicate PedidoVisible(u: Solicitante, p: Pedido)
  {
    if u.rol == "admin" || u.isSuperuser then true
    else if u.rol == "cliente" then p.cliente == u.id
    else if u.rol == "logistica" then p.estado != Cancelado
    else false
  }

  /** The validated body of `crear_pedido`; `montoPago` in cents. */
  datatype DatosPedido = DatosPedido(tienda: int, notas: string, metodoPago: string, montoPago: int, detalles: seq<Linea>)

  datatype PedidoError =
    | SinPermiso(status: int)
    | MetodoNoValido
    | DetalleFallido(e: LineaError)
    | MontoNoCoincide(monto: int, total: int)

  /**
   * The payment methods `MetodoPago.objects.get(nombre__iexact=..., activo=True)` matches: the
   * active ones whose name equals the requested one up to letter case.
   */
  function MetodosCoincidentes(ms: map<int, MetodoPago>, nombre: string): set<int>
  {
    set k | k in ms && ms[k].activo && ToLower(ms[k].nombre) == ToLower(nombre)
  }

  /**
   * When `crear_pedido` commits: exactly one active payment method matches (none is
   * `DoesNotExist`, several `MultipleObjectsReturned`), every detail can be served, and the
   * amount paid equals the order total, the sum of quantity times current price.
   */
  predicate Admisible(t: Tablas, datos: DatosPedido)
  {
    && |MetodosCoincidentes(t.metodosPago, datos.metodoPago)| == 1
    && Admisibles(t.productos, datos.detalles)
    && datos.montoPago == Importe(t.productos, datos.detalles)
  }

  /**
   * `crear_pedido`, open to `cliente` accounts only (`IsCliente`: 401 without a session, 403 for
   * another role, nothing stored), then inside `transaction.atomic`. Either everything commits: a pending order
   * under the next key whose total is the amount paid, one line per detail at the product's
   * price, each product's stock reduced by its quantity, the `"Pendiente"` payment state, and
   * exactly one payment of that amount. Or nothing does: any failure (no single matching method,
   * a missing product, too little stock, a repeated product, an amount that differs from the
   * total) leaves every table as it was.
   */
  method CrearPedido(db: Db, u: Option<Solicitante>, datos: DatosPedido) returns (r: Result<int, PedidoError>)
    requires db.Valid()
    modifies db
    ensures db.Valid()
    ensures Rechazo(PermisoCrearPedido, u).Some? ==> r == Err(SinPermiso(Rechazo(PermisoCrearPedido, u).value))
    ensures r.Ok? <==> Rechazo(PermisoCrearPedido, u).None? && Admisible(old(db.Snapshot()), datos)
    ensures r.Err? ==> db.Snapshot() == old(db.Snapshot())
    ensures r.Ok? ==>
      && u.Some? && u.value.rol == "cliente"
      && r.value == old(db.nextPedido) && r.value !in old(db.pedidos) && db.nextPedido == r.value + 1
      && Efecto(old(db.productos), db.productos, datos.detalles)
      && db.detalles == old(db.detalles) + LineasCreadas(old(db.productos), r.value, datos.detalles)
      && db.pedidos == old(db.pedidos)[r.value := Pedido(u.value.id, datos.tienda, Pendiente, datos.montoPago, datos.notas)]
      && db.estadosPago == old(db.estadosPago) + {"Pendiente"}
      && |db.pagos| == |old(db.pagos)| + 1 && db.pagos[..|old(db.pagos)|] == old(db.pagos)
      && var pago := db.pagos[|old(db.pagos)|];
      && pago == Pago(u.value.id, r.value, datos.montoPago, "Pendiente", pago.metodoPago)
      && pago.metodoPago in MetodosCoincidentes(old(db.metodosPago), datos.metodoPago)
      && db.metodosPago == old(db.metodosPago) && db.configs == old(db.configs) && db.historial == old(db.historial)
  {
    var rechazo := Rechazo(PermisoCrearPedido, u);
    if rechazo.Some? {
      return Err(SinPermiso(rechazo.value));
    }
    var antes := db.Snapshot();
    var ms := MetodosCoincidentes(db.metodosPago, datos.metodoPago);
    if |ms| != 1 {
      return Err(MetodoNoValido);
    }
    if forall k :: k !in ms {
      assert false;
    }
    var metodo: int :| metodo in ms;
    db.estadosPago := db.estadosPago + {"Pendiente"};
    r := RegistrarPedido(db, u.value, datos, metodo);
    if r.Err? {
      db.Restore(antes);
    }
  }

  /**
   * The rest of `crear_pedido`: recompute the total, compare it with the amount paid and store
   * the payment. On success the tables are as `CrearPedido` states.
   */
  method RegistrarPedido(db: Db, u: Solicitante, datos: DatosPedido, metodo: int) returns (r: Result<int, PedidoError>)
    requires db.Valid()
    modifies db
    ensures db.Valid()
    ensures r.Ok? <==> Admisibles(old(db.productos), datos.detalles) && datos.montoPago == Importe(old(db.productos), datos.detalles)
    ensures r.Ok? ==>
      && r.value == old(db.nextPedido) && r.value !in old(db.pedidos) && db.nextPedido == r.value + 1
      && Efecto(old(db.productos), db.productos, datos.detalles)
      && db.detalles == old(db.detalles) + LineasCreadas(old(db.productos), r.value, datos.detalles)
      && db.pedidos == old(db.pedidos)[r.value := Pedido(u.id, datos.tienda, Pendiente, datos.montoPago, datos.notas)]
      && db.pagos == old(db.pagos) + [Pago(u.id, r.value, datos.montoPago, "Pendiente", metodo)]
    ensures r.Ok? ==>
      db.Snapshot().(productos := old(db.productos), detalles := old(db.detalles), pedidos := old(db.pedidos),
                     nextPedido := old(db.nextPedido), pagos := old(db.pagos)) == old(db.Snapshot())
  {
    var rd := AbrirPedido(db, u.id, datos.tienda, datos.notas, datos.detalles);
    if rd.Err? {
      return Err(DetalleFallido(rd.error));
    }
    var id := rd.value;
    var total := db.CalcularTotal(id);
    if datos.montoPago != total {
      return Err(MontoNoCoincide(datos.montoPago, total));
    }
    db.pagos := db.pagos + [Pago(u.id, id, datos.montoPago, "Pendiente", metodo)];
    return Ok(id);
  }

  /**
   * The successful order of backend/tests/test_atomic_order.py: 2 units of a product at 100.00
   * with 50 in stock, paid 200.00, leave 48 in stock and a total of 200.00.
   */
  lemma PedidoDeEjemplo(ps: map<int, Producto>, ds: seq<DetallePedido>, pedido: int, p: int)
    requires p in ps && ps[p].stock == 50 && ps[p].precio == 10000 && SinLineas(ds, pedido)
    ensures Admisibles(ps, [Linea(p, 2)]) && Importe(ps, [Linea(p, 2)]) == 20000
    ensures Lineas(ps, ds, pedido, [Linea(p, 2)]).Ok? && Lineas(ps, ds, pedido, [Linea(p, 2)]).value.0[p].stock == 48
  {
    LineasSpec(ps, ds, pedido, [Linea(p, 2)]);
    assert [Linea(p, 2)][..0] == [];
  }

  /** An amount that differs from the total is refused even when every detail can be served. */
  lemma MontoDistintoRechaza(t: Tablas, datos: DatosPedido)
    requires Admisibles(t.productos, datos.detalles) && datos.montoPago != Importe(t.productos, datos.detalles)
    ensures !Admisible(t, datos)
  {
  }

  /** `cambiar_estado`'s `IsAdmin | IsLogistica`. */
  const PermisoCambio: Permiso := Roles({"admin", "logistica"})

  /** Whether `get_object` finds order `id` for the signed-in `u`. */
  predicate EncuentraPedido(pe: map<int, Pedido>, u: Option<Solicitante>, id: int)
  {
    u.Some? && id in pe && PedidoVisible(u.value, pe[id])
  }

  /**
   * `cambiar_estado`: only `admin` and `logistica` accounts pass the permission check (401 or
   * 403 otherwise); an order `get_object` does not find is a 404; a transition its guard refuses
   * is a 400; none of these changes anything. Otherwise the state is stored (200) and a
   * cancellation restocks every line of the order.
   */
  method CambiarEstado(db: Db, u: Option<Solicitante>, id: int, nuevo: Estado) returns (status: int, pedido: Option<Pedido>)
    requires db.Valid()
    modifies db
    ensures db.Valid()
    ensures status in {200, 400, 401, 403, 404}
    ensures Rechazo(PermisoCambio, u).Some? ==> status == Rechazo(PermisoCambio, u).value
    ensures status == 404 <==> Rechazo(PermisoCambio, u).None? && !EncuentraPedido(old(db.pedidos), u, id)
    ensures status == 400 <==>
      Rechazo(PermisoCambio, u).None? && EncuentraPedido(old(db.pedidos), u, id) && !Permitido(old(db.pedidos[id]), nuevo)
    ensures status != 200 ==> pedido.None? && db.Snapshot() == old(db.Snapshot())
    ensures status == 200 ==>
      && pedido == Some(old(db.pedidos[id]).(estado := nuevo))
      && db.pedidos == old(db.pedidos)[id := pedido.value]
      && db.productos == (if nuevo == Cancelado then Reponer(old(db.productos), old(db.detalles), id) else old(db.productos))
      && db.Snapshot().(productos := old(db.productos), pedidos := old(db.pedidos)) == old(db.Snapshot())
  {
    var rechazo := Rechazo(PermisoCambio, u);
    if rechazo.Some? {
      return rechazo.value, None;
    }
    if !EncuentraPedido(db.pedidos, u, id) {
      return 404, None;
    }
    var r := AplicarEstado(db, id, nuevo);
    if r.Err? {
      return 400, None;
    }
    return 200, Some(r.value);
  }
}
