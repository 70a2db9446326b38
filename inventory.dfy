/**
 * The catalogue and order tables of backend/apps/productos/models.py: products with their stock,
 * orders with their state and total, and order lines that keep the order total equal to the sum
 * of their subtotals. Prices and totals are integer cents (the columns are decimals with two
 * places).
 */
module Inventory {
  import opened Wrappers

  // ----- order states -----

  datatype Estado = Pendiente | Preparando | EnTransito | Entregado | Cancelado

  /** The value stored in the `estado` column (`ESTADOS_PEDIDO`). */
  function EstadoName(e: Estado): string
  {
    match e
    case Pendiente => "pendiente"
    case Preparando => "preparando"
    case EnTransito => "en_transito"
    case Entregado => "entregado"
    case Cancelado => "cancelado"
  }

  function ParseEstado(s: string): (r: Option<Estado>)
    ensures r.Some? ==> EstadoName(r.value) == s
  {
    if s == "pendiente" then Some(Pendiente)
    else if s == "preparando" then Some(Preparando)
    else if s == "en_transito" then Some(EnTransito)
    else if s == "entregado" then Some(Entregado)
    else if s == "cancelado" then Some(Cancelado)
    else None
  }

  /** Every state name reads back as that state, so the five names are distinct. */
  lemma ParseEstadoName(e: Estado)
    ensures ParseEstado(EstadoName(e)) == Some(e)
  {
  }

  // ----- rows -----

  datatype Producto = Producto(
    nombre: string,
    descripcion: string,
    precio: int,
    stock: nat,
    tienda: int,
    proveedor: int,
    esBasico: bool,
    categoria: string,
    activo: bool)

  datatype Pedido = Pedido(cliente: int, tienda: int, estado: Estado, total: int, notas: string)

  /** An order line: the quantity and the unit price frozen at the time of purchase. */
  datatype DetallePedido = DetallePedido(pedido: int, producto: int, cantidad: int, precioUnitario: int)

  datatype StockError = StockInsuficiente(disponible: nat, solicitado: int) | StockNegativo

  /** The `subtotal` property of an order line. */
  function Subtotal(d: DetallePedido): int
  {
    d.cantidad * d.precioUnitario
  }

  /** The sum of the subtotals of the lines of order `pedido` (what `calcular_total` computes). */
  function Total(ds: seq<DetallePedido>, pedido: int): int
  {
    if ds == [] then 0
    else Total(ds[..|ds| - 1], pedido) + (if ds[|ds| - 1].pedido == pedido then Subtotal(ds[|ds| - 1]) else 0)
  }

  lemma {:induction false} TotalConcat(a: seq<DetallePedido>, b: seq<DetallePedido>, pedido: int)
    ensures Total(a + b, pedido) == Total(a, pedido) + Total(b, pedido)
    decreases |b|
  {
    if b != [] {
      assert (a + b)[..|a + b| - 1] == a + b[..|b| - 1];
      TotalConcat(a, b[..|b| - 1], pedido);
    } else {
      assert a + b == a;
    }
  }

  /** An order no line belongs to totals zero. */
  lemma {:induction false} TotalWithoutLines(ds: seq<DetallePedido>, pedido: int)
    requires forall i :: 0 <= i < |ds| ==> ds[i].pedido != pedido
    ensures Total(ds, pedido) == 0
  {
    if ds != [] {
      TotalWithoutLines(ds[..|ds| - 1], pedido);
    }
  }

  /** The lines of order `pedido`, in table order (the related manager `pedido.detalles`). */
  function LineasDe(ds: seq<DetallePedido>, pedido: int): (r: seq<DetallePedido>)
    ensures forall i :: 0 <= i < |r| ==> r[i].pedido == pedido && r[i] in ds
    ensures forall i :: 0 <= i < |ds| && ds[i].pedido == pedido ==> ds[i] in r
  {
    if ds == [] then []
    else
      var pre := LineasDe(ds[..|ds| - 1], pedido);
      assert forall i :: 0 <= i < |ds| - 1 ==> ds[i] == ds[..|ds| - 1][i];
      if ds[|ds| - 1].pedido == pedido then pre + [ds[|ds| - 1]] else pre
  }

  /** The listed lines add up to the same total as the whole table does for that order. */
  lemma {:induction false} TotalLineasDe(ds: seq<DetallePedido>, pedido: int)
    ensures Total(LineasDe(ds, pedido), pedido) == Total(ds, pedido)
  {
    if ds != [] {
      var pre := ds[..|ds| - 1];
      TotalLineasDe(pre, pedido);
      if ds[|ds| - 1].pedido == pedido {
        TotalConcat(LineasDe(pre, pedido), [ds[|ds| - 1]], pedido);
        assert [ds[|ds| - 1]][..0] == [];
      }
    }
  }

  /** Removing line `i` takes its subtotal off its own order's total and no other. */
  lemma TotalRemove(ds: seq<DetallePedido>, i: int, pedido: int)
    requires 0 <= i < |ds|
    ensures Total(ds[..i] + ds[i + 1..], pedido) ==
      Total(ds, pedido) - (if ds[i].pedido == pedido then Subtotal(ds[i]) else 0)
  {
    assert ds == ds[..i] + [ds[i]] + ds[i + 1..];
    TotalConcat(ds[..i] + [ds[i]], ds[i + 1..], pedido);
    TotalConcat(ds[..i], ds[i + 1..], pedido);
    TotalConcat(ds[..i], [ds[i]], pedido);
    assert [ds[i]][..0] == [];
  }

  // ----- stock movements -----

  /** `reducir_stock`: refused when fewer units are in stock than asked for. */
  function Reducir(p: Producto, cantidad: int): (r: Result<Producto, StockError>)
    ensures r.Err? <==> p.stock < cantidad
    ensures r.Ok? ==> r.value.stock as int == p.stock - cantidad && r.value.(stock := p.stock) == p
  {
    if p.stock < cantidad then Err(StockInsuficiente(p.stock, cantidad))
    else Ok(p.(stock := p.stock - cantidad))
  }

  /**
   * `aumentar_stock`: the stock grows by `cantidad`; the column's non-negative constraint
   * refuses a result below zero.
   */
  function Aumentar(p: Producto, cantidad: int): (r: Result<Producto, StockError>)
    ensures r.Err? <==> p.stock + cantidad < 0
    ensures r.Ok? ==> r.value.stock as int == p.stock + cantidad && r.value.(stock := p.stock) == p
  {
    if p.stock + cantidad < 0 then Err(StockNegativo) else Ok(p.(stock := p.stock + cantidad))
  }

  /** Reducing and then increasing by the same amount restores the product. */
  lemma ReducirThenAumentar(p: Producto, cantidad: nat)
    requires cantidad <= p.stock
    ensures Reducir(p, cantidad).Ok? && Aumentar(Reducir(p, cantidad).value, cantidad) == Ok(p)
  {
  }

  /** Increasing and then reducing by the same amount restores the product. */
  lemma AumentarThenReducir(p: Producto, cantidad: nat)
    ensures Aumentar(p, cantidad).Ok? && Reducir(Aumentar(p, cantidad).value, cantidad) == Ok(p)
  {
  }

  // ----- allowed transitions -----

  predicate PuedeCambiarAPreparando(p: Pedido) { p.estado == Pendiente }
  predicate PuedeCambiarAEnTransito(p: Pedido) { p.estado == Preparando }
  predicate PuedeCambiarAEntregado(p: Pedido) { p.estado == EnTransito }

  /**
   * The forward chain pendiente, preparando, en_transito, entregado: each guard admits exactly
   * the state before its target.
   */
  lemma TransitionsFollowChain(p: Pedido, e: Estado)
    ensures (e == Preparando && PuedeCambiarAPreparando(p)) <==> (e == Preparando && p.estado == Pendiente)
    ensures PuedeCambiarAPreparando(p) ==> !PuedeCambiarAEnTransito(p) && !PuedeCambiarAEntregado(p)
    ensures PuedeCambiarAEnTransito(p) ==> !PuedeCambiarAEntregado(p)
    ensures p.estado in {Entregado, Cancelado} ==>
      !PuedeCambiarAPreparando(p) && !PuedeCambiarAEnTransito(p) && !PuedeCambiarAEntregado(p)
  {
  }

  // ----- tables the product views also touch (payments and automatic stock top-up) -----

  datatype MetodoPago = MetodoPago(nombre: string, activo: bool)
  datatype Pago = Pago(usuario: int, pedido: int, monto: int, estado: string, metodoPago: int)
  datatype StockConfig = StockConfig(stockMinimo: int, cantidadRecarga: int, recargaActiva: bool)
  datatype HistorialRecarga = HistorialRecarga(
    producto: int, cantidad: int, stockAnterior: int, stockNuevo: int, usuario: int, notas: string)

  /** The whole database as a value, for the all-or-nothing blocks of the views. */
  datatype Tablas = Tablas(
    productos: map<int, Producto>,
    pedidos: map<int, Pedido>,
    detalles: seq<DetallePedido>,
    nextPedido: int,
    metodosPago: map<int, MetodoPago>,
    estadosPago: set<string>,
    pagos: seq<Pago>,
    configs: map<int, StockConfig>,
    historial: seq<HistorialRecarga>)

  /**
   * Every line points at a stored order and product and has a non-negative quantity, no order
   * holds two lines for one product (`unique_together`), every order's total is the sum of its
   * lines' subtotals, and order keys lie below the next key to hand out.
   */
  ghost predicate Consistent(productos: map<int, Producto>, pedidos: map<int, Pedido>,
                             detalles: seq<DetallePedido>, nextPedido: int)
  {
    && (forall i :: 0 <= i < |detalles| ==>
          detalles[i].pedido in pedidos && detalles[i].producto in productos && detalles[i].cantidad >= 0)
    && (forall i, j :: 0 <= i < j < |detalles| ==>
          !(detalles[i].pedido == detalles[j].pedido && detalles[i].producto == detalles[j].producto))
    && (forall id :: id in pedidos ==> id < nextPedido && pedidos[id].total == Total(detalles, id))
  }

  /** Consistency depends on the product table only through its keys. */
  lemma ConsistentProductKeys(productos: map<int, Producto>, productos': map<int, Producto>, pedidos: map<int, Pedido>,
                              detalles: seq<DetallePedido>, nextPedido: int)
    requires Consistent(productos, pedidos, detalles, nextPedido) && productos'.Keys == productos.Keys
    ensures Consistent(productos', pedidos, detalles, nextPedido)
  {
  }

  /** A line for (`pedido`, `producto`) already exists. */
  predicate HasLine(detalles: seq<DetallePedido>, pedido: int, producto: int)
  {
    exists i :: 0 <= i < |detalles| && detalles[i].pedido == pedido && detalles[i].producto == producto
  }

  class Db {
    var productos: map<int, Producto>
    var pedidos: map<int, Pedido>
    var detalles: seq<DetallePedido>
    var nextPedido: int
    var metodosPago: map<int, MetodoPago>
    var estadosPago: set<string>
    var pagos: seq<Pago>
    var configs: map<int, StockConfig>
    var historial: seq<HistorialRecarga>

    ghost predicate Valid()
      reads this
    {
      Consistent(productos, pedidos, detalles, nextPedido)
    }

    function Snapshot(): Tablas
      reads this
    {
      Tablas(productos, pedidos, detalles, nextPedido, metodosPago, estadosPago, pagos, configs, historial)
    }

    /** The rollback of `transaction.atomic`: every table back to the saved value. */
    method Restore(t: Tablas)
      modifies this
      ensures Snapshot() == t
    {
      productos, pedidos, detalles, nextPedido := t.productos, t.pedidos, t.detalles, t.nextPedido;
      metodosPago, estadosPago, pagos := t.metodosPago, t.estadosPago, t.pagos;
      configs, historial := t.configs, t.historial;
    }

    /** `Producto.reducir_stock` followed by `save`; returns the new stock. */
    method ReducirStock(id: int, cantidad: int) returns (r: Result<nat, StockError>)
      requires id in productos
      modifies this
      ensures r.Err? <==> old(productos[id].stock) < cantidad
      ensures r.Ok? ==> productos == old(productos)[id := Reducir(old(productos[id]), cantidad).value]
      ensures r.Ok? ==> r.value == productos[id].stock
      ensures r.Err? ==> productos == old(productos)
      ensures Snapshot().(productos := old(productos)) == old(Snapshot())
      ensures old(Valid()) ==> Valid()
    {
      var next := Reducir(productos[id], cantidad);
      if next.Err? {
        return Err(next.error);
      }
      productos := productos[id := next.value];
      return Ok(next.value.stock);
    }

    /** `Producto.aumentar_stock` followed by `save`; returns the new stock. */
    method AumentarStock(id: int, cantidad: int) returns (r: Result<nat, StockError>)
      requires id in productos
      modifies this
      ensures r.Err? <==> old(productos[id].stock) + cantidad < 0
      ensures r.Ok? ==> productos == old(productos)[id := Aumentar(old(productos[id]), cantidad).value]
      ensures r.Ok? ==> r.value == productos[id].stock
      ensures r.Err? ==> productos == old(productos)
      ensures Snapshot().(productos := old(productos)) == old(Snapshot())
      ensures old(Valid()) ==> Valid()
    {
      var next := Aumentar(productos[id], cantidad);
      if next.Err? {
        return Err(next.error);
      }
      productos := productos[id := next.value];
      return Ok(next.value.stock);
    }

    /** `Pedido.calcular_total`: stores and returns the sum of the order's subtotals. */
    method CalcularTotal(id: int) returns (total: int)
      requires id in pedidos
      modifies this
      ensures total == Total(detalles, id)
      ensures pedidos == old(pedidos)[id := old(pedidos[id]).(total := total)]
      ensures Snapshot().(pedidos := old(pedidos)) == old(Snapshot())
      ensures old(Valid()) ==> Valid() && pedidos == old(pedidos)
    {
      total := Total(detalles, id);
      pedidos := pedidos[id := pedidos[id].(total := total)];
    }

    /** `Pedido.objects.create`: a pending order with total 0 under the next free key. */
    method CrearPedido(cliente: int, tienda: int, notas: string) returns (id: int)
      requires Valid()
      modifies this
      ensures Valid()
      ensures id == old(nextPedido) && id !in old(pedidos) && nextPedido == id + 1
      ensures pedidos == old(pedidos)[id := Pedido(cliente, tienda, Pendiente, 0, notas)]
      ensures Snapshot().(pedidos := old(pedidos), nextPedido := old(nextPedido)) == old(Snapshot())
    {
      id := nextPedido;
      TotalWithoutLines(detalles, id);
      pedidos := pedidos[id := Pedido(cliente, tienda, Pendiente, 0, notas)];
      nextPedido := nextPedido + 1;
      forall k | k in pedidos ensures k < nextPedido && pedidos[k].total == Total(detalles, k) {
      }
    }

    /**
     * `DetallePedido.objects.create` followed by the overridden `save`: the database refuses a
     * negative quantity or a second line for the same (order, product); otherwise the line is
     * stored and the order's total recomputed, growing by the line's subtotal.
     */
    method CrearDetalle(d: DetallePedido) returns (ok: bool)
      requires Valid() && d.pedido in pedidos && d.producto in productos
      modifies this
      ensures Valid()
      ensures ok <==> d.cantidad >= 0 && !old(HasLine(detalles, d.pedido, d.producto))
      ensures ok ==> detalles == old(detalles) + [d]
      ensures ok ==> pedidos == old(pedidos)[d.pedido := old(pedidos[d.pedido]).(total := old(pedidos[d.pedido].total) + Subtotal(d))]
      ensures !ok ==> Snapshot() == old(Snapshot())
      ensures Snapshot().(pedidos := old(pedidos), detalles := old(detalles)) == old(Snapshot())
    {
      if d.cantidad < 0 || HasLine(detalles, d.pedido, d.producto) {
        return false;
      }
      ghost var before := detalles;
      detalles := detalles + [d];
      assert detalles[..|detalles| - 1] == before;
      var total := Total(detalles, d.pedido);
      pedidos := pedidos[d.pedido := pedidos[d.pedido].(total := total)];
      forall k | k in pedidos ensures k < nextPedido && pedidos[k].total == Total(detalles, k) {
      }
      forall i, j | 0 <= i < j < |detalles|
        ensures !(detalles[i].pedido == detalles[j].pedido && detalles[i].producto == detalles[j].producto)
      {
        if j == |detalles| - 1 {
          assert detalles[i] == before[i];
        }
      }
      return true;
    }

    /** `DetallePedido.delete`: the line goes and its order's total drops by its subtotal. */
    method EliminarDetalle(i: int)
      requires Valid() && 0 <= i < |detalles|
      modifies this
      ensures Valid()
      ensures detalles == old(detalles[..i] + detalles[i + 1..])
      ensures pedidos == old(pedidos)[old(detalles[i].pedido) :=
        old(pedidos[detalles[i].pedido]).(total := old(pedidos[detalles[i].pedido].total) - Subtotal(old(detalles[i])))]
      ensures Snapshot().(pedidos := old(pedidos), detalles := old(detalles)) == old(Snapshot())
    {
      var d := detalles[i];
      ghost var before := detalles;
      detalles := detalles[..i] + detalles[i + 1..];
      forall k | k in pedidos ensures Total(detalles, k) == Total(before, k) - (if d.pedido == k then Subtotal(d) else 0) {
        TotalRemove(before, i, k);
      }
      var total := Total(detalles, d.pedido);
      pedidos := pedidos[d.pedido := pedidos[d.pedido].(total := total)];
      forall a, b | 0 <= a < b < |detalles|
        ensures !(detalles[a].pedido == detalles[b].pedido && detalles[a].producto == detalles[b].producto)
      {
        var a' := if a < i then a else a + 1;
        var b' := if b < i then b else b + 1;
        assert detalles[a] == before[a'] && detalles[b] == before[b'];
      }
      forall a | 0 <= a < |detalles|
        ensures detalles[a].pedido in pedidos && detalles[a].producto in productos && detalles[a].cantidad >= 0
      {
        var a' := if a < i then a else a + 1;
        assert detalles[a] == before[a'];
      }
    }
  }
}
