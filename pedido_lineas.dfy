/**
 * What the order-creation loop of both product views (src/backend/apps/productos/views.py and
 * prexcol/backend/productos/views.py) does to the product and order-line tables, and what the
 * cancellation loop gives back. Both views run the same loop; it is defined once here.
 */
module PedidoLineas {
  import opened Wrappers
  import opened Inventory

  /** One validated detail of an order request: a product id and a quantity. */
  datatype Linea = Linea(producto: int, cantidad: int)

  datatype LineaError = ProductoNoExiste(id: int) | SinStock(e: StockError) | LineaRechazada

  type Tablas2 = (map<int, Producto>, seq<DetallePedido>)

  /**
   * The loop over the details, prefix by prefix: each detail fetches its product (missing is an
   * error), reduces its stock, and stores a line with the product's current price; the database
   * refuses a negative quantity or a second line for the same product. The first failure stops.
   */
  function Lineas(ps: map<int, Producto>, ds: seq<DetallePedido>, pedido: int, items: seq<Linea>)
    : Result<Tablas2, LineaError>
    decreases |items|
  {
    if items == [] then Ok((ps, ds))
    else
      var prev := Lineas(ps, ds, pedido, items[..|items| - 1]);
      if prev.Err? then prev
      else Paso(prev.value.0, prev.value.1, pedido, items[|items| - 1])
  }

  /** One iteration of the loop. */
  function Paso(ps: map<int, Producto>, ds: seq<DetallePedido>, pedido: int, it: Linea)
    : Result<Tablas2, LineaError>
  {
    if it.producto !in ps then Err(ProductoNoExiste(it.producto))
    else
      var reducido := Reducir(ps[it.producto], it.cantidad);
      if reducido.Err? then Err(SinStock(reducido.error))
      else if it.cantidad < 0 || HasLine(ds, pedido, it.producto) then Err(LineaRechazada)
      else Ok((ps[it.producto := reducido.value],
               ds + [DetallePedido(pedido, it.producto, it.cantidad, ps[it.producto].precio)]))
  }

  /** Some detail asks for product `k`. */
  predicate Pide(items: seq<Linea>, k: int)
  {
    exists i :: 0 <= i < |items| && items[i].producto == k
  }

  predicate Existentes(ps: map<int, Producto>, items: seq<Linea>)
  {
    forall i :: 0 <= i < |items| ==> items[i].producto in ps
  }

  /** The lines the loop stores, priced from the product table as it was before the loop. */
  function LineasCreadas(ps: map<int, Producto>, pedido: int, items: seq<Linea>): (r: seq<DetallePedido>)
    requires Existentes(ps, items)
    ensures |r| == |items|
  {
    if items == [] then []
    else
      var it := items[|items| - 1];
      LineasCreadas(ps, pedido, items[..|items| - 1]) + [DetallePedido(pedido, it.producto, it.cantidad, ps[it.producto].precio)]
  }

  /** The sum of `cantidad × precio` over the details, prices from `ps`. */
  function Importe(ps: map<int, Producto>, items: seq<Linea>): int
    requires Existentes(ps, items)
  {
    if items == [] then 0
    else Importe(ps, items[..|items| - 1]) + items[|items| - 1].cantidad * ps[items[|items| - 1].producto].precio
  }

  /** When the loop can run to the end: every product exists, appears once, and has enough stock. */
  predicate Admisibles(ps: map<int, Producto>, items: seq<Linea>)
  {
    && Existentes(ps, items)
    && (forall i :: 0 <= i < |items| ==> 0 <= items[i].cantidad <= ps[items[i].producto].stock)
    && (forall i, j :: 0 <= i < j < |items| ==> items[i].producto != items[j].producto)
  }

  /**
   * The product table after the loop: every product asked for lost exactly the units asked for
   * and nothing else, every other product is untouched, no product appears or disappears.
   */
  predicate Efecto(ps: map<int, Producto>, ps': map<int, Producto>, items: seq<Linea>)
    requires Existentes(ps, items)
  {
    && ps'.Keys == ps.Keys
    && (forall i :: 0 <= i < |items| ==>
          var p := items[i].producto;
          ps'[p].stock as int == ps[p].stock - items[i].cantidad && ps'[p].(stock := ps[p].stock) == ps[p])
    && (forall k :: k in ps && !Pide(items, k) ==> ps'[k] == ps[k])
  }

  /** The order has no line yet (a freshly created order). */
  predicate SinLineas(ds: seq<DetallePedido>, pedido: int)
  {
    forall i :: 0 <= i < |ds| ==> ds[i].pedido != pedido
  }

  /** After the loop, the order holds a line for exactly the products asked for. */
  lemma {:induction false} HasLineCreadas(ps: map<int, Producto>, ds: seq<DetallePedido>, pedido: int, items: seq<Linea>, k: int)
    requires SinLineas(ds, pedido) && Existentes(ps, items)
    ensures HasLine(ds + LineasCreadas(ps, pedido, items), pedido, k) <==> Pide(items, k)
    decreases |items|
  {
    if items == [] {
      assert ds + LineasCreadas(ps, pedido, items) == ds;
    } else {
      var pre := items[..|items| - 1];
      var it := items[|items| - 1];
      HasLineCreadas(ps, ds, pedido, pre, k);
      var a := ds + LineasCreadas(ps, pedido, pre);
      var d := DetallePedido(pedido, it.producto, it.cantidad, ps[it.producto].precio);
      assert ds + LineasCreadas(ps, pedido, items) == a + [d];
      if HasLine(a + [d], pedido, k) {
        var j :| 0 <= j < |a + [d]| && (a + [d])[j].pedido == pedido && (a + [d])[j].producto == k;
        if j < |a| {
          assert HasLine(a, pedido, k);
          var i :| 0 <= i < |pre| && pre[i].producto == k;
          assert items[i].producto == k;
        } else {
          assert items[|items| - 1].producto == k;
        }
      }
      if Pide(items, k) {
        var i :| 0 <= i < |items| && items[i].producto == k;
        if i < |pre| {
          assert pre[i].producto == k;
          var j :| 0 <= j < |a| && a[j].pedido == pedido && a[j].producto == k;
          assert (a + [d])[j] == a[j];
        } else {
          assert (a + [d])[|a|] == d;
        }
      }
    }
  }

  lemma PideSplit(items: seq<Linea>, k: int)
    requires items != []
    ensures Pide(items, k) <==> Pide(items[..|items| - 1], k) || items[|items| - 1].producto == k
  {
    var pre := items[..|items| - 1];
    if Pide(items, k) {
      var i :| 0 <= i < |items| && items[i].producto == k;
      if i < |pre| {
        assert pre[i].producto == k;
      }
    }
    if Pide(pre, k) {
      var i :| 0 <= i < |pre| && pre[i].producto == k;
      assert items[i].producto == k;
    }
  }

  /** A loop that ran to the end was given admissible details, and had the stated effect. */
  lemma {:induction false} LineasOkEfecto(ps: map<int, Producto>, ds: seq<DetallePedido>, pedido: int, items: seq<Linea>)
    requires SinLineas(ds, pedido)
    requires Lineas(ps, ds, pedido, items).Ok?
    ensures Admisibles(ps, items)
    ensures Efecto(ps, Lineas(ps, ds, pedido, items).value.0, items)
    ensures Lineas(ps, ds, pedido, items).value.1 == ds + LineasCreadas(ps, pedido, items)
    decreases |items|
  {
    if items == [] {
      assert ds + LineasCreadas(ps, pedido, items) == ds;
    } else {
      var pre := items[..|items| - 1];
      LineasOkEfecto(ps, ds, pedido, pre);
      var (ps1, ds1) := Lineas(ps, ds, pedido, pre).value;
      PasoEfecto(ps, ds, pedido, items, ps1, ds1);
      var it := items[|items| - 1];
      PasoOk(ps1, ds1, pedido, it);
      assert ps1[it.producto] == ps[it.producto] by {
        HasLineCreadas(ps, ds, pedido, pre, it.producto);
      }
      assert ds + LineasCreadas(ps, pedido, items) == ds1 + [DetallePedido(pedido, it.producto, it.cantidad, ps[it.producto].precio)];
    }
  }

  /** What a successful iteration did. */
  lemma PasoOk(ps1: map<int, Producto>, ds1: seq<DetallePedido>, pedido: int, it: Linea)
    requires Paso(ps1, ds1, pedido, it).Ok?
    ensures it.producto in ps1 && 0 <= it.cantidad <= ps1[it.producto].stock
    ensures !HasLine(ds1, pedido, it.producto)
    ensures Paso(ps1, ds1, pedido, it).value.0 ==
      ps1[it.producto := ps1[it.producto].(stock := ps1[it.producto].stock - it.cantidad)]
    ensures Paso(ps1, ds1, pedido, it).value.1 ==
      ds1 + [DetallePedido(pedido, it.producto, it.cantidad, ps1[it.producto].precio)]
  {
  }

  /** One more iteration keeps `LineasOkEfecto`'s conclusion. */
  lemma PasoEfecto(ps: map<int, Producto>, ds: seq<DetallePedido>, pedido: int, items: seq<Linea>,
                   ps1: map<int, Producto>, ds1: seq<DetallePedido>)
    requires SinLineas(ds, pedido) && items != []
    requires Admisibles(ps, items[..|items| - 1]) && Efecto(ps, ps1, items[..|items| - 1])
    requires ds1 == ds + LineasCreadas(ps, pedido, items[..|items| - 1])
    requires Paso(ps1, ds1, pedido, items[|items| - 1]).Ok?
    ensures Admisibles(ps, items)
    ensures Efecto(ps, Paso(ps1, ds1, pedido, items[|items| - 1]).value.0, items)
  {
    var pre := items[..|items| - 1];
    var it := items[|items| - 1];
    var p := it.producto;
    PasoOk(ps1, ds1, pedido, it);
    var ps2 := Paso(ps1, ds1, pedido, it).value.0;
    assert p in ps;
    HasLineCreadas(ps, ds, pedido, pre, p);
    assert !Pide(pre, p);
    assert ps1[p] == ps[p];
    assert Existentes(ps, items) by {
      forall i | 0 <= i < |items| ensures items[i].producto in ps {
        if i < |pre| { assert items[i] == pre[i]; }
      }
    }
    assert Admisibles(ps, items) by {
      forall i | 0 <= i < |items| ensures 0 <= items[i].cantidad <= ps[items[i].producto].stock {
        if i < |pre| { assert items[i] == pre[i]; }
      }
      forall i, j | 0 <= i < j < |items| ensures items[i].producto != items[j].producto {
        assert items[i] == pre[i];
        if j < |pre| { assert items[j] == pre[j]; }
      }
    }
    forall k | k in ps && !Pide(items, k) ensures ps2[k] == ps[k] {
      PideSplit(items, k);
    }
    forall i | 0 <= i < |items|
      ensures ps2[items[i].producto].stock as int == ps[items[i].producto].stock - items[i].cantidad
      ensures ps2[items[i].producto].(stock := ps[items[i].producto].stock) == ps[items[i].producto]
    {
      if i < |pre| {
        assert items[i] == pre[i];
        assert items[i].producto != p;
      }
    }
  }

  /** Admissible details always let the loop run to the end. */
  lemma {:induction false} AdmisiblesLineasOk(ps: map<int, Producto>, ds: seq<DetallePedido>, pedido: int, items: seq<Linea>)
    requires SinLineas(ds, pedido) && Admisibles(ps, items)
    ensures Lineas(ps, ds, pedido, items).Ok?
    decreases |items|
  {
    if items != [] {
      var pre := items[..|items| - 1];
      var it := items[|items| - 1];
      var p := it.producto;
      assert forall i | 0 <= i < |pre| :: items[i] == pre[i];
      assert Admisibles(ps, pre);
      AdmisiblesLineasOk(ps, ds, pedido, pre);
      LineasOkEfecto(ps, ds, pedido, pre);
      var (ps1, ds1) := Lineas(ps, ds, pedido, pre).value;
      assert !Pide(pre, p);
      assert ps1[p] == ps[p];
      HasLineCreadas(ps, ds, pedido, pre, p);
    }
  }

  /**
   * The loop succeeds exactly when the details are admissible, and then stock and lines are as
   * `Efecto` and `LineasCreadas` say.
   */
  lemma LineasSpec(ps: map<int, Producto>, ds: seq<DetallePedido>, pedido: int, items: seq<Linea>)
    requires SinLineas(ds, pedido)
    ensures Lineas(ps, ds, pedido, items).Ok? <==> Admisibles(ps, items)
    ensures Lineas(ps, ds, pedido, items).Ok? ==>
      && Efecto(ps, Lineas(ps, ds, pedido, items).value.0, items)
      && Lineas(ps, ds, pedido, items).value.1 == ds + LineasCreadas(ps, pedido, items)
  {
    if Admisibles(ps, items) {
      AdmisiblesLineasOk(ps, ds, pedido, items);
    }
    if Lineas(ps, ds, pedido, items).Ok? {
      LineasOkEfecto(ps, ds, pedido, items);
    }
  }

  /** The created lines add up to `Importe`: the order's total is the sum of quantity × price. */
  lemma {:induction false} TotalCreadas(ps: map<int, Producto>, ds: seq<DetallePedido>, pedido: int, items: seq<Linea>)
    requires SinLineas(ds, pedido) && Existentes(ps, items)
    ensures Total(ds + LineasCreadas(ps, pedido, items), pedido) == Importe(ps, items)
    decreases |items|
  {
    if items == [] {
      assert ds + LineasCreadas(ps, pedido, items) == ds;
      TotalWithoutLines(ds, pedido);
    } else {
      var pre := items[..|items| - 1];
      assert forall i | 0 <= i < |pre| :: items[i] == pre[i];
      TotalCreadas(ps, ds, pedido, pre);
      var a := ds + LineasCreadas(ps, pedido, pre);
      var it := items[|items| - 1];
      var d := DetallePedido(pedido, it.producto, it.cantidad, ps[it.producto].precio);
      assert ds + LineasCreadas(ps, pedido, items) == a + [d];
      assert (a + [d])[..|a + [d]| - 1] == a;
    }
  }

  // ----- units asked for, units handed back -----

  /** Units of product `k` asked for across the details. */
  function Pedidas(items: seq<Linea>, k: int): int
  {
    if items == [] then 0
    else Pedidas(items[..|items| - 1], k) + (if items[|items| - 1].producto == k then items[|items| - 1].cantidad else 0)
  }

  /** With every product asked for once, the units asked for a product are that detail's quantity. */
  lemma {:induction false} PedidasDistintas(items: seq<Linea>, k: int)
    requires forall i, j :: 0 <= i < j < |items| ==> items[i].producto != items[j].producto
    ensures !Pide(items, k) ==> Pedidas(items, k) == 0
    ensures forall i :: 0 <= i < |items| && items[i].producto == k ==> Pedidas(items, k) == items[i].cantidad
    decreases |items|
  {
    if items != [] {
      var pre := items[..|items| - 1];
      assert forall i | 0 <= i < |pre| :: items[i] == pre[i];
      PedidasDistintas(pre, k);
      PideSplit(items, k);
      if items[|items| - 1].producto == k {
        assert !Pide(pre, k);
      }
    }
  }

  /** Units of product `k` on the lines of order `pedido`. */
  function Unidades(ds: seq<DetallePedido>, pedido: int, k: int): int
  {
    if ds == [] then 0
    else
      var d := ds[|ds| - 1];
      Unidades(ds[..|ds| - 1], pedido, k) + (if d.pedido == pedido && d.producto == k then d.cantidad else 0)
  }

  /** Every line of order `pedido` points at a known product with a non-negative quantity. */
  predicate Reponibles(ps: map<int, Producto>, ds: seq<DetallePedido>, pedido: int)
  {
    forall i :: 0 <= i < |ds| && ds[i].pedido == pedido ==> ds[i].producto in ps && ds[i].cantidad >= 0
  }

  /**
   * The cancellation loop: every line of order `pedido` gives its quantity back to its product.
   * Each product's stock grows by the units the order's lines hold of it; nothing else changes.
   */
  function Reponer(ps: map<int, Producto>, ds: seq<DetallePedido>, pedido: int): (r: map<int, Producto>)
    requires Reponibles(ps, ds, pedido)
    ensures r.Keys == ps.Keys
    ensures forall k :: k in ps ==>
      r[k].stock as int == ps[k].stock + Unidades(ds, pedido, k) && r[k].(stock := ps[k].stock) == ps[k]
    decreases |ds|
  {
    if ds == [] then ps
    else
      var prev := Reponer(ps, ds[..|ds| - 1], pedido);
      var d := ds[|ds| - 1];
      if d.pedido == pedido then prev[d.producto := prev[d.producto].(stock := prev[d.producto].stock + d.cantidad)]
      else prev
  }

  /** Cancelling twice gives the units back twice: there is no check of the current state. */
  lemma ReponerDosVeces(ps: map<int, Producto>, ds: seq<DetallePedido>, pedido: int, k: int)
    requires Reponibles(ps, ds, pedido) && k in ps
    ensures Reponibles(Reponer(ps, ds, pedido), ds, pedido)
    ensures Reponer(Reponer(ps, ds, pedido), ds, pedido)[k].stock == ps[k].stock + 2 * Unidades(ds, pedido, k)
  {
  }

  lemma {:induction false} UnidadesConcat(a: seq<DetallePedido>, b: seq<DetallePedido>, pedido: int, k: int)
    ensures Unidades(a + b, pedido, k) == Unidades(a, pedido, k) + Unidades(b, pedido, k)
    decreases |b|
  {
    if b == [] {
      assert a + b == a;
    } else {
      assert (a + b)[..|a + b| - 1] == a + b[..|b| - 1];
      UnidadesConcat(a, b[..|b| - 1], pedido, k);
    }
  }

  lemma {:induction false} UnidadesSinLineas(ds: seq<DetallePedido>, pedido: int, k: int)
    requires SinLineas(ds, pedido)
    ensures Unidades(ds, pedido, k) == 0
    decreases |ds|
  {
    if ds != [] {
      UnidadesSinLineas(ds[..|ds| - 1], pedido, k);
    }
  }

  /** The lines the loop stores hold, for each product, exactly the units asked for. */
  lemma {:induction false} UnidadesCreadas(ps: map<int, Producto>, pedido: int, items: seq<Linea>, k: int)
    requires Existentes(ps, items)
    ensures Unidades(LineasCreadas(ps, pedido, items), pedido, k) == Pedidas(items, k)
    decreases |items|
  {
    if items != [] {
      var pre := items[..|items| - 1];
      assert forall i | 0 <= i < |pre| :: items[i] == pre[i];
      UnidadesCreadas(ps, pedido, pre, k);
      var c := LineasCreadas(ps, pedido, items);
      assert c[..|c| - 1] == LineasCreadas(ps, pedido, pre);
    }
  }

  /**
   * Cancelling a freshly created order gives every product back exactly the stock it had before
   * the order was placed.
   */
  lemma CancelarTrasCrear(ps: map<int, Producto>, ds: seq<DetallePedido>, pedido: int, items: seq<Linea>)
    requires SinLineas(ds, pedido) && Lineas(ps, ds, pedido, items).Ok?
    ensures Reponibles(Lineas(ps, ds, pedido, items).value.0, Lineas(ps, ds, pedido, items).value.1, pedido)
    ensures Reponer(Lineas(ps, ds, pedido, items).value.0, Lineas(ps, ds, pedido, items).value.1, pedido) == ps
  {
    LineasSpec(ps, ds, pedido, items);
    var (ps1, ds1) := Lineas(ps, ds, pedido, items).value;
    var c := LineasCreadas(ps, pedido, items);
    assert Reponibles(ps1, ds1, pedido) by {
      forall i | 0 <= i < |ds1| && ds1[i].pedido == pedido ensures ds1[i].producto in ps1 && ds1[i].cantidad >= 0 {
        assert i >= |ds|;
        assert ds1[i] == c[i - |ds|];
        CreadaEs(ps, pedido, items, i - |ds|);
      }
    }
    var r := Reponer(ps1, ds1, pedido);
    forall k | k in ps ensures r[k] == ps[k] {
      UnidadesConcat(ds, c, pedido, k);
      UnidadesSinLineas(ds, pedido, k);
      UnidadesCreadas(ps, pedido, items, k);
      PedidasDistintas(items, k);
      if Pide(items, k) {
        var i :| 0 <= i < |items| && items[i].producto == k;
        assert ps1[k].stock as int == ps[k].stock - items[i].cantidad;
      }
    }
    assert r.Keys == ps.Keys;
  }

  /** Line `i` of the created lines is the `i`-th detail, priced from the product table. */
  lemma {:induction false} CreadaEs(ps: map<int, Producto>, pedido: int, items: seq<Linea>, i: int)
    requires Existentes(ps, items) && 0 <= i < |items|
    ensures LineasCreadas(ps, pedido, items)[i] ==
      DetallePedido(pedido, items[i].producto, items[i].cantidad, ps[items[i].producto].precio)
    decreases |items|
  {
    var pre := items[..|items| - 1];
    if i < |pre| {
      assert forall j | 0 <= j < |pre| :: items[j] == pre[j];
      CreadaEs(ps, pedido, pre, i);
    }
  }

  /** The created lines all belong to `pedido`: every other order's total is untouched. */
  lemma CreadasDeOtro(ps: map<int, Producto>, pedido: int, items: seq<Linea>, k: int)
    requires Existentes(ps, items) && k != pedido
    ensures SinLineas(LineasCreadas(ps, pedido, items), k)
    ensures Total(LineasCreadas(ps, pedido, items), k) == 0
  {
    var c := LineasCreadas(ps, pedido, items);
    forall i | 0 <= i < |c| ensures c[i].pedido != k {
      CreadaEs(ps, pedido, items, i);
    }
    TotalWithoutLines(c, k);
  }
}
