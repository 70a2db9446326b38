/**
 * The provider's inventory panel (prexcol/frontend/src/components/usuarios/ProveedorPanel.jsx):
 * a quantity per product typed or stepped by buttons, and the stock adjustment that either takes
 * the product the server sends back or updates the list optimistically. The React state is the
 * fields of `Panel`; `cantidades` and `updating` are the objects keyed by product id.
 */
module ProveedorPanel {
  import opened Wrappers
  import opened Text
  import opened Listas
  import opened Carrito

  // ----- the list after an adjustment -----

  /**
   * The optimistic update of one entry: `aumentar` adds the quantity, `reducir` takes it away
   * but not below 0, any other operation leaves the entry as it is.
   */
  function Ajustado(id: int, operacion: string, c: int): Producto -> Producto
  {
    (p: Producto) =>
      if p.id != id then p
      else if operacion == "aumentar" then p.(stock := p.stock + c)
      else if operacion == "reducir" then p.(stock := if p.stock - c >= 0 then p.stock - c else 0)
      else p
  }

  function Optimista(ps: seq<Producto>, id: int, operacion: string, c: int): seq<Producto>
  {
    Mapear(ps, Ajustado(id, operacion, c))
  }

  function Sustituto(id: int, q: Producto): Producto -> Producto
  {
    (p: Producto) => if p.id == id then q else p
  }

  /** `prev.map(p => p.id === id ? resultado.producto : p)`. */
  function Reemplazar(ps: seq<Producto>, id: int, q: Producto): seq<Producto>
  {
    Mapear(ps, Sustituto(id, q))
  }

  /**
   * Only the entries with the id change, and only in their stock: added for `aumentar`,
   * reduced and floored at 0 for `reducir`; so `reducir` never leaves a negative stock.
   */
  lemma OptimistaEfecto(ps: seq<Producto>, id: int, operacion: string, c: int)
    ensures var r := Optimista(ps, id, operacion, c);
      && |r| == |ps|
      && (forall i :: 0 <= i < |ps| && ps[i].id != id ==> r[i] == ps[i])
      && (forall i :: 0 <= i < |ps| ==> r[i] == ps[i].(stock := r[i].stock))
      && (forall i :: 0 <= i < |ps| && ps[i].id == id && operacion == "aumentar" ==> r[i].stock == ps[i].stock + c)
      && (forall i :: 0 <= i < |ps| && ps[i].id == id && operacion == "reducir" ==>
            r[i].stock == (if ps[i].stock - c >= 0 then ps[i].stock - c else 0) && r[i].stock >= 0)
      && (operacion != "aumentar" && operacion != "reducir" ==> r == ps)
  {
    var r := Optimista(ps, id, operacion, c);
    if operacion != "aumentar" && operacion != "reducir" {
      assert forall i :: 0 <= i < |ps| ==> r[i] == ps[i];
    }
  }

  /** From a stock that is not negative, adding a quantity and then taking it away again restores the list. */
  lemma AumentarReducir(ps: seq<Producto>, id: int, c: int)
    requires c >= 0 && forall i :: 0 <= i < |ps| ==> ps[i].stock >= 0
    ensures Optimista(Optimista(ps, id, "aumentar", c), id, "reducir", c) == ps
  {
    var r := Optimista(Optimista(ps, id, "aumentar", c), id, "reducir", c);
    assert forall i :: 0 <= i < |ps| ==> r[i] == ps[i];
  }

  /** A product sent back by the server replaces exactly the entries with its id. */
  lemma ReemplazarEfecto(ps: seq<Producto>, id: int, q: Producto)
    ensures var r := Reemplazar(ps, id, q);
      && |r| == |ps|
      && (forall i :: 0 <= i < |ps| ==> r[i] == (if ps[i].id == id then q else ps[i]))
  {
  }

  // ----- quantities -----

  /** `cantidades[id]`, where a missing key reads as `undefined`, so `|| 0` makes it 0. */
  function Cantidad(cs: map<int, int>, id: int): int { if id in cs then cs[id] else 0 }

  /** `parseInt(value) || 0`: `NaN` and 0 give 0. */
  function Leer(s: string): int
  {
    var v := ParseInt(s);
    if v.Some? then v.value else 0
  }

  /** What the server may answer: with the product, without it, a `null` body, or an error reply. */
  datatype Respuesta = ConProducto(producto: Producto, mensaje: Option<string>)
                     | SinProducto(mensaje: Option<string>)
                     | Nula
                     | Falla(error: Option<string>)

  /** `a || b` on an optional text. */
  function O(a: Option<string>, b: string): string { if a.Some? && a.value != "" then a.value else b }

  class Panel {
    var productos: seq<Producto>
    var cantidades: map<int, int>
    var updating: map<int, bool>
    var mensaje: string
    var error: string

    constructor ()
      ensures productos == [] && cantidades == map[] && updating == map[] && mensaje == "" && error == ""
    {
      productos, cantidades, updating, mensaje, error := [], map[], map[], "", "";
    }

    /** `disabled={!cantidades[p.id] || updating[p.id]}` on the Aumentar button; Reducir is also disabled at stock 0. */
    predicate Deshabilitado(id: int)
      reads this
    {
      Cantidad(cantidades, id) == 0 || (id in updating && updating[id])
    }

    /** `cargarProductos`: an array reply, else an empty list; a failure also shows the error. */
    method CargarProductos(c: Carga)
      modifies this
      ensures productos == (if c.Lista? then c.ps else [])
      ensures error == (if c.Falla? then "No se pudieron cargar los productos." else "")
      ensures cantidades == old(cantidades) && updating == old(updating) && mensaje == old(mensaje)
    {
      error := "";
      if c.Falla? {
        error := "No se pudieron cargar los productos.";
      }
      productos := if c.Lista? then c.ps else [];
    }

    /** The quantity box: the typed text read by `parseInt`, 0 when it cannot be read. */
    method Teclear(id: int, s: string)
      modifies this
      ensures cantidades == old(cantidades)[id := Leer(s)]
      ensures productos == old(productos) && updating == old(updating) && mensaje == old(mensaje) && error == old(error)
    {
      cantidades := cantidades[id := Leer(s)];
    }

    /** The +1 button. */
    method MasUno(id: int)
      modifies this
      ensures cantidades == old(cantidades)[id := Cantidad(old(cantidades), id) + 1]
      ensures productos == old(productos) && updating == old(updating) && mensaje == old(mensaje) && error == old(error)
    {
      cantidades := cantidades[id := Cantidad(cantidades, id) + 1];
    }

    /** The -1 button, which never goes below 0. */
    method MenosUno(id: int)
      modifies this
      ensures cantidades == old(cantidades)[id := Max0(Cantidad(old(cantidades), id) - 1)]
      ensures cantidades[id] >= 0
      ensures Cantidad(old(cantidades), id) > 0 ==> cantidades[id] == Cantidad(old(cantidades), id) - 1
      ensures productos == old(productos) && updating == old(updating) && mensaje == old(mensaje) && error == old(error)
    {
      cantidades := cantidades[id := Max0(Cantidad(cantidades, id) - 1)];
    }

    /**
     * `ajustarStock`: a missing or non-positive quantity shows an error and sends nothing. Else
     * the quantity is sent; a product in the reply replaces that entry, otherwise the entry is
     * updated optimistically; then the reply's message is shown and the quantity reset to 0. A
     * `null` reply makes reading its message throw after the optimistic update, and that and an
     * error reply show the error. `updating[id]` ends false whenever a request was sent.
     */
    method AjustarStock(id: int, operacion: string, r: Respuesta) returns (enviado: Option<int>)
      modifies this
      ensures Cantidad(old(cantidades), id) <= 0 ==>
        && enviado == None && error == "Ingresa una cantidad válida mayor a 0"
        && productos == old(productos) && cantidades == old(cantidades) && updating == old(updating)
        && mensaje == old(mensaje)
      ensures Cantidad(old(cantidades), id) > 0 ==> enviado == Some(old(cantidades)[id]) && updating == old(updating)[id := false]
      ensures Cantidad(old(cantidades), id) > 0 && r.ConProducto? ==>
        productos == Reemplazar(old(productos), id, r.producto)
      ensures Cantidad(old(cantidades), id) > 0 && (r.SinProducto? || r.Nula?) ==>
        productos == Optimista(old(productos), id, operacion, old(cantidades)[id])
      ensures Cantidad(old(cantidades), id) > 0 && (r.ConProducto? || r.SinProducto?) ==>
        cantidades == old(cantidades)[id := 0] && mensaje == O(r.mensaje, "Stock actualizado") && error == ""
      ensures Cantidad(old(cantidades), id) > 0 && r.Nula? ==>
        cantidades == old(cantidades) && mensaje == "" && error == "❌ Error al ajustar stock"
      ensures Cantidad(old(cantidades), id) > 0 && r.Falla? ==>
        productos == old(productos) && cantidades == old(cantidades) && mensaje == ""
        && error == "❌ " + O(r.error, "Error al ajustar stock")
    {
      if id !in cantidades || cantidades[id] <= 0 {
        error := "Ingresa una cantidad válida mayor a 0";
        return None;
      }
      var cantidad := cantidades[id];
      enviado := Some(cantidad);
      error := "";
      mensaje := "";
      updating := updating[id := true];
      Responder(id, operacion, cantidad, r);
      updating := updating[id := false];
    }

    /** What the handler does with the reply to a request for `cantidad` units. */
    method Responder(id: int, operacion: string, cantidad: int, r: Respuesta)
      requires error == "" && mensaje == ""
      modifies this
      ensures updating == old(updating)
      ensures r.ConProducto? ==> productos == Reemplazar(old(productos), id, r.producto)
      ensures (r.SinProducto? || r.Nula?) ==> productos == Optimista(old(productos), id, operacion, cantidad)
      ensures r.Falla? ==> productos == old(productos)
      ensures (r.ConProducto? || r.SinProducto?) ==>
        cantidades == old(cantidades)[id := 0] && mensaje == O(r.mensaje, "Stock actualizado") && error == ""
      ensures r.Nula? ==> cantidades == old(cantidades) && mensaje == "" && error == "❌ Error al ajustar stock"
      ensures r.Falla? ==> cantidades == old(cantidades) && mensaje == "" && error == "❌ " + O(r.error, "Error al ajustar stock")
    {
      match r {
        case ConProducto(q, m) =>
          productos := Reemplazar(productos, id, q);
          mensaje := O(m, "Stock actualizado");
          cantidades := cantidades[id := 0];
        case SinProducto(m) =>
          productos := Optimista(productos, id, operacion, cantidad);
          mensaje := O(m, "Stock actualizado");
          cantidades := cantidades[id := 0];
        case Nula =>
          productos := Optimista(productos, id, operacion, cantidad);
          error := "❌ Error al ajustar stock";
        case Falla(e) =>
          error := "❌ " + O(e, "Error al ajustar stock");
      }
    }
  }

  function Max0(x: int): int { if x >= 0 then x else 0 }

  /**
   * The buttons and the handler read the quantity differently: a button is enabled for any
   * quantity but 0 (when no request is pending), the handler sends only a positive one. So an
   * enabled button with a positive quantity sends the request, a typed text enables a button yet
   * is refused exactly when it reads as a negative number, and every typed negative whole number
   * `"-n"` (n > 0) is such a text.
   */
  lemma BotonYGuarda(cs: map<int, int>, upd: map<int, bool>, id: int, s: string, n: nat)
    requires n > 0
    ensures Cantidad(cs, id) != 0 && !(id in upd && upd[id]) && Cantidad(cs, id) > 0 ==> id in cs && cs[id] > 0
    ensures var c := cs[id := Leer(s)]; (Cantidad(c, id) != 0 && Cantidad(c, id) <= 0) <==> Leer(s) < 0
    ensures Leer("-" + NatToString(n)) == -(n as int)
  {
    var r := NatToString(n);
    var t := "-" + r;
    assert TrimStart(t, JavaScript) == t;
    assert SignStripped(t) == r;
    LeadingDigitsOfDigits(r);
  }

  /** A typed whole number is kept as itself; a text `parseInt` cannot read is kept as 0. */
  lemma LeerEfecto(n: nat)
    ensures Leer(NatToString(n)) == n
    ensures Leer("") == 0 && Leer("abc") == 0
  {
    ParseIntOfNatToString(n);
    assert LeadingDigits("abc") == [];
  }

  // ----- the summary cards -----

  function Stock(p: Producto): int { p.stock }
  function Valor(p: Producto): int { p.precio * p.stock }
  function Basico(): Producto -> bool { (p: Producto) => p.esBasico }
  function NoBasico(): Producto -> bool { (p: Producto) => !p.esBasico }

  /**
   * The basic and non-basic cards split the products: their counts, units and values (price in
   * cents times stock) add up to the totals shown above them.
   */
  lemma ResumenParticion(ps: seq<Producto>)
    ensures |Filtrar(ps, Basico())| + |Filtrar(ps, NoBasico())| == |ps|
    ensures Sumar(Filtrar(ps, Basico()), Stock) + Sumar(Filtrar(ps, NoBasico()), Stock) == Sumar(ps, Stock)
    ensures Sumar(Filtrar(ps, Basico()), Valor) + Sumar(Filtrar(ps, NoBasico()), Valor) == Sumar(ps, Valor)
  {
    Particion(ps, Basico(), NoBasico());
    ParticionSuma(ps, Basico(), NoBasico(), Stock);
    ParticionSuma(ps, Basico(), NoBasico(), Valor);
  }
}
