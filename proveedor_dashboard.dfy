/**
 * The provider's dashboard (frontend/src/pages/ProveedorDashboard.jsx): the provider's own
 * products picked out of the product list, the statistics cards, the stock-adjust handler with
 * its check of the typed quantity, and the product form's reset and edit handlers.
 */
module ProveedorDashboard {
  import opened Wrappers
  import opened Text
  import opened Listas

  /** The signed-in user, as far as this page reads it. */
  datatype Sesion = Sesion(id: int, nombre: string)

  /** A product as listed; the nullable fields are `Option`s. */
  datatype Producto = Producto(id: int, nombre: string, descripcion: Option<string>, precio: string,
                               stock: Option<int>, tienda: Option<int>, esBasico: bool,
                               categoria: Option<string>, proveedor: Option<int>, proveedorNombre: Option<string>)

  /** A form field: text typed or copied, a number copied from a product, or a copied null. */
  datatype Campo = Texto(s: string) | Numero(n: int) | Nulo

  datatype Formulario = Formulario(nombre: Campo, descripcion: Campo, precio: Campo, stock: Campo,
                                   tienda: Campo, esBasico: bool, categoria: string)

  /** The form `resetForm` restores and the page starts with. */
  const FormularioInicial: Formulario :=
    Formulario(Texto(""), Texto(""), Texto(""), Texto(""), Texto(""), true, "general")

  // ----- the provider's own products -----

  /**
   * `p.proveedor === user?.id || p.proveedor_nombre === user?.nombre`; with no user neither side
   * can hold, since a listed product's fields are numbers, texts or null, never `undefined`.
   */
  predicate EsPropio(user: Option<Sesion>, p: Producto)
  {
    user.Some? && (p.proveedor == Some(user.value.id) || p.proveedorNombre == Some(user.value.nombre))
  }

  function Propio(user: Option<Sesion>): Producto -> bool { (p: Producto) => EsPropio(user, p) }

  function MisProductos(ps: seq<Producto>, user: Option<Sesion>): seq<Producto> { Filtrar(ps, Propio(user)) }

  /**
   * Exactly the products whose provider id or provider name is the user's are kept, in the
   * listed order; with no user none are.
   */
  lemma MisProductosEfecto(ps: seq<Producto>, user: Option<Sesion>)
    ensures forall x :: x in MisProductos(ps, user) <==> x in ps && EsPropio(user, x)
    ensures Subsecuencia(MisProductos(ps, user), ps)
    ensures user.None? ==> MisProductos(ps, user) == []
  {
    forall x ensures x in MisProductos(ps, user) <==> x in ps && EsPropio(user, x) {
      FiltrarMiembro(ps, Propio(user), x);
    }
    FiltrarSubsecuencia(ps, Propio(user));
    if user.None? {
      FiltrarNinguno(ps, Propio(user));
    }
  }

  // ----- statistics -----

  /** `p.stock || 0`. */
  function StockDe(p: Producto): int { p.stock.GetOr(0) }

  /** `p.stock < 10`, where a null stock compares as 0. */
  function Bajo(): Producto -> bool { (p: Producto) => p.stock.GetOr(0) < 10 }

  function NoBajo(): Producto -> bool { (p: Producto) => p.stock.GetOr(0) >= 10 }

  function Basico(): Producto -> bool { (p: Producto) => p.esBasico }

  datatype Estadisticas = Estadisticas(totalProductos: nat, stockTotal: int, stockBajo: nat, productosBasicos: nat)

  function Calcular(ps: seq<Producto>): Estadisticas
  {
    Estadisticas(|ps|, Sumar(ps, StockDe), |Filtrar(ps, Bajo())|, |Filtrar(ps, Basico())|)
  }

  /**
   * The low-stock count and the count of the rest add up to all products; a product with no
   * stock counts as low; with no negative stock the stock total is at least 10 per product
   * that is not low.
   */
  lemma EstadisticasEfecto(ps: seq<Producto>)
    ensures Calcular(ps).stockBajo + |Filtrar(ps, NoBajo())| == Calcular(ps).totalProductos
    ensures Calcular(ps).productosBasicos <= Calcular(ps).totalProductos
    ensures forall x :: x in ps && x.stock.None? ==> x in Filtrar(ps, Bajo())
    ensures (forall i :: 0 <= i < |ps| ==> StockDe(ps[i]) >= 0) ==> Calcular(ps).stockTotal >= 10 * |Filtrar(ps, NoBajo())|
  {
    Particion(ps, Bajo(), NoBajo());
    forall x | x in ps && x.stock.None? ensures x in Filtrar(ps, Bajo()) {
      FiltrarMiembro(ps, Bajo(), x);
    }
    if forall i :: 0 <= i < |ps| ==> StockDe(ps[i]) >= 0 {
      StockAltoCuenta(ps);
    }
  }

  lemma {:induction false} StockAltoCuenta(ps: seq<Producto>)
    requires forall i :: 0 <= i < |ps| ==> StockDe(ps[i]) >= 0
    ensures Sumar(ps, StockDe) >= 10 * |Filtrar(ps, NoBajo())|
  {
    if ps != [] {
      StockAltoCuenta(ps[1..]);
    }
  }

  // ----- the stock-adjust handler -----

  /**
   * The check of `handleAjustarStock` on the prompt's answer (`None` when cancelled): not empty,
   * `isNaN` false, and above 0, all under `Number`'s reading.
   */
  predicate Admite(entrada: Option<string>)
  {
    entrada.Some? && entrada.value != "" && ToNumber(entrada.value).Some? && ToNumber(entrada.value).value > 0.0
  }

  /** A typed whole number above 0 passes and is sent as itself. */
  lemma NumeroAdmitido(n: nat)
    requires n > 0
    ensures Admite(Some(NatToString(n))) && ParseInt(NatToString(n)) == Some(n)
  {
    ToNumberOfNatToString(n);
    ParseIntOfNatToString(n);
  }

  /** Cancelling, an empty answer, `0`, a negative number and a text that is not a number fail. */
  lemma Rechazos()
    ensures !Admite(None) && !Admite(Some("")) && !Admite(Some("0")) && !Admite(Some("-3")) && !Admite(Some("abc"))
  {
    assert Trim("0", JavaScript) == "0" && Trim("-3", JavaScript) == "-3" && Trim("abc", JavaScript) == "abc";
    assert LeadingDigits("abc") == [];
    assert LeadingDigits("3") == "3";
  }

  /**
   * A fraction below 1 passes the check, since `Number` reads it as above 0, but `parseInt`
   * sends it as 0.
   */
  lemma FraccionPasa()
    ensures Admite(Some("0.5")) && ParseInt("0.5") == Some(0)
  {
    assert Trim("0.5", JavaScript) == "0.5";
    assert LeadingDigits("0.5") == "0";
    assert LeadingDigits("5") == "5";
    assert DecimalValue("0.5") == Some(0.5);
  }

  /** The request body of `ajustar_stock`: `cantidad: parseInt(cantidad)` (`None` for `NaN`) and `operacion`. */
  datatype Ajuste = Ajuste(producto: int, cantidad: Option<int>, operacion: string)

  /** What a load delivers after `data.results || data`: an array, another value, or a failed call. */
  datatype Lectura = Arreglo(s: seq<Producto>) | NoArreglo | Falla

  /** `a || b` on an optional text: a missing or empty text gives `b`. */
  function O(a: Option<string>, b: string): string { if a.Some? && a.value != "" then a.value else b }

  class Tablero {
    var productos: seq<Producto>
    var error: string
    var success: string
    var showForm: bool
    var editingId: Option<int>
    var form: Formulario

    constructor ()
      ensures productos == [] && error == "" && success == "" && !showForm && editingId == None
      ensures form == FormularioInicial
    {
      productos, error, success, showForm, editingId, form := [], "", "", false, None, FormularioInicial;
    }

    /**
     * `cargarProductos`: the provider's own products of an array reply. Any other reply makes
     * `.filter` throw, and that and a failed call show the load error with the list kept.
     */
    method CargarProductos(user: Option<Sesion>, l: Lectura)
      modifies this
      ensures l.Arreglo? ==> productos == MisProductos(l.s, user) && error == old(error)
      ensures !l.Arreglo? ==> productos == old(productos) && error == "Error al cargar productos"
      ensures success == old(success) && showForm == old(showForm) && editingId == old(editingId) && form == old(form)
    {
      if l.Arreglo? {
        productos := MisProductos(l.s, user);
      } else {
        error := "Error al cargar productos";
      }
    }

    /** `resetForm`: the default form and no product under edit. */
    method ResetForm()
      modifies this
      ensures form == FormularioInicial && editingId == None
      ensures productos == old(productos) && error == old(error) && success == old(success) && showForm == old(showForm)
    {
      form := FormularioInicial;
      editingId := None;
    }

    /**
     * `handleEdit`: the product's fields copied into the form, `categoria` falling back to
     * `general` when null or empty, that product under edit, and the form shown.
     */
    method HandleEdit(p: Producto)
      modifies this
      ensures form == FormularioDe(p) && editingId == Some(p.id) && showForm
      ensures productos == old(productos) && error == old(error) && success == old(success)
    {
      form := FormularioDe(p);
      editingId := Some(p.id);
      showForm := true;
    }

    /**
     * `handleAjustarStock`: an answer the check refuses shows "Cantidad inválida" and sends
     * nothing. Otherwise one request is sent; success shows the confirmation and reloads the
     * products (`respuesta` then holds what that reload reads, handled as `CargarProductos`
     * handles it), a failure shows the reply's `error` or the generic message. Nothing else
     * changes.
     */
    method AjustarStock(user: Option<Sesion>, productoId: int, operacion: string, entrada: Option<string>,
                        respuesta: Result<Lectura, Option<string>>) returns (enviado: Option<Ajuste>)
      modifies this
      ensures !Admite(entrada) ==>
        enviado == None && error == "Cantidad inválida" && productos == old(productos) && success == old(success)
      ensures Admite(entrada) ==> enviado == Some(Ajuste(productoId, ParseInt(entrada.value), operacion))
      ensures Admite(entrada) && respuesta.Ok? ==>
        success == "✓ Stock " + (if operacion == "aumentar" then "aumentado" else "reducido")
      ensures Admite(entrada) && respuesta.Ok? && respuesta.value.Arreglo? ==>
        productos == MisProductos(respuesta.value.s, user) && error == old(error)
      ensures Admite(entrada) && respuesta.Ok? && !respuesta.value.Arreglo? ==>
        productos == old(productos) && error == "Error al cargar productos"
      ensures Admite(entrada) && respuesta.Err? ==>
        error == O(respuesta.error, "Error al ajustar stock") && productos == old(productos) && success == old(success)
      ensures showForm == old(showForm) && editingId == old(editingId) && form == old(form)
    {
      if entrada.None? || entrada.value == "" || ToNumber(entrada.value).None? || ToNumber(entrada.value).value <= 0.0 {
        error := "Cantidad inválida";
        return None;
      }
      enviado := Some(Ajuste(productoId, ParseInt(entrada.value), operacion));
      match respuesta
      case Ok(recarga) =>
        success := "✓ Stock " + (if operacion == "aumentar" then "aumentado" else "reducido");
        CargarProductos(user, recarga);
      case Err(e) =>
        error := O(e, "Error al ajustar stock");
    }
  }

  function CampoDe(v: Option<int>): Campo { if v.Some? then Numero(v.value) else Nulo }

  function FormularioDe(p: Producto): Formulario
  {
    Formulario(Texto(p.nombre), if p.descripcion.Some? then Texto(p.descripcion.value) else Nulo, Texto(p.precio),
               CampoDe(p.stock), CampoDe(p.tienda), p.esBasico, O(p.categoria, "general"))
  }

  /**
   * The edited form carries the product's own values; its category is the product's unless
   * that is null or empty; after a reset the form is the initial one whatever was edited.
   */
  lemma FormularioDeEfecto(p: Producto)
    ensures FormularioDe(p).nombre == Texto(p.nombre) && FormularioDe(p).esBasico == p.esBasico
    ensures FormularioDe(p).categoria == "general" <==> p.categoria.None? || p.categoria.value in {"", "general"}
    ensures p.stock.Some? ==> FormularioDe(p).stock == Numero(p.stock.value)
    ensures p.tienda.Some? ==> FormularioDe(p).tienda == Numero(p.tienda.value)
  {
  }
}
