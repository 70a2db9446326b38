/**
 * The administrator's dashboard (frontend/src/pages/dashboardAdmin.jsx): the four filtered lists
 * it shows (users sorted by role rank and name, stores, products, orders), their pages of ten,
 * the page counts, and the statistics cards. The page state is the fields of `Tablero`.
 */
module DashboardAdmin {
  import opened Wrappers
  import opened Text
  import opened Listas
  import Sorting

  datatype Usuario = Usuario(nombre: string, rol: string, estado: bool)

  datatype Tienda = Tienda(nombre: string, activa: bool)

  /** A product as listed; `nombre`, `descripcion`, `tienda`, `stock` and `activo` may be null. */
  datatype Producto = Producto(nombre: Option<string>, descripcion: Option<string>, tienda: Option<int>,
                               stock: Option<int>, esBasico: bool, activo: Option<bool>)

  /** An order as listed; `total` is in cents, `None` when `parseFloat` cannot read it. */
  datatype Pedido = Pedido(estado: string, total: Option<int>)

  const ItemsPorPagina: nat := 10

  // ----- users -----

  /** `ordenRoles[rol] || 99`. */
  function Rango(rol: string): (r: int)
    ensures 1 <= r <= 5 || r == 99
    ensures r == 99 <==> rol !in {"admin", "proveedor", "cliente", "comprador", "logistica"}
  {
    if rol == "admin" then 1
    else if rol == "proveedor" then 2
    else if rol == "cliente" then 3
    else if rol == "comprador" then 4
    else if rol == "logistica" then 5
    else 99
  }

  /** The role filter (`todos` is any role) and the state filter (`activo`, `inactivo`, or any). */
  predicate PasaUsuario(filtroRol: string, filtroEstado: string, u: Usuario)
  {
    && (filtroRol == "todos" || u.rol == filtroRol)
    && (filtroEstado == "activo" ==> u.estado)
    && (filtroEstado == "inactivo" ==> !u.estado)
  }

  function FiltroUsuario(filtroRol: string, filtroEstado: string): Usuario -> bool
  {
    (u: Usuario) => PasaUsuario(filtroRol, filtroEstado, u)
  }

  /** The comparator of the user list: by role rank, then by name; `leq(a, b)` is `cmp(a, b) <= 0`. */
  predicate AntesQue(a: Usuario, b: Usuario)
  {
    Rango(a.rol) < Rango(b.rol) || (Rango(a.rol) == Rango(b.rol) && Lexico(a.nombre, b.nombre))
  }

  function UsuariosFiltrados(us: seq<Usuario>, filtroRol: string, filtroEstado: string): seq<Usuario>
  {
    Sorting.Sort(Filtrar(us, FiltroUsuario(filtroRol, filtroEstado)), AntesQue)
  }

  lemma AntesQueOrden()
    ensures Sorting.Total(AntesQue) && Sorting.Transitive(AntesQue)
  {
    forall a: Usuario, b: Usuario ensures AntesQue(a, b) || AntesQue(b, a) {
      LexicoTotal(a.nombre, b.nombre);
    }
    forall a: Usuario, b: Usuario, c: Usuario | AntesQue(a, b) && AntesQue(b, c) ensures AntesQue(a, c) {
      if Rango(a.rol) == Rango(b.rol) == Rango(c.rol) {
        LexicoTransitivo(a.nombre, b.nombre, c.nombre);
      }
    }
  }

  /**
   * The user list holds exactly the users that pass both filters, each as often as loaded, and
   * is ordered admin, proveedor, cliente, comprador, logistica, any other role last, and by name
   * within a role.
   */
  lemma UsuariosFiltradosEfecto(us: seq<Usuario>, filtroRol: string, filtroEstado: string)
    ensures var r := UsuariosFiltrados(us, filtroRol, filtroEstado);
      && multiset(r) == multiset(Filtrar(us, FiltroUsuario(filtroRol, filtroEstado)))
      && (forall x :: x in r <==> x in us && PasaUsuario(filtroRol, filtroEstado, x))
      && (forall i, j :: 0 <= i < j < |r| ==> Rango(r[i].rol) <= Rango(r[j].rol))
      && (forall i, j :: 0 <= i < j < |r| && Rango(r[i].rol) == Rango(r[j].rol) ==> Lexico(r[i].nombre, r[j].nombre))
  {
    var f := Filtrar(us, FiltroUsuario(filtroRol, filtroEstado));
    var r := UsuariosFiltrados(us, filtroRol, filtroEstado);
    AntesQueOrden();
    Sorting.SortSorted(f, AntesQue);
    forall x ensures x in r <==> x in us && PasaUsuario(filtroRol, filtroEstado, x) {
      assert x in r <==> x in multiset(f);
      FiltrarMiembro(us, FiltroUsuario(filtroRol, filtroEstado), x);
    }
  }

  // ----- stores, products, orders -----

  /** `activas` and `inactivas` filter by `activa`; any other value keeps every store. */
  predicate PasaTienda(filtro: string, t: Tienda)
  {
    (filtro == "activas" ==> t.activa) && (filtro == "inactivas" ==> !t.activa)
  }

  function FiltroTienda(filtro: string): Tienda -> bool { (t: Tienda) => PasaTienda(filtro, t) }

  function TiendasFiltradas(ts: seq<Tienda>, filtro: string): seq<Tienda> { Filtrar(ts, FiltroTienda(filtro)) }

  /** `p.nombre?.toLowerCase() || ""`. */
  function Minusculas(s: Option<string>): string { ToLower(s.GetOr("")) }

  /**
   * The store filter of the product list applies outside `todos`, `activas` and `inactivas`, as
   * `p.tienda !== parseInt(filtro)`; a search term, when not empty, must occur in the lowercase
   * name or description.
   */
  predicate PasaProducto(filtroTienda: string, termino: string, p: Producto)
  {
    && (filtroTienda in {"todos", "activas", "inactivas"} || (ParseInt(filtroTienda).Some? && p.tienda == ParseInt(filtroTienda)))
    && (termino == "" || Includes(Minusculas(p.nombre), ToLower(termino)) || Includes(Minusculas(p.descripcion), ToLower(termino)))
  }

  function FiltroProducto(filtroTienda: string, termino: string): Producto -> bool
  {
    (p: Producto) => PasaProducto(filtroTienda, termino, p)
  }

  function ProductosFiltrados(ps: seq<Producto>, filtroTienda: string, termino: string): seq<Producto>
  {
    Filtrar(ps, FiltroProducto(filtroTienda, termino))
  }

  predicate PasaPedido(filtro: string, p: Pedido) { filtro == "todos" || p.estado == filtro }

  function FiltroPedido(filtro: string): Pedido -> bool { (p: Pedido) => PasaPedido(filtro, p) }

  function PedidosFiltrados(ps: seq<Pedido>, filtro: string): seq<Pedido> { Filtrar(ps, FiltroPedido(filtro)) }

  /** `activas` and `inactivas` split the stores; any other filter keeps them all, in order. */
  lemma TiendasFiltradasEfecto(ts: seq<Tienda>, filtro: string)
    ensures forall t :: t in TiendasFiltradas(ts, "activas") <==> t in ts && t.activa
    ensures forall t :: t in TiendasFiltradas(ts, "inactivas") <==> t in ts && !t.activa
    ensures multiset(TiendasFiltradas(ts, "activas")) + multiset(TiendasFiltradas(ts, "inactivas")) == multiset(ts)
    ensures filtro != "activas" && filtro != "inactivas" ==> TiendasFiltradas(ts, filtro) == ts
    ensures Subsecuencia(TiendasFiltradas(ts, filtro), ts)
  {
    forall t ensures t in TiendasFiltradas(ts, "activas") <==> t in ts && t.activa {
      FiltrarMiembro(ts, FiltroTienda("activas"), t);
    }
    forall t ensures t in TiendasFiltradas(ts, "inactivas") <==> t in ts && !t.activa {
      FiltrarMiembro(ts, FiltroTienda("inactivas"), t);
    }
    Particion(ts, FiltroTienda("activas"), FiltroTienda("inactivas"));
    if filtro != "activas" && filtro != "inactivas" {
      FiltrarTodos(ts, FiltroTienda(filtro));
    }
    FiltrarSubsecuencia(ts, FiltroTienda(filtro));
  }

  /**
   * A product is listed exactly when it passes both filters. A store filter that `parseInt`
   * cannot read (`NaN`) lists nothing; no store filter and no term list everything.
   */
  lemma ProductosFiltradosEfecto(ps: seq<Producto>, filtroTienda: string, termino: string)
    ensures forall x :: x in ProductosFiltrados(ps, filtroTienda, termino) <==> x in ps && PasaProducto(filtroTienda, termino, x)
    ensures filtroTienda !in {"todos", "activas", "inactivas"} && ParseInt(filtroTienda).None? ==>
      ProductosFiltrados(ps, filtroTienda, termino) == []
    ensures filtroTienda in {"todos", "activas", "inactivas"} && termino == "" ==>
      ProductosFiltrados(ps, filtroTienda, termino) == ps
  {
    forall x ensures x in ProductosFiltrados(ps, filtroTienda, termino) <==> x in ps && PasaProducto(filtroTienda, termino, x) {
      FiltrarMiembro(ps, FiltroProducto(filtroTienda, termino), x);
    }
    if filtroTienda !in {"todos", "activas", "inactivas"} && ParseInt(filtroTienda).None? {
      FiltrarNinguno(ps, FiltroProducto(filtroTienda, termino));
    }
    if filtroTienda in {"todos", "activas", "inactivas"} && termino == "" {
      FiltrarTodos(ps, FiltroProducto(filtroTienda, termino));
    }
  }

  /** `todos` keeps every order; another value keeps exactly the orders in that state, in order. */
  lemma PedidosFiltradosEfecto(ps: seq<Pedido>, filtro: string)
    ensures filtro == "todos" ==> PedidosFiltrados(ps, filtro) == ps
    ensures forall x :: x in PedidosFiltrados(ps, filtro) <==> x in ps && (filtro == "todos" || x.estado == filtro)
    ensures Subsecuencia(PedidosFiltrados(ps, filtro), ps)
  {
    if filtro == "todos" {
      FiltrarTodos(ps, FiltroPedido(filtro));
    }
    forall x ensures x in PedidosFiltrados(ps, filtro) <==> x in ps && (filtro == "todos" || x.estado == filtro) {
      FiltrarMiembro(ps, FiltroPedido(filtro), x);
    }
    FiltrarSubsecuencia(ps, FiltroPedido(filtro));
  }

  // ----- pages -----

  function Max(a: int, b: int): int { if a >= b then a else b }

  function Min(a: int, b: int): int { if a <= b then a else b }

  /** `datos.slice(inicio, fin)`: a negative bound counts from the end, both are clamped to the list. */
  function Rebanar<T>(d: seq<T>, inicio: int, fin: int): (r: seq<T>)
  {
    var a := if inicio < 0 then Max(|d| + inicio, 0) else Min(inicio, |d|);
    var b := if fin < 0 then Max(|d| + fin, 0) else Min(fin, |d|);
    if a < b then d[a..b] else []
  }

  /** `paginarDatos`. */
  function Paginar<T>(d: seq<T>, pagina: int): seq<T>
  {
    Rebanar(d, (pagina - 1) * ItemsPorPagina, (pagina - 1) * ItemsPorPagina + ItemsPorPagina)
  }

  /** `Math.ceil(n / ITEMS_POR_PAGINA)`. */
  function TotalPaginas(n: nat): (r: nat)
    ensures r * ItemsPorPagina >= n && (r == 0 || (r - 1) * ItemsPorPagina < n)
  {
    (n + ItemsPorPagina - 1) / ItemsPorPagina
  }

  /**
   * A page never shows more than ten items. From page 1 on it is the run of the list that
   * starts at `(pagina - 1) * 10`, cut at the list's end; page 0 is always empty.
   */
  lemma PaginaEfecto<T>(d: seq<T>, pagina: int)
    ensures |Paginar(d, pagina)| <= ItemsPorPagina
    ensures pagina >= 1 ==>
      var i := Min((pagina - 1) * ItemsPorPagina, |d|);
      Paginar(d, pagina) == d[i..Min(i + ItemsPorPagina, |d|)]
    ensures pagina == 0 ==> Paginar(d, pagina) == []
    ensures pagina > TotalPaginas(|d|) ==> Paginar(d, pagina) == []
  {
  }

  /** Pages 1 to `k` one after another. */
  function Unir<T>(d: seq<T>, k: nat): seq<T>
  {
    if k == 0 then [] else Unir(d, k - 1) + Paginar(d, k)
  }

  lemma {:induction false} UnirPrefijo<T>(d: seq<T>, k: nat)
    ensures Unir(d, k) == d[..Min(k * ItemsPorPagina, |d|)]
  {
    if k > 0 {
      UnirPrefijo(d, k - 1);
      PaginaEfecto(d, k);
      var i := Min((k - 1) * ItemsPorPagina, |d|);
      assert d[..i] + d[i..Min(k * ItemsPorPagina, |d|)] == d[..Min(k * ItemsPorPagina, |d|)];
    }
  }

  /** Pages 1 to `totalPaginas`, one after another, are the whole list. */
  lemma PaginasCubrenLista<T>(d: seq<T>)
    ensures Unir(d, TotalPaginas(|d|)) == d
  {
    UnirPrefijo(d, TotalPaginas(|d|));
  }

  // ----- statistics -----

  /** The counters of the statistics cards; money in cents. */
  datatype Estadisticas = Estadisticas(
    totalUsuarios: nat, usuariosActivos: nat, usuariosInactivos: nat,
    adminCount: nat, proveedorCount: nat, clienteCount: nat,
    totalTiendas: nat, tiendasActivas: nat, tiendasInactivas: nat,
    totalProductos: nat, productosActivos: nat, productosBasicos: nat, productosNormales: nat, stockTotal: int,
    totalPedidos: nat, pedidosPendientes: nat, pedidosPreparando: nat, pedidosEnTransito: nat,
    pedidosEntregados: nat, pedidosCancelados: nat,
    valorTotalPedidos: int, valorPedidosPendientes: int)

  function Activo(): Usuario -> bool { (u: Usuario) => u.estado }
  function Inactivo(): Usuario -> bool { (u: Usuario) => !u.estado }
  function DeRol(rol: string): Usuario -> bool { (u: Usuario) => u.rol == rol }
  function Abierta(): Tienda -> bool { (t: Tienda) => t.activa }
  function Cerrada(): Tienda -> bool { (t: Tienda) => !t.activa }
  /** `p.activo !== false`: a missing flag counts as active. */
  function NoDesactivado(): Producto -> bool { (p: Producto) => p.activo != Some(false) }
  function EsBasico(): Producto -> bool { (p: Producto) => p.esBasico }
  function EsNormal(): Producto -> bool { (p: Producto) => !p.esBasico }
  /** `p.stock || 0`. */
  function StockDe(p: Producto): int { p.stock.GetOr(0) }
  function EnEstado(e: string): Pedido -> bool { (p: Pedido) => p.estado == e }
  function NoEnEstado(e: string): Pedido -> bool { (p: Pedido) => p.estado != e }
  /** `parseFloat(p.total) || 0`. */
  function TotalDe(p: Pedido): int { p.total.GetOr(0) }

  function Calcular(us: seq<Usuario>, ts: seq<Tienda>, ps: seq<Producto>, pds: seq<Pedido>): Estadisticas
  {
    Estadisticas(
      |us|, |Filtrar(us, Activo())|, |Filtrar(us, Inactivo())|,
      |Filtrar(us, DeRol("admin"))|, |Filtrar(us, DeRol("proveedor"))|, |Filtrar(us, DeRol("cliente"))|,
      |ts|, |Filtrar(ts, Abierta())|, |Filtrar(ts, Cerrada())|,
      |ps|, |Filtrar(ps, NoDesactivado())|, |Filtrar(ps, EsBasico())|, |Filtrar(ps, EsNormal())|, Sumar(ps, StockDe),
      |pds|, |Filtrar(pds, EnEstado("pendiente"))|, |Filtrar(pds, EnEstado("preparando"))|,
      |Filtrar(pds, EnEstado("en_transito"))|, |Filtrar(pds, EnEstado("entregado"))|, |Filtrar(pds, EnEstado("cancelado"))|,
      Sumar(pds, TotalDe), Sumar(Filtrar(pds, EnEstado("pendiente")), TotalDe))
  }

  /**
   * Active and inactive users add up to all users, and likewise stores and basic and normal
   * products; every counter is at most its total; the pending orders' value plus the value of
   * the others is the value of all orders; with no negative stock the stock total is not negative.
   */
  lemma EstadisticasEfecto(us: seq<Usuario>, ts: seq<Tienda>, ps: seq<Producto>, pds: seq<Pedido>)
    ensures var e := Calcular(us, ts, ps, pds);
      && e.usuariosActivos + e.usuariosInactivos == e.totalUsuarios
      && e.adminCount <= e.totalUsuarios && e.proveedorCount <= e.totalUsuarios && e.clienteCount <= e.totalUsuarios
      && e.tiendasActivas + e.tiendasInactivas == e.totalTiendas
      && e.productosBasicos + e.productosNormales == e.totalProductos
      && e.productosActivos <= e.totalProductos
      && e.pedidosPendientes <= e.totalPedidos
      && e.valorPedidosPendientes + Sumar(Filtrar(pds, NoEnEstado("pendiente")), TotalDe) == e.valorTotalPedidos
    ensures (forall i :: 0 <= i < |ps| ==> ps[i].stock.GetOr(0) >= 0) ==> Calcular(us, ts, ps, pds).stockTotal >= 0
  {
    Particion(us, Activo(), Inactivo());
    Particion(ts, Abierta(), Cerrada());
    Particion(ps, EsBasico(), EsNormal());
    ParticionSuma(pds, EnEstado("pendiente"), NoEnEstado("pendiente"), TotalDe);
    if forall i :: 0 <= i < |ps| ==> ps[i].stock.GetOr(0) >= 0 {
      SumarNoNegativa(ps, StockDe);
    }
  }

  // ----- the page -----

  /**
   * What a list load delivers after `res.data.results || res.data`: an array, some other value
   * (shown as an empty list), or a failed call.
   */
  datatype Lectura<T> = Arreglo(s: seq<T>) | NoArreglo | Falla

  /** The four tabs that have a page number. */
  datatype Pestana = PUsuarios | PTiendas | PProductos | PPedidos

  class Tablero {
    var usuarios: seq<Usuario>
    var tiendas: seq<Tienda>
    var productos: seq<Producto>
    var pedidos: seq<Pedido>
    var error: string
    var filtroRol: string
    var filtroEstadoUsuario: string
    var filtroTienda: string
    var filtroEstadoPedido: string
    var searchTerm: string
    var paginaUsuarios: int
    var paginaTiendas: int
    var paginaProductos: int
    var paginaPedidos: int

    /**
     * No control of the page sets the store filter or the order filter, so both stay at
     * `todos`: the store and order lists are never narrowed.
     */
    predicate Valido()
      reads this
    {
      filtroTienda == "todos" && filtroEstadoPedido == "todos"
    }

    function UsuariosPaginados(): seq<Usuario>
      reads this
    {
      Paginar(UsuariosFiltrados(usuarios, filtroRol, filtroEstadoUsuario), paginaUsuarios)
    }

    function ProductosPaginados(): seq<Producto>
      reads this
    {
      Paginar(ProductosFiltrados(productos, filtroTienda, searchTerm), paginaProductos)
    }

    constructor ()
      ensures Valido() && usuarios == [] && tiendas == [] && productos == [] && pedidos == [] && error == ""
      ensures filtroRol == "todos" && filtroEstadoUsuario == "todos" && searchTerm == ""
      ensures paginaUsuarios == 1 && paginaTiendas == 1 && paginaProductos == 1 && paginaPedidos == 1
    {
      usuarios, tiendas, productos, pedidos, error := [], [], [], [], "";
      filtroRol, filtroEstadoUsuario, filtroTienda, filtroEstadoPedido, searchTerm := "todos", "todos", "todos", "todos", "";
      paginaUsuarios, paginaTiendas, paginaProductos, paginaPedidos := 1, 1, 1, 1;
    }

    /** `cargarUsuarios`: an array replaces the list, another value empties it, a failure keeps it. */
    method CargarUsuarios(l: Lectura<Usuario>)
      requires Valido()
      modifies this
      ensures Valido()
      ensures l.Arreglo? ==> usuarios == l.s && error == old(error)
      ensures l.NoArreglo? ==> usuarios == [] && error == old(error)
      ensures l.Falla? ==> usuarios == old(usuarios) && error == "Error al cargar usuarios"
      ensures tiendas == old(tiendas) && productos == old(productos) && pedidos == old(pedidos)
      ensures filtroRol == old(filtroRol) && filtroEstadoUsuario == old(filtroEstadoUsuario) && searchTerm == old(searchTerm)
      ensures paginaUsuarios == old(paginaUsuarios) && paginaTiendas == old(paginaTiendas)
      ensures paginaProductos == old(paginaProductos) && paginaPedidos == old(paginaPedidos)
    {
      match l
      case Arreglo(s) => usuarios := s;
      case NoArreglo => usuarios := [];
      case Falla => error := "Error al cargar usuarios";
    }

    method CargarTiendas(l: Lectura<Tienda>)
      requires Valido()
      modifies this
      ensures Valido()
      ensures l.Arreglo? ==> tiendas == l.s && error == old(error)
      ensures l.NoArreglo? ==> tiendas == [] && error == old(error)
      ensures l.Falla? ==> tiendas == old(tiendas) && error == "Error al cargar tiendas"
      ensures usuarios == old(usuarios) && productos == old(productos) && pedidos == old(pedidos)
      ensures filtroRol == old(filtroRol) && filtroEstadoUsuario == old(filtroEstadoUsuario) && searchTerm == old(searchTerm)
      ensures paginaUsuarios == old(paginaUsuarios) && paginaTiendas == old(paginaTiendas)
      ensures paginaProductos == old(paginaProductos) && paginaPedidos == old(paginaPedidos)
    {
      match l
      case Arreglo(s) => tiendas := s;
      case NoArreglo => tiendas := [];
      case Falla => error := "Error al cargar tiendas";
    }

    method CargarProductos(l: Lectura<Producto>)
      requires Valido()
      modifies this
      ensures Valido()
      ensures l.Arreglo? ==> productos == l.s && error == old(error)
      ensures l.NoArreglo? ==> productos == [] && error == old(error)
      ensures l.Falla? ==> productos == old(productos) && error == "Error al cargar productos"
      ensures usuarios == old(usuarios) && tiendas == old(tiendas) && pedidos == old(pedidos)
      ensures filtroRol == old(filtroRol) && filtroEstadoUsuario == old(filtroEstadoUsuario) && searchTerm == old(searchTerm)
      ensures paginaUsuarios == old(paginaUsuarios) && paginaTiendas == old(paginaTiendas)
      ensures paginaProductos == old(paginaProductos) && paginaPedidos == old(paginaPedidos)
    {
      match l
      case Arreglo(s) => productos := s;
      case NoArreglo => productos := [];
      case Falla => error := "Error al cargar productos";
    }

    method CargarPedidos(l: Lectura<Pedido>)
      requires Valido()
      modifies this
      ensures Valido()
      ensures l.Arreglo? ==> pedidos == l.s && error == old(error)
      ensures l.NoArreglo? ==> pedidos == [] && error == old(error)
      ensures l.Falla? ==> pedidos == old(pedidos) && error == "Error al cargar pedidos"
      ensures usuarios == old(usuarios) && tiendas == old(tiendas) && productos == old(productos)
      ensures filtroRol == old(filtroRol) && filtroEstadoUsuario == old(filtroEstadoUsuario) && searchTerm == old(searchTerm)
      ensures paginaUsuarios == old(paginaUsuarios) && paginaTiendas == old(paginaTiendas)
      ensures paginaProductos == old(paginaProductos) && paginaPedidos == old(paginaPedidos)
    {
      match l
      case Arreglo(s) => pedidos := s;
      case NoArreglo => pedidos := [];
      case Falla => error := "Error al cargar pedidos";
    }

    /** The role selector: the new filter, and the user list back on its first page. */
    method CambiarFiltroRol(v: string)
      requires Valido()
      modifies this
      ensures Valido() && filtroRol == v && paginaUsuarios == 1
      ensures UsuariosPaginados() == Paginar(UsuariosFiltrados(usuarios, v, filtroEstadoUsuario), 1)
      ensures usuarios == old(usuarios) && tiendas == old(tiendas) && productos == old(productos) && pedidos == old(pedidos)
      ensures error == old(error) && filtroEstadoUsuario == old(filtroEstadoUsuario) && searchTerm == old(searchTerm)
      ensures paginaTiendas == old(paginaTiendas) && paginaProductos == old(paginaProductos) && paginaPedidos == old(paginaPedidos)
    {
      filtroRol := v;
      paginaUsuarios := 1;
    }

    /** The state selector: the new filter, and the user list back on its first page. */
    method CambiarFiltroEstadoUsuario(v: string)
      requires Valido()
      modifies this
      ensures Valido() && filtroEstadoUsuario == v && paginaUsuarios == 1
      ensures usuarios == old(usuarios) && tiendas == old(tiendas) && productos == old(productos) && pedidos == old(pedidos)
      ensures error == old(error) && filtroRol == old(filtroRol) && searchTerm == old(searchTerm)
      ensures paginaTiendas == old(paginaTiendas) && paginaProductos == old(paginaProductos) && paginaPedidos == old(paginaPedidos)
    {
      filtroEstadoUsuario := v;
      paginaUsuarios := 1;
    }

    /** The product search box: the new term, and the product list back on its first page. */
    method CambiarBusqueda(t: string)
      requires Valido()
      modifies this
      ensures Valido() && searchTerm == t && paginaProductos == 1
      ensures ProductosPaginados() == Paginar(ProductosFiltrados(productos, "todos", t), 1)
      ensures usuarios == old(usuarios) && tiendas == old(tiendas) && productos == old(productos) && pedidos == old(pedidos)
      ensures error == old(error) && filtroRol == old(filtroRol) && filtroEstadoUsuario == old(filtroEstadoUsuario)
      ensures paginaUsuarios == old(paginaUsuarios) && paginaTiendas == old(paginaTiendas) && paginaPedidos == old(paginaPedidos)
    {
      searchTerm := t;
      paginaProductos := 1;
    }

    /** `onPageChange` of one tab's pager: that tab's page number and nothing else. */
    method IrAPagina(p: Pestana, n: int)
      requires Valido()
      modifies this
      ensures Valido()
      ensures paginaUsuarios == (if p.PUsuarios? then n else old(paginaUsuarios))
      ensures paginaTiendas == (if p.PTiendas? then n else old(paginaTiendas))
      ensures paginaProductos == (if p.PProductos? then n else old(paginaProductos))
      ensures paginaPedidos == (if p.PPedidos? then n else old(paginaPedidos))
      ensures usuarios == old(usuarios) && tiendas == old(tiendas) && productos == old(productos) && pedidos == old(pedidos)
      ensures error == old(error) && filtroRol == old(filtroRol) && filtroEstadoUsuario == old(filtroEstadoUsuario)
      ensures searchTerm == old(searchTerm)
    {
      match p
      case PUsuarios => paginaUsuarios := n;
      case PTiendas => paginaTiendas := n;
      case PProductos => paginaProductos := n;
      case PPedidos => paginaPedidos := n;
    }
  }

  /** Since the store and order filters stay at `todos`, those two tabs list everything, in order. */
  lemma TableroSinFiltros(t: Tablero)
    requires t.Valido()
    ensures TiendasFiltradas(t.tiendas, t.filtroTienda) == t.tiendas
    ensures PedidosFiltrados(t.pedidos, t.filtroEstadoPedido) == t.pedidos
    ensures t.searchTerm == "" ==> ProductosFiltrados(t.productos, t.filtroTienda, t.searchTerm) == t.productos
  {
    TiendasFiltradasEfecto(t.tiendas, t.filtroTienda);
    PedidosFiltradosEfecto(t.pedidos, t.filtroEstadoPedido);
    ProductosFiltradosEfecto(t.productos, t.filtroTienda, t.searchTerm);
  }
}
