/**
 * The notification endpoints of backend/apps/notificaciones/views.py: each user lists only its
 * own notifications, `enviar` validates a message and only simulates sending it, `marcar_leida`
 * marks a notification read once, and `historial` lists one user's notifications, a page at a
 * time, for that user or for staff. The clock is a parameter.
 */
module Notificaciones {
  import opened Wrappers
  import opened Text
  import opened Peticion
  import opened Listas

  datatype Notificacion = Notificacion(usuario: nat, tipo: int, mensaje: string, leida: bool, fechaLectura: Option<int>)

  /** The signed-in user: its key and `is_staff`. */
  datatype Solicitante = Solicitante(id: nat, isStaff: bool)

  /** `get_queryset`: the keys of the requester's own notifications. */
  function Propias(ns: map<int, Notificacion>, usuario: nat): (r: set<int>)
    ensures r <= ns.Keys
  {
    set k | k in ns && ns[k].usuario == usuario
  }

  /**
   * `enviar`, under the viewset's `IsAuthenticated` (an anonymous request is 401): 400 unless `tipo_id`, `mensaje` and `destino` are all present and truthy; 400 when
   * `tipo_id` names no notification type (or cannot be read as a key, which the surrounding
   * `except` turns into a 400 too); otherwise 200. `tipos` is the set of type keys. Nothing is
   * stored in any case: the function has no state to change.
   */
  function Enviar(tipos: set<int>, u: Option<Solicitante>, tipoId: Option<Json>, mensaje: Option<Json>,
                  destino: Option<Json>): (status: int)
    ensures status in {200, 400, 401}
    ensures status == 401 <==> u.None?
    ensures status == 200 <==>
      && u.Some? && tipoId.Some? && mensaje.Some? && destino.Some?
      && Truthy(tipoId.value) && Truthy(mensaje.value) && Truthy(destino.value)
      && PyIntJson(tipoId.value).Ok? && PyIntJson(tipoId.value).value in tipos
  {
    var t := tipoId.GetOr(JNull);
    if u.None? then 401
    else if !(Truthy(t) && Truthy(mensaje.GetOr(JNull)) && Truthy(destino.GetOr(JNull))) then 400
    else
      var k := PyIntJson(t);
      if k.Err? || k.value !in tipos then 400 else 200
  }

  /** A notification after `marcar_leida` at time `ahora`: a read one is left exactly as it was. */
  function Leida(n: Notificacion, ahora: int): (r: Notificacion)
    ensures r.leida
    ensures n.leida ==> r == n
    ensures !n.leida ==> r == n.(leida := true, fechaLectura := Some(ahora))
  {
    if n.leida then n else n.(leida := true, fechaLectura := Some(ahora))
  }

  /** Marking twice is marking once: the first reading time is kept. */
  lemma LeidaIdempotente(n: Notificacion, t1: int, t2: int)
    ensures Leida(Leida(n, t1), t2) == Leida(n, t1)
  {
  }

  /** The notification table. */
  class Bandeja {
    var notificaciones: map<int, Notificacion>

    constructor (ns: map<int, Notificacion>)
      ensures notificaciones == ns
    {
      notificaciones := ns;
    }

    /**
     * `marcar_leida`: an anonymous request is 401 (`IsAuthenticated`); a key outside the
     * requester's own notifications is a 404; neither changes anything; otherwise the notification is marked read at `ahora` unless it already was, and
     * returned (200). No other notification changes.
     */
    method MarcarLeida(u: Option<Solicitante>, id: int, ahora: int) returns (status: int, n: Option<Notificacion>)
      modifies this
      ensures status in {200, 401, 404}
      ensures status == 401 <==> u.None?
      ensures status == 404 <==> u.Some? && id !in Propias(old(notificaciones), u.value.id)
      ensures status != 200 ==> notificaciones == old(notificaciones) && n.None?
      ensures status == 200 ==>
        && n == Some(Leida(old(notificaciones[id]), ahora))
        && notificaciones == old(notificaciones)[id := n.value]
    {
      if u.None? {
        return 401, None;
      }
      if !(id in notificaciones && notificaciones[id].usuario == u.value.id) {
        return 404, None;
      }
      var x := notificaciones[id];
      if !x.leida {
        x := x.(leida := true, fechaLectura := Some(ahora));
        notificaciones := notificaciones[id := x];
      }
      return 200, Some(x);
    }
  }

  // ----- pagination -----

  /**
   * The page size of `CustomPageNumberPagination` (src/backend/pagination.py, the class
   * backend/settings.py makes the default): `?page_size=` when it reads as a positive integer,
   * capped at 10000, and the default 10 for an absent, zero, negative or unreadable value.
   */
  function TamanoPagina(pageSize: Option<string>): (n: nat)
    ensures 1 <= n <= 10000
    ensures (pageSize.None? || PyInt(pageSize.value).None? || PyInt(pageSize.value).value <= 0) ==> n == 10
    ensures pageSize.Some? && PyInt(pageSize.value).Some? && PyInt(pageSize.value).value > 0 ==>
      n == if PyInt(pageSize.value).value < 10000 then PyInt(pageSize.value).value else 10000
  {
    if pageSize.None? then 10
    else
      var v := PyInt(pageSize.value);
      if v.None? || v.value <= 0 then 10
      else if v.value < 10000 then v.value
      else 10000
  }

  /**
   * The pages Django's `Paginator` counts for `total` items, `ceil(total / tamano)`, and at
   * least one even with no items.
   */
  function NumPaginas(total: nat, tamano: nat): (n: nat)
    requires tamano > 0
    ensures n >= 1
  {
    if total == 0 then 1 else (total - 1) / tamano + 1
  }

  /**
   * `?page=`: absent or empty is the first page (`… or 1`) and `last` the last one; text that is
   * not an integer, or an integer outside `1..paginas`, is an invalid page (`None`, which the view
   * answers with 404).
   */
  function NumeroPagina(page: Option<string>, paginas: nat): (r: Option<nat>)
    requires paginas >= 1
    ensures r.Some? ==> 1 <= r.value <= paginas
    ensures page.None? || page == Some("") ==> r == Some(1)
    ensures page == Some("last") ==> r == Some(paginas)
    ensures page.Some? && page.value != "last" && PyInt(page.value).Some? ==>
      (r.Some? <==> 1 <= PyInt(page.value).value <= paginas)
    ensures page.Some? && page.value !in {"", "last"} && r.Some? ==> PyInt(page.value) == Some(r.value as int)
  {
    if page.None? || page.value == "" then Some(1)
    else if page.value == "last" then Some(paginas)
    else
      var n := PyInt(page.value);
      if n.None? || n.value < 1 || n.value > paginas then None else Some(n.value as nat)
  }

  // ----- arithmetic used by the pagination lemmas -----

  lemma MulAlMenos(k: int, b: nat)
    ensures k >= 1 ==> k * b >= b
  {
    if k >= 1 {
      assert k * b == (k - 1) * b + b;
      assert (k - 1) * b >= 0;
    }
  }

  /** Euclidean division has one quotient: `d * b + r` with `0 <= r < b` divides to `d`. */
  lemma DivUnico(m: nat, b: nat, d: nat, r: nat)
    requires b > 0 && r < b && m == d * b + r
    ensures m / b == d
  {
    var q, s := m / b, m % b;
    assert m == q * b + s;
    assert (d - q) * b == s - r;
    MulAlMenos(d - q, b);
    MulAlMenos(q - d, b);
    assert (q - d) * b == r - s;
  }

  lemma DivPaso(y: nat, b: nat)
    requires b > 0 && y >= b
    ensures y / b == (y - b) / b + 1
  {
    var q := (y - b) / b;
    assert y - b == q * b + (y - b) % b;
    assert y == (q + 1) * b + (y - b) % b;
    DivUnico(y, b, q + 1, (y - b) % b);
  }

  lemma {:induction false} DivMono(x: nat, y: nat, b: nat)
    requires b > 0 && x <= y
    ensures x / b <= y / b
  {
    if x >= b {
      DivPaso(x, b);
      DivPaso(y, b);
      DivMono(x - b, y - b, b);
    } else {
      DivUnico(x, b, 0, x);
    }
  }

  /** Page `numero` of `lista`: the slice the paginator cuts for it (no orphans). */
  function Corte(lista: seq<int>, numero: nat, tamano: nat): (r: seq<int>)
    requires numero >= 1
    ensures |r| <= tamano
    ensures forall j :: 0 <= j < |r| ==> Desde(numero, tamano) + j < |lista| && r[j] == lista[Desde(numero, tamano) + j]
  {
    var desde := Desde(numero, tamano);
    var hasta := if desde + tamano < |lista| then desde + tamano else |lista|;
    if desde >= |lista| then [] else lista[desde..hasta]
  }

  /** The list position where page `numero` starts. */
  function Desde(numero: nat, tamano: nat): nat
    requires numero >= 1
  {
    (numero - 1) * tamano
  }

  /** `Notificacion.objects.filter(usuario_id=v)`, in the table's order `orden`. */
  function ListaDe(ns: map<int, Notificacion>, orden: seq<int>, v: int): (r: seq<int>)
    ensures forall k :: k in r <==> k in orden && k in ns && ns[k].usuario as int == v
  {
    var f := (k: int) => k in ns && ns[k].usuario as int == v;
    forall k ensures k in Filtrar(orden, f) <==> k in orden && f(k) {
      FiltrarMiembro(orden, f, k);
    }
    Filtrar(orden, f)
  }

  /** A paginated answer: the status, `count`, and `results` as notification keys. */
  datatype Pagina = Pagina(status: int, count: nat, results: seq<int>)

  /**
   * `historial/<usuario_id>` under the viewset's `IsAuthenticated`: an anonymous request is 401.
   * The path segment is compared as text with the requester's key; unless it is equal or the
   * requester is staff the answer is 403. A staff request for a segment that is not an integer
   * makes the key lookup raise a `ValueError` nobody catches (500). Otherwise the user's
   * notifications, in the table's order `orden`, are paginated: an invalid page is a 404, and a
   * valid one answers the total count and that page's slice (200).
   */
  function Historial(ns: map<int, Notificacion>, orden: seq<int>, u: Option<Solicitante>, usuarioId: string,
                     page: Option<string>, pageSize: Option<string>): (r: Pagina)
    ensures r.status in {200, 401, 403, 404, 500}
    ensures r.status == 401 <==> u.None?
    ensures r.status == 403 <==> u.Some? && NatToString(u.value.id) != usuarioId && !u.value.isStaff
    ensures r.status == 500 <==>
      u.Some? && (NatToString(u.value.id) == usuarioId || u.value.isStaff) && PyInt(usuarioId).None?
    ensures r.status == 404 <==>
      && u.Some? && (NatToString(u.value.id) == usuarioId || u.value.isStaff) && PyInt(usuarioId).Some?
      && var lista := ListaDe(ns, orden, PyInt(usuarioId).value);
      NumeroPagina(page, NumPaginas(|lista|, TamanoPagina(pageSize))).None?
    ensures r.status != 200 ==> r.count == 0 && r.results == []
    ensures r.status == 200 ==>
      var lista := ListaDe(ns, orden, PyInt(usuarioId).value);
      var tamano := TamanoPagina(pageSize);
      var n := NumeroPagina(page, NumPaginas(|lista|, tamano));
      && n.Some? && r.count == |lista| && r.results == Corte(lista, n.value, tamano) && |r.results| <= tamano
  {
    if u.None? then Pagina(401, 0, [])
    else if NatToString(u.value.id) != usuarioId && !u.value.isStaff then Pagina(403, 0, [])
    else
      PyIntOfNatToString(u.value.id);
      var v := PyInt(usuarioId);
      if v.None? then Pagina(500, 0, [])
      else
        var lista := ListaDe(ns, orden, v.value);
        var tamano := TamanoPagina(pageSize);
        var n := NumeroPagina(page, NumPaginas(|lista|, tamano));
        if n.None? then Pagina(404, 0, [])
        else Pagina(200, |lista|, Corte(lista, n.value, tamano))
  }

  /**
   * A requester who is not staff only ever receives its own notifications: every key on any
   * page it gets is one of its own, and the count is the length of its own list.
   */
  lemma HistorialSoloPropio(ns: map<int, Notificacion>, orden: seq<int>, u: Solicitante, usuarioId: string,
                            page: Option<string>, pageSize: Option<string>)
    requires !u.isStaff && Historial(ns, orden, Some(u), usuarioId, page, pageSize).status == 200
    ensures forall k :: k in Historial(ns, orden, Some(u), usuarioId, page, pageSize).results ==> k in Propias(ns, u.id)
    ensures Historial(ns, orden, Some(u), usuarioId, page, pageSize).count == |ListaDe(ns, orden, u.id)|
  {
    var h := Historial(ns, orden, Some(u), usuarioId, page, pageSize);
    assert usuarioId == NatToString(u.id);
    PyIntOfNatToString(u.id);
    var lista := ListaDe(ns, orden, u.id);
    forall k | k in h.results ensures k in Propias(ns, u.id) {
      var j :| 0 <= j < |h.results| && h.results[j] == k;
      assert k in lista;
    }
  }

  /**
   * Pagination loses nothing: the `i`-th notification of the list is item `i % tamano` of page
   * `i / tamano + 1`, for any `?page=` the pager reads as that number. That page exists
   * (`CorteDe`), and its number sent as text is read as such (`PaginaLeida`).
   */
  lemma PaginaDe(ns: map<int, Notificacion>, orden: seq<int>, u: Solicitante, pageSize: Option<string>, i: nat,
                 page: Option<string>)
    requires i < |ListaDe(ns, orden, u.id)|
    requires NumeroPagina(page, NumPaginas(|ListaDe(ns, orden, u.id)|, TamanoPagina(pageSize))) == Some(i / TamanoPagina(pageSize) + 1)
    ensures var lista := ListaDe(ns, orden, u.id);
      var tamano := TamanoPagina(pageSize);
      var r := Historial(ns, orden, Some(u), NatToString(u.id), page, pageSize);
      && r.status == 200 && i % tamano < |r.results| && r.results[i % tamano] == lista[i]
  {
    var lista := ListaDe(ns, orden, u.id);
    var tamano := TamanoPagina(pageSize);
    CorteDe(lista, tamano, i);
    PaginaPropia(ns, orden, u, pageSize, page, i / tamano + 1);
  }

  /** The requester's own path with a page number the pager accepts is answered with that page. */
  lemma PaginaPropia(ns: map<int, Notificacion>, orden: seq<int>, u: Solicitante, pageSize: Option<string>,
                     page: Option<string>, numero: nat)
    requires NumeroPagina(page, NumPaginas(|ListaDe(ns, orden, u.id)|, TamanoPagina(pageSize))) == Some(numero)
    ensures numero >= 1
    ensures Historial(ns, orden, Some(u), NatToString(u.id), page, pageSize) ==
      Pagina(200, |ListaDe(ns, orden, u.id)|, Corte(ListaDe(ns, orden, u.id), numero, TamanoPagina(pageSize)))
  {
    PyIntOfNatToString(u.id);
  }

  /**
   * `?page=` as the client writes it: any text that reads as an integer in range selects that
   * page, decimal digits with surrounding blanks included.
   */
  lemma PaginaLeida(page: string, paginas: nat, n: nat)
    requires 1 <= n <= paginas && PyInt(page) == Some(n as int)
    ensures NumeroPagina(Some(page), paginas) == Some(n)
  {
    assert page != "last" by { assert !IsDigit(Trim("last", Python)[0]); }
  }

  /**
   * An empty `?page=` is no page number at all: one's own history answers 200 with the first
   * page, exactly as without the parameter.
   */
  lemma PaginaVaciaEsPrimera(ns: map<int, Notificacion>, orden: seq<int>, u: Solicitante, pageSize: Option<string>)
    ensures var h := Historial(ns, orden, Some(u), NatToString(u.id), Some(""), pageSize);
      && h == Historial(ns, orden, Some(u), NatToString(u.id), None, pageSize)
      && h == Pagina(200, |ListaDe(ns, orden, u.id)|, Corte(ListaDe(ns, orden, u.id), 1, TamanoPagina(pageSize)))
  {
    PaginaPropia(ns, orden, u, pageSize, Some(""), 1);
    PaginaPropia(ns, orden, u, pageSize, None, 1);
  }

  /** Item `i` of a list is item `i % tamano` of page `i / tamano + 1`, and that page exists. */
  lemma CorteDe(lista: seq<int>, tamano: nat, i: nat)
    requires tamano > 0 && i < |lista|
    ensures i / tamano + 1 <= NumPaginas(|lista|, tamano)
    ensures var r := Corte(lista, i / tamano + 1, tamano); i % tamano < |r| && r[i % tamano] == lista[i]
  {
    DivMono(i, |lista| - 1, tamano);
    Posicion(i, tamano);
    CorteEn(lista, i / tamano + 1, tamano, i % tamano);
  }

  /** Item `i` sits at position `i % tamano` of the page that starts at `Desde(i / tamano + 1, tamano)`. */
  lemma Posicion(i: nat, tamano: nat)
    requires tamano > 0
    ensures Desde(i / tamano + 1, tamano) + i % tamano == i && i % tamano < tamano
  {
    assert i == (i / tamano) * tamano + i % tamano;
  }

  /** Position `m` of page `numero` is item `Desde(numero, tamano) + m`, when the list has it. */
  lemma CorteEn(lista: seq<int>, numero: nat, tamano: nat, m: nat)
    requires numero >= 1 && m < tamano && Desde(numero, tamano) + m < |lista|
    ensures m < |Corte(lista, numero, tamano)| && Corte(lista, numero, tamano)[m] == lista[Desde(numero, tamano) + m]
  {
    var desde := Desde(numero, tamano);
    assert Corte(lista, numero, tamano) == lista[desde..if desde + tamano < |lista| then desde + tamano else |lista|];
  }

  /**
   * A leading zero in the path (`"07"` for user 7) is refused to user 7, though staff asking
   * the same path get user 7's list; a request with no page or size gets the first ten.
   */
  lemma CeroInicial(ns: map<int, Notificacion>, orden: seq<int>)
    ensures Historial(ns, orden, Some(Solicitante(7, false)), "07", None, None).status == 403
    ensures var r := Historial(ns, orden, Some(Solicitante(1, true)), "07", None, None);
      r.status == 200 && r.count == |ListaDe(ns, orden, 7)|
      && r.results == ListaDe(ns, orden, 7)[..if |ListaDe(ns, orden, 7)| < 10 then |ListaDe(ns, orden, 7)| else 10]
  {
    assert NatToString(7) == "7";
    assert PyInt("07") == Some(7) by {
      assert Trim("07", Python) == "07";
      assert DigitsValue("07") == 7 by {
        assert "07"[..1] == "0";
      }
    }
    assert NatToString(1) == "1";
  }
}
