/**
 * frontend/src/services/authservices.js: the `authAxios` instance, whose request interceptor
 * attaches the `token` key as a `Bearer` credential and whose response interceptor answers a
 * first 401 by refreshing once through bare axios (which runs no interceptor) and resending;
 * `logout`, which removes the session keys; and `login`, which stores what the reply carries.
 */
module AuthSrc {
  import opened Wrappers
  import opened Http

  const RutaRefresco: string := "/auth/refresh/"
  const RutaLogin: string := "/auth/login/"

  /** The request interceptor: only the header changes, to `Bearer token` when `token` is truthy. */
  function Interceptar(store: map<string, string>, p: Peticion): (q: Peticion)
    ensures q == p.(authorization := q.authorization)
    ensures Truthy(Get(store, "token")) ==> q.authorization == Some(Bearer(store["token"]))
    ensures !Truthy(Get(store, "token")) ==> q == p
  {
    ConCredencial(Token(store, "token"), p)
  }

  /** The refresh call of the interceptor: bare axios, so no header and no `_retry` mark. */
  function PeticionRefresco(refresh: string): Peticion
  {
    Peticion(RutaRefresco, None, false, Some(refresh))
  }

  function Medida(p: Peticion): nat { if p.retry then 0 else 1 }

  /**
   * A request through `authAxios`. At most three requests go out (the request, one refresh call,
   * one resend), and a retried request sends only itself. The store changes in `token` at most
   * (a successful refresh): no key is ever removed, and nothing redirects.
   */
  function Despacho(s: Estado, p: Peticion): (r: (Resultado, Estado))
    ensures s.enviadas <= r.1.enviadas
    ensures |s.enviadas| < |r.1.enviadas| <= |s.enviadas| + (if Medida(p) == 0 then 1 else 3)
    ensures r.1.enviadas[|s.enviadas|] == Interceptar(s.store, p)
    ensures r.1.destino == s.destino
    ensures r.1.store == s.store || ("token" in r.1.store && r.1.store == s.store["token" := r.1.store["token"]])
    decreases Medida(p)
  {
    var q := Interceptar(s.store, p);
    var (resp, s1) := Enviar(s, q);
    if resp.None? then (Rechazada(ErrorRed), s1)
    else if Exitosa(resp.value.status) then (Resuelta(resp.value), s1)
    else if resp.value.status == 401 && !q.retry && Truthy(Get(s1.store, "refresh")) then
      var (r2, s2) := Enviar(s1, PeticionRefresco(s1.store["refresh"]));
      if r2.Some? && Exitosa(r2.value.status) then
        var a := Texto(r2.value.data.access);
        Despacho(s2.(store := s2.store["token" := a]), q.(retry := true, authorization := Some(Bearer(a))))
      else (Rechazada(ErrorRespuesta(resp.value)), s2)
    else (Rechazada(ErrorRespuesta(resp.value)), s1)
  }

  /** `logout`: exactly `token`, `refresh` and `role` are removed. */
  function Salir(store: map<string, string>): (r: map<string, string>)
    ensures forall k :: k in r <==> k in store && k !in {"token", "refresh", "role"}
    ensures forall k :: k in r ==> r[k] == store[k]
  {
    store - {"token", "refresh", "role"}
  }

  /**
   * `login`: a bare POST; a rejected one is thrown as it came and stores nothing. A resolved one
   * writes `token`, `refresh` and `role` each only when the reply's field (`access`, `refresh`,
   * `user.rol`) is truthy, and no other key.
   */
  function Login(s: Estado): (r: (Resultado, Estado))
    ensures r.1.enviadas == s.enviadas + [Peticion(RutaLogin, None, false, None)] && r.1.destino == s.destino
    ensures r.0.Rechazada? ==> r.1.store == s.store
    ensures forall k :: k !in {"token", "refresh", "role"} ==> Get(r.1.store, k) == Get(s.store, k)
    ensures r.0.Resuelta? ==>
      var d := r.0.resp.data;
      && Get(r.1.store, "token") == (if Truthy(d.access) then d.access else Get(s.store, "token"))
      && Get(r.1.store, "refresh") == (if Truthy(d.refresh) then d.refresh else Get(s.store, "refresh"))
      && Get(r.1.store, "role") == (if d.user.Some? && Truthy(d.user.value.rol) then d.user.value.rol else Get(s.store, "role"))
  {
    var (resp, s1) := Enviar(s, Peticion(RutaLogin, None, false, None));
    if resp.None? then (Rechazada(ErrorRed), s1)
    else if !Exitosa(resp.value.status) then (Rechazada(ErrorRespuesta(resp.value)), s1)
    else
      var d := resp.value.data;
      var st1 := if Truthy(d.access) then s1.store["token" := d.access.value] else s1.store;
      var st2 := if Truthy(d.refresh) then st1["refresh" := d.refresh.value] else st1;
      var st3 := if d.user.Some? && Truthy(d.user.value.rol) then st2["role" := d.user.value.rol.value] else st2;
      (Resuelta(resp.value), s1.(store := st3))
  }

  // ----- properties -----

  /**
   * A first 401 with a `refresh` key leads to one refresh call, sent bare (no `Authorization`
   * header) with that key; on a 2xx reply `token` becomes the reply's `access` (the text
   * "undefined" when it is missing) and the request is resent once with that credential.
   */
  lemma RefrescoYReenvio(s: Estado, p: Peticion, r1: Respuesta, r2: Respuesta, resto: seq<Respuesta>)
    requires s.guion == [r1, r2] + resto && r1.status == 401 && !p.retry
    requires Truthy(Get(s.store, "refresh")) && Exitosa(r2.status)
    ensures var e := Despacho(s, p).1.enviadas;
      && |e| == |s.enviadas| + 3
      && e[|s.enviadas| + 1] == PeticionRefresco(s.store["refresh"])
      && e[|s.enviadas| + 2] == Interceptar(s.store, p).(retry := true, authorization := Some(Bearer(Texto(r2.data.access))))
    ensures Get(Despacho(s, p).1.store, "token") == Some(Texto(r2.data.access))
  {
    var q := Interceptar(s.store, p);
    var a := Texto(r2.data.access);
    var s1 := Enviar(s, q).1;
    assert s1.guion == [r2] + resto;
    var s2 := Enviar(s1, PeticionRefresco(s.store["refresh"])).1;
    var s3 := s2.(store := s2.store["token" := a]);
    var q2 := q.(retry := true, authorization := Some(Bearer(a)));
    assert Despacho(s, p) == Despacho(s3, q2);
    assert Interceptar(s3.store, q2) == q2;
  }

  /**
   * Without a `refresh` key, or when the refresh call fails, the original error is rejected
   * and no key is removed: the store is as it was.
   */
  lemma FalloSinBorrar(s: Estado, p: Peticion)
    requires s.guion != [] && s.guion[0].status == 401 && !p.retry
    requires var s1 := Enviar(s, Interceptar(s.store, p)).1;
      !Truthy(Get(s.store, "refresh")) || s1.guion == [] || !Exitosa(s1.guion[0].status)
    ensures Despacho(s, p).0 == Rechazada(ErrorRespuesta(s.guion[0]))
    ensures Despacho(s, p).1.store == s.store
  {
  }

  /** After `logout` no request carries a credential, since `token` is gone. */
  lemma SalirSinCredencial(store: map<string, string>, p: Peticion)
    ensures Interceptar(Salir(store), p) == p
  {
    assert "token" !in Salir(store);
  }

  /** A reply without `access` leaves the credential as it was: `login` never clears it. */
  lemma LoginSinAccess(s: Estado, r: Respuesta)
    requires s.guion != [] && s.guion[0] == r && Exitosa(r.status) && !Truthy(r.data.access)
    ensures Get(Login(s).1.store, "token") == Get(s.store, "token")
  {
  }

  // ----- step by step -----

  /** A request through `authAxios`, both interceptors included. */
  method Solicitar(nav: Navegador, p: Peticion) returns (r: Resultado)
    modifies nav
    ensures (r, nav.Snapshot()) == Despacho(old(nav.Snapshot()), p)
    decreases Medida(p)
  {
    var q := p;
    if Truthy(Get(nav.store, "token")) {
      q := q.(authorization := Some(Bearer(nav.store["token"])));
    }
    var resp := nav.Transporte(q);
    if resp.None? {
      return Rechazada(ErrorRed);
    }
    var res := resp.value;
    if Exitosa(res.status) {
      return Resuelta(res);
    }
    if res.status == 401 && !q.retry {
      q := q.(retry := true);
      var refresh := Get(nav.store, "refresh");
      if Truthy(refresh) {
        var r2 := nav.Transporte(PeticionRefresco(refresh.value));
        if r2.Some? && Exitosa(r2.value.status) {
          var a := Texto(r2.value.data.access);
          nav.SetItem("token", a);
          q := q.(authorization := Some(Bearer(a)));
          r := Solicitar(nav, q);
          return;
        }
      }
    }
    return Rechazada(ErrorRespuesta(res));
  }

  /** `logout`. */
  method CerrarSesion(nav: Navegador)
    modifies nav
    ensures nav.Snapshot() == old(nav.Snapshot()).(store := Salir(old(nav.store)))
  {
    nav.RemoveItem("token");
    nav.RemoveItem("refresh");
    nav.RemoveItem("role");
  }

  /** `login`. */
  method IniciarSesion(nav: Navegador) returns (r: Resultado)
    modifies nav
    ensures (r, nav.Snapshot()) == Login(old(nav.Snapshot()))
  {
    var resp := nav.Transporte(Peticion(RutaLogin, None, false, None));
    if resp.None? {
      return Rechazada(ErrorRed);
    }
    var res := resp.value;
    if !Exitosa(res.status) {
      return Rechazada(ErrorRespuesta(res));
    }
    var d := res.data;
    if Truthy(d.access) {
      nav.SetItem("token", d.access.value);
    }
    if Truthy(d.refresh) {
      nav.SetItem("refresh", d.refresh.value);
    }
    if d.user.Some? && Truthy(d.user.value.rol) {
      nav.SetItem("role", d.user.value.rol.value);
    }
    return Resuelta(res);
  }
}
