/**
 * The axios instance of prexcol/prexcol/frontend/src/services/api.js: the request interceptor
 * attaches `accessToken` as a `Bearer` credential, and the response interceptor answers a 401 on
 * a request not yet retried by refreshing (through the same instance) and resending once; every
 * other failure is rejected as it came, with no change to the store and no redirect.
 *
 * As written, the refresh call is not exempt from the 401 handling: a 401 from `/auth/refresh/`
 * (an expired refresh token) is itself answered by another refresh call, and so on for as long as
 * the server keeps refusing. `DespachoTalCual`/`RefrescoTalCual` model that code and
 * `RefrescoSinFin` shows the unbounded chain; `Despacho`/`Refresco` exempt the refresh URL, as
 * the src client does, and are what the methods implement.
 */
module ApiPrexcol {
  import opened Wrappers
  import opened Text
  import opened Http

  const RutaRefresco: string := "/auth/refresh/"

  /** `getAccessToken`. */
  function AccessToken(store: map<string, string>): (r: string)
    ensures r != "" <==> Truthy(Get(store, "accessToken"))
    ensures r != "" ==> r == store["accessToken"]
  {
    Token(store, "accessToken")
  }

  /** `getRefreshToken`. */
  function RefreshToken(store: map<string, string>): (r: string)
    ensures r != "" <==> Truthy(Get(store, "refreshToken"))
    ensures r != "" ==> r == store["refreshToken"]
  {
    Token(store, "refreshToken")
  }

  /** The request interceptor: only the header changes, to `Bearer accessToken` when that is not empty. */
  function Interceptar(store: map<string, string>, p: Peticion): (q: Peticion)
    ensures q == p.(authorization := q.authorization)
    ensures AccessToken(store) != "" ==> q.authorization == Some(Bearer(AccessToken(store)))
    ensures AccessToken(store) == "" ==> q == p
  {
    ConCredencial(AccessToken(store), p)
  }

  function PeticionRefresco(store: map<string, string>): Peticion
  {
    Peticion(RutaRefresco, None, false, Some(RefreshToken(store)))
  }

  // ----- the code as written -----

  /**
   * A request as the source handles it. Nothing bounds the nesting but the server: each refresh
   * call answered with 401 starts another refresh call. The script of replies is finite, so the
   * chain ends when it runs out.
   */
  function DespachoTalCual(s: Estado, p: Peticion): (r: (Resultado, Estado))
    ensures s.enviadas <= r.1.enviadas && |s.enviadas| < |r.1.enviadas|
    ensures |r.1.guion| <= |s.guion|
    ensures r.1.destino == s.destino
    decreases |s.guion|, 0
  {
    var q := Interceptar(s.store, p);
    var (resp, s1) := Enviar(s, q);
    if resp.None? then (Rechazada(ErrorRed), s1)
    else if Exitosa(resp.value.status) then (Resuelta(resp.value), s1)
    else if resp.value.status == 401 && !q.retry then
      var (ok, s2) := RefrescoTalCual(s1);
      if ok then DespachoTalCual(s2, q.(retry := true, authorization := Some(Bearer(AccessToken(s2.store)))))
      else (Rechazada(ErrorRespuesta(resp.value)), s2)
    else (Rechazada(ErrorRespuesta(resp.value)), s1)
  }

  /** `refreshToken` as written: the refresh call goes through `DespachoTalCual`. */
  function RefrescoTalCual(s: Estado): (r: (bool, Estado))
    ensures RefreshToken(s.store) == "" ==> r == (false, s)
    ensures s.enviadas <= r.1.enviadas
    ensures |r.1.guion| <= |s.guion|
    ensures r.1.destino == s.destino
    decreases |s.guion|, 1
  {
    if RefreshToken(s.store) == "" then (false, s)
    else
      var (res, s1) := DespachoTalCual(s, PeticionRefresco(s.store));
      if res.Resuelta? && Truthy(res.resp.data.access) then
        (true, s1.(store := s1.store["accessToken" := res.resp.data.access.value]))
      else (false, s1)
  }

  /** `n` copies of `x`. */
  function Repetir<T>(x: T, n: nat): (r: seq<T>)
    ensures |r| == n && forall i :: 0 <= i < n ==> r[i] == x
  {
    if n == 0 then [] else [x] + Repetir(x, n - 1)
  }

  /**
   * With a refresh token stored and a server that answers 401 to everything, a refresh makes
   * one more call to `/auth/refresh/` for every 401 it receives: `n` refusals cost `n + 1`
   * identical refresh calls (the last one finds no reply), so no bound holds for all servers.
   */
  lemma {:induction false} RefrescoSinFin(s: Estado, cuerpo: Cuerpo, n: nat)
    requires RefreshToken(s.store) != "" && s.guion == Repetir(Respuesta(401, cuerpo), n)
    ensures RefrescoTalCual(s) ==
      (false, s.(enviadas := s.enviadas + Repetir(Interceptar(s.store, PeticionRefresco(s.store)), n + 1), guion := []))
    decreases n
  {
    var q := Interceptar(s.store, PeticionRefresco(s.store));
    var s1 := Enviar(s, q).1;
    if n == 0 {
      assert Repetir(q, 1) == [q];
    } else {
      assert s1.guion == Repetir(Respuesta(401, cuerpo), n - 1);
      RefrescoSinFin(s1, cuerpo, n - 1);
      assert s.enviadas + [q] + Repetir(q, n) == s.enviadas + Repetir(q, n + 1);
    }
  }

  /** So a single request can be made to send any number of requests. */
  lemma PeticionSinCota(s: Estado, p: Peticion, cuerpo: Cuerpo, n: nat)
    requires !p.retry && RefreshToken(s.store) != "" && s.guion == Repetir(Respuesta(401, cuerpo), n + 1)
    ensures |DespachoTalCual(s, p).1.enviadas| == |s.enviadas| + n + 2
  {
    var s1 := Enviar(s, Interceptar(s.store, p)).1;
    assert s1.guion == Repetir(Respuesta(401, cuerpo), n);
    RefrescoSinFin(s1, cuerpo, n);
  }

  // ----- the corrected client -----

  /** A call that must not trigger a refresh: the refresh call itself, or one already retried. */
  function Medida(p: Peticion): nat
  {
    if Includes(p.url, RutaRefresco) || p.retry then 0 else 1
  }

  lemma RutaRefrescoMarcada()
    ensures Includes(RutaRefresco, RutaRefresco)
  {
    assert OccursAt(RutaRefresco, RutaRefresco, 0);
    IncludesIsContains(RutaRefresco, RutaRefresco);
  }

  /**
   * A request with the refresh URL exempted from the 401 handling. At most three requests go
   * out whatever the server answers; the store only ever changes by a successful refresh, and
   * the browser is never redirected.
   */
  function Despacho(s: Estado, p: Peticion): (r: (Resultado, Estado))
    ensures s.enviadas <= r.1.enviadas
    ensures |s.enviadas| < |r.1.enviadas| <= |s.enviadas| + (if Medida(p) == 0 then 1 else 3)
    ensures r.1.enviadas[|s.enviadas|] == Interceptar(s.store, p)
    ensures |r.1.guion| <= |s.guion|
    ensures r.1.destino == s.destino
    ensures r.1.store == s.store || ("accessToken" in r.1.store && r.1.store == s.store["accessToken" := r.1.store["accessToken"]])
    ensures Medida(p) == 0 ==> r.1.store == s.store
    decreases Medida(p), 2
  {
    var q := Interceptar(s.store, p);
    var (resp, s1) := Enviar(s, q);
    if resp.None? then (Rechazada(ErrorRed), s1)
    else if Exitosa(resp.value.status) then (Resuelta(resp.value), s1)
    else if resp.value.status == 401 && !q.retry && !Includes(q.url, RutaRefresco) then
      var (ok, s2) := Refresco(s1);
      if ok then Despacho(s2, q.(retry := true, authorization := Some(Bearer(AccessToken(s2.store)))))
      else (Rechazada(ErrorRespuesta(resp.value)), s2)
    else (Rechazada(ErrorRespuesta(resp.value)), s1)
  }

  /**
   * `refreshToken` through `Despacho`: `false` at once with no refresh token; `true` only when
   * the reply carries a non-empty `access`, after storing it as `accessToken` and nothing else.
   */
  function Refresco(s: Estado): (r: (bool, Estado))
    ensures RefreshToken(s.store) == "" ==> r == (false, s)
    ensures s.enviadas <= r.1.enviadas && |r.1.enviadas| <= |s.enviadas| + 1
    ensures |r.1.guion| <= |s.guion|
    ensures r.1.destino == s.destino
    ensures !r.0 ==> r.1.store == s.store
    ensures r.0 ==>
      && "accessToken" in r.1.store && r.1.store["accessToken"] != ""
      && r.1.store == s.store["accessToken" := r.1.store["accessToken"]]
    decreases 1, 1
  {
    if RefreshToken(s.store) == "" then (false, s)
    else
      RutaRefrescoMarcada();
      var (res, s1) := Despacho(s, PeticionRefresco(s.store));
      if res.Resuelta? && Truthy(res.resp.data.access) then
        (true, s1.(store := s1.store["accessToken" := res.resp.data.access.value]))
      else (false, s1)
  }

  /** The corrected client differs from the written one only on a 401 from the refresh URL. */
  lemma CorreccionSoloEnRefresco(s: Estado, p: Peticion)
    requires !Includes(p.url, RutaRefresco) && p.retry
    ensures Despacho(s, p) == DespachoTalCual(s, p)
  {
  }

  /**
   * Under the correction a server that refuses everything costs a request two calls at most
   * (itself and one refresh call), whatever number of refusals it has in store.
   */
  lemma RechazoAcotado(s: Estado, p: Peticion, cuerpo: Cuerpo, n: nat)
    requires !Includes(p.url, RutaRefresco) && !p.retry && s.guion == Repetir(Respuesta(401, cuerpo), n + 2)
    ensures Despacho(s, p).0 == Rechazada(ErrorRespuesta(Respuesta(401, cuerpo)))
    ensures |Despacho(s, p).1.enviadas| == |s.enviadas| + (if RefreshToken(s.store) == "" then 1 else 2)
    ensures Despacho(s, p).1.store == s.store
  {
    var q := Interceptar(s.store, p);
    var s1 := Enviar(s, q).1;
    assert s1.guion == Repetir(Respuesta(401, cuerpo), n + 1);
    if RefreshToken(s.store) != "" {
      RutaRefrescoMarcada();
      var s2 := Enviar(s1, Interceptar(s1.store, PeticionRefresco(s1.store))).1;
      assert Despacho(s1, PeticionRefresco(s1.store)) == (Rechazada(ErrorRespuesta(Respuesta(401, cuerpo))), s2);
    }
  }

  /**
   * A first 401 with no refresh token stored makes no refresh call: the original error is
   * rejected after that one request, and the store is unchanged.
   */
  lemma SinRefreshSeRechaza(s: Estado, p: Peticion)
    requires s.guion != [] && s.guion[0].status == 401 && RefreshToken(s.store) == ""
    ensures Despacho(s, p) == (Rechazada(ErrorRespuesta(s.guion[0])),
                               s.(enviadas := s.enviadas + [Interceptar(s.store, p)], guion := s.guion[1..]))
  {
  }

  /** A failed refresh rejects the original error, with the store as it was and no redirect. */
  lemma RefrescoFallidoRechaza(s: Estado, p: Peticion)
    requires s.guion != [] && s.guion[0].status == 401 && Medida(p) == 1
    requires !Refresco(Enviar(s, Interceptar(s.store, p)).1).0
    ensures Despacho(s, p).0 == Rechazada(ErrorRespuesta(s.guion[0]))
    ensures Despacho(s, p).1.store == s.store && Despacho(s, p).1.destino == s.destino
  {
  }

  /**
   * A successful refresh stores the new token as `accessToken` only, and the resend carries it
   * and the `_retry` mark.
   */
  lemma RefrescoYReenvio(s: Estado, p: Peticion, r1: Respuesta, r2: Respuesta, resto: seq<Respuesta>)
    requires s.guion == [r1, r2] + resto && r1.status == 401 && Medida(p) == 1
    requires RefreshToken(s.store) != "" && Exitosa(r2.status) && Truthy(r2.data.access)
    ensures var e := Despacho(s, p).1.enviadas;
      && |e| == |s.enviadas| + 3
      && e[|s.enviadas| + 1] == Interceptar(s.store, PeticionRefresco(s.store))
      && e[|s.enviadas| + 2] == Interceptar(s.store, p).(retry := true, authorization := Some(Bearer(r2.data.access.value)))
    ensures Despacho(s, p).1.store == s.store["accessToken" := r2.data.access.value]
  {
    var q := Interceptar(s.store, p);
    var s1 := Enviar(s, q).1;
    assert s1.guion == [r2] + resto;
    RutaRefrescoMarcada();
    var a := r2.data.access.value;
    var s2 := Refresco(s1).1;
    var d := Despacho(s1, PeticionRefresco(s1.store));
    assert d.0 == Resuelta(r2);
    assert s2.store == s1.store["accessToken" := a];
    var q2 := q.(retry := true, authorization := Some(Bearer(a)));
    assert Despacho(s, p) == Despacho(s2, q2);
    assert Interceptar(s2.store, q2) == q2;
  }

  // ----- the interceptors, step by step -----

  /** A request through the instance, the refresh URL exempted. */
  method Solicitar(nav: Navegador, p: Peticion) returns (r: Resultado)
    modifies nav
    ensures (r, nav.Snapshot()) == Despacho(old(nav.Snapshot()), p)
    decreases Medida(p), 2
  {
    var q := p;
    var token := AccessToken(nav.store);
    if token != "" {
      q := q.(authorization := Some(Bearer(token)));
    }
    var resp := nav.Transporte(q);
    if resp.None? {
      return Rechazada(ErrorRed);
    }
    var res := resp.value;
    if Exitosa(res.status) {
      return Resuelta(res);
    }
    if res.status == 401 && !q.retry && !Includes(q.url, RutaRefresco) {
      q := q.(retry := true);
      var ok := Refrescar(nav);
      if ok {
        q := q.(authorization := Some(Bearer(AccessToken(nav.store))));
        r := Solicitar(nav, q);
        return;
      }
    }
    return Rechazada(ErrorRespuesta(res));
  }

  /** `refreshToken`. */
  method Refrescar(nav: Navegador) returns (ok: bool)
    modifies nav
    ensures (ok, nav.Snapshot()) == Refresco(old(nav.Snapshot()))
    decreases 1, 1
  {
    var refresh := RefreshToken(nav.store);
    if refresh == "" {
      return false;
    }
    RutaRefrescoMarcada();
    var resp := Solicitar(nav, Peticion(RutaRefresco, None, false, Some(refresh)));
    if !(resp.Resuelta? && Truthy(resp.resp.data.access)) {
      return false;
    }
    nav.SetItem("accessToken", resp.resp.data.access.value);
    return true;
  }
}
