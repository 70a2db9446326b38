/**
 * The page that sets a new password from an e-mailed link (frontend/src/pages/ResetPassword.jsx):
 * three checks on the two typed fields, run in order, then one request to the reset endpoint
 * of the link's `uid` and `token`.
 */
module ResetPassword {
  import opened Wrappers

  const CamposVacios := "Por favor completa todos los campos"
  const Corta := "La contraseña debe tener al menos 6 caracteres"
  const NoCoinciden := "Las contraseñas no coinciden"
  const Actualizada := "✓ ¡Contraseña actualizada! Ahora puedes iniciar sesión con tu nueva contraseña. Redirigiendo..."
  const Expirado := "Token inválido o expirado. Solicita un nuevo enlace."

  /** The first check that fails, in the order empty field, length, match; `None` when all pass. */
  function Validar(password: string, confirmPassword: string): Option<string>
  {
    if password == "" || confirmPassword == "" then Some(CamposVacios)
    else if |password| < 6 then Some(Corta)
    else if password != confirmPassword then Some(NoCoinciden)
    else None
  }

  /**
   * The checks pass exactly for a non-empty password of at least 6 characters equal to its
   * confirmation, and each message is given only when the earlier checks pass.
   */
  lemma ValidarEfecto(password: string, confirmPassword: string)
    ensures Validar(password, confirmPassword).None? <==> |password| >= 6 && password == confirmPassword
    ensures Validar(password, confirmPassword) == Some(CamposVacios) <==> password == "" || confirmPassword == ""
    ensures Validar(password, confirmPassword) == Some(Corta) <==> password != "" && confirmPassword != "" && |password| < 6
    ensures Validar(password, confirmPassword) == Some(NoCoinciden) <==>
      password != "" && confirmPassword != "" && |password| >= 6 && password != confirmPassword
  {
  }

  /** The path `/auth/reset-password/${uid}/${token}/`. */
  function Ruta(uid: string, token: string): string { "/auth/reset-password/" + uid + "/" + token + "/" }

  /** `a || b` on an optional text. */
  function O(a: Option<string>, b: string): string { if a.Some? && a.value != "" then a.value else b }

  /** A failed request: the reply's `error` and `detail`, each possibly absent. */
  datatype Fallo = Fallo(error: Option<string>, detail: Option<string>)

  /** `error || detail || "Token inválido o expirado…"`. */
  function MensajeDeFallo(f: Fallo): string { O(f.error, O(f.detail, Expirado)) }

  lemma MensajeDeFalloEfecto(f: Fallo)
    ensures f.error.Some? && f.error.value != "" ==> MensajeDeFallo(f) == f.error.value
    ensures (f.error.None? || f.error.value == "") && f.detail.Some? && f.detail.value != "" ==> MensajeDeFallo(f) == f.detail.value
    ensures MensajeDeFallo(f) != ""
  {
  }

  datatype Envio = Envio(ruta: string, password: string)

  class Pagina {
    var password: string
    var confirmPassword: string
    var loading: bool
    var error: string
    var success: string

    constructor ()
      ensures password == "" && confirmPassword == "" && !loading && error == "" && success == ""
    {
      password, confirmPassword, loading, error, success := "", "", false, "", "";
    }

    /**
     * `handleSubmit`: a failed check shows its message and sends nothing. Otherwise the typed
     * password goes to the link's reset path once; success shows the confirmation and clears
     * both fields, a failure shows the reply's message and keeps them.
     */
    method HandleSubmit(uid: string, token: string, r: Result<(), Fallo>) returns (enviado: Option<Envio>)
      modifies this
      ensures Validar(old(password), old(confirmPassword)).Some? ==>
        && enviado == None && error == Validar(old(password), old(confirmPassword)).value && success == ""
        && password == old(password) && confirmPassword == old(confirmPassword) && loading == old(loading)
      ensures Validar(old(password), old(confirmPassword)).None? ==>
        enviado == Some(Envio(Ruta(uid, token), old(password))) && !loading
      ensures Validar(old(password), old(confirmPassword)).None? && r.Ok? ==>
        success == Actualizada && error == "" && password == "" && confirmPassword == ""
      ensures Validar(old(password), old(confirmPassword)).None? && r.Err? ==>
        && success == "" && error == MensajeDeFallo(r.error)
        && password == old(password) && confirmPassword == old(confirmPassword)
    {
      error := "";
      success := "";
      if password == "" || confirmPassword == "" {
        error := CamposVacios;
        return None;
      }
      if |password| < 6 {
        error := Corta;
        return None;
      }
      if password != confirmPassword {
        error := NoCoinciden;
        return None;
      }
      loading := true;
      enviado := Some(Envio(Ruta(uid, token), password));
      if r.Ok? {
        success := Actualizada;
        password := "";
        confirmPassword := "";
      } else {
        error := MensajeDeFallo(r.error);
      }
      loading := false;
    }
  }
}
