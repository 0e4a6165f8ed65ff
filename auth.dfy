/** The admin session: three `localStorage` keys written by a login against a fixed credential
    pair, read by a lazily checked 24-hour expiry that clears them, and removed by a logout. */
module Auth {
  import opened Wrappers
  import opened Texto

  const ADMIN_EMAIL := "admin@tecnomadas.com"
  const ADMIN_PASSWORD := "admin123"

  const CLAVE_TOKEN := "admin_token"
  const CLAVE_EMAIL := "admin_email"
  const CLAVE_LOGIN := "admin_login_time"

  /** The three keys a session occupies. */
  const CLAVES: set<string> := {CLAVE_TOKEN, CLAVE_EMAIL, CLAVE_LOGIN}

  /** `24 * 60 * 60 * 1000` milliseconds. */
  const VEINTICUATRO_HORAS := 86400000

  const ERROR_CREDENCIALES := "Credenciales incorrectas"

  /** What `getAdminInfo` reports: the stored email (`null` when absent) and the login time
      (`null` when absent or empty; otherwise what `parseInt` reads from it). */
  datatype AdminInfo = AdminInfo(email: Option<string>, loginTime: Option<Numero>)

  /** The session token for `email` logged in at `ahora` (an opaque value: its encoding is not
      part of this model). */
  function Token(email: string, ahora: nat): string
  {
    email + ":" + NatToString(ahora)
  }

  predicate CredencialesValidas(email: string, password: string)
  {
    email == ADMIN_EMAIL && password == ADMIN_PASSWORD
  }

  /** `localStorage.getItem(k)` is truthy: the key is present and not empty. */
  predicate Presente(s: map<string, string>, k: string)
  {
    k in s && s[k] != ""
  }

  /** The storage after a successful login at `ahora`. */
  function IniciarSesion(s: map<string, string>, email: string, ahora: nat): (r: map<string, string>)
    ensures r.Keys == s.Keys + CLAVES
    ensures r[CLAVE_TOKEN] == Token(email, ahora) && r[CLAVE_EMAIL] == email
    ensures ParseNumero(r[CLAVE_LOGIN]) == Valor(ahora)
    ensures forall k :: k in s && k !in CLAVES ==> r[k] == s[k]
  {
    IntToStringRoundTrip(ahora);
    s[CLAVE_TOKEN := Token(email, ahora)][CLAVE_EMAIL := email][CLAVE_LOGIN := NatToString(ahora)]
  }

  /** The storage after `logoutAdmin`. */
  function CerrarSesion(s: map<string, string>): (r: map<string, string>)
    ensures r.Keys == s.Keys - CLAVES
    ensures forall k :: k in r ==> r[k] == s[k]
  {
    s - CLAVES
  }

  /** The stored session has a token and a login time, and more than 24 hours have passed
      since that login time. A login time that `parseInt` cannot read compares as NaN, and a
      comparison with NaN is false, so such a session never expires. */
  predicate Expirada(s: map<string, string>, ahora: int)
  {
    && Presente(s, CLAVE_TOKEN) && Presente(s, CLAVE_LOGIN)
    && match ParseNumero(s[CLAVE_LOGIN])
       case Valor(t) => ahora - t > VEINTICUATRO_HORAS
       case NaN => false
  }

  /** What `isAdminLoggedIn` answers. */
  predicate SesionValida(s: map<string, string>, ahora: int)
  {
    Presente(s, CLAVE_TOKEN) && Presente(s, CLAVE_LOGIN) && !Expirada(s, ahora)
  }

  /** `getAdminInfo` on the storage `s`. */
  function InfoAdmin(s: map<string, string>): (r: AdminInfo)
    ensures r.email.Some? <==> CLAVE_EMAIL in s
    ensures r.email.Some? ==> r.email.value == s[CLAVE_EMAIL]
    ensures r.loginTime.Some? <==> Presente(s, CLAVE_LOGIN)
    ensures r.loginTime.Some? ==> r.loginTime.value == ParseNumero(s[CLAVE_LOGIN])
  {
    AdminInfo(
      if CLAVE_EMAIL in s then Some(s[CLAVE_EMAIL]) else None,
      if Presente(s, CLAVE_LOGIN) then Some(ParseNumero(s[CLAVE_LOGIN])) else None)
  }

  /** A session started at `t0` is valid at `ahora` exactly when at most 24 hours have passed
      (so still valid at exactly 24 hours), and `getAdminInfo` reports its email and `t0`. */
  lemma {:induction false} LoginLuegoValida(s: map<string, string>, email: string, t0: nat, ahora: int)
    requires email != ""
    ensures SesionValida(IniciarSesion(s, email, t0), ahora) <==> ahora - t0 <= VEINTICUATRO_HORAS
    ensures InfoAdmin(IniciarSesion(s, email, t0)) == AdminInfo(Some(email), Some(Valor(t0)))
  {
    var r := IniciarSesion(s, email, t0);
    assert r[CLAVE_TOKEN] != "" by {
      assert |r[CLAVE_TOKEN]| >= |email|;
    }
    assert r[CLAVE_LOGIN] != "" by {
      if r[CLAVE_LOGIN] == "" {
        DigitPrefixOfDigits("");
      }
    }
  }

  /** After a logout no session is valid and `getAdminInfo` reports nothing; logging out again
      changes nothing. */
  lemma LogoutSpec(s: map<string, string>, ahora: int)
    ensures !SesionValida(CerrarSesion(s), ahora)
    ensures InfoAdmin(CerrarSesion(s)) == AdminInfo(None, None)
    ensures CerrarSesion(CerrarSesion(s)) == CerrarSesion(s)
  {
    assert CLAVE_TOKEN in CLAVES && CLAVE_EMAIL in CLAVES && CLAVE_LOGIN in CLAVES;
  }

  /** An expired session is not valid, and once it is cleared it stays invalid. */
  lemma ExpiradaNoValida(s: map<string, string>, ahora: int)
    requires Expirada(s, ahora)
    ensures !SesionValida(s, ahora) && !SesionValida(CerrarSesion(s), ahora)
  {
    LogoutSpec(s, ahora);
  }

  class AdminSession {
    /** The browser's `localStorage`. */
    var storage: map<string, string>

    constructor (inicial: map<string, string>)
      ensures storage == inicial
    {
      storage := inicial;
    }

    /** `loginAdmin`: with the fixed credential pair, stores the token, the email and the login
        time `ahora` and returns the token; otherwise writes nothing and fails. */
    method LoginAdmin(email: string, password: string, ahora: nat) returns (r: Result<string>)
      modifies this
      ensures CredencialesValidas(email, password) ==>
        r == Ok(Token(email, ahora)) && storage == IniciarSesion(old(storage), email, ahora)
      ensures !CredencialesValidas(email, password) ==>
        r == Err(ERROR_CREDENCIALES) && storage == old(storage)
    {
      if email == ADMIN_EMAIL && password == ADMIN_PASSWORD {
        var token := Token(email, ahora);
        storage := storage[CLAVE_TOKEN := token];
        storage := storage[CLAVE_EMAIL := email];
        storage := storage[CLAVE_LOGIN := NatToString(ahora)];
        r := Ok(token);
      } else {
        r := Err(ERROR_CREDENCIALES);
      }
    }

    /** `logoutAdmin`: removes the three keys. */
    method LogoutAdmin()
      modifies this
      ensures storage == CerrarSesion(old(storage))
    {
      storage := storage - {CLAVE_TOKEN};
      storage := storage - {CLAVE_EMAIL};
      storage := storage - {CLAVE_LOGIN};
    }

    /** `isAdminLoggedIn` at clock `ahora`: false without a token or a login time; false, after
        a logout, when the session has expired; true otherwise, and then nothing changes. */
    method IsAdminLoggedIn(ahora: int) returns (r: bool)
      modifies this
      ensures r == SesionValida(old(storage), ahora)
      ensures storage == if Expirada(old(storage), ahora) then CerrarSesion(old(storage)) else old(storage)
    {
      if !(CLAVE_TOKEN in storage && storage[CLAVE_TOKEN] != "")
         || !(CLAVE_LOGIN in storage && storage[CLAVE_LOGIN] != "") {
        return false;
      }
      var loginTimestamp := ParseNumero(storage[CLAVE_LOGIN]);
      if loginTimestamp.Valor? && ahora - loginTimestamp.n > VEINTICUATRO_HORAS {
        LogoutAdmin();
        return false;
      }
      return true;
    }

    /** `getAdminInfo`: reads the email and the login time and changes nothing. */
    method GetAdminInfo() returns (info: AdminInfo)
      ensures info == InfoAdmin(storage)
    {
      var email := if CLAVE_EMAIL in storage then Some(storage[CLAVE_EMAIL]) else None;
      var loginTime := if CLAVE_LOGIN in storage && storage[CLAVE_LOGIN] != ""
                       then Some(ParseNumero(storage[CLAVE_LOGIN])) else None;
      info := AdminInfo(email, loginTime);
    }

    /** `useAdminAuth`: the login check first (which may clear an expired session), then the
        info, read from what the check left. */
    method UseAdminAuth(ahora: int) returns (isLoggedIn: bool, adminInfo: AdminInfo)
      modifies this
      ensures isLoggedIn == SesionValida(old(storage), ahora)
      ensures storage == if Expirada(old(storage), ahora) then CerrarSesion(old(storage)) else old(storage)
      ensures adminInfo == InfoAdmin(storage)
      ensures Expirada(old(storage), ahora) ==> adminInfo == AdminInfo(None, None)
    {
      isLoggedIn := IsAdminLoggedIn(ahora);
      adminInfo := GetAdminInfo();
      if Expirada(old(storage), ahora) {
        LogoutSpec(old(storage), ahora);
      }
    }
  }
}
