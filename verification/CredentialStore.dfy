/** Saving and refreshing provider credentials: what one call does to the row it works on. */
module CredentialStore {
  import opened Wrappers
  import opened JsonText

  /** A stored credential; the three tokens are ciphertexts. */
  datatype Row = Row(
    user: nat, account: string, email: string, typ: string,
    access: string, refresh: string, idToken: string,
    expired: Option<int>, lastRefresh: Option<int>)

  /** What the provider hands out; an absent refresh or ID token is "". */
  datatype Token = Token(access: string, refresh: string, idToken: string, expiry: Option<int>)

  /** A verified ID token's nonce, account and e-mail address. */
  datatype Claims = Claims(nonce: string, account: string, email: string)

  datatype Flow = Flow(provider: string, user: nat, nonce: string)

  /** Encryption (with the random nonce as an argument), decryption, and ID token verification. */
  datatype Library = Library(
    encrypt: (nat, string) -> string,
    decrypt: string -> Option<string>,
    verify: string -> Option<Claims>)

  ghost predicate Lawful(lib: Library) {
    forall n, p :: lib.decrypt(lib.encrypt(n, p)) == Some(p)
  }

  datatype Error =
    | ProviderUnavailable | UpstreamUnavailable | BadCiphertext | RefreshRejected | ProviderFailed
    | RefreshFailed | InvalidIdToken | InvalidState | EncryptionFailed

  predicate Usable(t: Token, now: int) {
    !Blank(t.access) && (t.expiry.Some? ==> t.expiry.value > now)
  }

  /** The ID token of a row decrypts to one that was verified for the account of that row. */
  ghost predicate IdentityKept(lib: Library, r: Row) {
    var raw := lib.decrypt(r.idToken);
    raw.Some? && lib.verify(raw.value).Some? && lib.verify(raw.value).value.account == r.account
  }

  predicate SameOwnerAndAccount(a: Row, b: Row) {
    a.user == b.user && a.account == b.account && a.email == b.email && a.typ == b.typ
  }

  // ---- refresh ---------------------------------------------------------------------------------

  /** The refresh token a row would present, if there is one to present. */
  function Presents(lib: Library, r: Row): Option<string> {
    if r.typ != "codex" then None
    else
      var plain := lib.decrypt(r.refresh);
      if plain.Some? && !Blank(plain.value) then plain else None
  }

  predicate Acceptable(lib: Library, r: Row, t: Token, now: int) {
    && Usable(t, now)
    && (t.idToken != "" ==> lib.verify(t.idToken).Some? && lib.verify(t.idToken).value.account == r.account)
  }

  /** Why a refresh is refused, checked in this order; `None` if it is not. `auth` is the error of looking up
      the provider's configuration, `outage` that of the ID token verification service. */
  function RefreshVerdict(lib: Library, r: Row, auth: Option<Error>, answer: string -> Result<Token, Error>,
                          outage: Option<Error>, now: int): Option<Error> {
    if r.typ != "codex" then Some(ProviderUnavailable)
    else if auth.Some? then auth
    else
      var plain := lib.decrypt(r.refresh);
      if plain.None? then Some(BadCiphertext)
      else if Blank(plain.value) then Some(RefreshRejected)
      else
        match answer(plain.value)
        case Err(e) => Some(e)
        case Ok(t) =>
          if !Usable(t, now) then Some(RefreshFailed)
          else if !Acceptable(lib, r, t, now) || (t.idToken != "" && outage.Some?) then Some(InvalidIdToken)
          else None
  }

  /** The reasons for which a refresh is refused, in the order in which they are found. */
  lemma RefreshAnswers(lib: Library, r: Row, auth: Option<Error>, answer: string -> Result<Token, Error>,
                       outage: Option<Error>, now: int)
    ensures var v := RefreshVerdict(lib, r, auth, answer, outage, now);
            if r.typ != "codex" then v == Some(ProviderUnavailable)
            else if auth.Some? then v == auth
            else
              match lib.decrypt(r.refresh)
              case None => v == Some(BadCiphertext)
              case Some(p) =>
                if Trim(p) == "" then v == Some(RefreshRejected)
                else
                  match answer(p)
                  case Err(e) => v == Some(e)
                  case Ok(t) =>
                    if Trim(t.access) == "" || (t.expiry.Some? && t.expiry.value <= now) then v == Some(RefreshFailed)
                    else if t.idToken == "" then v == None
                    else if outage == None && lib.verify(t.idToken).Some? &&
                            lib.verify(t.idToken).value.account == r.account then v == None
                    else v == Some(InvalidIdToken)
  {
    if lib.decrypt(r.refresh).Some? {
      var p := lib.decrypt(r.refresh).value;
      BlankTrims(p);
      if answer(p).Ok? {
        BlankTrims(answer(p).value.access);
      }
    }
  }

  /** What a row presents: its decrypted refresh token, unless there is nothing in it. */
  lemma PresentsExactly(lib: Library, r: Row, p: string)
    ensures Presents(lib, r) == Some(p) <==> r.typ == "codex" && lib.decrypt(r.refresh) == Some(p) && Trim(p) != ""
  {
    BlankTrims(p);
  }

  /** A refresh goes through exactly if the row has a token to present and the answer to it is acceptable. */
  lemma RefreshAccepted(lib: Library, r: Row, auth: Option<Error>, answer: string -> Result<Token, Error>,
                        outage: Option<Error>, now: int)
    ensures RefreshVerdict(lib, r, auth, answer, outage, now) == None <==>
            && auth.None? && Presents(lib, r).Some? && answer(Presents(lib, r).value).Ok?
            && var t := answer(Presents(lib, r).value).value;
               Acceptable(lib, r, t, now) && (t.idToken != "" ==> outage.None?)
  {
  }

  /** The row after a provider's answer: omitted tokens keep their previous values. */
  function Refreshed(lib: Library, r: Row, t: Token, now: int, nonce: nat): Row {
    r.(access := lib.encrypt(nonce, t.access),
       refresh := if t.refresh == "" then r.refresh else lib.encrypt(nonce + 1, t.refresh),
       idToken := if t.idToken == "" then r.idToken else lib.encrypt(nonce + 2, t.idToken),
       expired := t.expiry,
       lastRefresh := Some(now))
  }

  /** The in-memory copy of a row that a refresh works on. */
  class Model {
    const user: nat
    const account: string
    const email: string
    const typ: string
    var access: string
    var refresh: string
    var idToken: string
    var expired: Option<int>
    var lastRefresh: Option<int>

    constructor (r: Row)
      ensures View() == r
    {
      user, account, email, typ := r.user, r.account, r.email, r.typ;
      access, refresh, idToken, expired, lastRefresh := r.access, r.refresh, r.idToken, r.expired, r.lastRefresh;
    }

    function View(): Row
      reads this
    {
      Row(user, account, email, typ, access, refresh, idToken, expired, lastRefresh)
    }

    /** `answer` is what the provider replies to a presented token. */
    method RefreshTokenCredentials(lib: Library, auth: Option<Error>, answer: string -> Result<Token, Error>,
                                   outage: Option<Error>, now: int, nonce: nat, fails: nat -> bool)
      returns (err: Option<Error>)
      modifies this
      ensures var verdict := RefreshVerdict(lib, old(View()), auth, answer, outage, now);
              && (err == verdict || (verdict == None && err == Some(EncryptionFailed) && exists n :: fails(n)))
              && (verdict.Some? ==> View() == old(View()))
      ensures err.None? ==>
                && Presents(lib, old(View())).Some? && answer(Presents(lib, old(View())).value).Ok?
                && var t := answer(Presents(lib, old(View())).value).value;
                   Acceptable(lib, old(View()), t, now) && View() == Refreshed(lib, old(View()), t, now, nonce)
      ensures SameOwnerAndAccount(View(), old(View()))
    {
      RefreshAccepted(lib, View(), auth, answer, outage, now);
      if typ != "codex" {
        return Some(ProviderUnavailable);
      }
      if auth.Some? {
        return auth;
      }
      var plain := lib.decrypt(refresh);
      if plain.None? {
        return Some(BadCiphertext);
      }
      if Blank(plain.value) {
        return Some(RefreshRejected);
      }
      var reply := answer(plain.value);
      if reply.Err? {
        return Some(reply.error);
      }
      var token := reply.value;
      if Blank(token.access) || (token.expiry.Some? && token.expiry.value <= now) {
        return Some(RefreshFailed);
      }
      if token.idToken != "" {
        var verified := lib.verify(token.idToken);
        if outage.Some? || verified.None? || verified.value.account != account {
          return Some(InvalidIdToken);
        }
        if fails(0) {
          return Some(EncryptionFailed);
        }
        idToken := lib.encrypt(nonce + 2, token.idToken);
      }
      if fails(1) {
        return Some(EncryptionFailed);
      }
      access := lib.encrypt(nonce, token.access);
      if token.refresh != "" {
        if fails(2) {
          return Some(EncryptionFailed);
        }
        refresh := lib.encrypt(nonce + 1, token.refresh);
      }
      expired := token.expiry;
      lastRefresh := Some(now);
      return None;
    }
  }

  /** A refresh keeps whose credential it is, and the ID token of the row stays one for its account. */
  lemma RefreshKeepsIdentity(lib: Library, r: Row, t: Token, now: int, nonce: nat)
    requires Lawful(lib) && Acceptable(lib, r, t, now)
    ensures var n := Refreshed(lib, r, t, now, nonce);
            && SameOwnerAndAccount(n, r) && n.user == r.user && n.account == r.account && n.email == r.email
            && n.typ == r.typ && n.expired == t.expiry && n.lastRefresh == Some(now)
            && (IdentityKept(lib, r) ==> IdentityKept(lib, n))
            && lib.decrypt(n.access) == Some(t.access)
            && lib.decrypt(n.refresh) == (if t.refresh == "" then lib.decrypt(r.refresh) else Some(t.refresh))
            && lib.decrypt(n.idToken) == (if t.idToken == "" then lib.decrypt(r.idToken) else Some(t.idToken))
  {
  }

  // ---- first login -----------------------------------------------------------------------------

  predicate FlowUsable(f: Flow, browser: bool) {
    f.user != 0 && (browser ==> f.nonce != "") && f.provider != ""
  }

  predicate Unavailable(e: Error) {
    e.UpstreamUnavailable? || e.ProviderUnavailable?
  }

  /** Why a login is refused, checked in this order; `None` if it is not. `outage` is an error of the ID token
      verification service itself. */
  function SaveVerdict(lib: Library, t: Token, f: Flow, browser: bool, outage: Option<Error>, now: int): Option<Error> {
    var claims := lib.verify(t.idToken);
    if !FlowUsable(f, browser) then Some(InvalidState)
    else if !Usable(t, now) || t.idToken == "" then Some(InvalidIdToken)
    else if outage.Some? && Unavailable(outage.value) then outage
    else if outage.Some? || claims.None? then Some(InvalidIdToken)
    else if (browser && claims.value.nonce != f.nonce) || Blank(claims.value.account) then Some(InvalidIdToken)
    else if f.provider != "oai" then Some(ProviderUnavailable)
    else None
  }

  /** Everything that has to be right before a credential is stored. */
  predicate Saveable(lib: Library, t: Token, f: Flow, browser: bool, now: int) {
    && FlowUsable(f, browser) && Usable(t, now) && t.idToken != ""
    && lib.verify(t.idToken).Some?
    && (browser ==> lib.verify(t.idToken).value.nonce == f.nonce)
    && !Blank(lib.verify(t.idToken).value.account)
    && f.provider == "oai"
  }

  /** The reasons for which a login is refused, in the order in which they are found. */
  lemma SaveAnswers(lib: Library, t: Token, f: Flow, browser: bool, outage: Option<Error>, now: int)
    ensures var v := SaveVerdict(lib, t, f, browser, outage, now);
            if f.user == 0 || (browser && f.nonce == "") || f.provider == "" then v == Some(InvalidState)
            else if Trim(t.access) == "" || (t.expiry.Some? && t.expiry.value <= now) then v == Some(InvalidIdToken)
            else if t.idToken == "" then v == Some(InvalidIdToken)
            else if outage == Some(UpstreamUnavailable) || outage == Some(ProviderUnavailable) then v == outage
            else if outage.Some? then v == Some(InvalidIdToken)
            else
              match lib.verify(t.idToken)
              case None => v == Some(InvalidIdToken)
              case Some(claims) =>
                if (browser && claims.nonce != f.nonce) || Trim(claims.account) == "" then v == Some(InvalidIdToken)
                else if f.provider != "oai" then v == Some(ProviderUnavailable)
                else v == None
  {
    BlankTrims(t.access);
    if lib.verify(t.idToken).Some? {
      BlankTrims(lib.verify(t.idToken).value.account);
    }
  }

  lemma SaveAccepted(lib: Library, t: Token, f: Flow, browser: bool, outage: Option<Error>, now: int)
    ensures SaveVerdict(lib, t, f, browser, outage, now) == None <==> outage.None? && Saveable(lib, t, f, browser, now)
  {
  }

  /** The row a login stores. */
  function SavedRow(lib: Library, t: Token, f: Flow, now: int, nonce: nat): Row
    requires lib.verify(t.idToken).Some?
  {
    var claims := lib.verify(t.idToken).value;
    Row(f.user, claims.account, claims.email, "codex",
        lib.encrypt(nonce, t.access), lib.encrypt(nonce + 1, t.refresh), lib.encrypt(nonce + 2, t.idToken),
        t.expiry, Some(now))
  }

  /** A stored login belongs to the user of its flow, decrypts to the tokens handed out, and its ID token was
      verified for its account. */
  lemma SavedKeepsIdentity(lib: Library, t: Token, f: Flow, browser: bool, now: int, nonce: nat)
    requires Lawful(lib) && Saveable(lib, t, f, browser, now)
    ensures var r := SavedRow(lib, t, f, now, nonce);
            && r.user == f.user != 0 && IdentityKept(lib, r) && Trim(r.account) != "" && r.typ == "codex"
            && lib.verify(t.idToken).Some?
            && r.account == lib.verify(t.idToken).value.account && r.email == lib.verify(t.idToken).value.email
            && r.expired == t.expiry && r.lastRefresh == Some(now)
            && lib.decrypt(r.access) == Some(t.access)
            && lib.decrypt(r.refresh) == Some(t.refresh)
            && lib.decrypt(r.idToken) == Some(t.idToken)
  {
    BlankTrims(lib.verify(t.idToken).value.account);
  }

  /** The row to insert; the caller's insert may still fail. */
  method SaveToken(lib: Library, t: Token, f: Flow, browser: bool, outage: Option<Error>, now: int, nonce: nat,
                   fails: nat -> bool)
    returns (r: Result<Row, Error>)
    ensures var verdict := SaveVerdict(lib, t, f, browser, outage, now);
            && (verdict.Some? ==> r == Err(verdict.value))
            && (verdict.None? ==>
                  || (r == Err(EncryptionFailed) && exists n :: fails(n))
                  || (Saveable(lib, t, f, browser, now) && r == Ok(SavedRow(lib, t, f, now, nonce))))
  {
    SaveAccepted(lib, t, f, browser, outage, now);
    if f.user == 0 || (f.nonce == "" && browser) || f.provider == "" {
      return Err(InvalidState);
    }
    if Blank(t.access) || (t.expiry.Some? && t.expiry.value <= now) {
      return Err(InvalidIdToken);
    }
    if t.idToken == "" {
      return Err(InvalidIdToken);
    }
    if outage == Some(UpstreamUnavailable) || outage == Some(ProviderUnavailable) {
      return Err(outage.value);
    }
    var verified := lib.verify(t.idToken);
    if outage.Some? || verified.None? || (verified.value.nonce != f.nonce && browser) {
      return Err(InvalidIdToken);
    }
    if Blank(verified.value.account) {
      return Err(InvalidIdToken);
    }
    if f.provider != "oai" {
      return Err(ProviderUnavailable);
    }
    if fails(0) || fails(1) || fails(2) {
      return Err(EncryptionFailed);
    }
    var access := lib.encrypt(nonce, t.access);
    var refresh := lib.encrypt(nonce + 1, t.refresh);
    var idToken := lib.encrypt(nonce + 2, t.idToken);
    return Ok(Row(f.user, verified.value.account, verified.value.email, "codex", access, refresh, idToken,
                    t.expiry, Some(now)));
  }
}
