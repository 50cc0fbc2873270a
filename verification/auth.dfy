/** Sign-in: the e-mail/password check, the copy of the signed-in user into
    the session token, and the post-sign-in redirect rule. */
module Auth {
  import opened Wrappers
  import opened Text

  /** The submitted form; either field may be absent. */
  datatype Credentials = Credentials(email: Option<string>, password: Option<string>)

  /** A stored user; `password` is the bcrypt hash, absent for OAuth-only
      accounts. */
  datatype UserRow = UserRow(
    id: string, email: string, name: Option<string>, image: Option<string>, password: Option<string>)

  /** The user object handed to the session machinery. */
  datatype SessionUser = SessionUser(
    id: string, email: string, username: string, profileImage: Option<string>, isOauth: bool)

  /** The user record for a checked stored row. */
  function SessionUserOf(u: UserRow): (s: SessionUser)
    ensures s.id == u.id && s.email == u.email && !s.isOauth
    ensures Truthy(u.name) ==> s.username == u.name.value
    ensures !Truthy(u.name) ==> s.username == u.email
    ensures Truthy(u.image) ==> s.profileImage == u.image
    ensures !Truthy(u.image) ==> s.profileImage.None?
  {
    SessionUser(u.id, u.email, OrElse(u.name, Some(u.email)).value,
                if Truthy(u.image) then u.image else None, false)
  }

  /** `authorize`: the user table is keyed by e-mail (`findUnique`), and
      `compare(plain, hash)` stands for bcrypt's check. */
  function Authorize(credentials: Option<Credentials>, users: map<string, UserRow>,
                     compare: (string, string) -> bool): (r: Option<SessionUser>)
    ensures r.Some? <==>
      && credentials.Some?
      && Truthy(credentials.value.email) && Truthy(credentials.value.password)
      && credentials.value.email.value in users
      && Truthy(users[credentials.value.email.value].password)
      && compare(credentials.value.password.value, users[credentials.value.email.value].password.value)
    ensures r.Some? ==> r.value == SessionUserOf(users[credentials.value.email.value])
  {
    if credentials.None? || !Truthy(credentials.value.email) || !Truthy(credentials.value.password) then None
    else
      var email := credentials.value.email.value;
      if email !in users || !Truthy(users[email].password) then None
      else if !compare(credentials.value.password.value, users[email].password.value) then None
      else Some(SessionUserOf(users[email]))
  }

  /** The `user` argument of the token callback: the object returned by
      `authorize`, or the provider's profile for an OAuth sign-in. */
  datatype JwtUser = JwtUser(
    id: string, email: Option<string>, name: Option<string>, username: Option<string>,
    profileImage: Option<string>)

  /** `authorize`'s result as the token callback sees it: it has no `name`. */
  function AsJwtUser(s: SessionUser): (u: JwtUser)
    ensures u.id == s.id && u.email == Some(s.email) && u.profileImage == s.profileImage
    ensures u.name.None? && u.username == Some(s.username)
  {
    JwtUser(s.id, Some(s.email), None, Some(s.username), s.profileImage)
  }

  /** `user.name || user.username || ""`. */
  function TokenName(u: JwtUser): (n: string)
    ensures Truthy(u.name) ==> n == u.name.value
    ensures !Truthy(u.name) && Truthy(u.username) ==> n == u.username.value
    ensures !Truthy(u.name) && !Truthy(u.username) ==> n == ""
  {
    OrElse(u.name, OrElse(u.username, Some(""))).value
  }

  /** `user.username || user.name || ""`. */
  function TokenUsername(u: JwtUser): (n: string)
    ensures Truthy(u.username) ==> n == u.username.value
    ensures !Truthy(u.username) && Truthy(u.name) ==> n == u.name.value
    ensures !Truthy(u.username) && !Truthy(u.name) ==> n == ""
  {
    OrElse(u.username, OrElse(u.name, Some(""))).value
  }

  /** The two token names differ only when the user has two different
      non-empty names; one missing name is filled from the other. */
  lemma TokenNamesAgree(u: JwtUser)
    ensures TokenName(u) != TokenUsername(u) ==>
      Truthy(u.name) && Truthy(u.username) && u.name.value != u.username.value
    ensures TokenName(u) == "" <==> TokenUsername(u) == ""
  {
  }

  /** After an e-mail/password sign-in both token names are the session
      user's username: the stored name, or the e-mail when there is none. */
  lemma CredentialsTokenNames(s: SessionUser)
    ensures TokenName(AsJwtUser(s)) == s.username
    ensures TokenUsername(AsJwtUser(s)) == s.username
  {
  }

  /** The session token. Fields that the callback has not yet written are
      absent. */
  class Token {
    var id: Option<string>
    var email: Option<string>
    var name: Option<string>
    var username: Option<string>
    var profileImage: Option<string>
    var isOauth: Option<bool>

    constructor()
      ensures id.None? && email.None? && name.None? && username.None?
      ensures profileImage.None? && isOauth.None?
    {
      id, email, name, username, profileImage, isOauth := None, None, None, None, None, None;
    }

    /** The `jwt` callback: without a user the token is left as it is;
        with one, its fields are copied field by field, the names defaulted,
        and `isOauth` records whether an account object was passed. */
    method Jwt(user: Option<JwtUser>, account: bool)
      modifies this
      ensures user.None? ==>
        && id == old(id) && email == old(email) && name == old(name) && username == old(username)
        && profileImage == old(profileImage) && isOauth == old(isOauth)
      ensures user.Some? ==>
        && id == Some(user.value.id) && email == user.value.email
        && name == Some(TokenName(user.value)) && username == Some(TokenUsername(user.value))
        && profileImage == user.value.profileImage && isOauth == Some(account)
    {
      if user.Some? {
        var u := user.value;
        id := Some(u.id);
        email := u.email;
        name := Some(TokenName(u));
        username := Some(TokenUsername(u));
        profileImage := u.profileImage;
        isOauth := Some(account);
      }
    }
  }

  const InvalidUrl := "Invalid URL"

  /** The `redirect` callback. `origin(url)` is the origin `new URL(url)`
      computes, and is absent when that constructor throws. */
  function Redirect(url: string, baseUrl: string, origin: string -> Option<string>): (r: Result<string, string>)
    ensures r.Failure? <==> !StartsWith(url, "/") && origin(url).None?
    ensures r.Failure? ==> r.error == InvalidUrl
  {
    if StartsWith(url, "/") then Success(baseUrl + url)
    else if origin(url).None? then Failure(InvalidUrl)
    else if origin(url).value == baseUrl then Success(url)
    else Success(baseUrl)
  }

  /** Redirects stay on the site: the target is under the base URL, or is a
      URL whose origin is the base URL. An absolute URL is kept only when its
      origin is the base URL, and is otherwise replaced by the base URL;
      a path is appended to the base URL.
      Only an absolute URL that cannot be parsed fails. */
  lemma RedirectStaysOnSite(url: string, baseUrl: string, origin: string -> Option<string>)
    ensures var r := Redirect(url, baseUrl, origin);
      r.Success? ==> StartsWith(r.value, baseUrl) || origin(r.value) == Some(baseUrl)
    ensures var r := Redirect(url, baseUrl, origin);
      r.Success? && !StartsWith(url, "/") ==>
        r.value == baseUrl || (r.value == url && origin(url) == Some(baseUrl))
    ensures StartsWith(url, "/") ==> Redirect(url, baseUrl, origin) == Success(baseUrl + url)
    ensures Redirect(url, baseUrl, origin).Failure? <==> !StartsWith(url, "/") && origin(url).None?
  {
    var r := Redirect(url, baseUrl, origin);
    if StartsWith(url, "/") {
      assert (baseUrl + url)[..|baseUrl|] == baseUrl;
    } else if r.Success? && origin(url) != Some(baseUrl) {
      assert r.value == baseUrl && baseUrl[..|baseUrl|] == baseUrl;
    }
  }
}
