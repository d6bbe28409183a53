/** Credential sign-in: the `authorize` check of the credentials provider, and
    the `jwt` and `session` callbacks that carry the signed-in user's claims
    from the sign-in result into the token and from the token into the session. */
module Auth {

  import opened Common
  import opened Store
  import Middleware

  /** The submitted credentials; "" stands for a missing field. */
  datatype Credentials = Credentials(email: string, password: string)

  /** The record `authorize` resolves with. */
  datatype AuthUser = AuthUser(id: Id, email: string, name: string, needsLinkedinConn: bool, linkedinDetails: DetailsClaim)

  const InvalidCredentials: string := "Invalid credentials"

  /** The `linkedinDetails` claim built from an optional linked account. */
  function ClaimOf(d: Option<LinkedinDetails>): (c: DetailsClaim)
    ensures d.None? ==> c == DetailsClaim(None, None, None, None, None, None, None)
    ensures d.Some? ==> c.email == Some(d.value.email) && c.avatar == Some(d.value.avatar)
    ensures d.Some? ==> c.name == Some(d.value.name) && c.headline == Some(d.value.headline)
    ensures d.Some? ==> c.username == Some(d.value.username) && c.accountId == Some(d.value.accountId)
    ensures d.Some? ==> c.isPremium == Some(d.value.isPremium)
  {
    if d.None? then DetailsClaim(None, None, None, None, None, None, None)
    else
      var v := d.value;
      DetailsClaim(Some(v.email), Some(v.avatar), Some(v.name), Some(v.headline), Some(v.username), Some(v.accountId), Some(v.isPremium))
  }

  /** `authorize`. `credentials` is `None` when none were submitted, and `matches`
      stands for the password-hash comparison. Every failure throws "Invalid credentials". */
  function Authorize(credentials: Option<Credentials>, users: seq<User>, details: seq<LinkedinDetails>,
                     matches: (string, string) -> bool): (r: Result<AuthUser>)
    ensures r.Err? ==> r.error == InvalidCredentials
    ensures r.Ok? <==>
              && credentials.Some? && credentials.value.email != "" && credentials.value.password != ""
              && UserByEmail(users, credentials.value.email).Some?
              && var u := UserByEmail(users, credentials.value.email).value;
                 u.password.Some? && u.password.value != "" && matches(credentials.value.password, u.password.value)
    ensures r.Ok? ==>
              && (exists u :: u in users && u.email == credentials.value.email &&
                    r.value.id == u.id && r.value.email == u.email && r.value.name == u.name)
              && (r.value.needsLinkedinConn <==> DetailsOf(details, r.value.id).None?)
              && r.value.linkedinDetails == ClaimOf(DetailsOf(details, r.value.id))
  {
    if credentials.None? || credentials.value.email == "" || credentials.value.password == "" then
      Err(InvalidCredentials)
    else
      var user := UserByEmail(users, credentials.value.email);
      if user.None? || user.value.password.None? || user.value.password.value == "" then
        Err(InvalidCredentials)
      else if !matches(credentials.value.password, user.value.password.value) then
        Err(InvalidCredentials)
      else
        var u := user.value;
        var linked := DetailsOf(details, u.id);
        Ok(AuthUser(u.id, u.email, u.name, linked.None?, ClaimOf(linked)))
  }

  /** The claims the `jwt` callback writes for a freshly signed-in user. */
  function SignInClaims(u: AuthUser): (c: TokenClaims)
    ensures c.id == Some(u.id) && c.email == Some(u.email) && c.name == Some(u.name)
    ensures c.needsLinkedinConn == Some(u.needsLinkedinConn) && c.linkedinDetails == Some(u.linkedinDetails)
  {
    TokenClaims(Some(u.id), Some(u.email), Some(u.name), Some(u.needsLinkedinConn), Some(u.linkedinDetails))
  }

  /** Right after sign-in the page guard treats the user as connected exactly when a
      provider account is linked to them. */
  lemma SignedInConnectedIffLinked(credentials: Option<Credentials>, users: seq<User>, details: seq<LinkedinDetails>,
                                   matches: (string, string) -> bool)
    requires Authorize(credentials, users, details, matches).Ok?
    ensures var u := Authorize(credentials, users, details, matches).value;
            Middleware.IsConnected(SignInClaims(u)) <==> DetailsOf(details, u.id).Some?
  {
  }

  /** `{ ...token, ...session.user }`: every key the update carries replaces the token's. */
  function Overlay(token: TokenClaims, update: TokenClaims): (c: TokenClaims)
    ensures update.id.Some? ==> c.id == update.id
    ensures update.id.None? ==> c.id == token.id
    ensures update.email.Some? ==> c.email == update.email
    ensures update.email.None? ==> c.email == token.email
    ensures update.name.Some? ==> c.name == update.name
    ensures update.name.None? ==> c.name == token.name
    ensures update.needsLinkedinConn.Some? ==> c.needsLinkedinConn == update.needsLinkedinConn
    ensures update.needsLinkedinConn.None? ==> c.needsLinkedinConn == token.needsLinkedinConn
    ensures update.linkedinDetails.Some? ==> c.linkedinDetails == update.linkedinDetails
    ensures update.linkedinDetails.None? ==> c.linkedinDetails == token.linkedinDetails
  {
    TokenClaims(
      if update.id.Some? then update.id else token.id,
      if update.email.Some? then update.email else token.email,
      if update.name.Some? then update.name else token.name,
      if update.needsLinkedinConn.Some? then update.needsLinkedinConn else token.needsLinkedinConn,
      if update.linkedinDetails.Some? then update.linkedinDetails else token.linkedinDetails)
  }

  /** Applying the same update twice changes nothing more; an empty update changes nothing. */
  lemma OverlayIdempotent(token: TokenClaims, update: TokenClaims)
    ensures Overlay(Overlay(token, update), update) == Overlay(token, update)
    ensures Overlay(token, TokenClaims(None, None, None, None, None)) == token
  {
  }

  /** The application's claims held by a JWT. */
  class Token {
    var id: Option<Id>
    var email: Option<string>
    var name: Option<string>
    var needsLinkedinConn: Option<bool>
    var linkedinDetails: Option<DetailsClaim>

    function Claims(): TokenClaims
      reads this
    {
      TokenClaims(id, email, name, needsLinkedinConn, linkedinDetails)
    }

    constructor (c: TokenClaims)
      ensures Claims() == c
    {
      id, email, name, needsLinkedinConn, linkedinDetails := c.id, c.email, c.name, c.needsLinkedinConn, c.linkedinDetails;
    }
  }

  datatype Trigger = SignInTrigger | SignUpTrigger | UpdateTrigger | NoTrigger

  /** The `jwt` callback. `user` is the `authorize` result on sign-in, and
      `sessionUser` the `session.user` sent with an update. */
  method Jwt(token: Token, user: Option<AuthUser>, trigger: Trigger, sessionUser: Option<TokenClaims>) returns (out: Token)
    modifies token
    ensures trigger == UpdateTrigger && sessionUser.Some? ==>
              fresh(out) && out.Claims() == Overlay(old(token.Claims()), sessionUser.value) && unchanged(token)
    ensures !(trigger == UpdateTrigger && sessionUser.Some?) ==> out == token
    ensures !(trigger == UpdateTrigger && sessionUser.Some?) && user.Some? ==> token.Claims() == SignInClaims(user.value)
    ensures !(trigger == UpdateTrigger && sessionUser.Some?) && user.None? ==> unchanged(token)
  {
    if trigger == UpdateTrigger && sessionUser.Some? {
      out := new Token(Overlay(token.Claims(), sessionUser.value));
      return;
    }
    if user.Some? {
      var u := user.value;
      token.id := Some(u.id);
      token.email := Some(u.email);
      token.name := Some(u.name);
      token.needsLinkedinConn := Some(u.needsLinkedinConn);
      token.linkedinDetails := Some(u.linkedinDetails);
    }
    out := token;
  }

  /** The application's fields of `session.user`. */
  class SessionUser {
    var id: Option<Id>
    var email: Option<string>
    var name: Option<string>
    var needsLinkedinConn: Option<bool>
    var linkedinDetails: Option<DetailsClaim>

    function Claims(): TokenClaims
      reads this
    {
      TokenClaims(id, email, name, needsLinkedinConn, linkedinDetails)
    }

    constructor ()
      ensures Claims() == TokenClaims(None, None, None, None, None)
    {
      id, email, name, needsLinkedinConn, linkedinDetails := None, None, None, None, None;
    }
  }

  class Session {
    var user: SessionUser?

    constructor (user: SessionUser?)
      ensures this.user == user
    {
      this.user := user;
    }
  }

  /** The `session` callback: copies the five claims from the token into `session.user`
      when there is one. */
  method SessionCallback(session: Session, token: Token) returns (out: Session)
    modifies session.user
    ensures out == session && session.user == old(session.user)
    ensures session.user != null ==> session.user.Claims() == token.Claims()
    ensures session.user == null ==> unchanged(session)
  {
    var u := session.user;
    if u != null {
      u.id := token.id;
      u.email := token.email;
      u.name := token.name;
      u.needsLinkedinConn := token.needsLinkedinConn;
      u.linkedinDetails := token.linkedinDetails;
    }
    out := session;
  }
}
