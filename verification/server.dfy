/**
 * The authentication back end: the user collection with its schema
 * invariants, federated find-or-link-or-create, local registration and login,
 * the access token, and the pages that hand the login result to the opener
 * window. The database is an in-memory sequence of records in insertion order.
 */
module Server {
  import opened Wrappers
  import opened Utf8Encoding

  /** The federated identity providers a strategy is registered for. */
  datatype Provider = Google | GitHub | Facebook

  /** The path that starts the provider's consent flow. */
  function StartPath(p: Provider): string
  {
    match p
    case Google => "/auth/google"
    case GitHub => "/auth/github"
    case Facebook => "/auth/facebook"
  }

  // ---------------------------------------------------------------------------
  // Credential hashing (bcrypt, idealised)
  // ---------------------------------------------------------------------------

  /** The work factor the password is hashed with. */
  const HashCost: nat := 10

  /** How many key bytes bcrypt's key schedule consumes (18 words of 4 bytes). */
  const KeyLength: nat := 72

  /** `b` repeated end to end and cut to length `n`. */
  function Cycle(b: seq<byte>, n: nat): (r: seq<byte>)
    requires b != []
    ensures |r| == n
    ensures forall i :: 0 <= i < n && i < |b| ==> r[i] == b[i]
    ensures forall i :: |b| <= i < n ==> r[i] == r[i - |b|]
    decreases n
  {
    if n <= |b| then b[..n] else b + Cycle(b, n - |b|)
  }

  /** Repeating two copies of `b` gives the same bytes as repeating `b`. */
  lemma {:induction false} CycleTwice(b: seq<byte>, n: nat)
    requires b != []
    ensures Cycle(b + b, n) == Cycle(b, n)
    decreases n
  {
    if n > |b + b| {
      CycleTwice(b, n - |b + b|);
      assert Cycle(b, n) == b + Cycle(b, n - |b|);
      assert Cycle(b, n - |b|) == b + Cycle(b, n - |b| - |b|);
    } else if n > |b| {
      assert Cycle(b, n) == b + b[..n - |b|];
      assert (b + b)[..n] == b + b[..n - |b|];
    } else {
      assert (b + b)[..n] == b[..n];
    }
  }

  /**
   * The bytes bcrypt keys its cipher with: the UTF-8 password followed by a
   * zero terminator, repeated cyclically to fill 72 bytes. Bytes of the
   * password past the 72nd play no part.
   */
  function CipherKey(password: string): (k: seq<byte>)
    ensures |k| == KeyLength
    ensures forall i :: 0 <= i < KeyLength && i < |Encode(password)| ==> k[i] == Encode(password)[i]
    ensures |Encode(password)| < KeyLength ==> k[|Encode(password)|] == 0
    ensures forall i :: |Encode(password)| < i < KeyLength ==> k[i] == k[i - |Encode(password)| - 1]
  {
    Cycle(Encode(password) + [0], KeyLength)
  }

  /**
   * A bcrypt hash, idealised: the cost, the salt drawn for this call, and the
   * key the digest was computed from. Only `Matches` looks at `key`; it
   * stands for `bcrypt.compare`, which recomputes the digest from the
   * embedded salt and compares.
   */
  datatype PasswordHash = PasswordHash(cost: nat, salt: nat, key: seq<byte>)

  /** `bcrypt.compare(password, h)`: the candidate keys the cipher exactly as the hashed password did. */
  predicate Matches(password: string, h: PasswordHash)
  {
    CipherKey(password) == h.key
  }

  /** `bcrypt.hash(password, 10)`; the random salt is a parameter. */
  function Hash(password: string, salt: nat): (h: PasswordHash)
    ensures h.cost == HashCost && h.salt == salt
    ensures Matches(password, h)
    ensures forall p :: Matches(p, h) <==> CipherKey(p) == CipherKey(password)
  {
    PasswordHash(HashCost, salt, CipherKey(password))
  }

  // ---------------------------------------------------------------------------
  // Access token (a JSON Web Token; only its claims are modelled)
  // ---------------------------------------------------------------------------

  /** `expiresIn: "7d"`, in seconds. */
  const TokenLifetime: nat := 7 * 24 * 60 * 60

  /** The claims of a signed token: the user id, the issue time and the expiry, in seconds. */
  datatype Token = Token(id: nat, iat: nat, exp: nat)

  /**
   * A token is accepted strictly before its expiry time and rejected on or
   * after it (section 4.1.4 of RFC 7519).
   */
  predicate Unexpired(t: Token, at: nat)
  {
    at < t.exp
  }

  /** `jwt.sign({ id }, secret, { expiresIn: "7d" })` issued at time `now`. */
  function Issue(id: nat, now: nat): (t: Token)
    ensures t.id == id && t.iat == now
    ensures forall at: nat :: now <= at ==> (Unexpired(t, at) <==> at - now < TokenLifetime)
  {
    Token(id, now, now + TokenLifetime)
  }

  // ---------------------------------------------------------------------------
  // The user schema
  // ---------------------------------------------------------------------------

  /**
   * A user record. `password` holds the bcrypt hash of a locally registered
   * password; each provider id field is sparse (absent for most users).
   */
  datatype User = User(id: nat, name: string, email: string, password: Option<PasswordHash>,
                       googleId: Option<string>, githubId: Option<string>, facebookId: Option<string>)

  /** The provider id field that belongs to `p` (`user[providerIdField]`). */
  function ProviderId(u: User, p: Provider): Option<string>
  {
    match p
    case Google => u.googleId
    case GitHub => u.githubId
    case Facebook => u.facebookId
  }

  /** `user[providerIdField] = pid`: that one field is set, nothing else changes. */
  function WithProviderId(u: User, p: Provider, pid: string): (v: User)
    ensures ProviderId(v, p) == Some(pid)
    ensures forall q :: q != p ==> ProviderId(v, q) == ProviderId(u, q)
    ensures v.id == u.id && v.name == u.name && v.email == u.email && v.password == u.password
  {
    match p
    case Google => u.(googleId := Some(pid))
    case GitHub => u.(githubId := Some(pid))
    case Facebook => u.(facebookId := Some(pid))
  }

  /** `name` and `email` are required (a required string may not be empty). */
  predicate RequiredFields(users: seq<User>)
  {
    forall i :: 0 <= i < |users| ==> users[i].name != "" && users[i].email != ""
  }

  /** `email` is unique. */
  predicate UniqueEmails(users: seq<User>)
  {
    forall i, j :: 0 <= i < |users| && 0 <= j < |users| && i != j ==> users[i].email != users[j].email
  }

  /** Each provider id field is unique where present (a sparse unique index). */
  predicate UniqueProviderIds(users: seq<User>)
  {
    forall p: Provider, i, j :: 0 <= i < |users| && 0 <= j < |users| && i != j && ProviderId(users[i], p).Some? ==>
      ProviderId(users[i], p) != ProviderId(users[j], p)
  }

  /** Record ids are distinct and below the next id to be assigned. */
  predicate FreshIds(users: seq<User>, nextId: nat)
  {
    (forall i :: 0 <= i < |users| ==> users[i].id < nextId) &&
    (forall i, j :: 0 <= i < |users| && 0 <= j < |users| && i != j ==> users[i].id != users[j].id)
  }

  /** Everything the schema and the database guarantee of the collection. */
  predicate Wellformed(users: seq<User>, nextId: nat)
  {
    RequiredFields(users) && UniqueEmails(users) && UniqueProviderIds(users) && FreshIds(users, nextId)
  }

  /** `User.findOne({ email })`: the index of the first record with that email. */
  function IndexOfEmail(users: seq<User>, email: string): (r: Option<nat>)
    ensures r.Some? ==> r.value < |users| && users[r.value].email == email
    ensures r.Some? ==> forall k :: 0 <= k < r.value ==> users[k].email != email
    ensures r.None? ==> forall k :: 0 <= k < |users| ==> users[k].email != email
  {
    if |users| == 0 then None
    else if users[0].email == email then Some(0)
    else
      match IndexOfEmail(users[1..], email)
      case None => None
      case Some(k) => Some(k + 1)
  }

  /** `User.findOne({ [providerIdField]: pid })`: the index of the first record holding that provider id. */
  function IndexOfProviderId(users: seq<User>, p: Provider, pid: string): (r: Option<nat>)
    ensures r.Some? ==> r.value < |users| && ProviderId(users[r.value], p) == Some(pid)
    ensures r.Some? ==> forall k :: 0 <= k < r.value ==> ProviderId(users[k], p) != Some(pid)
    ensures r.None? ==> forall k :: 0 <= k < |users| ==> ProviderId(users[k], p) != Some(pid)
  {
    if |users| == 0 then None
    else if ProviderId(users[0], p) == Some(pid) then Some(0)
    else
      match IndexOfProviderId(users[1..], p, pid)
      case None => None
      case Some(k) => Some(k + 1)
  }

  /** The public part of a user that responses and handoff pages carry. */
  datatype UserInfo = UserInfo(name: string, email: string)

  function InfoOf(u: User): UserInfo
  {
    UserInfo(u.name, u.email)
  }

  // ---------------------------------------------------------------------------
  // Federated resolution (find, link or create)
  // ---------------------------------------------------------------------------

  /**
   * A provider profile: the provider-issued id, the optional display name and
   * username, and the values of the emails the provider released ("" stands
   * for an entry without a value).
   */
  datatype Profile = Profile(id: string, displayName: Option<string>, username: Option<string>, emails: seq<string>)

  /** What resolution throws: no usable first email, or the required name is missing on save. */
  datatype ResolveError = MissingEmail | NameRequired

  function ResolveErrorMessage(e: ResolveError): string
  {
    match e
    case MissingEmail => "Could not retrieve email from provider."
    case NameRequired => "User validation failed: name: Path `name` is required."
  }

  /** `profile.emails[0].value` when it is there and truthy. */
  function FirstEmail(profile: Profile): (r: Option<string>)
    ensures r.Some? <==> |profile.emails| > 0 && profile.emails[0] != ""
    ensures r.Some? ==> r.value == profile.emails[0]
  {
    if |profile.emails| > 0 && profile.emails[0] != "" then Some(profile.emails[0]) else None
  }

  /** The record a first login creates: the provider id, the name and the email, no password. */
  function NewFederatedUser(id: nat, p: Provider, pid: string, name: string, email: string): (u: User)
    ensures u.id == id && u.name == name && u.email == email && u.password.None?
    ensures ProviderId(u, p) == Some(pid)
    ensures forall q :: q != p ==> ProviderId(u, q).None?
  {
    WithProviderId(User(id, name, email, None, None, None, None), p, pid)
  }

  /** The outcome of one resolution and the collection after it. */
  datatype Resolution = Resolution(outcome: Result<User, ResolveError>, users: seq<User>, nextId: nat)

  /**
   * `findOrCreateUser(profile, providerIdField)` as a function of the
   * collection before the call: the state the store method must reach.
   */
  function Resolve(users: seq<User>, nextId: nat, p: Provider, profile: Profile): (r: Resolution)
    ensures r.outcome.Failure? ==> r.users == users && r.nextId == nextId
    ensures r.outcome.Success? ==> ProviderId(r.outcome.value, p) == Some(profile.id)
    ensures r.nextId == nextId || (r.nextId == nextId + 1 && r.users == users + [r.outcome.value])
  {
    match FirstEmail(profile)
    case None => Resolution(Failure(MissingEmail), users, nextId)
    case Some(email) =>
      match IndexOfProviderId(users, p, profile.id)
      case Some(i) => Resolution(Success(users[i]), users, nextId)
      case None =>
        match IndexOfEmail(users, email)
        case Some(i) =>
          var name := Or(Some(users[i].name), profile.displayName);
          if !Truthy(name) then Resolution(Failure(NameRequired), users, nextId)
          else
            var linked := WithProviderId(users[i], p, profile.id).(name := name.value);
            Resolution(Success(linked), users[i := linked], nextId)
        case None =>
          var name := Or(profile.displayName, profile.username);
          if !Truthy(name) then Resolution(Failure(NameRequired), users, nextId)
          else
            var created := NewFederatedUser(nextId, p, profile.id, name.value, email);
            Resolution(Success(created), users + [created], nextId + 1)
  }

  /** Replacing record `i` by one with the same id and email and a provider id nobody holds keeps the invariants. */
  lemma LinkPreservesWellformed(users: seq<User>, nextId: nat, i: nat, linked: User, p: Provider, pid: string)
    requires Wellformed(users, nextId) && i < |users|
    requires linked.id == users[i].id && linked.email == users[i].email && linked.name != ""
    requires ProviderId(linked, p) == Some(pid)
    requires forall q :: q != p ==> ProviderId(linked, q) == ProviderId(users[i], q)
    requires forall k :: 0 <= k < |users| ==> ProviderId(users[k], p) != Some(pid)
    ensures Wellformed(users[i := linked], nextId)
  {
    var after := users[i := linked];
    forall q: Provider, a, b | 0 <= a < |after| && 0 <= b < |after| && a != b && ProviderId(after[a], q).Some?
      ensures ProviderId(after[a], q) != ProviderId(after[b], q)
    {
      if q != p {
        assert ProviderId(after[a], q) == ProviderId(users[a], q);
        assert ProviderId(after[b], q) == ProviderId(users[b], q);
      } else if a == i {
        assert ProviderId(users[b], p) != Some(pid);
      } else if b == i {
        assert ProviderId(users[a], p) != Some(pid);
      }
    }
  }

  /** Appending a record with the next id, a new email and provider ids nobody holds keeps the invariants. */
  lemma AppendPreservesWellformed(users: seq<User>, nextId: nat, u: User)
    requires Wellformed(users, nextId)
    requires u.id == nextId && u.name != "" && u.email != ""
    requires forall k :: 0 <= k < |users| ==> users[k].email != u.email
    requires forall q: Provider, k :: 0 <= k < |users| && ProviderId(u, q).Some? ==> ProviderId(users[k], q) != ProviderId(u, q)
    ensures Wellformed(users + [u], nextId + 1)
  {
    var after := users + [u];
    forall q: Provider, a, b | 0 <= a < |after| && 0 <= b < |after| && a != b && ProviderId(after[a], q).Some?
      ensures ProviderId(after[a], q) != ProviderId(after[b], q)
    {
      if a == |users| {
        assert ProviderId(after[a], q) == ProviderId(u, q);
      } else if b == |users| {
        assert ProviderId(after[b], q) == ProviderId(u, q);
      } else {
        assert ProviderId(after[a], q) == ProviderId(users[a], q);
      }
    }
  }

  /** Resolution keeps every schema invariant of the collection. */
  lemma ResolvePreservesWellformed(users: seq<User>, nextId: nat, p: Provider, profile: Profile)
    requires Wellformed(users, nextId)
    ensures var res := Resolve(users, nextId, p, profile); Wellformed(res.users, res.nextId)
  {
    match FirstEmail(profile)
    case None =>
    case Some(email) =>
      match IndexOfProviderId(users, p, profile.id)
      case Some(_) =>
      case None =>
        match IndexOfEmail(users, email)
        case Some(i) =>
          var name := Or(Some(users[i].name), profile.displayName);
          if Truthy(name) {
            var linked := WithProviderId(users[i], p, profile.id).(name := name.value);
            LinkPreservesWellformed(users, nextId, i, linked, p, profile.id);
          }
        case None =>
          var name := Or(profile.displayName, profile.username);
          if Truthy(name) {
            var created := NewFederatedUser(nextId, p, profile.id, name.value, email);
            AppendPreservesWellformed(users, nextId, created);
          }
  }

  // ---------------------------------------------------------------------------
  // HTTP replies
  // ---------------------------------------------------------------------------

  /** A JSON body, with the fields any reply or handoff message may carry. */
  datatype Payload = Payload(token: Option<Token>, user: Option<UserInfo>, error: Option<string>, message: Option<string>)

  function ErrorPayload(e: string): Payload { Payload(None, None, Some(e), None) }
  function MessagePayload(m: string): Payload { Payload(None, None, None, Some(m)) }
  function SessionPayload(t: Token, u: UserInfo): Payload { Payload(Some(t), Some(u), None, None) }

  /** A JSON reply with its status code. */
  datatype Response = Response(status: nat, body: Payload)

  const FillAllFields := "Please enter all fields"
  const EmailExists := "Email already exists"
  const Registered := "Registered successfully"
  const UserNotFound := "User not found"
  const UseOriginalMethod := "Please login using the method you originally signed up with."
  const InvalidPassword := "Invalid password"

  // ---------------------------------------------------------------------------
  // Registration
  // ---------------------------------------------------------------------------

  /** The reply to one registration and the collection after it. */
  datatype Registration = Registration(response: Response, users: seq<User>, nextId: nat)

  /**
   * `POST /api/register` as a function of the collection before the request;
   * `salt` is the salt bcrypt draws for this call.
   */
  function RegisterOutcome(users: seq<User>, nextId: nat, name: Option<string>, email: Option<string>,
                           password: Option<string>, salt: nat): (r: Registration)
    ensures r.response.status == 201 || r.response.status == 400
    ensures r.response.status == 400 ==> r.users == users && r.nextId == nextId
    ensures r.response.status == 201 ==>
      |r.users| == |users| + 1 && r.users[..|users|] == users && r.nextId == nextId + 1
    ensures r.response.status == 201 ==>
      Truthy(name) && Truthy(email) && Truthy(password) &&
      r.users[|users|].id == nextId && r.users[|users|].name == name.value && r.users[|users|].email == email.value &&
      r.users[|users|].password.Some? && Matches(password.value, r.users[|users|].password.value)
  {
    if !Truthy(name) || !Truthy(email) || !Truthy(password) then
      Registration(Response(400, ErrorPayload(FillAllFields)), users, nextId)
    else if IndexOfEmail(users, email.value).Some? then
      Registration(Response(400, ErrorPayload(EmailExists)), users, nextId)
    else
      var u := User(nextId, name.value, email.value, Some(Hash(password.value, salt)), None, None, None);
      Registration(Response(201, MessagePayload(Registered)), users + [u], nextId + 1)
  }

  /** Registration keeps every schema invariant of the collection. */
  lemma RegisterPreservesWellformed(users: seq<User>, nextId: nat, name: Option<string>, email: Option<string>,
                                    password: Option<string>, salt: nat)
    requires Wellformed(users, nextId)
    ensures var reg := RegisterOutcome(users, nextId, name, email, password, salt); Wellformed(reg.users, reg.nextId)
  {
    if Truthy(name) && Truthy(email) && Truthy(password) && IndexOfEmail(users, email.value).None? {
      var u := User(nextId, name.value, email.value, Some(Hash(password.value, salt)), None, None, None);
      AppendPreservesWellformed(users, nextId, u);
    }
  }

  // ---------------------------------------------------------------------------
  // Local login
  // ---------------------------------------------------------------------------

  /**
   * `POST /api/login`: the first failing check answers 400 with its message;
   * otherwise 200 with a token for the user and the user's name and email.
   * The collection is only read.
   */
  function Login(users: seq<User>, email: string, password: string, now: nat): (r: Response)
    ensures r.status == 200 || r.status == 400
    ensures (forall k :: 0 <= k < |users| ==> users[k].email != email) ==> r == Response(400, ErrorPayload(UserNotFound))
    ensures r.status == 200 ==>
      exists k :: 0 <= k < |users| && users[k].email == email && users[k].password.Some? &&
        Matches(password, users[k].password.value) &&
        r.body == SessionPayload(Issue(users[k].id, now), InfoOf(users[k]))
  {
    match IndexOfEmail(users, email)
    case None => Response(400, ErrorPayload(UserNotFound))
    case Some(i) =>
      match users[i].password
      case None => Response(400, ErrorPayload(UseOriginalMethod))
      case Some(h) =>
        if !Matches(password, h) then Response(400, ErrorPayload(InvalidPassword))
        else Response(200, SessionPayload(Issue(users[i].id, now), InfoOf(users[i])))
  }

  // ---------------------------------------------------------------------------
  // Cross-window handoff
  // ---------------------------------------------------------------------------

  /** The origin the handoff page addresses its message to. */
  const FrontendOrigin := "http://localhost:3000"

  const AuthenticationFailed := "Authentication failed. Please try again."

  /** The path the provider callbacks redirect to when the provider refuses. */
  const FailurePath := "/auth/failure"

  /** A page that posts `data` to its opener, addressed to `targetOrigin`, and closes itself. */
  datatype Handoff = Handoff(targetOrigin: string, data: Payload)

  /** `sendTokenToFrontend`: the page served after a successful provider callback. */
  function SuccessHandoff(u: User, now: nat): (h: Handoff)
    ensures h.targetOrigin == FrontendOrigin
    ensures h.data.token.Some? && h.data.token.value.id == u.id
    ensures forall at: nat :: now <= at ==> (Unexpired(h.data.token.value, at) <==> at - now < TokenLifetime)
    ensures h.data.user == Some(UserInfo(u.name, u.email)) && h.data.error.None? && h.data.message.None?
  {
    Handoff(FrontendOrigin, SessionPayload(Issue(u.id, now), InfoOf(u)))
  }

  /** `GET /auth/failure`: the page that reports a refused federated login. */
  function FailureHandoff(): (h: Handoff)
    ensures h.targetOrigin == FrontendOrigin
    ensures h.data.token.None? && h.data.user.None? && h.data.error == Some(AuthenticationFailed)
    ensures h.data.message.None?
  {
    Handoff(FrontendOrigin, ErrorPayload(AuthenticationFailed))
  }

  /** What the provider callback received from the provider. */
  datatype Grant = Granted(profile: Profile) | Refused

  /**
   * What a provider callback answers: the handoff page, a redirect to the
   * failure page, or the framework's 500 error page.
   */
  datatype CallbackReply = Page(handoff: Handoff) | Redirect(location: string) | ServerError

  /**
   * The callback's reply once resolution has run: a user gets the success
   * handoff; an error thrown by resolution is passed on as a server error
   * (it is not a refusal, so the failure redirect does not apply).
   */
  function CallbackReplyFor(outcome: Result<User, ResolveError>, now: nat): (r: CallbackReply)
    ensures outcome.Success? <==> r.Page?
    ensures outcome.Success? ==> r.handoff == SuccessHandoff(outcome.value, now)
    ensures outcome.Failure? ==> r == ServerError
  {
    match outcome
    case Success(u) => Page(SuccessHandoff(u, now))
    case Failure(_) => ServerError
  }

  // ---------------------------------------------------------------------------
  // The store
  // ---------------------------------------------------------------------------

  /** The user collection, updated in place by resolution and registration. */
  class UserStore {
    var users: seq<User>
    var nextId: nat

    ghost predicate Valid()
      reads this
    {
      Wellformed(users, nextId)
    }

    constructor ()
      ensures Valid() && users == [] && nextId == 0
    {
      users := [];
      nextId := 0;
    }

    /** `findOrCreateUser(profile, providerIdField)`. */
    method FindOrCreateUser(p: Provider, profile: Profile) returns (r: Result<User, ResolveError>)
      requires Valid()
      modifies this
      ensures Valid()
      ensures var res := Resolve(old(users), old(nextId), p, profile);
              r == res.outcome && users == res.users && nextId == res.nextId
    {
      ResolvePreservesWellformed(users, nextId, p, profile);
      var email := FirstEmail(profile);
      if email.None? {
        return Failure(MissingEmail);
      }
      var found := IndexOfProviderId(users, p, profile.id);
      if found.Some? {
        return Success(users[found.value]);
      }
      found := IndexOfEmail(users, email.value);
      if found.Some? {
        var i := found.value;
        var user := WithProviderId(users[i], p, profile.id);
        var name := Or(Some(user.name), profile.displayName);
        if !Truthy(name) {
          return Failure(NameRequired);
        }
        user := user.(name := name.value);
        users := users[i := user];
        return Success(user);
      }
      var name := Or(profile.displayName, profile.username);
      if !Truthy(name) {
        return Failure(NameRequired);
      }
      var created := NewFederatedUser(nextId, p, profile.id, name.value, email.value);
      users := users + [created];
      nextId := nextId + 1;
      return Success(created);
    }

    /** `POST /api/register`. */
    method Register(name: Option<string>, email: Option<string>, password: Option<string>, salt: nat)
      returns (resp: Response)
      requires Valid()
      modifies this
      ensures Valid()
      ensures var reg := RegisterOutcome(old(users), old(nextId), name, email, password, salt);
              resp == reg.response && users == reg.users && nextId == reg.nextId
    {
      RegisterPreservesWellformed(users, nextId, name, email, password, salt);
      if !Truthy(name) || !Truthy(email) || !Truthy(password) {
        return Response(400, ErrorPayload(FillAllFields));
      }
      var existing := IndexOfEmail(users, email.value);
      if existing.Some? {
        return Response(400, ErrorPayload(EmailExists));
      }
      var hashed := Hash(password.value, salt);
      var user := User(nextId, name.value, email.value, Some(hashed), None, None, None);
      users := users + [user];
      nextId := nextId + 1;
      return Response(201, MessagePayload(Registered));
    }

    /** `GET /auth/{provider}/callback`: resolve the granted profile and answer. */
    method Callback(p: Provider, grant: Grant, now: nat) returns (reply: CallbackReply)
      requires Valid()
      modifies this
      ensures Valid()
      ensures grant.Refused? ==> reply == Redirect(FailurePath) && users == old(users) && nextId == old(nextId)
      ensures grant.Granted? ==>
        var res := Resolve(old(users), old(nextId), p, grant.profile);
        reply == CallbackReplyFor(res.outcome, now) && users == res.users && nextId == res.nextId
    {
      match grant
      case Refused =>
        reply := Redirect(FailurePath);
      case Granted(profile) =>
        var outcome := FindOrCreateUser(p, profile);
        reply := CallbackReplyFor(outcome, now);
    }
  }
}
