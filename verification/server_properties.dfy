/**
 * Properties of the back end's account operations: what each branch of
 * federated resolution does to the collection, idempotence of resolution,
 * registration's conflict rule, the order of the login checks, and that the
 * handoff page carries the same session as a local login.
 */
module ServerProperties {
  import opened Wrappers
  import opened Utf8Encoding
  import opened Server

  // ---------------------------------------------------------------------------
  // Federated resolution
  // ---------------------------------------------------------------------------

  /**
   * Without a usable first email resolution throws and writes nothing; the
   * email is checked before any lookup, so this holds even for a provider id
   * that is already linked.
   */
  lemma ResolveWithoutEmailFails(users: seq<User>, nextId: nat, p: Provider, profile: Profile)
    requires |profile.emails| == 0 || profile.emails[0] == ""
    ensures Resolve(users, nextId, p, profile) == Resolution(Failure(MissingEmail), users, nextId)
    ensures ResolveErrorMessage(MissingEmail) == "Could not retrieve email from provider."
  {
  }

  /** A user that already holds the profile's provider id is returned, and nothing is written. */
  lemma ResolveKnownProvider(users: seq<User>, nextId: nat, p: Provider, profile: Profile, k: nat)
    requires Wellformed(users, nextId)
    requires |profile.emails| > 0 && profile.emails[0] != ""
    requires k < |users| && ProviderId(users[k], p) == Some(profile.id)
    ensures Resolve(users, nextId, p, profile) == Resolution(Success(users[k]), users, nextId)
  {
    var found := IndexOfProviderId(users, p, profile.id);
    assert found.Some?;
  }

  /**
   * Linking: when nobody holds the provider id but record `k` has the
   * profile's email, exactly that record changes. Its provider field becomes
   * the profile id (overwriting any earlier value), its name is kept when
   * non-empty and otherwise replaced by the display name; if the name would
   * still be empty the save fails and nothing is written.
   */
  lemma ResolveLinksByEmail(users: seq<User>, nextId: nat, p: Provider, profile: Profile, k: nat)
    requires UniqueEmails(users)
    requires |profile.emails| > 0 && profile.emails[0] != ""
    requires forall j :: 0 <= j < |users| ==> ProviderId(users[j], p) != Some(profile.id)
    requires k < |users| && users[k].email == profile.emails[0]
    ensures var name := if users[k].name != "" then users[k].name else OrEmpty(profile.displayName);
            var res := Resolve(users, nextId, p, profile);
            (name == "" ==> res == Resolution(Failure(NameRequired), users, nextId)) &&
            (name != "" ==>
              res.outcome.Success? && res.users == users[k := res.outcome.value] && res.nextId == nextId &&
              res.outcome.value.id == users[k].id && res.outcome.value.email == users[k].email &&
              res.outcome.value.password == users[k].password && res.outcome.value.name == name &&
              ProviderId(res.outcome.value, p) == Some(profile.id) &&
              (forall q :: q != p ==> ProviderId(res.outcome.value, q) == ProviderId(users[k], q)))
  {
    var found := IndexOfEmail(users, profile.emails[0]);
    assert found.Some?;
  }

  /**
   * Creation: when neither the provider id nor the email is known, exactly one
   * record is appended with the provider id, the display name (else the
   * username), the email and no password; without any name the save fails
   * and nothing is written.
   */
  lemma ResolveCreatesUser(users: seq<User>, nextId: nat, p: Provider, profile: Profile)
    requires |profile.emails| > 0 && profile.emails[0] != ""
    requires forall j :: 0 <= j < |users| ==> ProviderId(users[j], p) != Some(profile.id)
    requires forall j :: 0 <= j < |users| ==> users[j].email != profile.emails[0]
    ensures var name := Or(profile.displayName, profile.username);
            var res := Resolve(users, nextId, p, profile);
            (!Truthy(name) ==> res == Resolution(Failure(NameRequired), users, nextId)) &&
            (Truthy(name) ==>
              res.outcome.Success? && res.users == users + [res.outcome.value] && res.nextId == nextId + 1 &&
              res.outcome.value.id == nextId && res.outcome.value.name == name.value &&
              res.outcome.value.email == profile.emails[0] && res.outcome.value.password.None? &&
              ProviderId(res.outcome.value, p) == Some(profile.id) &&
              (forall q :: q != p ==> ProviderId(res.outcome.value, q).None?))
  {
  }

  /**
   * A successful resolution returns a record that is in the collection
   * afterwards, at index `k`, and holds the profile's provider id.
   */
  lemma ResolvedUserIsStored(users: seq<User>, nextId: nat, p: Provider, profile: Profile) returns (k: nat)
    requires Wellformed(users, nextId)
    requires Resolve(users, nextId, p, profile).outcome.Success?
    ensures var res := Resolve(users, nextId, p, profile);
            k < |res.users| && res.users[k] == res.outcome.value && ProviderId(res.outcome.value, p) == Some(profile.id)
  {
    var email := FirstEmail(profile).value;
    match IndexOfProviderId(users, p, profile.id)
    case Some(i) =>
      k := i;
    case None =>
      match IndexOfEmail(users, email)
      case Some(i) =>
        k := i;
      case None =>
        k := |users|;
  }

  /**
   * Resolution is idempotent: resolving the same profile again against the
   * collection the first call left returns the same outcome and writes
   * nothing more.
   */
  lemma {:induction false} ResolveIsIdempotent(users: seq<User>, nextId: nat, p: Provider, profile: Profile)
    requires Wellformed(users, nextId)
    ensures var res := Resolve(users, nextId, p, profile);
            Resolve(res.users, res.nextId, p, profile) == res
  {
    var res := Resolve(users, nextId, p, profile);
    if res.outcome.Success? {
      ResolvePreservesWellformed(users, nextId, p, profile);
      var k := ResolvedUserIsStored(users, nextId, p, profile);
      ResolveKnownProvider(res.users, res.nextId, p, profile, k);
    }
  }

  // ---------------------------------------------------------------------------
  // Registration
  // ---------------------------------------------------------------------------

  /** A missing or empty name, email or password is rejected before anything else, and nothing is written. */
  lemma RegisterRejectsMissingField(users: seq<User>, nextId: nat, name: Option<string>, email: Option<string>,
                                    password: Option<string>, salt: nat)
    requires !Truthy(name) || !Truthy(email) || !Truthy(password)
    ensures RegisterOutcome(users, nextId, name, email, password, salt) ==
            Registration(Response(400, ErrorPayload(FillAllFields)), users, nextId)
  {
  }

  /**
   * An email that any record already has is rejected and nothing is
   * written, even when that record is a federated-only account: registration
   * never links.
   */
  lemma RegisterRejectsTakenEmail(users: seq<User>, nextId: nat, name: string, email: string, password: string,
                                  salt: nat, k: nat)
    requires name != "" && email != "" && password != ""
    requires k < |users| && users[k].email == email
    ensures RegisterOutcome(users, nextId, Some(name), Some(email), Some(password), salt) ==
            Registration(Response(400, ErrorPayload(EmailExists)), users, nextId)
  {
  }

  /** Otherwise exactly one record is added, holding a hash the password matches and no provider id, and the reply is 201. */
  lemma RegisterAddsUser(users: seq<User>, nextId: nat, name: string, email: string, password: string, salt: nat)
    requires name != "" && email != "" && password != ""
    requires forall k :: 0 <= k < |users| ==> users[k].email != email
    ensures var reg := RegisterOutcome(users, nextId, Some(name), Some(email), Some(password), salt);
            reg.response == Response(201, MessagePayload(Registered)) && reg.nextId == nextId + 1 &&
            |reg.users| == |users| + 1 && reg.users[..|users|] == users &&
            var u := reg.users[|users|];
            u.id == nextId && u.name == name && u.email == email &&
            u.password.Some? && Matches(password, u.password.value) &&
            (forall q :: ProviderId(u, q).None?)
  {
    var reg := RegisterOutcome(users, nextId, Some(name), Some(email), Some(password), salt);
    assert reg.users[..|users|] == users;
  }

  /** Registering an email a second time fails with a conflict and never creates a second record. */
  lemma RegisterTwiceConflicts(users: seq<User>, nextId: nat, name: string, email: string, password: string,
                               salt: nat, name2: string, password2: string, salt2: nat)
    requires name != "" && email != "" && password != "" && name2 != "" && password2 != ""
    ensures var reg := RegisterOutcome(users, nextId, Some(name), Some(email), Some(password), salt);
            RegisterOutcome(reg.users, reg.nextId, Some(name2), Some(email), Some(password2), salt2) ==
            Registration(Response(400, ErrorPayload(EmailExists)), reg.users, reg.nextId)
  {
    var reg := RegisterOutcome(users, nextId, Some(name), Some(email), Some(password), salt);
    var found := IndexOfEmail(users, email);
    if found.Some? {
      RegisterRejectsTakenEmail(reg.users, reg.nextId, name2, email, password2, salt2, found.value);
    } else {
      RegisterRejectsTakenEmail(reg.users, reg.nextId, name2, email, password2, salt2, |users|);
    }
  }

  // ---------------------------------------------------------------------------
  // Local login
  // ---------------------------------------------------------------------------

  /** An email no record has is answered "User not found". */
  lemma LoginUnknownUser(users: seq<User>, email: string, password: string, now: nat)
    requires forall k :: 0 <= k < |users| ==> users[k].email != email
    ensures Login(users, email, password, now) == Response(400, ErrorPayload(UserNotFound))
  {
  }

  /**
   * The checks for a known email run in a fixed order: an account without a
   * password is told to use its original sign-up method (never "Invalid
   * password"), then the password is verified, and only then is a token
   * issued for the record's id together with its name and email.
   */
  lemma LoginDecision(users: seq<User>, email: string, password: string, now: nat, k: nat)
    requires UniqueEmails(users)
    requires k < |users| && users[k].email == email
    ensures Login(users, email, password, now) ==
            if users[k].password.None? then Response(400, ErrorPayload(UseOriginalMethod))
            else if !Matches(password, users[k].password.value) then Response(400, ErrorPayload(InvalidPassword))
            else Response(200, SessionPayload(Issue(users[k].id, now), UserInfo(users[k].name, users[k].email)))
  {
    var found := IndexOfEmail(users, email);
    assert found.Some?;
  }

  /**
   * Register, then log in: an attempt that keys bcrypt's cipher as the
   * registered password does gets a session for the new record; any other
   * attempt gets "Invalid password". `ShortPasswordsCompareExactly` and
   * `LongPasswordsShareKey` say which attempts those are.
   */
  lemma RegisterThenLogin(users: seq<User>, nextId: nat, name: string, email: string, password: string,
                          salt: nat, attempt: string, now: nat)
    requires Wellformed(users, nextId)
    requires name != "" && email != "" && password != ""
    requires forall k :: 0 <= k < |users| ==> users[k].email != email
    ensures var reg := RegisterOutcome(users, nextId, Some(name), Some(email), Some(password), salt);
            reg.response.status == 201 &&
            Login(reg.users, email, attempt, now) ==
              if CipherKey(attempt) == CipherKey(password) then Response(200, SessionPayload(Issue(nextId, now), UserInfo(name, email)))
              else Response(400, ErrorPayload(InvalidPassword))
  {
    var reg := RegisterOutcome(users, nextId, Some(name), Some(email), Some(password), salt);
    RegisterPreservesWellformed(users, nextId, Some(name), Some(email), Some(password), salt);
    RegisterAddsUser(users, nextId, name, email, password, salt);
    LoginDecision(reg.users, email, attempt, now, |users|);
  }

  // ---------------------------------------------------------------------------
  // Password comparison
  // ---------------------------------------------------------------------------

  /**
   * A password of at most 72 UTF-8 bytes without the NUL character is
   * accepted only as itself: the zero terminator marks where its bytes end in
   * the key, and UTF-8 gives the characters back from the bytes.
   */
  lemma ShortPasswordsCompareExactly(password: string, attempt: string, salt: nat)
    requires |Encode(password)| <= KeyLength && |Encode(attempt)| <= KeyLength
    requires forall i :: 0 <= i < |password| ==> password[i] != '\0'
    requires forall i :: 0 <= i < |attempt| ==> attempt[i] != '\0'
    ensures Matches(attempt, Hash(password, salt)) <==> attempt == password
  {
    if Matches(attempt, Hash(password, salt)) {
      var e, f := Encode(password), Encode(attempt);
      var k := CipherKey(password);
      assert k == CipherKey(attempt);
      EncodeWithoutNul(password);
      EncodeWithoutNul(attempt);
      assert forall i :: 0 <= i < |e| ==> e[i] == k[i] == f[i];
      assert e == f;
      EncodeInjective(password, attempt);
    }
  }

  /**
   * Only the first 72 bytes count: once the start of a password fills them,
   * whatever follows may be replaced by anything and the attempt is still
   * accepted.
   */
  lemma LongPasswordsShareKey(head: string, tail: string, other: string, salt: nat)
    requires |Encode(head)| >= KeyLength
    ensures Matches(head + other, Hash(head + tail, salt))
  {
    EncodeConcat(head, tail);
    EncodeConcat(head, other);
    var k, k' := CipherKey(head + tail), CipherKey(head + other);
    assert forall i :: 0 <= i < KeyLength ==> k[i] == Encode(head)[i] == k'[i];
  }

  /**
   * A NUL character in the attempt stands in for the zero terminator: the
   * password, a NUL and the password again key the cipher exactly as the
   * password does, so that different attempt is accepted too.
   */
  lemma NulRepetitionMatches(password: string, salt: nat)
    ensures password + "\0" + password != password
    ensures Matches(password + "\0" + password, Hash(password, salt))
  {
    var e := Encode(password);
    EncodeConcat(password + "\0", password);
    EncodeConcat(password, "\0");
    assert Encode("\0") == [0];
    assert Encode(password + "\0" + password) + [0] == (e + [0]) + (e + [0]);
    CycleTwice(e + [0], KeyLength);
  }

  /** Registered as "abc", the account also opens with "abc", NUL, "abc". */
  lemma NulAttemptExample(salt: nat)
    ensures Matches("abc\0abc", Hash("abc", salt))
  {
    NulRepetitionMatches("abc", salt);
    assert "abc" + "\0" + "abc" == "abc\0abc";
  }

  /** Registered as 72 letters "a" and "1", the account also opens with 72 letters "a" and "2". */
  lemma TruncationAcceptsOtherPassword(salt: nat)
    ensures var head := seq(KeyLength, _ => 'a');
            head + "2" != head + "1" && Matches(head + "2", Hash(head + "1", salt))
  {
    var head := seq(KeyLength, _ => 'a');
    EncodeAscii(head);
    LongPasswordsShareKey(head, "1", "2", salt);
    assert (head + "2")[KeyLength] != (head + "1")[KeyLength];
  }

  // ---------------------------------------------------------------------------
  // Handoff
  // ---------------------------------------------------------------------------

  /**
   * The handoff page of a federated login carries exactly the body a
   * successful local login of the same record returns: the same token rule
   * and the same name and email.
   */
  lemma HandoffCarriesLoginSession(users: seq<User>, k: nat, password: string, now: nat)
    requires UniqueEmails(users)
    requires k < |users| && users[k].password.Some? && Matches(password, users[k].password.value)
    ensures Login(users, users[k].email, password, now).body == SuccessHandoff(users[k], now).data
  {
    LoginDecision(users, users[k].email, password, now, k);
  }

  /**
   * A provider profile without a usable email makes the callback answer with
   * the server's error page and write nothing; the failure handoff is only
   * reached by a refusal.
   */
  lemma CallbackWithoutEmailIsServerError(users: seq<User>, nextId: nat, p: Provider, profile: Profile, now: nat)
    requires |profile.emails| == 0 || profile.emails[0] == ""
    ensures var res := Resolve(users, nextId, p, profile);
            CallbackReplyFor(res.outcome, now) == ServerError && res.users == users
  {
  }
}
