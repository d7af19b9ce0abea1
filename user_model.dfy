/** The User document: identity, authentication method, role, follow lists,
    the block flag and the two one-time tokens (account verification and
    password reset). A token is handed out raw while only its SHA-256 digest
    is stored, with an expiry ten minutes after it was issued.

    The digest and the password hash are modelled as constructors, so that
    equal digests come from equal texts; salts and the random bytes a token
    is made of are inputs. */
module UserModel {
  import opened Common

  /** `createHash("sha256").update(raw).digest("hex")`. */
  datatype Digest = Sha256Of(raw: string)

  /** `bcrypt.hash(plain, salt)`. */
  datatype PasswordHash = Bcrypt(plain: string)

  datatype AuthMethod = Google | Local | Facebook | Github
  datatype Role = Admin | Teacher | Student | Guest

  function RoleName(r: Role): string {
    match r
    case Admin => "admin"
    case Teacher => "teacher"
    case Student => "student"
    case Guest => "guest"
  }

  /** The enum validator of `role`. */
  function ParseRole(s: string): (r: Option<Role>)
    ensures r.Some? <==> s in {"admin", "teacher", "student", "guest"}
    ensures r.Some? ==> RoleName(r.value) == s
  {
    if s == "admin" then Some(Admin)
    else if s == "teacher" then Some(Teacher)
    else if s == "student" then Some(Student)
    else if s == "guest" then Some(Guest)
    else None
  }

  datatype User = User(
    id: ObjectId,
    username: string,
    email: Option<string>,
    password: Option<PasswordHash>,
    googleId: Option<string>,
    authMethod: AuthMethod,
    passwordResetToken: Option<Digest>,
    accountVerificationToken: Option<Digest>,
    accountVerificationExpires: Option<int>,
    passwordResetExpires: Option<int>,
    posts: seq<ObjectId>,
    role: Role,
    isEmailVerified: bool,
    lastLogin: int,
    followers: seq<ObjectId>,
    following: seq<ObjectId>,
    isBlocked: bool,
    studentProfile: Option<ObjectId>)

  /** How long a token stays valid: ten minutes. */
  const TokenLifetimeMs := 10 * MsPerMinute

  /** A user created with the given fields at time `now`, every other field
      at its default: local sign-in, not verified, not blocked, no tokens,
      no posts and no follow edges. A missing role means "student". */
  function NewUser(id: ObjectId, username: string, email: Option<string>,
                   password: Option<PasswordHash>, role: Option<Role>, now: int): (u: User)
    ensures u.id == id && u.username == username && u.email == email && u.password == password
    ensures u.role == (if role.Some? then role.value else Student)
    ensures u.authMethod == Local && !u.isEmailVerified && !u.isBlocked
    ensures u.passwordResetToken.None? && u.accountVerificationToken.None?
    ensures u.passwordResetExpires.None? && u.accountVerificationExpires.None?
    ensures u.posts == [] && u.followers == [] && u.following == [] && u.studentProfile.None?
    ensures u.lastLogin == now
  {
    User(id, username, email, password, None, Local, None, None, None, None, [],
         if role.Some? then role.value else Student, false, now, [], [], false, None)
  }

  /** `generateAccountVerificationToken` applied to the stored fields: the
      digest of `raw` and an expiry ten minutes after `now`; nothing else. */
  function WithVerificationToken(u: User, raw: string, now: int): (v: User)
    ensures v.accountVerificationToken == Some(Sha256Of(raw))
    ensures v.accountVerificationExpires == Some(now + TokenLifetimeMs)
    ensures v.(accountVerificationToken := u.accountVerificationToken,
               accountVerificationExpires := u.accountVerificationExpires) == u
  {
    u.(accountVerificationToken := Some(Sha256Of(raw)),
       accountVerificationExpires := Some(now + TokenLifetimeMs))
  }

  /** `generatePasswordResetToken` applied to the stored fields. */
  function WithResetToken(u: User, raw: string, now: int): (v: User)
    ensures v.passwordResetToken == Some(Sha256Of(raw))
    ensures v.passwordResetExpires == Some(now + TokenLifetimeMs)
    ensures v.(passwordResetToken := u.passwordResetToken,
               passwordResetExpires := u.passwordResetExpires) == u
  {
    u.(passwordResetToken := Some(Sha256Of(raw)),
       passwordResetExpires := Some(now + TokenLifetimeMs))
  }

  /** The query of `verifyAccount`: the stored digest is that of `token`
      and the expiry lies strictly after `now`. */
  function VerificationMatches(u: User, token: string, now: int): (b: bool)
    ensures b ==> u.accountVerificationToken == Some(Sha256Of(token))
    ensures b ==> u.accountVerificationExpires.Some? && now < u.accountVerificationExpires.value
    ensures u.accountVerificationToken.None? || u.accountVerificationExpires.None? ==> !b
  {
    u.accountVerificationToken == Some(Sha256Of(token))
    && u.accountVerificationExpires.Some? && u.accountVerificationExpires.value > now
  }

  /** The query of `resetPassword`. */
  function ResetMatches(u: User, token: string, now: int): (b: bool)
    ensures b ==> u.passwordResetToken == Some(Sha256Of(token))
    ensures b ==> u.passwordResetExpires.Some? && now < u.passwordResetExpires.value
    ensures u.passwordResetToken.None? || u.passwordResetExpires.None? ==> !b
  {
    u.passwordResetToken == Some(Sha256Of(token))
    && u.passwordResetExpires.Some? && u.passwordResetExpires.value > now
  }

  /** An issued verification token is accepted exactly when it is the raw
      token handed out and less than ten minutes have passed. */
  lemma VerificationTokenRoundTrip(u: User, raw: string, issuedAt: int, token: string, now: int)
    ensures VerificationMatches(WithVerificationToken(u, raw, issuedAt), token, now)
            <==> token == raw && now < issuedAt + 600_000
  {
  }

  /** The same for a reset token. */
  lemma ResetTokenRoundTrip(u: User, raw: string, issuedAt: int, token: string, now: int)
    ensures ResetMatches(WithResetToken(u, raw, issuedAt), token, now)
            <==> token == raw && now < issuedAt + 600_000
  {
  }

  /** Issuing one kind of token leaves the other kind's match unchanged. */
  lemma TokensIndependent(u: User, raw: string, issuedAt: int, token: string, now: int)
    ensures ResetMatches(WithVerificationToken(u, raw, issuedAt), token, now) == ResetMatches(u, token, now)
    ensures VerificationMatches(WithResetToken(u, raw, issuedAt), token, now)
            == VerificationMatches(u, token, now)
  {
  }

  /** A loaded user document, whose token methods assign its fields in
      memory; nothing is stored until the controller saves it. */
  class UserDocument {
    var record: User

    constructor (u: User)
      ensures record == u
    {
      record := u;
    }

    /** Stores the digest of the random `raw` with its expiry and returns the
        raw token. */
    method GenerateAccountVerificationToken(raw: string, now: int) returns (token: string)
      modifies this
      ensures token == raw
      ensures record == WithVerificationToken(old(record), raw, now)
    {
      record := record.(accountVerificationToken := Some(Sha256Of(raw)));
      record := record.(accountVerificationExpires := Some(now + TokenLifetimeMs));
      token := raw;
    }

    method GeneratePasswordResetToken(raw: string, now: int) returns (token: string)
      modifies this
      ensures token == raw
      ensures record == WithResetToken(old(record), raw, now)
    {
      record := record.(passwordResetToken := Some(Sha256Of(raw)));
      record := record.(passwordResetExpires := Some(now + TokenLifetimeMs));
      token := raw;
    }
  }

  /** The User collection, keyed by `_id`. */
  class UserCollection {
    var users: map<ObjectId, User>

    ghost predicate Valid()
      reads this
    {
      forall u :: u in users ==> users[u].id == u
    }

    constructor ()
      ensures Valid() && users == map[]
    {
      users := map[];
    }

    /** `save()` of a loaded document: its record replaces the stored one. */
    method Save(doc: UserDocument)
      requires Valid()
      modifies this
      ensures Valid()
      ensures users == old(users)[doc.record.id := doc.record]
    {
      users := users[doc.record.id := doc.record];
    }
  }
}
