/** The user controller: the follow graph (`followUser`, `unfollowUser`), the
    one-time tokens (`verifyEmail`, `verifyAccount`, `requestPasswordReset`,
    `resetPassword`), registration, `updateEmail` and blocking.

    A handler's thrown error is a `Fail` outcome; the store is the
    `UserCollection` (and, for registration, the `ProfileCollection`).
    E-mail delivery is left out: the token a handler e-mails is its result. */
module UserController {
  import opened Common
  import opened MongoArrays
  import opened UserModel
  import P = StudentProfileSchema

  /** The errors the handlers throw. */
  datatype Failure =
    | CannotFollowSelf
    | FollowTargetNotFound
    | UserNotFound
    | UnfollowTargetNotFound
    | CannotUnfollowSelf
    | EmailNotFound
    | InvalidOrExpiredToken
    | InvalidResetToken
    | EmailUserNotFound
    | NotLocalAccount
    | UserAlreadyExists
    | ValidationFailed
    | EmailInUse
    | Crashed

  datatype Outcome<+T> = Ok(value: T) | Fail(failure: Failure)

  type Users = map<ObjectId, User>

  /** Whether one stored user matches the `email` key of a `findOne`
      filter built from the request body. An absent e-mail leaves the key
      out of the filter, so every user matches it. */
  function EmailFilterMatches(u: User, email: Option<string>): (b: bool)
    ensures email.None? ==> b
    ensures email.Some? ==> (b <==> u.email == email)
  {
    email.None? || u.email == email
  }

  // ---------------------------------------------------------------------
  // The follow graph
  // ---------------------------------------------------------------------

  /** One stored user after `followUser` from `u` to `v`: `u` gains `v` in
      `following` and `v` gains `u` in `followers`, both by `$addToSet`. */
  function FollowedEntry(x: User, w: ObjectId, u: ObjectId, v: ObjectId): User {
    x.(following := if w == u then AddToSet(x.following, v) else x.following,
       followers := if w == v then AddToSet(x.followers, u) else x.followers)
  }

  /** One stored user after `unfollowUser`: `user.following.pull(v)` and
      `target.followers.pull(u)`. */
  function UnfollowedEntry(x: User, w: ObjectId, u: ObjectId, v: ObjectId): User {
    x.(following := if w == u then Pull(x.following, v) else x.following,
       followers := if w == v then Pull(x.followers, u) else x.followers)
  }

  /** The two `findByIdAndUpdate` calls of `followUser`: `u` now follows `v`
      and `v` has `u` among its followers; no other entry of any list, and
      no other field, changes. An id that is not stored is not updated. */
  function Followed(m: Users, u: ObjectId, v: ObjectId): (r: Users)
    ensures r.Keys == m.Keys
    ensures forall w, x :: w in m ==>
              (x in r[w].following <==> x in m[w].following || (w == u && x == v))
    ensures forall w, x :: w in m ==>
              (x in r[w].followers <==> x in m[w].followers || (w == v && x == u))
    ensures forall w :: w in m ==>
              r[w].(following := m[w].following, followers := m[w].followers) == m[w]
    ensures forall w :: w in m && w != u && w != v ==> r[w] == m[w]
  {
    map w | w in m :: FollowedEntry(m[w], w, u, v)
  }

  /** The two pulls of `unfollowUser`. */
  function Unfollowed(m: Users, u: ObjectId, v: ObjectId): (r: Users)
    ensures r.Keys == m.Keys
    ensures forall w, x :: w in m ==>
              (x in r[w].following <==> x in m[w].following && !(w == u && x == v))
    ensures forall w, x :: w in m ==>
              (x in r[w].followers <==> x in m[w].followers && !(w == v && x == u))
    ensures forall w :: w in m ==>
              r[w].(following := m[w].following, followers := m[w].followers) == m[w]
    ensures forall w :: w in m && w != u && w != v ==> r[w] == m[w]
  {
    map w | w in m :: UnfollowedEntry(m[w], w, u, v)
  }

  /** Following is a set operation: following twice is following once. */
  lemma FollowIdempotent(m: Users, u: ObjectId, v: ObjectId)
    ensures Followed(Followed(m, u, v), u, v) == Followed(m, u, v)
  {
    var f := Followed(m, u, v);
    forall w | w in m
      ensures FollowedEntry(f[w], w, u, v) == f[w]
    {
      AddToSetIdempotent(m[w].following, v);
      AddToSetIdempotent(m[w].followers, u);
    }
  }

  /** Unfollowing a user one did not follow before undoes the follow. */
  lemma UnfollowUndoesFollow(m: Users, u: ObjectId, v: ObjectId)
    requires u != v
    requires u in m ==> v !in m[u].following
    requires v in m ==> u !in m[v].followers
    ensures Unfollowed(Followed(m, u, v), u, v) == m
  {
    var f := Followed(m, u, v);
    forall w | w in m
      ensures UnfollowedEntry(f[w], w, u, v) == m[w]
    {
      if w == u {
        PullUndoesAddToSet(m[w].following, v);
      }
      if w == v {
        PullUndoesAddToSet(m[w].followers, u);
      }
    }
  }

  /** Between stored users, `a` follows `b` exactly when `a` is among `b`'s
      followers. */
  ghost predicate FollowSymmetric(m: Users) {
    forall a, b :: a in m && b in m ==> (b in m[a].following <==> a in m[b].followers)
  }

  /** Both handlers keep the two lists mirror images of each other. */
  lemma FollowKeepsSymmetry(m: Users, u: ObjectId, v: ObjectId)
    requires FollowSymmetric(m)
    ensures FollowSymmetric(Followed(m, u, v))
    ensures FollowSymmetric(Unfollowed(m, u, v))
  {
  }

  /** `followUser`: self-follow is refused first, then a missing target;
      otherwise both `$addToSet` updates happen. */
  method FollowUser(users: UserCollection, requester: ObjectId, followId: ObjectId)
    returns (r: Outcome<()>)
    requires users.Valid()
    modifies users
    ensures users.Valid()
    ensures r == Fail(CannotFollowSelf) <==> requester == followId
    ensures r == Fail(FollowTargetNotFound) <==> requester != followId && followId !in old(users.users)
    ensures r.Ok? <==> requester != followId && followId in old(users.users)
    ensures users.users == if r.Ok? then Followed(old(users.users), requester, followId)
                           else old(users.users)
  {
    if requester == followId {
      return Fail(CannotFollowSelf);
    }
    if followId !in users.users {
      return Fail(FollowTargetNotFound);
    }
    users.users := Followed(users.users, requester, followId);
    r := Ok(());
  }

  /** `unfollowUser`: both users must exist (the requester is checked
      first), then self-unfollow is refused; otherwise both pulls are
      saved. */
  method UnfollowUser(users: UserCollection, requester: ObjectId, unfollowId: ObjectId)
    returns (r: Outcome<()>)
    requires users.Valid()
    modifies users
    ensures users.Valid()
    ensures r == Fail(UserNotFound) <==> requester !in old(users.users)
    ensures r == Fail(UnfollowTargetNotFound)
            <==> requester in old(users.users) && unfollowId !in old(users.users)
    ensures r == Fail(CannotUnfollowSelf)
            <==> requester in old(users.users) && unfollowId in old(users.users) && requester == unfollowId
    ensures r.Ok? <==> requester in old(users.users) && unfollowId in old(users.users) && requester != unfollowId
    ensures users.users == if r.Ok? then Unfollowed(old(users.users), requester, unfollowId)
                           else old(users.users)
  {
    if requester !in users.users {
      return Fail(UserNotFound);
    }
    if unfollowId !in users.users {
      return Fail(UnfollowTargetNotFound);
    }
    if requester == unfollowId {
      return Fail(CannotUnfollowSelf);
    }
    users.users := Unfollowed(users.users, requester, unfollowId);
    r := Ok(());
  }

  // ---------------------------------------------------------------------
  // Tokens
  // ---------------------------------------------------------------------

  /** What `verifyAccount` saves: the address verified and both
      verification fields cleared, so no token matches any more. */
  function Verified(u: User): (v: User)
    ensures v.isEmailVerified
    ensures forall token, now :: !VerificationMatches(v, token, now)
    ensures v.(isEmailVerified := u.isEmailVerified,
               accountVerificationToken := u.accountVerificationToken,
               accountVerificationExpires := u.accountVerificationExpires) == u
  {
    u.(isEmailVerified := true, accountVerificationToken := None, accountVerificationExpires := None)
  }

  /** What `resetPassword` saves: the bcrypt hash of the new password and
      both reset fields cleared, so the token cannot be used twice. */
  function PasswordReset(u: User, newPassword: string): (v: User)
    ensures v.password == Some(Bcrypt(newPassword))
    ensures forall token, now :: !ResetMatches(v, token, now)
    ensures v.(password := u.password, passwordResetToken := u.passwordResetToken,
               passwordResetExpires := u.passwordResetExpires) == u
  {
    u.(password := Some(Bcrypt(newPassword)), passwordResetToken := None, passwordResetExpires := None)
  }

  /** The life of a verification token: the raw token issued at `issuedAt`
      is accepted at any `now` before the expiry, and once accepted it is
      refused at every later time. */
  lemma VerificationTokenIsOneShot(u: User, raw: string, issuedAt: int, now: int, later: int)
    requires issuedAt <= now < issuedAt + TokenLifetimeMs
    ensures VerificationMatches(WithVerificationToken(u, raw, issuedAt), raw, now)
    ensures !VerificationMatches(Verified(WithVerificationToken(u, raw, issuedAt)), raw, later)
  {
    VerificationTokenRoundTrip(u, raw, issuedAt, raw, now);
  }

  /** The same life for a password-reset token. */
  lemma ResetTokenIsOneShot(u: User, raw: string, issuedAt: int, now: int, later: int, pw: string)
    requires issuedAt <= now < issuedAt + TokenLifetimeMs
    ensures ResetMatches(WithResetToken(u, raw, issuedAt), raw, now)
    ensures !ResetMatches(PasswordReset(WithResetToken(u, raw, issuedAt), pw), raw, later)
  {
    ResetTokenRoundTrip(u, raw, issuedAt, raw, now);
  }

  /** `verifyEmail`: a stored user with a non-empty e-mail gets a fresh
      verification token, which is saved and e-mailed; `Ok` carries the raw
      token that is e-mailed. The handler sends no answer after a
      successful send, so `Ok` is not a response to the request. */
  method VerifyEmail(users: UserCollection, requester: ObjectId, raw: string, now: int)
    returns (r: Outcome<string>)
    requires users.Valid()
    modifies users
    ensures users.Valid()
    ensures r == Fail(UserNotFound) <==> requester !in old(users.users)
    ensures r == Fail(EmailNotFound) <==>
              (requester in old(users.users)
               && (old(users.users)[requester].email.None? || old(users.users)[requester].email == Some("")))
    ensures r.Ok? ==> r.value == raw
    ensures users.users == if r.Ok? then old(users.users)[requester := WithVerificationToken(old(users.users)[requester], raw, now)]
                           else old(users.users)
  {
    if requester !in users.users {
      return Fail(UserNotFound);
    }
    var u := users.users[requester];
    if u.email.None? || u.email == Some("") {
      return Fail(EmailNotFound);
    }
    var doc := new UserDocument(u);
    var token := doc.GenerateAccountVerificationToken(raw, now);
    users.Save(doc);
    r := Ok(token);
  }

  /** `verifyAccount`: the store returns some user whose stored digest is
      that of `token` and whose expiry is still ahead; that user is saved
      as verified and its role is returned. */
  method VerifyAccount(users: UserCollection, token: string, now: int) returns (r: Outcome<Role>)
    requires users.Valid()
    modifies users
    ensures users.Valid()
    ensures r.Ok? <==> exists id :: id in old(users.users) && VerificationMatches(old(users.users)[id], token, now)
    ensures r.Fail? ==> r.failure == InvalidOrExpiredToken && users.users == old(users.users)
    ensures r.Ok? ==> exists id ::
              (id in old(users.users) && VerificationMatches(old(users.users)[id], token, now)
               && r.value == old(users.users)[id].role
               && users.users == old(users.users)[id := Verified(old(users.users)[id])])
  {
    if id :| id in users.users && VerificationMatches(users.users[id], token, now) {
      var u := users.users[id];
      users.users := users.users[id := Verified(u)];
      r := Ok(u.role);
    } else {
      r := Fail(InvalidOrExpiredToken);
    }
  }

  /** `requestPasswordReset`: the store returns some user matching the
      request's e-mail (any user at all when the request has none); only an
      account created with e-mail and password gets a reset token, which is
      saved and e-mailed to that user's address. */
  method RequestPasswordReset(users: UserCollection, email: Option<string>, raw: string, now: int)
    returns (r: Outcome<string>)
    requires users.Valid()
    modifies users
    ensures users.Valid()
    ensures r == Fail(EmailUserNotFound)
            <==> forall id :: id in old(users.users) ==> !EmailFilterMatches(old(users.users)[id], email)
    ensures email.None? ==> (r == Fail(EmailUserNotFound) <==> old(users.users) == map[])
    ensures r.Fail? ==> r.failure in {EmailUserNotFound, NotLocalAccount} && users.users == old(users.users)
    ensures r == Fail(NotLocalAccount) ==> exists id ::
              (id in old(users.users)
               && EmailFilterMatches(old(users.users)[id], email) && old(users.users)[id].authMethod != Local)
    ensures r.Ok? ==> r.value == raw && exists id ::
              (id in old(users.users)
               && EmailFilterMatches(old(users.users)[id], email) && old(users.users)[id].authMethod == Local
               && users.users == old(users.users)[id := WithResetToken(old(users.users)[id], raw, now)])
  {
    if id :| id in users.users && EmailFilterMatches(users.users[id], email) {
      var u := users.users[id];
      if u.authMethod != Local {
        return Fail(NotLocalAccount);
      }
      var doc := new UserDocument(u);
      var token := doc.GeneratePasswordResetToken(raw, now);
      users.Save(doc);
      r := Ok(token);
    } else {
      r := Fail(EmailUserNotFound);
    }
  }

  /** `resetPassword`: the same match-and-expiry rule as `verifyAccount`,
      on the reset fields. */
  method ResetPassword(users: UserCollection, token: string, newPassword: string, now: int)
    returns (r: Outcome<()>)
    requires users.Valid()
    modifies users
    ensures users.Valid()
    ensures r.Ok? <==> exists id :: id in old(users.users) && ResetMatches(old(users.users)[id], token, now)
    ensures r.Fail? ==> r.failure == InvalidResetToken && users.users == old(users.users)
    ensures r.Ok? ==> exists id ::
              (id in old(users.users) && ResetMatches(old(users.users)[id], token, now)
               && users.users == old(users.users)[id := PasswordReset(old(users.users)[id], newPassword)])
  {
    if id :| id in users.users && ResetMatches(users.users[id], token, now) {
      users.users := users.users[id := PasswordReset(users.users[id], newPassword)];
      r := Ok(());
    } else {
      r := Fail(InvalidResetToken);
    }
  }

  // ---------------------------------------------------------------------
  // Registration
  // ---------------------------------------------------------------------

  /** The state registration leaves behind, with its outcome. */
  datatype Registration = Registration(outcome: Outcome<User>, users: Users,
                                       profiles: map<ObjectId, P.StudentProfile>)

  /** `User.findOne({ username, email })` finds someone; without an e-mail
      the username alone decides. */
  predicate Registered(m: Users, username: string, email: Option<string>) {
    exists id :: id in m && m[id].username == username && EmailFilterMatches(m[id], email)
  }

  /** What `User.create` validates: a username, and a role (when one is
      given) among the enum's names. */
  predicate CreateAccepted(username: string, role: Option<string>) {
    username != "" && (role.Some? ==> ParseRole(role.value).Some?)
  }

  function RoleOf(role: Option<string>): Option<Role>
    requires role.Some? ==> ParseRole(role.value).Some?
  {
    if role.Some? then ParseRole(role.value) else None
  }

  /** `register` as written: after the user is created, its `studentProfile`
      is set from a profile that exists only for students. For any other
      role the dereference throws, leaving the created user stored without
      a profile and the request failed. `userId` and `profileId` are the
      fresh ids the store assigns. */
  function RegisterAsWritten(users: Users, profiles: map<ObjectId, P.StudentProfile>,
                             userId: ObjectId, profileId: ObjectId, username: string,
                             email: Option<string>, password: string, role: Option<string>,
                             now: int): (g: Registration)
    requires userId != "" && userId !in users && userId !in profiles
    ensures g.outcome == Fail(UserAlreadyExists) <==> Registered(users, username, email)
    ensures g.outcome.Fail? && g.outcome.failure != Crashed ==> g.users == users && g.profiles == profiles
    ensures g.outcome == Fail(Crashed) ==> userId in g.users && g.users[userId].studentProfile.None?
                                           && g.profiles == profiles
  {
    if Registered(users, username, email) then Registration(Fail(UserAlreadyExists), users, profiles)
    else if !CreateAccepted(username, role) then Registration(Fail(ValidationFailed), users, profiles)
    else
      var u := NewUser(userId, username, email, Some(Bcrypt(password)), RoleOf(role), now);
      if u.role == Student then
        var linked := u.(studentProfile := Some(profileId));
        Registration(Ok(linked), users[userId := linked], profiles[userId := P.NewProfile(profileId, userId)])
      else
        Registration(Fail(Crashed), users[userId := u], profiles)
  }

  /** A teacher who registers is stored, yet the request fails. */
  lemma RegisterAsWrittenFailsForTeachers(users: Users, profiles: map<ObjectId, P.StudentProfile>,
                                          userId: ObjectId, profileId: ObjectId, username: string,
                                          email: Option<string>, password: string, now: int)
    requires userId != "" && userId !in users && userId !in profiles
    requires !Registered(users, username, email) && username != ""
    ensures var g := RegisterAsWritten(users, profiles, userId, profileId, username, email, password,
                                       Some("teacher"), now);
            g.outcome == Fail(Crashed) && userId in g.users && g.users[userId].role == Teacher
  {
  }

  /** `register` as intended: a student gets a new profile linked both
      ways; any other role is registered without one. */
  function Register(users: Users, profiles: map<ObjectId, P.StudentProfile>,
                    userId: ObjectId, profileId: ObjectId, username: string,
                    email: Option<string>, password: string, role: Option<string>,
                    now: int): (g: Registration)
    requires userId != "" && userId !in users && userId !in profiles
    ensures g.outcome == Fail(UserAlreadyExists) <==> Registered(users, username, email)
    ensures g.outcome == Fail(ValidationFailed)
            <==> !Registered(users, username, email) && !CreateAccepted(username, role)
    ensures g.outcome.Fail? ==> g.users == users && g.profiles == profiles
    ensures g.outcome.Ok? ==> g.users == users[userId := g.outcome.value]
    ensures g.outcome.Ok? ==> var u := g.outcome.value;
              u.id == userId && u.username == username && u.email == email
              && u.password == Some(Bcrypt(password)) && !u.isEmailVerified && u.authMethod == Local
              && u.role == (if role.Some? then RoleOf(role).value else Student)
    ensures g.outcome.Ok? && g.outcome.value.role == Student ==>
              g.outcome.value.studentProfile == Some(profileId)
              && g.profiles == profiles[userId := P.NewProfile(profileId, userId)]
    ensures g.outcome.Ok? && g.outcome.value.role != Student ==>
              g.outcome.value.studentProfile.None? && g.profiles == profiles
  {
    if Registered(users, username, email) then Registration(Fail(UserAlreadyExists), users, profiles)
    else if !CreateAccepted(username, role) then Registration(Fail(ValidationFailed), users, profiles)
    else
      var u := NewUser(userId, username, email, Some(Bcrypt(password)), RoleOf(role), now);
      if u.role == Student then
        var linked := u.(studentProfile := Some(profileId));
        Registration(Ok(linked), users[userId := linked], profiles[userId := P.NewProfile(profileId, userId)])
      else
        Registration(Ok(u), users[userId := u], profiles)
  }

  /** Registration succeeds for every new, valid request, whatever the role,
      and a student's profile points back at the user. */
  lemma RegisterAcceptsEveryRole(users: Users, profiles: map<ObjectId, P.StudentProfile>,
                                 userId: ObjectId, profileId: ObjectId, username: string,
                                 email: Option<string>, password: string, role: Option<string>, now: int)
    requires userId != "" && userId !in users && userId !in profiles
    requires !Registered(users, username, email) && CreateAccepted(username, role)
    ensures var g := Register(users, profiles, userId, profileId, username, email, password, role, now);
            g.outcome.Ok? && userId in g.users
            && (g.users[userId].studentProfile.Some? <==> g.users[userId].role == Student)
            && (g.users[userId].role == Student ==> g.profiles[userId].id == profileId
                                                    && g.profiles[userId].userId == userId
                                                    && P.SchemaValid(g.profiles[userId]))
  {
  }

  /** The two versions agree whenever the registering user is a student. */
  lemma RegisterAgreesForStudents(users: Users, profiles: map<ObjectId, P.StudentProfile>,
                                  userId: ObjectId, profileId: ObjectId, username: string,
                                  email: Option<string>, password: string, role: Option<string>, now: int)
    requires userId != "" && userId !in users && userId !in profiles
    requires role.None? || role == Some("student")
    ensures RegisterAsWritten(users, profiles, userId, profileId, username, email, password, role, now)
            == Register(users, profiles, userId, profileId, username, email, password, role, now)
  {
  }

  /** Registration adds at most a fresh default profile, so the stored
      quiz statistics stay well formed. */
  lemma RegisterKeepsStats(users: Users, profiles: map<ObjectId, P.StudentProfile>,
                           userId: ObjectId, profileId: ObjectId, username: string,
                           email: Option<string>, password: string, role: Option<string>, now: int)
    requires userId != "" && userId !in users && userId !in profiles
    requires P.AllStatsWellFormed(profiles)
    ensures P.AllStatsWellFormed(Register(users, profiles, userId, profileId, username,
                                          email, password, role, now).profiles)
  {
    assert P.StatsWellFormed(P.NewProfile(profileId, userId));
  }

  /** `register` with the profile dereference guarded: the stores end as
      `Register` describes. */
  method RegisterUser(users: UserCollection, profiles: P.ProfileCollection,
                      userId: ObjectId, profileId: ObjectId, username: string,
                      email: Option<string>, password: string, role: Option<string>, now: int)
    returns (r: Outcome<User>)
    requires users.Valid() && profiles.Valid()
    requires userId != "" && userId !in users.users && userId !in profiles.profiles
    modifies users, profiles
    ensures users.Valid() && profiles.Valid()
    ensures old(profiles.StatsKept()) ==> profiles.StatsKept()
    ensures var g := Register(old(users.users), old(profiles.profiles), userId, profileId, username,
                              email, password, role, now);
            r == g.outcome && users.users == g.users && profiles.profiles == g.profiles
  {
    if exists id :: id in users.users && users.users[id].username == username
                    && EmailFilterMatches(users.users[id], email) {
      return Fail(UserAlreadyExists);
    }
    if !CreateAccepted(username, role) {
      return Fail(ValidationFailed);
    }
    var u := NewUser(userId, username, email, Some(Bcrypt(password)), RoleOf(role), now);
    ghost var g := Register(users.users, profiles.profiles, userId, profileId, username,
                            email, password, role, now);
    if profiles.StatsKept() {
      RegisterKeepsStats(users.users, profiles.profiles, userId, profileId, username,
                         email, password, role, now);
    }
    var doc := new UserDocument(u);
    if u.role == Student {
      var created := profiles.Insert(P.NewProfile(profileId, userId));
      assert created;
      doc.record := u.(studentProfile := Some(profileId));
      assert g.profiles == profiles.profiles;
    }
    assert g.outcome == Ok(doc.record);
    users.Save(doc);
    r := Ok(doc.record);
  }

  // ---------------------------------------------------------------------
  // updateEmail
  // ---------------------------------------------------------------------

  /** The state `updateEmail` leaves behind; the outcome carries the token
      it e-mails. */
  datatype EmailUpdate = EmailUpdate(outcome: Outcome<string>, users: Users)

  /** `User.findOne({ email })` finds some stored user, the requester
      included. */
  predicate EmailTaken(m: Users, email: Option<string>) {
    exists id :: id in m && EmailFilterMatches(m[id], email)
  }

  /** The new address, marked unverified. */
  function WithNewEmail(u: User, email: Option<string>): (v: User)
    ensures v.email == email && !v.isEmailVerified
    ensures v.(email := u.email, isEmailVerified := u.isEmailVerified) == u
  {
    u.(email := email, isEmailVerified := false)
  }

  /** `updateEmail` as written: the verification token is generated after
      the only save, so the stored user keeps its old verification fields
      while the new token is e-mailed. */
  function UpdateEmailAsWritten(m: Users, requester: ObjectId, email: Option<string>, raw: string, now: int)
    : (g: EmailUpdate)
    ensures g.outcome == Fail(EmailInUse) <==> EmailTaken(m, email)
    ensures g.outcome == Fail(UserNotFound) <==> !EmailTaken(m, email) && requester !in m
    ensures g.outcome.Fail? ==> g.users == m
    ensures g.outcome.Ok? ==>
              (g.outcome.value == raw && requester in m
               && g.users == m[requester := WithNewEmail(m[requester], email)])
  {
    if EmailTaken(m, email) then EmailUpdate(Fail(EmailInUse), m)
    else if requester !in m then EmailUpdate(Fail(UserNotFound), m)
    else EmailUpdate(Ok(raw), m[requester := WithNewEmail(m[requester], email)])
  }

  /** The e-mailed token never verifies the new address unless the user
      happened to hold that very token already. */
  lemma EmailedTokenRejectedAsWritten(m: Users, requester: ObjectId, email: string, raw: string,
                                      now: int, later: int)
    requires requester in m && !EmailTaken(m, Some(email))
    requires m[requester].accountVerificationToken != Some(Sha256Of(raw))
    ensures var g := UpdateEmailAsWritten(m, requester, Some(email), raw, now);
            g.outcome == Ok(raw) && !VerificationMatches(g.users[requester], raw, later)
  {
  }

  /** `updateEmail` as intended: the verification token is stored with the
      new address. */
  function UpdateEmail(m: Users, requester: ObjectId, email: Option<string>, raw: string, now: int)
    : (g: EmailUpdate)
    ensures g.outcome == Fail(EmailInUse) <==> EmailTaken(m, email)
    ensures g.outcome == Fail(UserNotFound) <==> !EmailTaken(m, email) && requester !in m
    ensures g.outcome.Fail? ==> g.users == m
    ensures g.outcome.Ok? ==>
              (g.outcome.value == raw && requester in m
               && g.users == m[requester := WithVerificationToken(WithNewEmail(m[requester], email), raw, now)])
  {
    if EmailTaken(m, email) then EmailUpdate(Fail(EmailInUse), m)
    else if requester !in m then EmailUpdate(Fail(UserNotFound), m)
    else EmailUpdate(Ok(raw), m[requester := WithVerificationToken(WithNewEmail(m[requester], email), raw, now)])
  }

  /** With the token stored, the e-mailed token verifies the new address at
      any time before it expires. */
  lemma EmailedTokenAccepted(m: Users, requester: ObjectId, email: string, raw: string,
                             now: int, later: int)
    requires requester in m && !EmailTaken(m, Some(email))
    requires later < now + TokenLifetimeMs
    ensures var g := UpdateEmail(m, requester, Some(email), raw, now);
            g.outcome == Ok(raw) && VerificationMatches(g.users[requester], raw, later)
            && g.users[requester].email == Some(email) && !g.users[requester].isEmailVerified
  {
    VerificationTokenRoundTrip(WithNewEmail(m[requester], Some(email)), raw, now, raw, later);
  }

  /** A request without an e-mail matches every stored user, so both
      versions answer "Email is already in use" whenever anyone is stored
      (the requester included), and an address is only ever replaced by
      one that was given. */
  lemma AbsentEmailIsInUse(m: Users, requester: ObjectId, raw: string, now: int)
    ensures UpdateEmailAsWritten(m, requester, None, raw, now).outcome
            == (if m == map[] then Fail(UserNotFound) else Fail(EmailInUse))
    ensures UpdateEmail(m, requester, None, raw, now).outcome
            == (if m == map[] then Fail(UserNotFound) else Fail(EmailInUse))
  {
    if m != map[] {
      var id :| id in m;
      assert EmailFilterMatches(m[id], None);
    }
  }

  /** Either version changes an address only to the one the request gave. */
  lemma UpdatedEmailWasGiven(m: Users, requester: ObjectId, email: Option<string>, raw: string, now: int)
    ensures UpdateEmailAsWritten(m, requester, email, raw, now).outcome.Ok? ==> email.Some?
    ensures UpdateEmail(m, requester, email, raw, now).outcome.Ok? ==> email.Some?
  {
    if requester in m {
      assert email.None? ==> EmailFilterMatches(m[requester], email);
    }
  }

  /** `updateEmail` with the token generated before the save. */
  method UpdateUserEmail(users: UserCollection, requester: ObjectId, email: Option<string>, raw: string, now: int)
    returns (r: Outcome<string>)
    requires users.Valid()
    modifies users
    ensures users.Valid()
    ensures var g := UpdateEmail(old(users.users), requester, email, raw, now);
            r == g.outcome && users.users == g.users
  {
    if exists id :: id in users.users && EmailFilterMatches(users.users[id], email) {
      return Fail(EmailInUse);
    }
    if requester !in users.users {
      return Fail(UserNotFound);
    }
    var doc := new UserDocument(WithNewEmail(users.users[requester], email));
    var token := doc.GenerateAccountVerificationToken(raw, now);
    users.Save(doc);
    r := Ok(token);
  }

  // ---------------------------------------------------------------------
  // Blocking
  // ---------------------------------------------------------------------

  /** `findByIdAndUpdate(id, { isBlocked: blocked })`. */
  function WithBlocked(m: Users, id: ObjectId, blocked: bool): (r: Users)
    ensures r.Keys == m.Keys
    ensures id in m ==> r[id].isBlocked == blocked && r[id].(isBlocked := m[id].isBlocked) == m[id]
    ensures forall w :: w in m && w != id ==> r[w] == m[w]
  {
    if id in m then m[id := m[id].(isBlocked := blocked)] else m
  }

  /** The last of several block and unblock updates decides. */
  lemma LastBlockWins(m: Users, id: ObjectId, first: bool, second: bool)
    ensures WithBlocked(WithBlocked(m, id, first), id, second) == WithBlocked(m, id, second)
  {
  }

  /** Unblocking a user that was not blocked before undoes a block. */
  lemma UnblockUndoesBlock(m: Users, id: ObjectId)
    requires id in m ==> !m[id].isBlocked
    ensures WithBlocked(WithBlocked(m, id, true), id, false) == m
  {
  }

  /** `blockUser` (blocked = true) and `unblockUser` (blocked = false): a
      missing user throws; the result is the username. */
  method SetBlocked(users: UserCollection, id: ObjectId, blocked: bool) returns (r: Outcome<string>)
    requires users.Valid()
    modifies users
    ensures users.Valid()
    ensures r.Fail? <==> id !in old(users.users)
    ensures r.Fail? ==> r.failure == UserNotFound
    ensures r.Ok? ==> r.value == old(users.users)[id].username
    ensures users.users == WithBlocked(old(users.users), id, blocked)
  {
    if id !in users.users {
      return Fail(UserNotFound);
    }
    r := Ok(users.users[id].username);
    users.users := WithBlocked(users.users, id, blocked);
  }
}
