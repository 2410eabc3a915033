/**
 * The Google OAuth verify callback: given the session user (if any), the
 * access token and the Google profile, it either links the Google account to
 * the signed-in user, signs a returning user in, creates a new user, or
 * rejects the request with a message. The User table is a class whose
 * methods update it; the decision itself is specified by the function
 * `Verify` on table values, and the lemmas below state what each branch
 * promises.
 */
module GoogleAuth {
  import opened Js

  /** An OAuth token stored on a user: `{ kind, accessToken }`. */
  datatype Token = Token(kind: string, accessToken: string)

  /** A row of the User table. Its id is its position in the table. */
  datatype User = User(
    email: Option<string>,
    google: Option<string>,
    name: Option<string>,
    gender: Option<string>,
    picture: Option<string>,
    tokens: seq<Token>)

  /** What Google reports about the account: `profile.id`, `profile.displayName`
    * and `profile._json.{emails, gender, picture}` (the emails as their `value`s). */
  datatype GoogleProfile = GoogleProfile(
    id: string,
    displayName: Option<string>,
    emails: seq<string>,
    gender: Option<string>,
    picture: Option<string>)

  /** Which calls into the ORM fail during this request. */
  datatype Faults = Faults(
    googleLookup: bool,   // findOne by Google id reports an error
    emailLookup: bool,    // findOne by email reports an error
    sessionLookup: bool,  // findById of the session user reports an error
    save: bool,           // user.save reports an error
    create: bool)         // User.create reports an error

  /** How the callback calls `done`. */
  datatype Outcome =
    | Rejected(message: string)            // done(null, false, { message })
    | Linked(user: nat, message: string)   // done(null, user, { message })
    | SignedIn(user: nat)                  // done(null, existingUser)
    | Created(user: nat)                   // done(null, user)
    | StoreFailed(row: Option<nat>)        // done(err, user) after a failed save or create
    | Unanswered                           // the callback throws before calling done

  /** The outcome together with the table as it is afterwards. */
  datatype Step = Step(outcome: Outcome, users: seq<User>)

  const GoogleTakenMessage := "There is already a Google account that belongs to you. Sign in with that account or delete it, then link it with your current account."
  const LinkedMessage := "Google account has been linked."
  const EmailTakenMessage := "There is already an account using this email address. Sign in to that account and link it with Google manually from Account Settings."
  const FailureMessage := "Something went wrong trying to authenticate"

  /** The `where` clause of a `findOne` query. */
  datatype Where = GoogleIs(gid: string) | EmailIs(address: string)

  predicate Matches(u: User, w: Where)
  {
    match w
    case GoogleIs(gid) => u.google == Some(gid)
    case EmailIs(address) => u.email == Some(address)
  }

  /** Some row of `users` satisfies `w`. */
  ghost predicate Exists(users: seq<User>, w: Where)
  {
    exists k :: 0 <= k < |users| && Matches(users[k], w)
  }

  /** The first row at or after `from` that satisfies `w`. */
  function FindFrom(users: seq<User>, w: Where, from: nat): (r: Option<nat>)
    requires from <= |users|
    ensures r.Some? ==> from <= r.value < |users| && Matches(users[r.value], w)
    ensures r.Some? ==> forall k :: from <= k < r.value ==> !Matches(users[k], w)
    ensures r.None? <==> forall k :: from <= k < |users| ==> !Matches(users[k], w)
    decreases |users| - from
  {
    if from == |users| then None
    else if Matches(users[from], w) then Some(from)
    else FindFrom(users, w, from + 1)
  }

  /** `User.findOne({ where })`: the id of a matching row, if there is one. */
  function FindOne(users: seq<User>, w: Where): (r: Option<nat>)
    ensures r.Some? ==> r.value < |users| && Matches(users[r.value], w)
    ensures r.None? <==> !Exists(users, w)
  {
    FindFrom(users, w, 0)
  }

  /** At most one user per Google id. */
  ghost predicate UniqueGoogle(users: seq<User>)
  {
    forall i, j :: 0 <= i < |users| && 0 <= j < |users| && users[i].google.Some? && users[i].google == users[j].google ==> i == j
  }

  /** At most one user per email address. */
  ghost predicate UniqueEmail(users: seq<User>)
  {
    forall i, j :: 0 <= i < |users| && 0 <= j < |users| && users[i].email.Some? && users[i].email == users[j].email ==> i == j
  }

  /** The session user's row after linking: Google id set, token appended,
    * and each profile field kept when truthy, otherwise taken from Google. */
  function LinkRecord(u: User, p: GoogleProfile, accessToken: string): User
  {
    u.(google := Some(p.id),
       tokens := u.tokens + [Token("google", accessToken)],
       name := Or(u.name, p.displayName),
       gender := Or(u.gender, p.gender),
       picture := Or(u.picture, p.picture))
  }

  /** The row `User.create` inserts for a first-time Google user. */
  function NewRecord(p: GoogleProfile): User
    requires |p.emails| > 0
  {
    User(Some(p.emails[0]), Some(p.id), p.displayName, p.gender, p.picture, [])
  }

  /** The verify callback, on table values. */
  function Verify(users: seq<User>, session: Option<nat>, accessToken: string, p: GoogleProfile, f: Faults): Step
  {
    if f.googleLookup then
      Step(Rejected(FailureMessage), users)
    else if session.Some? then
      if FindOne(users, GoogleIs(p.id)).Some? then
        Step(Rejected(GoogleTakenMessage), users)
      else if f.sessionLookup || session.value >= |users| then
        Step(Unanswered, users)
      else if f.save then
        Step(StoreFailed(Some(session.value)), users)
      else
        Step(Linked(session.value, LinkedMessage), users[session.value := LinkRecord(users[session.value], p, accessToken)])
    else
      match FindOne(users, GoogleIs(p.id))
      case Some(existing) => Step(SignedIn(existing), users)
      case None =>
        if |p.emails| == 0 || f.emailLookup then
          Step(Rejected(FailureMessage), users)
        else if FindOne(users, EmailIs(p.emails[0])).Some? then
          Step(Rejected(EmailTakenMessage), users)
        else if f.create then
          Step(StoreFailed(None), users)
        else
          Step(Created(|users|), users + [NewRecord(p)])
  }

  /** The User table, updated in place by the callback. */
  class UserTable {
    var users: seq<User>

    ghost predicate Valid()
      reads this
    {
      UniqueGoogle(users) && UniqueEmail(users)
    }

    /** A table over rows that already hold at most one user per Google id and per email. */
    constructor (rows: seq<User>)
      requires UniqueGoogle(rows) && UniqueEmail(rows)
      ensures Valid() && users == rows
    {
      users := rows;
    }

    /** Link the Google account to the row `id` and save it; the caller has
      * found no row holding the Google id. */
    method LinkGoogle(id: nat, p: GoogleProfile, accessToken: string)
      requires Valid() && FindOne(users, GoogleIs(p.id)).None?
      requires id < |users|
      modifies this
      ensures Valid()
      ensures users == old(users)[id := LinkRecord(old(users)[id], p, accessToken)]
    {
      var user := users[id];
      user := user.(google := Some(p.id));
      user := user.(tokens := user.tokens + [Token("google", accessToken)]);
      user := user.(name := Or(user.name, p.displayName));
      user := user.(gender := Or(user.gender, p.gender));
      user := user.(picture := Or(user.picture, p.picture));
      LinkKeepsUnique(users, id, p, accessToken);
      users := users[id := user];
    }

    /** Insert the row for a first-time Google user and return its id; the
      * caller has found no row holding the Google id or the email. */
    method Create(p: GoogleProfile) returns (id: nat)
      requires |p.emails| > 0
      requires Valid() && FindOne(users, GoogleIs(p.id)).None? && FindOne(users, EmailIs(p.emails[0])).None?
      modifies this
      ensures Valid()
      ensures users == old(users) + [NewRecord(p)]
      ensures id == |old(users)| && users[id] == NewRecord(p)
    {
      id := |users|;
      CreateKeepsUnique(users, p);
      users := users + [User(Some(p.emails[0]), Some(p.id), p.displayName, p.gender, p.picture, [])];
    }

    /** The verify callback: decide, update the table, report the outcome. */
    method Authenticate(session: Option<nat>, accessToken: string, p: GoogleProfile, f: Faults) returns (out: Outcome)
      requires Valid()
      modifies this
      ensures Valid()
      ensures Step(out, users) == Verify(old(users), session, accessToken, p, f)
    {
      if f.googleLookup {
        return Rejected(FailureMessage);
      }
      var existing := FindOne(users, GoogleIs(p.id));
      if session.Some? {
        if existing.Some? {
          return Rejected(GoogleTakenMessage);
        }
        var id := session.value;
        if f.sessionLookup || id >= |users| {
          return Unanswered;
        }
        if f.save {
          return StoreFailed(Some(id));
        }
        LinkGoogle(id, p, accessToken);
        out := Linked(id, LinkedMessage);
      } else {
        if existing.Some? {
          return SignedIn(existing.value);
        }
        if |p.emails| == 0 || f.emailLookup {
          return Rejected(FailureMessage);
        }
        var emailUser := FindOne(users, EmailIs(p.emails[0]));
        if emailUser.Some? {
          return Rejected(EmailTakenMessage);
        }
        if f.create {
          return StoreFailed(None);
        }
        var id := Create(p);
        out := Created(id);
      }
    }
  }

  /** Linking a Google id that no row holds keeps both uniqueness invariants. */
  lemma LinkKeepsUnique(users: seq<User>, id: nat, p: GoogleProfile, accessToken: string)
    requires UniqueGoogle(users) && UniqueEmail(users)
    requires id < |users| && FindOne(users, GoogleIs(p.id)).None?
    ensures var after := users[id := LinkRecord(users[id], p, accessToken)];
      UniqueGoogle(after) && UniqueEmail(after)
  {
    var after := users[id := LinkRecord(users[id], p, accessToken)];
    assert forall k :: 0 <= k < |users| ==> !Matches(users[k], GoogleIs(p.id));
    forall i, j | 0 <= i < |after| && 0 <= j < |after| && after[i].google.Some? && after[i].google == after[j].google
      ensures i == j
    {
      if i != id && j != id {
        assert users[i].google == users[j].google;
      }
    }
    forall i, j | 0 <= i < |after| && 0 <= j < |after| && after[i].email.Some? && after[i].email == after[j].email
      ensures i == j
    {
      assert users[i].email == users[j].email;
    }
  }

  /** Appending a row whose Google id and email no row holds keeps both
    * uniqueness invariants. */
  lemma CreateKeepsUnique(users: seq<User>, p: GoogleProfile)
    requires UniqueGoogle(users) && UniqueEmail(users)
    requires |p.emails| > 0 && FindOne(users, GoogleIs(p.id)).None? && FindOne(users, EmailIs(p.emails[0])).None?
    ensures var after := users + [NewRecord(p)];
      UniqueGoogle(after) && UniqueEmail(after)
  {
    var after := users + [NewRecord(p)];
    assert forall k :: 0 <= k < |users| ==> !Matches(users[k], GoogleIs(p.id)) && !Matches(users[k], EmailIs(p.emails[0]));
    forall i, j | 0 <= i < |after| && 0 <= j < |after| && after[i].google.Some? && after[i].google == after[j].google
      ensures i == j
    {
      if i < |users| && j < |users| {
        assert users[i].google == users[j].google;
      }
    }
    forall i, j | 0 <= i < |after| && 0 <= j < |after| && after[i].email.Some? && after[i].email == after[j].email
      ensures i == j
    {
      if i < |users| && j < |users| {
        assert users[i].email == users[j].email;
      }
    }
  }

  /** With a session user, a Google id that some user already holds is
    * rejected and nothing changes. */
  lemma LinkConflictRejects(users: seq<User>, session: Option<nat>, accessToken: string, p: GoogleProfile, f: Faults, holder: nat)
    requires session.Some? && !f.googleLookup
    requires holder < |users| && users[holder].google == Some(p.id)
    ensures Verify(users, session, accessToken, p, f) == Step(Rejected(GoogleTakenMessage), users)
  {
  }

  /** With a session user and a Google id nobody holds, the session user's
    * row gets the Google id and exactly one new token at the end, and no
    * other row changes. */
  lemma LinkUpdatesSessionUser(users: seq<User>, s: nat, accessToken: string, p: GoogleProfile, f: Faults)
    requires !f.googleLookup && !f.sessionLookup && !f.save
    requires s < |users|
    requires forall k :: 0 <= k < |users| ==> users[k].google != Some(p.id)
    ensures var st := Verify(users, Some(s), accessToken, p, f);
      && st.outcome == Linked(s, LinkedMessage)
      && |st.users| == |users|
      && st.users[s].google == Some(p.id)
      && st.users[s].tokens == users[s].tokens + [Token("google", accessToken)]
      && st.users[s].email == users[s].email
      && (forall k :: 0 <= k < |users| && k != s ==> st.users[k] == users[k])
  {
  }

  /** When linking, a truthy name, gender or picture is kept; a missing or
    * empty one is taken from the Google profile. */
  lemma LinkMergesProfile(users: seq<User>, s: nat, accessToken: string, p: GoogleProfile, f: Faults)
    requires !f.googleLookup && !f.sessionLookup && !f.save
    requires s < |users|
    requires forall k :: 0 <= k < |users| ==> users[k].google != Some(p.id)
    ensures var u, u' := users[s], Verify(users, Some(s), accessToken, p, f).users[s];
      && (Truthy(u.name) ==> u'.name == u.name) && (!Truthy(u.name) ==> u'.name == p.displayName)
      && (Truthy(u.gender) ==> u'.gender == u.gender) && (!Truthy(u.gender) ==> u'.gender == p.gender)
      && (Truthy(u.picture) ==> u'.picture == u.picture) && (!Truthy(u.picture) ==> u'.picture == p.picture)
  {
  }

  /** Without a session user, the user holding the Google id is signed in
    * and nothing changes. */
  lemma ReturningUserSignsIn(users: seq<User>, accessToken: string, p: GoogleProfile, f: Faults, holder: nat)
    requires !f.googleLookup
    requires UniqueGoogle(users)
    requires holder < |users| && users[holder].google == Some(p.id)
    ensures Verify(users, None, accessToken, p, f) == Step(SignedIn(holder), users)
  {
  }

  /** Without a session user or a Google match, an address already in use
    * is rejected and nothing is created. */
  lemma EmailConflictRejects(users: seq<User>, accessToken: string, p: GoogleProfile, f: Faults, holder: nat)
    requires !f.googleLookup && !f.emailLookup
    requires forall k :: 0 <= k < |users| ==> users[k].google != Some(p.id)
    requires |p.emails| > 0 && holder < |users| && users[holder].email == Some(p.emails[0])
    ensures Verify(users, None, accessToken, p, f) == Step(Rejected(EmailTakenMessage), users)
  {
  }

  /** Without a session user, a Google match or an email match, exactly one
    * row is added, built from the profile, and it is the one returned. */
  lemma CreatesOneUser(users: seq<User>, accessToken: string, p: GoogleProfile, f: Faults)
    requires !f.googleLookup && !f.emailLookup && !f.create
    requires |p.emails| > 0
    requires forall k :: 0 <= k < |users| ==> users[k].google != Some(p.id) && users[k].email != Some(p.emails[0])
    ensures var st := Verify(users, None, accessToken, p, f);
      && st.outcome == Created(|users|)
      && |st.users| == |users| + 1
      && st.users[..|users|] == users
      && st.users[|users|].email == Some(p.emails[0])
      && st.users[|users|].google == Some(p.id)
      && st.users[|users|].name == p.displayName
      && st.users[|users|].gender == p.gender
      && st.users[|users|].picture == p.picture
  {
  }

  /** A failing lookup is reported with the generic message and changes nothing. */
  lemma LookupFailureRejects(users: seq<User>, session: Option<nat>, accessToken: string, p: GoogleProfile, f: Faults)
    requires f.googleLookup || (session.None? && f.emailLookup && forall k :: 0 <= k < |users| ==> users[k].google != Some(p.id))
    ensures Verify(users, session, accessToken, p, f) == Step(Rejected(FailureMessage), users)
  {
  }

  /** Only linking changes a row in place and only creating adds one; every
    * other outcome leaves the table as it was. */
  lemma OnlyLinkOrCreateWrites(users: seq<User>, session: Option<nat>, accessToken: string, p: GoogleProfile, f: Faults)
    ensures var st := Verify(users, session, accessToken, p, f);
      && (st.users != users ==> st.outcome.Linked? || st.outcome.Created?)
      && (st.outcome.Linked? ==> |st.users| == |users| && forall k :: 0 <= k < |users| && k != st.outcome.user ==> st.users[k] == users[k])
      && (st.outcome.Created? ==> |st.users| == |users| + 1 && st.users[..|users|] == users)
  {
  }

  /** No request makes two users share a Google id. */
  lemma PreservesUniqueGoogle(users: seq<User>, session: Option<nat>, accessToken: string, p: GoogleProfile, f: Faults)
    requires UniqueGoogle(users)
    ensures UniqueGoogle(Verify(users, session, accessToken, p, f).users)
  {
  }

  /** No request makes two users share an email address. */
  lemma PreservesUniqueEmail(users: seq<User>, session: Option<nat>, accessToken: string, p: GoogleProfile, f: Faults)
    requires UniqueEmail(users)
    ensures UniqueEmail(Verify(users, session, accessToken, p, f).users)
  {
  }
}
