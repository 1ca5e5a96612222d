/** The `POST /api/sync-user` handler as a pure transition: given the profile
    store, the request, the current time and the behaviour of the database on
    this call, it yields the HTTP response and the store afterwards. */
module SyncUser {
  import opened Wrappers
  import opened Js
  import opened Profiles

  /** The identity claims under the body's `user` key. A `user` value that is
      not an object (a number, a string) has none of these properties and is
      the same as `Claims(None, None, None, None)`. */
  datatype Claims = Claims(
    sub: Option<string>,
    email: Option<string>,
    name: Option<string>,
    picture: Option<string>
  )

  /** A parsed JSON body: the literal `null`, or anything else, whose `user`
      property is absent or falsy (`None`) or holds claims. */
  datatype Body = NullBody | Object(user: Option<Claims>)

  /** A value thrown inside the handler's `try` block. */
  datatype Thrown = ErrorInstance(message: string) | NonError

  /** The request as `request.json()` sees it: a body that does not parse
      makes that call throw. */
  datatype Request = Unparseable(thrown: Thrown) | Parsed(body: Body)

  /** How the database behaves on this call: it answers, or the lookup
      throws, or the lookup answers and the following create or update throws
      without writing anything. */
  datatype Db = Available | LookupFails(lookupError: Thrown) | WriteFails(writeError: Thrown)

  /** The `action` field of a successful response. */
  datatype Action = Created | Updated

  const InvalidUserDataError := "Invalid user data"
  const SyncFailedError := "Failed to sync user profile"
  const UnknownErrorDetails := "Unknown error"

  /** What the runtime throws when the body destructured by
      `const { user } = body` is `null` (the JavaScript engine's wording). */
  const NullBodyMessage := "Cannot destructure property 'user' of 'body' as it is null."

  /** The handler's JSON response. */
  datatype Response =
    | Synced(action: Action, profile: Profile)
    | InvalidUserData
    | SyncFailed(details: string)
  {
    /** The HTTP status the response is sent with. */
    function Status(): int {
      match this
      case Synced(_, _) => 200
      case InvalidUserData => 400
      case SyncFailed(_) => 500
    }

    /** The `error` field of the response body, if it has one. */
    function Error(): Option<string> {
      match this
      case Synced(_, _) => None
      case InvalidUserData => Some(InvalidUserDataError)
      case SyncFailed(_) => Some(SyncFailedError)
    }
  }

  /** The response together with the store after the call. */
  datatype Reply = Reply(response: Response, store: Store)

  /** The guard `!user || !user.sub || !user.email` lets the user through.
      Passing it is enough for the create branch: the claims then yield a
      valid profile. */
  function ValidUser(user: Option<Claims>): (ok: bool)
    ensures ok ==>
      && user.Some?
      && Truthy(user.value.sub) && Truthy(user.value.email)
      && ValidProfile(NewProfile(user.value))
  {
    user.Some? && Truthy(user.value.sub) && Truthy(user.value.email)
  }

  /** The request gets past parsing, the destructuring of `user` and the
      guard, so it reaches the store; it then carries everything a new
      profile needs. */
  function ValidRequest(req: Request): (ok: bool)
    ensures ok ==>
      && req.Parsed? && req.body.Object? && req.body.user.Some?
      && Truthy(req.body.user.value.sub) && Truthy(req.body.user.value.email)
    ensures ok ==> ValidProfile(NewProfile(req.body.user.value))
  {
    req.Parsed? && req.body.Object? && ValidUser(req.body.user)
  }

  /** The subject identifier of a request that reaches the store. */
  function SubjectOf(req: Request): (sub: string)
    requires ValidRequest(req)
    ensures sub != "" && Some(sub) == req.body.user.value.sub
  {
    req.body.user.value.sub.value
  }

  /** The `details` field of a 500 response. */
  function Details(e: Thrown): string {
    match e
    case ErrorInstance(m) => m
    case NonError => UnknownErrorDetails
  }

  /** The row written by `prisma.profile.create`: the display name falls back
      to the email and the picture to `null`. */
  function NewProfile(c: Claims): (p: Profile)
    requires Truthy(c.sub) && Truthy(c.email)
    ensures p.auth0Id == c.sub.value && p.email == c.email.value
    ensures Truthy(c.name) ==> p.name == c.name.value
    ensures !Truthy(c.name) ==> p.name == c.email.value
    ensures Truthy(c.picture) ==> p.picture == c.picture
    ensures !Truthy(c.picture) ==> p.picture == None
    ensures p.createdAt == SchemaDefault && p.updatedAt == SchemaDefault
    ensures ValidProfile(p)
  {
    OrTruthyFallback(c.name, c.email);
    Profile(c.sub.value, c.email.value, Or(c.name, c.email).value, Or(c.picture, None),
            SchemaDefault, SchemaDefault)
  }

  /** The row after `prisma.profile.update`: only `name`, `picture` and
      `updatedAt` are written, and each of the first two keeps its stored value
      when the claim is absent or empty. */
  function Refreshed(prior: Profile, c: Claims, now: Time): (p: Profile)
    ensures p.auth0Id == prior.auth0Id && p.email == prior.email && p.createdAt == prior.createdAt
    ensures Truthy(c.name) ==> p.name == c.name.value
    ensures !Truthy(c.name) ==> p.name == prior.name
    ensures Truthy(c.picture) ==> p.picture == c.picture
    ensures !Truthy(c.picture) ==> p.picture == prior.picture
    ensures p.updatedAt == At(now)
    ensures ValidProfile(prior) ==> ValidProfile(p)
  {
    prior.(name := if Truthy(c.name) then c.name.value else prior.name,
         picture := Or(c.picture, prior.picture),
         updatedAt := At(now))
  }

  /** One call of the handler. Validation happens before the store is
      touched; the lookup by `sub` decides between create and update; any
      throw inside the `try` becomes a 500 with details and no retry. */
  function Sync(store: Store, req: Request, now: Time, db: Db): (r: Reply)
    // a missing user, subject or email is a 400 and nothing is written
    ensures r.response == InvalidUserData <==> req.Parsed? && req.body.Object? && !ValidUser(req.body.user)
    // a body that fails to parse, a null body, or a store failure is a 500
    ensures r.response.SyncFailed? <==> !req.Parsed? || req.body.NullBody? || (ValidRequest(req) && !db.Available?)
    ensures r.response.SyncFailed? && req.Unparseable? ==> r.response.details == Details(req.thrown)
    ensures req.Parsed? && req.body.NullBody? ==>
      r.response == SyncFailed(Details(ErrorInstance(NullBodyMessage)))
    ensures r.response.SyncFailed? && ValidRequest(req) && db.LookupFails? ==> r.response.details == Details(db.lookupError)
    ensures r.response.SyncFailed? && ValidRequest(req) && db.WriteFails? ==> r.response.details == Details(db.writeError)
    ensures !r.response.Synced? ==> r.store == store
    // success: exactly the entry under `sub` is written
    ensures r.response.Synced? <==> ValidRequest(req) && db.Available?
    ensures r.response.Synced? ==>
      var sub := SubjectOf(req);
      && r.response.profile.auth0Id == sub
      && r.store == store[sub := r.response.profile]
      && (r.response.action == Created <==> sub !in store)
    // created: a fresh profile built from the claims
    ensures r.response.Synced? && r.response.action == Created ==>
      r.response.profile == NewProfile(req.body.user.value)
    // updated: subject, email and creation time kept; display fields refreshed
    ensures r.response.Synced? && r.response.action == Updated ==>
      var prior := store[SubjectOf(req)];
      && r.response.profile.email == prior.email
      && r.response.profile.createdAt == prior.createdAt
      && r.response.profile == Refreshed(prior, req.body.user.value, now)
    // no profile is removed, and no stored email or creation time changes
    ensures store.Keys <= r.store.Keys
    ensures forall k :: k in store ==>
      r.store[k].email == store[k].email && r.store[k].createdAt == store[k].createdAt
    // the profile count grows by one exactly when a profile is created
    ensures |r.store| == |store| + (if r.response.Synced? && r.response.action == Created then 1 else 0)
    ensures WellFormed(store) ==> WellFormed(r.store)
  {
    match req
    case Unparseable(e) => Reply(SyncFailed(Details(e)), store)
    case Parsed(NullBody) => Reply(SyncFailed(Details(ErrorInstance(NullBodyMessage))), store)
    case Parsed(Object(user)) =>
      if !ValidUser(user) then
        Reply(InvalidUserData, store)
      else
        var c := user.value;
        var sub := c.sub.value;
        match db
        case LookupFails(e) => Reply(SyncFailed(Details(e)), store)
        case WriteFails(e) => Reply(SyncFailed(Details(e)), store)
        case Available =>
          if sub !in store then
            var p := NewProfile(c);
            Reply(Synced(Created, p), store[sub := p])
          else
            var p := Refreshed(store[sub], c, now);
            Reply(Synced(Updated, p), store[sub := p])
  }

  /** The profile already shows every display field the claims would set. */
  predicate Absorbed(p: Profile, c: Claims) {
    && (Truthy(c.name) ==> p.name == c.name.value)
    && (Truthy(c.picture) ==> p.picture == c.picture)
  }

  /** An update changes nothing but `updatedAt` exactly when the profile
      already absorbed the claims. */
  lemma RefreshOnlyStampsIff(p: Profile, c: Claims, now: Time)
    ensures Refreshed(p, c, now) == p.(updatedAt := At(now)) <==> Absorbed(p, c)
  {
  }

  /** After a successful call the stored profile absorbs the claims, and it is
      the only profile stored for the subject. */
  lemma SyncedProfileIsSole(store: Store, req: Request, now: Time, db: Db)
    ensures var r := Sync(store, req, now, db);
      r.response.Synced? ==>
        && Absorbed(r.response.profile, req.body.user.value)
        && ProfilesOf(r.store, SubjectOf(req)) == {r.response.profile}
  {
  }

  /** The status code and `error` text of every response: 400 with
      `Invalid user data` exactly when the guard rejects the parsed user, 500
      with `Failed to sync user profile` exactly when something threw, and
      200 without an error exactly when the store answered a valid request. */
  lemma SyncStatus(store: Store, req: Request, now: Time, db: Db)
    ensures var r := Sync(store, req, now, db);
      && (r.response.Status() == 400 <==> req.Parsed? && req.body.Object? && !ValidUser(req.body.user))
      && (r.response.Status() == 400 ==> r.response.Error() == Some(InvalidUserDataError))
      && (r.response.Status() == 500 <==>
            req.Unparseable? || req.body.NullBody? || (ValidRequest(req) && !db.Available?))
      && (r.response.Status() == 500 ==> r.response.Error() == Some(SyncFailedError))
      && (r.response.Status() == 200 <==> ValidRequest(req) && db.Available?)
      && (r.response.Status() == 200 ==> r.response.Error() == None)
  {
  }
}
