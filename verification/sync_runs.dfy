/** Sequences of calls to the sync handler: what a run of sign-ins keeps
    invariant, and how repeating one payload settles. */
module SyncRuns {
  import opened Wrappers
  import opened Js
  import opened Profiles
  import opened SyncUser

  /** One call of the handler with the time and database behaviour it meets. */
  datatype Call = Call(request: Request, now: Time, db: Db)

  /** The responses of a run, in order, and the store it leaves. */
  datatype Trace = Trace(responses: seq<Response>, store: Store)

  /** The subjects of the calls that get past validation. */
  function Subjects(calls: seq<Call>): set<string>
    decreases |calls|
  {
    if |calls| == 0 then {}
    else
      (if ValidRequest(calls[0].request) then {SubjectOf(calls[0].request)} else {})
      + Subjects(calls[1..])
  }

  /** How many responses report a created profile. */
  function CreatedCount(rs: seq<Response>): nat
    decreases |rs|
  {
    if |rs| == 0 then 0
    else (if rs[0].Synced? && rs[0].action == Created then 1 else 0) + CreatedCount(rs[1..])
  }

  /** The calls, one after the other, each on the store the previous one
      left; one response per call. */
  function Run(store: Store, calls: seq<Call>): (t: Trace)
    ensures |t.responses| == |calls|
    decreases |calls|
  {
    if |calls| == 0 then Trace([], store)
    else
      var r := Sync(store, calls[0].request, calls[0].now, calls[0].db);
      var rest := Run(r.store, calls[1..]);
      Trace([r.response] + rest.responses, rest.store)
  }

  /** What any run of sign-ins keeps: no profile is ever deleted; only the
      subjects of validated calls gain a profile; the count grows by one per
      `created` response; the email and creation time of a profile never
      change once it exists; and validity of the stored profiles is kept. */
  lemma {:induction false} RunInvariants(store: Store, calls: seq<Call>)
    ensures var t := Run(store, calls);
      && store.Keys <= t.store.Keys
      && t.store.Keys <= store.Keys + Subjects(calls)
      && |t.store| == |store| + CreatedCount(t.responses)
      && (forall k :: k in store ==>
            t.store[k].email == store[k].email && t.store[k].createdAt == store[k].createdAt)
      && (WellFormed(store) ==> WellFormed(t.store))
    decreases |calls|
  {
    if |calls| > 0 {
      var r := Sync(store, calls[0].request, calls[0].now, calls[0].db);
      var rest := Run(r.store, calls[1..]);
      RunInvariants(r.store, calls[1..]);
      RunStep(store, calls);
      assert ([r.response] + rest.responses)[1..] == rest.responses;
    }
  }

  /** A non-empty run is its first call followed by the run of the rest. */
  lemma RunStep(store: Store, calls: seq<Call>)
    requires |calls| > 0
    ensures var r := Sync(store, calls[0].request, calls[0].now, calls[0].db);
      var rest := Run(r.store, calls[1..]);
      Run(store, calls) == Trace([r.response] + rest.responses, rest.store)
  {
  }

  /** The same request, issued at each of the given times, with the database
      available. */
  function Repeated(req: Request, times: seq<Time>): (calls: seq<Call>)
    ensures |calls| == |times|
    decreases |times|
  {
    if |times| == 0 then []
    else [Call(req, times[0], Available)] + Repeated(req, times[1..])
  }

  /** Repeating a request whose subject's stored profile already absorbed the
      claims: every call reports `updated` with that profile stamped with its
      own time. */
  lemma {:induction false} SettledResponses(s: Store, req: Request, p: Profile, times: seq<Time>)
    requires ValidRequest(req)
    requires SubjectOf(req) in s && SameButUpdatedAt(s[SubjectOf(req)], p)
    requires Absorbed(p, req.body.user.value)
    ensures var t := Run(s, Repeated(req, times));
      forall i :: 0 <= i < |times| ==> t.responses[i] == Synced(Updated, p.(updatedAt := At(times[i])))
    decreases |times|
  {
    if |times| > 0 {
      var sub := SubjectOf(req);
      var p' := p.(updatedAt := At(times[0]));
      var rest := Run(s[sub := p'], Repeated(req, times[1..]));
      SettledStep(s, req, p, times);
      SettledResponses(s[sub := p'], req, p, times[1..]);
      StampedResponses(p, times, rest.responses);
    }
  }

  /** Repeating a request whose subject's stored profile already absorbed the
      claims only moves `updatedAt`: the store ends with that profile stamped
      with the last time, and nothing else changed. */
  lemma {:induction false} SettledStore(s: Store, req: Request, p: Profile, times: seq<Time>)
    requires ValidRequest(req)
    requires SubjectOf(req) in s && SameButUpdatedAt(s[SubjectOf(req)], p)
    requires Absorbed(p, req.body.user.value)
    ensures Run(s, Repeated(req, times)).store
      == (if |times| == 0 then s else s[SubjectOf(req) := p.(updatedAt := At(times[|times| - 1]))])
    decreases |times|
  {
    if |times| > 0 {
      var sub := SubjectOf(req);
      var p' := p.(updatedAt := At(times[0]));
      SettledStep(s, req, p, times);
      SettledStore(s[sub := p'], req, p, times[1..]);
      if |times| > 1 {
        var last := times[|times| - 1];
        assert times[1..][|times[1..]| - 1] == last;
        RestampTwice(s, sub, p', p.(updatedAt := At(last)));
      }
    }
  }

  /** Writing the same key twice keeps only the second write. */
  lemma RestampTwice(s: Store, sub: string, first: Profile, second: Profile)
    requires first.auth0Id == sub && second.auth0Id == sub
    ensures s[sub := first][sub := second] == s[sub := second]
  {
  }

  /** Prefixing the response for the first time to the responses for the
      remaining times gives the responses for all the times. */
  lemma StampedResponses(p: Profile, times: seq<Time>, rest: seq<Response>)
    requires |times| > 0 && |rest| == |times| - 1
    requires forall i :: 0 <= i < |rest| ==> rest[i] == Synced(Updated, p.(updatedAt := At(times[1..][i])))
    ensures var rs := [Synced(Updated, p.(updatedAt := At(times[0])))] + rest;
      forall i :: 0 <= i < |times| ==> rs[i] == Synced(Updated, p.(updatedAt := At(times[i])))
  {
  }

  /** The first call of a settled repetition restamps the profile and hands
      the rest of the repetition the restamped store. */
  lemma SettledStep(s: Store, req: Request, p: Profile, times: seq<Time>)
    requires ValidRequest(req)
    requires SubjectOf(req) in s && SameButUpdatedAt(s[SubjectOf(req)], p)
    requires Absorbed(p, req.body.user.value)
    requires |times| > 0
    ensures var p' := p.(updatedAt := At(times[0]));
      var rest := Run(s[SubjectOf(req) := p'], Repeated(req, times[1..]));
      Run(s, Repeated(req, times)) == Trace([Synced(Updated, p')] + rest.responses, rest.store)
  {
    var calls := Repeated(req, times);
    assert calls[0] == Call(req, times[0], Available);
    assert calls[1..] == Repeated(req, times[1..]);
    UpdateOnlyStamps(s, req, p, times[0]);
    RunStep(s, calls);
  }

  /** One call of a request whose subject's profile absorbed its claims
      reports `updated` and only restamps that profile. */
  lemma UpdateOnlyStamps(s: Store, req: Request, p: Profile, now: Time)
    requires ValidRequest(req)
    requires SubjectOf(req) in s && SameButUpdatedAt(s[SubjectOf(req)], p)
    requires Absorbed(p, req.body.user.value)
    ensures Sync(s, req, now, Available)
      == Reply(Synced(Updated, p.(updatedAt := At(now))), s[SubjectOf(req) := p.(updatedAt := At(now))])
  {
    RefreshOnlyStampsIff(s[SubjectOf(req)], req.body.user.value, now);
  }

  /** A valid request repeated with the database available: the first call
      creates or updates, and every later call reports `updated` with the same
      profile up to `updatedAt`, so the store settles on the first call's
      state with only the subject's `updatedAt` moving. */
  lemma RepeatedSyncSettles(store: Store, req: Request, first: Time, later: seq<Time>)
    requires ValidRequest(req)
    ensures var r1 := Sync(store, req, first, Available);
      var t := Run(r1.store, Repeated(req, later));
      && r1.response.Synced?
      && (forall i :: 0 <= i < |later| ==>
            t.responses[i] == Synced(Updated, r1.response.profile.(updatedAt := At(later[i]))))
      && t.store.Keys == r1.store.Keys
      && (forall k :: k in t.store ==> SameButUpdatedAt(r1.store[k], t.store[k]))
      && (|later| > 0 ==> t.store[SubjectOf(req)].updatedAt == At(later[|later| - 1]))
  {
    var r1 := Sync(store, req, first, Available);
    var p := r1.response.profile;
    SyncedProfileIsSole(store, req, first, Available);
    SettledResponses(r1.store, req, p, later);
    SettledStore(r1.store, req, p, later);
    if |later| > 0 {
      Restamp(r1.store, SubjectOf(req), p.(updatedAt := At(later[|later| - 1])));
    }
  }

  /** Restamping the profile under one key keeps every key and every column
      but that profile's `updatedAt`. */
  lemma Restamp(s: Store, sub: string, q: Profile)
    requires sub in s && SameButUpdatedAt(s[sub], q) && q.auth0Id == sub
    ensures var s' := s[sub := q];
      && s'.Keys == s.Keys
      && forall k :: k in s' ==> SameButUpdatedAt(s[k], s'[k])
  {
  }

  /** Two sign-ins with the same payload on a store that does not know the
      subject: `created`, then `updated` with the same subject and email, and
      the second store differs from the first only in `updatedAt`. */
  lemma CreatedThenUpdated(store: Store, req: Request, t1: Time, t2: Time)
    requires ValidRequest(req) && SubjectOf(req) !in store
    ensures var r1 := Sync(store, req, t1, Available);
      var r2 := Sync(r1.store, req, t2, Available);
      && r1.response == Synced(Created, NewProfile(req.body.user.value))
      && r2.response.Synced? && r2.response.action == Updated
      && r2.response.profile.auth0Id == r1.response.profile.auth0Id
      && r2.response.profile.email == r1.response.profile.email
      && r2.store == r1.store[SubjectOf(req) := r1.response.profile.(updatedAt := At(t2))]
  {
    var r1 := Sync(store, req, t1, Available);
    SyncedProfileIsSole(store, req, t1, Available);
    RefreshOnlyStampsIff(r1.response.profile, req.body.user.value, t2);
  }

  /** A concrete pair of sign-ins: a new subject `auth0|abc` with
      email `a@x.com` and name `A`, twice, is `created` then `updated`, and the
      stored email and name stay `a@x.com` and `A`. */
  lemma TwoSignInsExample(t1: Time, t2: Time)
    ensures var req := Parsed(Object(Some(Claims(Some("auth0|abc"), Some("a@x.com"), Some("A"), None))));
      var r1 := Sync(map[], req, t1, Available);
      var r2 := Sync(r1.store, req, t2, Available);
      && r1.response.Synced? && r1.response.action == Created
      && r2.response.Synced? && r2.response.action == Updated
      && r2.store.Keys == {"auth0|abc"}
      && r2.store["auth0|abc"].email == "a@x.com"
      && r2.store["auth0|abc"].name == "A"
      && r2.store["auth0|abc"].picture == None
  {
    var req := Parsed(Object(Some(Claims(Some("auth0|abc"), Some("a@x.com"), Some("A"), None))));
    CreatedThenUpdated(map[], req, t1, t2);
  }
}
