/** The persisted entity: one profile per identity-provider subject, and the
    profile collection viewed as a finite map keyed by that subject. */
module Profiles {
  import opened Wrappers
  import opened Js

  /** A wall-clock instant, as `new Date()` would give it (milliseconds since
      the epoch). */
  type Time = int

  /** A timestamp column. The handler never writes `createdAt`, and on creation
      it writes neither timestamp, so their values there come from the database
      schema's defaults, which this model leaves abstract. */
  datatype Stamp = SchemaDefault | At(time: Time)

  /** One row of the profile collection. `auth0Id` is the subject identifier
      issued by the identity provider; `picture` is nullable. */
  datatype Profile = Profile(
    auth0Id: string,
    email: string,
    name: string,
    picture: Option<string>,
    createdAt: Stamp,
    updatedAt: Stamp
  )

  /** The profile collection, indexed by its unique `auth0Id` column: every
      row is filed under its own subject, so no subject has two rows. */
  type Store = s: map<string, Profile> | forall k :: k in s ==> s[k].auth0Id == k
    witness map[]

  /** What every profile written by the sync handler satisfies: the subject,
      email and display name are non-empty, and a picture, when present, is a
      non-empty string. */
  predicate ValidProfile(p: Profile) {
    && p.auth0Id != ""
    && p.email != ""
    && p.name != ""
    && (p.picture == None || Truthy(p.picture))
  }

  /** Every stored profile is a valid one. */
  predicate WellFormed(s: Store) {
    forall k :: k in s ==> ValidProfile(s[k])
  }

  /** All stored profiles whose `auth0Id` is `sub`: at most one, the one
      filed under `sub`. */
  function ProfilesOf(s: Store, sub: string): (ps: set<Profile>)
    ensures forall p :: p in ps ==> p.auth0Id == sub
    ensures ps == (if sub in s then {s[sub]} else {})
  {
    set k | k in s && s[k].auth0Id == sub :: s[k]
  }

  /** `p` and `q` agree on every column except `updatedAt`. */
  predicate SameButUpdatedAt(p: Profile, q: Profile) {
    p.(updatedAt := q.updatedAt) == q
  }
}
