/** The User collection's document shape and its store-enforced constraints. */
module UserSchema {
  import opened Wrappers

  /**
   * One stored user. There is no raw-password field: only the one-way hash
   * is kept. The timestamps are maintained by the store.
   */
  datatype User = User(name: string, email: string, passwordHash: string, createdAt: int, updatedAt: int)

  /** `required` on `name`, `email` and `passwordHash` (a required string must be non-empty). */
  predicate SchemaValid(u: User) {
    u.name != "" && u.email != "" && u.passwordHash != ""
  }

  /**
   * The collection keyed by the `unique` index on `email`: each key is the
   * email of the user stored under it, so no two users share an email.
   */
  ghost predicate KeyedByEmail(users: map<string, User>) {
    forall e :: e in users ==> users[e].email == e
  }

  /** Every stored user satisfies the schema and sits under its own email. */
  ghost predicate Consistent(users: map<string, User>) {
    KeyedByEmail(users) && forall e :: e in users ==> SchemaValid(users[e])
  }

  /** An insert through the unique index: it fails on an email already present. */
  function InsertUnique(users: map<string, User>, u: User): (r: Option<map<string, User>>)
    ensures r.None? <==> u.email in users
    ensures r.Some? ==> r.value.Keys == users.Keys + {u.email} && r.value[u.email] == u
    ensures r.Some? ==> forall e :: e in users ==> r.value[e] == users[e]
    ensures r.Some? && Consistent(users) && SchemaValid(u) ==> Consistent(r.value)
  {
    if u.email in users then None else Some(users[u.email := u])
  }
}
