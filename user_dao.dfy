/**
 * The credential store: the `users` table as a map from email to record,
 * with registration, login, existence check and public lookup. BCrypt is
 * represented by its key-derivation function `kdf`, fixed when the store
 * is built; salts and clock readings are passed in by the caller. A
 * storage or hashing exception inside an operation is swallowed at the
 * store's boundary and surfaces as -1, false or `None`; one raised while a
 * registration's transaction is committed is swallowed after the new id
 * has already been chosen as the result. The `...Fails` parameters say
 * whether such an exception happens during a call.
 */
module UserStore {
  import opened Wrappers

  /** The BCrypt work factor used for every new hash. */
  const BCryptCost: nat := 12

  type Salt = nat
  /** Milliseconds, as the clock reports them. */
  type Timestamp = int

  /** BCrypt's key derivation: (cost, salt, password) to digest. */
  type Kdf = (nat, Salt, string) -> string

  /** A stored BCrypt hash: cost and salt travel inside it, next to the digest. */
  datatype PasswordHash = PasswordHash(cost: nat, salt: Salt, digest: string)

  /** `hashToString(BCRYPT_COST, password)` with the salt the library drew. */
  function HashPassword(kdf: Kdf, password: string, salt: Salt): PasswordHash
  {
    PasswordHash(BCryptCost, salt, kdf(BCryptCost, salt, password))
  }

  /** `verifyer().verify(password, hash).verified`: rederive with the embedded cost and salt and compare. */
  predicate Verify(kdf: Kdf, password: string, hash: PasswordHash)
  {
    kdf(hash.cost, hash.salt, password) == hash.digest
  }

  /** No two passwords derive the same digest under the same cost and salt. */
  ghost predicate CollisionFree(kdf: Kdf)
  {
    forall cost, salt, p, q :: p != q ==> kdf(cost, salt, p) != kdf(cost, salt, q)
  }

  /** One row of the table. */
  datatype UserRecord = UserRecord(
    id: int,
    email: string,
    passwordHash: PasswordHash,
    fullName: string,
    createdAt: Timestamp,
    lastLogin: Option<Timestamp>)

  /** What a lookup returns: the public columns only, never the hash. */
  datatype User = User(id: int, email: string, fullName: string, createdAt: Timestamp)

  function PublicView(r: UserRecord): User
  {
    User(r.id, r.email, r.fullName, r.createdAt)
  }

  /** The stored hash always accepts the password it was made from. */
  lemma VerifyHashed(kdf: Kdf, password: string, salt: Salt)
    ensures Verify(kdf, password, HashPassword(kdf, password, salt))
  {
  }

  /** With a collision-free derivation, the stored hash rejects every other password. */
  lemma VerifyRejectsOthers(kdf: Kdf, password: string, other: string, salt: Salt)
    requires CollisionFree(kdf)
    ensures Verify(kdf, other, HashPassword(kdf, password, salt)) <==> other == password
  {
  }

  /**
   * The table invariant: each record sits under its own email, every id
   * lies between 1 and the next AUTOINCREMENT value, and no two rows share
   * an id.
   */
  predicate TableInvariant(users: map<string, UserRecord>, nextId: int)
  {
    && nextId >= 1
    && (forall e :: e in users ==> users[e].email == e && 1 <= users[e].id < nextId)
    && (forall e1, e2 :: e1 in users && e2 in users && e1 != e2 ==> users[e1].id != users[e2].id)
  }

  class UserDao {
    const kdf: Kdf
    /** The `users` table, keyed by its unique `email` column. */
    var users: map<string, UserRecord>
    /** The next AUTOINCREMENT value: above every id in the table. */
    var nextId: int

    ghost predicate Valid()
      reads this
    {
      TableInvariant(users, nextId)
    }

    /**
     * A store over the database file as it is on disk: `users` and
     * `nextId` are the rows and the AUTOINCREMENT counter persisted by
     * earlier launches (`map[]` and 1 for a new file).
     */
    constructor (kdf: Kdf, users: map<string, UserRecord>, nextId: int)
      requires TableInvariant(users, nextId)
      ensures Valid()
      ensures this.kdf == kdf && this.users == users && this.nextId == nextId
    {
      this.kdf := kdf;
      this.users := users;
      this.nextId := nextId;
    }

    /**
     * Registration in one transaction: hash the password and insert the
     * row. A duplicate email makes the insert throw; any exception there
     * rolls the transaction back and yields -1. The id is returned from
     * inside the `try`, so when ending the transaction then fails
     * (`commitFails`) the exception is only logged: the caller still gets
     * the new id although the row was rolled back and the id is free again.
     */
    method RegisterUser(email: string, password: string, fullName: string, salt: Salt, now: Timestamp,
                        fails: bool, commitFails: bool)
      returns (id: int)
      requires Valid()
      modifies this
      ensures Valid()
      ensures fails || email in old(users) ==> id == -1 && users == old(users) && nextId == old(nextId)
      ensures !fails && email !in old(users) && !commitFails ==>
                && id == old(nextId) && id >= 1
                && nextId == old(nextId) + 1
                && users == old(users)[email := UserRecord(id, email, HashPassword(kdf, password, salt), fullName, now, None)]
      ensures !fails && email !in old(users) && commitFails ==>
                && id == old(nextId) && id >= 1
                && users == old(users) && nextId == old(nextId)
    {
      if fails || email in users {
        id := -1;
        return;
      }
      var hashed := HashPassword(kdf, password, salt);
      id := nextId;
      if !commitFails {
        users := users[email := UserRecord(id, email, hashed, fullName, now, None)];
        nextId := nextId + 1;
      }
    }

    /** `UPDATE users SET last_login = now WHERE email = ?`; an exception is logged and dropped. */
    method UpdateLastLogin(email: string, now: Timestamp, fails: bool)
      requires Valid()
      modifies this`users
      ensures Valid()
      ensures !fails && email in old(users) ==> users == old(users)[email := old(users)[email].(lastLogin := Some(now))]
      ensures fails || email !in old(users) ==> users == old(users)
    {
      if !fails && email in users {
        users := users[email := users[email].(lastLogin := Some(now))];
      }
    }

    /**
     * Login: read the stored hash, verify the password against it, and
     * only then record the login time. `readFails` is an exception while
     * reading (login fails); `writeFails` one while recording the time,
     * which is swallowed inside the update so the login still succeeds.
     */
    method LoginUser(email: string, password: string, now: Timestamp, readFails: bool, writeFails: bool)
      returns (ok: bool)
      requires Valid()
      modifies this`users
      ensures Valid()
      ensures ok <==> !readFails && email in old(users) && Verify(kdf, password, old(users)[email].passwordHash)
      ensures ok && !writeFails ==> users == old(users)[email := old(users)[email].(lastLogin := Some(now))]
      ensures !ok || writeFails ==> users == old(users)
    {
      if readFails || email !in users {
        return false;
      }
      var hashed := users[email].passwordHash;
      if Verify(kdf, password, hashed) {
        UpdateLastLogin(email, now, writeFails);
        return true;
      }
      return false;
    }

    /** Whether a row has this email; false as well when the query throws. */
    method IsEmailExists(email: string, fails: bool) returns (found: bool)
      ensures found <==> !fails && email in users
    {
      found := !fails && email in users;
    }

    /** The public columns of the row with this email; `None` when absent or when the query throws. */
    method GetUserByEmail(email: string, fails: bool) returns (user: Option<User>)
      requires Valid()
      ensures user.Some? <==> !fails && email in users
      ensures user.Some? ==> && user.value.email == email
                             && user.value.id == users[email].id
                             && user.value.fullName == users[email].fullName
                             && user.value.createdAt == users[email].createdAt
    {
      if fails || email !in users {
        return None;
      }
      user := Some(PublicView(users[email]));
    }
  }

  /**
   * A first registration on an empty store, then the right password, a
   * wrong one, and two existence checks.
   */
  method RegisterLoginScenario(kdf: Kdf, salt: Salt, t0: Timestamp, t1: Timestamp)
    returns (id: int, rightPassword: bool, wrongPassword: bool, known: bool, unknown: bool)
    requires CollisionFree(kdf)
    ensures id == 1
    ensures rightPassword && !wrongPassword
    ensures known && !unknown
  {
    var store := new UserDao(kdf, map[], 1);
    id := store.RegisterUser("a@x.com", "secret1", "Alice", salt, t0, false, false);
    rightPassword := store.LoginUser("a@x.com", "secret1", t1, false, false);
    VerifyRejectsOthers(kdf, "secret1", "wrong", salt);
    wrongPassword := store.LoginUser("a@x.com", "wrong", t1, false, false);
    known := store.IsEmailExists("a@x.com", false);
    unknown := store.IsEmailExists("b@x.com", false);
  }

  /**
   * A registration whose commit fails still reports id 1, yet the email is
   * unknown afterwards and the next registration is handed the same id.
   */
  method CommitFailureScenario(kdf: Kdf, salt: Salt, t0: Timestamp)
    returns (lostId: int, stored: bool, nextId: int)
    ensures lostId == 1 && !stored && nextId == lostId
  {
    var store := new UserDao(kdf, map[], 1);
    lostId := store.RegisterUser("a@x.com", "secret1", "Alice", salt, t0, false, true);
    stored := store.IsEmailExists("a@x.com", false);
    nextId := store.RegisterUser("b@x.com", "secret2", "Bob", salt, t0, false, false);
  }
}
