/**
 * `UserInformationResource` of user_profile.py: GET, POST, PATCH and DELETE
 * on the profile of the user named by the request's token, over a store of
 * profile rows and permission rows.
 *
 * Collaborators are parameters: `claims` is the user id the handler decodes
 * from its cookie (`None` when decoding or the `id` lookup raises), the
 * field validator and the address validator are functions, and `dbAccepts`
 * says whether the database accepts the flush and commit.  Every handler
 * catches what it raises, rolls the session back and answers with a status.
 */
module UserProfile {
  import opened Wrappers
  import opened Tokens
  import opened ProfileData
  import opened Middleware

  /** The answer of a handler; `StatusCode` gives its HTTP status. */
  datatype Outcome =
    | Found(record: Record)                    // GET: the stored row
    | Created(record: Record, token: Token)    // POST: the new row and a re-issued token cookie
    | Updated(record: Record)                  // PATCH: the updated row
    | Deleted                                  // DELETE: a confirmation message
    | BadRequest(errors: Errors)               // the accumulated validation errors
    | NotFound
    | Conflict
    | InternalError

  /** The status codes; every success that changes the store answers 201. */
  function StatusCode(o: Outcome): (code: int)
    ensures code == 201 <==> o.Created? || o.Updated? || o.Deleted?
    ensures code == 200 <==> o.Found?
    ensures 400 <= code <==> !(o.Found? || o.Created? || o.Updated? || o.Deleted?)
  {
    match o
    case Found(_) => 200
    case Created(_, _) => 201
    case Updated(_) => 201
    case Deleted => 201
    case BadRequest(_) => 400
    case NotFound => 404
    case Conflict => 409
    case InternalError => 500
  }

  /** The errors the field validator records for a POST. */
  function FieldErrors(args: Args, validate: Args -> Errors): Errors
  {
    validate(ValidatorInput(args))
  }

  /**
   * A POST passes validation when the field validator records nothing and
   * then the address validator accepts the request's address.
   */
  predicate PostAccepted(args: Args, validate: Args -> Errors, checkAddress: Address -> AddressVerdict)
  {
    FieldErrors(args, validate) == map[] && checkAddress(PostAddress(args)).valid
  }

  /** The permission rows of a user; a user without rows holds none. */
  function Held(ledger: map<UserId, seq<string>>, u: UserId): seq<string>
  {
    if u in ledger then ledger[u] else []
  }

  /**
   * What the store keeps: no user holds a permission row twice, and every
   * user with a profile holds the four study permissions.
   */
  ghost predicate StoreInvariant(profiles: map<UserId, Record>, ledger: map<UserId, seq<string>>)
  {
    && (forall u :: u in ledger ==> NoDuplicates(ledger[u]))
    && (forall u :: u in profiles ==> forall p :: p in StudyPermissions ==> p in Held(ledger, u))
  }

  /** Inserting a profile together with its grants keeps the store's invariant. */
  lemma PostKeepsInvariant(profiles: map<UserId, Record>, ledger: map<UserId, seq<string>>, u: UserId, row: Record)
    requires StoreInvariant(profiles, ledger)
    ensures StoreInvariant(profiles[u := row], ledger[u := GrantAll(Held(ledger, u), StudyPermissions)])
    ensures forall p :: p in StudyPermissions ==> multiset(GrantAll(Held(ledger, u), StudyPermissions))[p] == 1
  {
    PostGrantsEachStudyPermissionOnce(Held(ledger, u));
  }

  /**
   * The grant loop of a POST: each study permission, in turn, gets a row
   * unless the user already holds it.
   */
  method GrantStudyPermissions(held: seq<string>) returns (rows: seq<string>)
    ensures rows == GrantAll(held, StudyPermissions)
  {
    rows := held;
    var i := 0;
    while i < |StudyPermissions|
      invariant 0 <= i <= |StudyPermissions|
      invariant rows == GrantAll(held, StudyPermissions[..i])
    {
      var p := StudyPermissions[i];
      assert StudyPermissions[..i + 1][..i] == StudyPermissions[..i];
      if p !in rows {
        rows := rows + [p];
      }
      i := i + 1;
    }
    assert StudyPermissions[..i] == StudyPermissions;
  }

  /**
   * The store: one profile row per user, and the rows of the permission
   * table, per user, in the order they were added.
   */
  class ProfileStore {
    var profiles: map<UserId, Record>
    var ledger: map<UserId, seq<string>>

    /** What the store keeps; see `StoreInvariant`. */
    ghost predicate Valid()
      reads this
    {
      StoreInvariant(profiles, ledger)
    }

    /** The names of the permission rows a user holds. */
    function Permissions(u: UserId): seq<string>
      reads this
    {
      Held(ledger, u)
    }

    constructor ()
      ensures Valid()
      ensures profiles == map[] && ledger == map[]
    {
      profiles := map[];
      ledger := map[];
    }

    /** `__abort_if_user_profile_exists`: a POST for a user with a profile is a conflict. */
    function AbortIfProfileExists(u: UserId): (r: Option<Outcome>)
      reads this
      ensures r.Some? <==> u in profiles
      ensures r.Some? ==> r.value == Conflict
    {
      if u in profiles then Some(Conflict) else None
    }

    /** `__abort_if_user_profile_does_not_exists`: PATCH and DELETE need a profile. */
    function AbortIfProfileMissing(u: UserId): (r: Option<Outcome>)
      reads this
      ensures r.Some? <==> u !in profiles
      ensures r.Some? ==> r.value == NotFound
    {
      if u !in profiles then Some(NotFound) else None
    }

    /** GET: the user's row with 200, 404 when there is none, 500 when the token does not decode. */
    function Get(claims: Option<UserId>): (o: Outcome)
      reads this
      ensures o.Found? <==> claims.Some? && claims.value in profiles
      ensures o.Found? ==> o.record == profiles[claims.value]
      ensures o == NotFound <==> claims.Some? && claims.value !in profiles
      ensures o == InternalError <==> claims.None?
    {
      match claims
      case None => InternalError
      case Some(u) => if u in profiles then Found(profiles[u]) else NotFound
    }

    /**
     * POST: validate the fields, then the address, then refuse a second
     * profile; insert the row, grant each study permission the user lacks,
     * commit, and re-issue the token with the user's permissions after the
     * commit, expiring thirty minutes from `now` (in seconds).  Every path
     * that does not commit leaves the store as it was.
     */
    method Post(claims: Option<UserId>, args: Args, validate: Args -> Errors,
                checkAddress: Address -> AddressVerdict, dbAccepts: bool, now: int)
      returns (o: Outcome)
      modifies this
      ensures claims.None? ==> o == InternalError
      ensures claims.Some? && FieldErrors(args, validate) != map[] ==>
        o == BadRequest(FieldErrors(args, validate))
      ensures claims.Some? && FieldErrors(args, validate) == map[] && !checkAddress(PostAddress(args)).valid ==>
        o == BadRequest(checkAddress(PostAddress(args)).errors)
      ensures claims.Some? && PostAccepted(args, validate, checkAddress) && claims.value in old(profiles) ==>
        o == Conflict
      ensures claims.Some? && PostAccepted(args, validate, checkAddress) && claims.value !in old(profiles) && !dbAccepts ==>
        o == InternalError
      ensures o.Created? <==>
        claims.Some? && PostAccepted(args, validate, checkAddress) && claims.value !in old(profiles) && dbAccepts
      ensures !o.Created? ==> profiles == old(profiles) && ledger == old(ledger)
      ensures o.Created? ==>
        var u := claims.value;
        && profiles == old(profiles)[u := NewRecord(u, args)]
        && ledger == old(ledger)[u := GrantAll(old(Permissions(u)), StudyPermissions)]
        && o.record == NewRecord(u, args)
        && o.token == Token(u, Permissions(u), now + TokenLifetimeSeconds)
      ensures old(Valid()) && o.Created? ==>
        forall p :: p in StudyPermissions ==> multiset(Permissions(claims.value))[p] == 1
      ensures old(Valid()) ==> Valid()
    {
      if claims.None? {
        return InternalError;
      }
      var u := claims.value;
      var errors := FieldErrors(args, validate);
      if errors != map[] {
        return BadRequest(errors);
      }
      var verdict := checkAddress(PostAddress(args));
      if !verdict.valid {
        return BadRequest(verdict.errors);
      }
      var conflict := AbortIfProfileExists(u);
      if conflict.Some? {
        return conflict.value;
      }
      // The session: the new row and the permission rows, pending until the commit.
      var row := NewRecord(u, args);
      var rows := GrantStudyPermissions(Permissions(u));
      if !dbAccepts {
        return InternalError;
      }
      if Valid() {
        PostKeepsInvariant(profiles, ledger, u, row);
      }
      profiles := profiles[u := row];
      ledger := ledger[u := rows];
      o := Created(row, Token(u, ledger[u], now + TokenLifetimeSeconds));
    }

    /**
     * PATCH: a user without a profile gets 404.  The address validated is the
     * request's updated with the stored address columns; when it is valid,
     * every truthy argument is written under its own name and the commit
     * answers 201 with the row.  The field validator is not consulted, and
     * the permission rows are never touched.
     */
    method Patch(claims: Option<UserId>, args: Args,
                 checkAddress: Address -> AddressVerdict, dbAccepts: bool)
      returns (o: Outcome)
      modifies this
      ensures claims.None? ==> o == InternalError
      ensures claims.Some? && claims.value !in old(profiles) ==> o == NotFound
      ensures claims.Some? && claims.value in old(profiles) ==>
        var verdict := checkAddress(MergedAddress(old(profiles)[claims.value], args));
        && (!verdict.valid ==> o == BadRequest(verdict.errors))
        && (verdict.valid && !dbAccepts ==> o == InternalError)
        && (verdict.valid && dbAccepts ==> o == Updated(Overwritten(old(profiles)[claims.value], args)))
      ensures o.Updated? ==> profiles == old(profiles)[claims.value := o.record]
      ensures o.Updated? ==> forall c :: c in old(profiles)[claims.value] && c !in UpdateArgs ==>
        o.record[c] == old(profiles)[claims.value][c]
      ensures !o.Updated? ==> profiles == old(profiles)
      ensures ledger == old(ledger)
      ensures old(Valid()) ==> Valid()
    {
      if claims.None? {
        return InternalError;
      }
      var u := claims.value;
      var missing := AbortIfProfileMissing(u);
      if missing.Some? {
        return missing.value;
      }
      var stored := profiles[u];
      var verdict := checkAddress(MergedAddress(stored, args));
      if !verdict.valid {
        return BadRequest(verdict.errors);
      }
      // Write the truthy arguments one by one into the pending row.
      var row := stored;
      var todo := UpdateArgs;
      while todo != {}
        invariant todo <= UpdateArgs
        invariant row == stored + TruthyArgs(args, UpdateArgs - todo)
        invariant profiles == old(profiles) && ledger == old(ledger)
        decreases todo
      {
        var k :| k in todo;
        WriteOneMore(stored, args, UpdateArgs - todo, k);
        assert UpdateArgs - (todo - {k}) == (UpdateArgs - todo) + {k};
        var v := Arg(args, k);
        if Truthy(v) {
          row := row[k := v];
        }
        todo := todo - {k};
      }
      assert UpdateArgs - todo == UpdateArgs;
      if !dbAccepts {
        return InternalError;
      }
      profiles := profiles[u := row];
      o := Updated(row);
    }

    /**
     * DELETE: remove the user's profile and answer 201; afterwards GET
     * answers 404.  The permission rows stay.
     */
    method Delete(claims: Option<UserId>, dbAccepts: bool) returns (o: Outcome)
      modifies this
      ensures claims.None? ==> o == InternalError
      ensures claims.Some? && claims.value !in old(profiles) ==> o == NotFound
      ensures claims.Some? && claims.value in old(profiles) && !dbAccepts ==> o == InternalError
      ensures o == Deleted <==> claims.Some? && claims.value in old(profiles) && dbAccepts
      ensures o == Deleted ==> profiles == old(profiles) - {claims.value} && Get(claims) == NotFound
      ensures o != Deleted ==> profiles == old(profiles)
      ensures ledger == old(ledger)
      ensures old(Valid()) ==> Valid()
    {
      if claims.None? {
        return InternalError;
      }
      var u := claims.value;
      var missing := AbortIfProfileMissing(u);
      if missing.Some? {
        return missing.value;
      }
      if !dbAccepts {
        return InternalError;
      }
      profiles := profiles - {u};
      o := Deleted;
    }
  }

  /**
   * After a successful POST the user holds each study permission exactly
   * once, provided no permission row was duplicated before, and keeps every
   * permission row held before, in place.
   */
  lemma PostGrantsEachStudyPermissionOnce(rows: seq<string>)
    requires NoDuplicates(rows)
    ensures rows <= GrantAll(rows, StudyPermissions)
    ensures NoDuplicates(GrantAll(rows, StudyPermissions))
    ensures forall p :: p in StudyPermissions ==> multiset(GrantAll(rows, StudyPermissions))[p] == 1
  {
    GrantAllKeepsNoDuplicates(rows, StudyPermissions);
    forall p | p in StudyPermissions
      ensures multiset(GrantAll(rows, StudyPermissions))[p] == 1
    {
      GrantAllCounts(rows, StudyPermissions, p);
      if p in rows {
        NoDuplicatesCountsOne(rows, p);
      }
    }
  }

  /** In a sequence without duplicates, every element occurs once. */
  lemma {:induction false} NoDuplicatesCountsOne(rows: seq<string>, p: string)
    requires NoDuplicates(rows) && p in rows
    ensures multiset(rows)[p] == 1
    decreases |rows|
  {
    assert rows == [rows[0]] + rows[1..];
    assert NoDuplicates(rows[1..]);
    if rows[0] == p {
      assert p !in rows[1..];
    } else {
      NoDuplicatesCountsOne(rows[1..], p);
    }
  }

  /**
   * The token a successful POST issues, presented while it is unexpired and
   * decodes to what was issued, passes the guard for each study permission,
   * and the guarded handler runs.
   */
  lemma ReissuedTokenPassesGuard<R>(rows: seq<string>, u: UserId, now: int, cookie: string,
                                    decode: string -> Option<Payload>, handler: () -> R, p: string)
    requires cookie != ""
    requires decode(cookie) == Some(ClaimsOf(Token(u, GrantAll(rows, StudyPermissions), now + TokenLifetimeSeconds)))
    requires p in StudyPermissions
    ensures TokenRequired(p, Some(cookie), decode, handler) == Handled(handler())
  {
  }

  /**
   * A second POST for the same user, whatever its fields, answers 409 and
   * changes neither the profiles nor the permission rows.
   */
  method RepeatedPostConflicts(store: ProfileStore, u: UserId, args1: Args, args2: Args,
                               validate: Args -> Errors, checkAddress: Address -> AddressVerdict, now: int)
    returns (first: Outcome, second: Outcome)
    requires PostAccepted(args2, validate, checkAddress)
    modifies store
    ensures first.Created? ==> second == Conflict
    ensures first.Created? ==> store.profiles == old(store.profiles)[u := NewRecord(u, args1)]
    ensures first.Created? ==> store.Permissions(u) == GrantAll(old(store.Permissions(u)), StudyPermissions)
  {
    first := store.Post(Some(u), args1, validate, checkAddress, true, now);
    second := store.Post(Some(u), args2, validate, checkAddress, true, now + 1);
  }

  /** A DELETE that succeeds is followed by a GET that answers 404. */
  method DeleteThenGet(store: ProfileStore, u: UserId) returns (deleted: Outcome, got: Outcome)
    modifies store
    ensures u in old(store.profiles) ==> deleted == Deleted && got == NotFound
    ensures u !in old(store.profiles) ==> deleted == NotFound && got == NotFound
  {
    deleted := store.Delete(Some(u), true);
    got := store.Get(Some(u));
  }
}
