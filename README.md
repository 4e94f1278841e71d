# StudyHub user-profile resource and token guard, in Dafny

This project models the profile part of the StudyHub backend: the REST
resource `UserInformationResource` (GET, POST, PATCH and DELETE on the
profile of the user named by the request's `token` cookie) and the
`token_required` guard that decides whether a request may reach a protected
handler.

- `wrappers.dfy` — `Option`.
- `tokens.dfy` (module `Tokens`) — the claims a decoded token carries and
  the token the resource re-issues: user id, permission names, expiry
  `now + 30` minutes in seconds.
- `middleware.dfy` (module `Middleware`) — the guard as a pure decision over
  the cookie, an abstract decode function and the required permission:
  401 "Token is missing!", 401 "Token is invalid!", 403 "Unauthorized
  access!", or the handler's own result.
- `profile_data.dfy` (module `ProfileData`) — field values with Python
  truthiness, rows and request arguments as maps, the argument and column
  names, and the pure parts of the handlers: the row a POST inserts, the
  grant-if-absent loop over the four study permissions (`GrantAll`), the
  address a PATCH validates (`MergedAddress`) and the row a PATCH writes
  (`Overwritten`), with lemmas about them.
- `user_profile.dfy` (module `UserProfile`) — the class `ProfileStore`
  holding the profile rows (`profiles: map<UserId, Record>`) and the
  permission rows (`ledger: map<UserId, seq<string>>`), with `Get` and the
  methods `Post`, `Patch` and `Delete`. POST's grant loop (`GrantStudyPermissions`) and PATCH's
  `setattr` loop are `while` loops over a pending copy (the session), which
  is assigned to the fields only at the commit, so every path that ends
  before the commit leaves the store as it was. `Valid()` is the store's
  invariant: no permission row is held twice, and every user with a profile
  holds the four study permissions; every method preserves it.

The collaborators are parameters. `claims` is the user id the handler
decodes from its own cookie (`None` when `jwt.decode` or the `id` lookup
raises, which the handlers answer with 500). The field validator is a
function from the validated arguments to an errors map. The address
validator is a function from the six address fields to a verdict and the
errors it records. `dbAccepts` says whether the database accepts the flush
and the commit; when it does not, the handler rolls back and answers 500.
`now` is the current time in seconds.

What the code does, where it may surprise a reader:

- PATCH's merge (user_profile.py:519-536) lets the five stored address
  columns `address_line_1`, `address_line_2`, `city`, `country` and
  `postal_code` override the request's values, so the address validator
  checks the stored values, and new values sent for those columns are then
  written unvalidated. `province` is not stored in the merge, so it comes
  from the request and is `None` when the request omits it
  (`PatchValidatesStoredAddress`, `MergedAddressIgnoresRequestedColumns`).
- PATCH never calls the field validator; only the address verdict gates
  the write.
- PATCH writes only the 22 arguments its parser declares
  (user_profile.py:199-231); `user_id` and the columns `middle_name`,
  `date_of_birth` and `interests` are not among them and keep their values
  (`OverwrittenKeepsUndeclaredColumns`).
- The permission table holds one row per grant, so the model keeps each
  user's rows as a sequence; "granted at most once" is a statement about
  counts (`GrantAllCounts`).
- The successes of POST, PATCH and DELETE all carry status 201 in the
  handlers' code.

## Model

| member | source | states |
|---|---|---|
| Middleware.TokenRequired | helper_functions/middleware_functions.py:12-22 | no or empty cookie gives 401 "Token is missing!"; a cookie that does not decode, or decodes without a `permissions` claim, gives 401 "Token is invalid!"; a decoded token without the permission gives 403; in exactly the remaining case the handler is called and its result returned unchanged; every rejection is 401 or 403 |
| Middleware.MorePermissionsNeverRefused | helper_functions/middleware_functions.py:18-22 | a token holding a superset of another's permissions is let through wherever the other is |
| ProfileData.GrantAll | user_profile.py:395-411 | after the grant loop the old permission rows are an unchanged prefix, each granted permission is held, and nothing else is added |
| ProfileData.GrantAllCounts | user_profile.py:401-411 | a permission granted while absent is held exactly once; every other permission is held exactly as often as before |
| ProfileData.GrantAllKeepsNoDuplicates | user_profile.py:401-411 | the grant loop never duplicates a permission row |
| ProfileData.GrantAllIdempotent | user_profile.py:401-411 | running the grant loop a second time changes nothing |
| ProfileData.GrantAllHeld | user_profile.py:403-407 | granting permissions already held changes nothing |
| ProfileData.MergedAddress | user_profile.py:519-536 | the PATCH address has the six address keys; the five stored columns take the stored values, `province` the request's |
| ProfileData.MergedAddressIgnoresRequestedColumns | user_profile.py:519-541 | the address PATCH validates does not depend on the request's values for the five stored columns |
| ProfileData.PatchValidatesStoredAddress | user_profile.py:519-549 | a PATCH sending a new value for a stored address column writes it although the stored value was validated; without `province` the validated province is `None` |
| ProfileData.WriteOneMore | user_profile.py:545-549 | one more `setattr` step writes the argument if and only if it is truthy |
| ProfileData.Overwritten | user_profile.py:545-549 | the PATCHed row writes every truthy declared update argument under its argument name, keeps every other column, and adds nothing else |
| ProfileData.OverwrittenKeepsUndeclaredColumns | user_profile.py:199-231 | a PATCH leaves every column its parser does not declare unchanged, so `user_id`, `middle_name`, `date_of_birth` and `interests` keep their values whatever the form carries |
| ProfileData.OverwrittenIdempotent | user_profile.py:545-549 | repeating a PATCH leaves the row as one PATCH does |
| ProfileData.OverwrittenByFalsyArgs | user_profile.py:545-549 | a PATCH whose arguments are all falsy leaves the row unchanged |
| UserProfile.StatusCode | user_profile.py:243-633 | every store-changing success is 201, GET's success 200, every failure 400 or above |
| UserProfile.ProfileStore.AbortIfProfileExists | user_profile.py:87-90 | aborts with Conflict exactly when the user has a profile |
| UserProfile.ProfileStore.AbortIfProfileMissing | user_profile.py:92-95 | aborts with NotFound exactly when the user has no profile |
| UserProfile.ProfileStore.Get | user_profile.py:243-269 | 200 with the stored row exactly when the user has one, 404 exactly when the user has none, 500 exactly when the token does not decode |
| UserProfile.ProfileStore.Post | user_profile.py:280-478 | 500 on an undecodable token; 400 with the field errors, else 400 with the address errors; 409 for an existing profile; 500 when the database refuses; otherwise 201, one row inserted under the user's id, the four permissions granted if absent, and a token whose permissions are the user's rows after the commit and whose expiry is `now` plus 30 minutes; nothing changes on any other path; the store invariant is kept, and on a store that keeps it each study permission is then held exactly once |
| UserProfile.ProfileStore.Patch | user_profile.py:490-575 | 500 on an undecodable token; 404 without a profile; 400 with the address errors when the merged address is invalid; 500 when the database refuses; otherwise 201 with the row overwritten by the truthy declared arguments, every column the parser does not declare (`user_id` among them) unchanged; permission rows never change, profiles change only on success |
| UserProfile.ProfileStore.Delete | user_profile.py:587-633 | 500 on an undecodable token; 404 without a profile; 500 when the database refuses; otherwise 201, the profile removed, and GET then answers 404; permission rows never change |
| UserProfile.GrantStudyPermissions | user_profile.py:395-411 | the grant loop computes `GrantAll` of the user's rows over the four study permissions, in order |
| UserProfile.PostKeepsInvariant | user_profile.py:395-414 | inserting a profile with its grants keeps the store invariant: no duplicated permission row, and every profile holder holds the four study permissions |
| UserProfile.PostGrantsEachStudyPermissionOnce | user_profile.py:395-414 | after a successful POST each of the four permissions is held exactly once and every earlier permission row is kept in place |
| UserProfile.ReissuedTokenPassesGuard | user_profile.py:423-440 | the re-issued token, decoding to what was issued, passes the guard for each of the four study permissions |
| UserProfile.RepeatedPostConflicts | user_profile.py:356-361 | a second POST for the same user answers 409 and leaves the single row and the grants of the first |
| UserProfile.DeleteThenGet | user_profile.py:599-610 | a DELETE of an existing profile is followed by a GET answering 404 |

## Left out

- JWT encoding, signing with HS256, the secret keys and the expiry check: decoding is an abstract partial function, and a token is a value of `Token`.
- UserProfile.ProfileStore.Post: the re-issued token's `user_information_id` claim (the new row's database id) is not modelled.
- UserProfile.ProfileStore.Post: failures after the commit (the `Users` row lookup at user_profile.py:421-423, encoding the token) are not modelled; a committed POST always answers 201, and the rollback at lines 476-478 could not undo that commit anyway.
- UserProfile.ProfileStore.Post: a failing database is one input for the whole transaction; which statement fails (the flush before a permission query, or the commit) is not distinguished, since the rollback makes them alike.
- `validate_users_information` and `LocationValidator` are not part of this model (their code is not available): they are function parameters, and the address validator is assumed to record its errors only when `is_valid_address` runs.
- Request parsing with `reqparse`, the marshmallow schema and the cookie and response construction: the model works on already parsed arguments and returns the row, the token and the status. A parse failure in `post` or `patch` (lines 296 and 511) raises `BadRequest`, whose handler reads `errors` before it is first assigned (lines 321 and 514), so such a request ends in a 500; the model has no such path.
- UserProfile.ProfileStore.Delete: keeps the 201 confirmation the handler builds at user_profile.py:617-621; the `marshal_with` wrapper at line 586 marshals a non-tuple return value with the resource fields, which in the framework would replace it with a 200 whose fields are mostly empty.
- Reads of the store never fail in the model: a failing query (user_profile.py:251, 356, 421, 499, 599) would answer 500, and the model's 500 paths on reads are only an undecodable token.
- Only list-valued `permissions` claims are modelled: a claim that is a string or a dictionary makes the guard's membership test a substring or key test (helper_functions/middleware_functions.py:18) rather than an error. Tokens minted by the profile resource always carry a list (user_profile.py:423, 432).
- Time zones and `datetime.now`: `now` is an integer number of seconds.
- The race between the existence check and the insert: the code has no mutual exclusion, and a refused duplicate insert shows up only as `dbAccepts` being false.
- How `token_required` is attached to the handlers (the resource passes keyword arguments the guard does not take, and the wrapper forwards `*kwargs`); the guard is modelled as a standalone decision.
- UserProfile.ProfileStore.Patch: the model writes each truthy argument under its argument name as a key of the row map; it does not model that the ORM persists only mapped columns, so `mid_name`, `birth_day` and `user_interest`, whose columns are named differently, would not reach the stored row.
- The order of the user's permission rows as the ORM returns them is modelled as insertion order; only the token's list depends on it.
- app.py (configuration, database setup, route registration).
