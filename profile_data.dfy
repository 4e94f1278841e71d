/**
 * The data of the user-profile resource (user_profile.py): field values and
 * their Python truthiness, the stored profile row, the parsed request
 * arguments, the argument and column names the handlers use, and the pure
 * pieces of the handlers: the row a POST inserts, the permission grants it
 * adds, the address a PATCH validates and the row a PATCH writes back.
 */
module ProfileData {

  /** A field value as the request parser yields it or a row stores it. */
  datatype Value = Null | Str(s: string) | Int(i: int) | Date(year: int, month: int, day: int)

  /** Python truthiness: `None`, `""` and `0` are false, every date is true. */
  predicate Truthy(v: Value)
  {
    match v
    case Null => false
    case Str(s) => s != ""
    case Int(i) => i != 0
    case Date(_, _, _) => true
  }

  type UserId = string

  /** A stored profile row: column name to value. */
  type Record = map<string, Value>

  /** The parsed request arguments: argument name to value. */
  type Args = map<string, Value>

  /** The accumulated validation errors: field name to reason. */
  type Errors = map<string, string>

  /** An address, keyed by the names the address validator takes. */
  type Address = map<string, Value>

  /** What the address validator answers, with the errors it recorded. */
  datatype AddressVerdict = AddressVerdict(valid: bool, errors: Errors)

  /** The value of an argument; the parser yields `None` for one not sent. */
  function Arg(args: Args, name: string): Value
  {
    if name in args then args[name] else Null
  }

  /** The value of a column of a row. */
  function Column(row: Record, name: string): Value
  {
    if name in row then row[name] else Null
  }

  const UserIdColumn: string := "user_id"

  /** The six address arguments handed to the address validator. */
  const AddressArgs: set<string> :=
    {"address_line_1", "address_line_2", "city", "province", "country", "postal_code"}

  /** The five stored address columns a PATCH reads back; `province` is not among them. */
  const StoredAddressColumns: set<string> :=
    {"address_line_1", "address_line_2", "city", "country", "postal_code"}

  /** The arguments a POST hands to the field validator. */
  const ValidatedArgs: set<string> :=
    {"first_name", "last_name", "age", "birth_day", "gender", "profile_image",
     "education_institutions", "education_majors", "education_degrees",
     "graduation_date", "identification_option", "identification_material"}

  /** The columns a POST fills, each with the argument it takes its value from. */
  const InsertColumns: map<string, string> := map[
    "first_name" := "first_name",
    "middle_name" := "mid_name",
    "last_name" := "last_name",
    "age" := "age",
    "date_of_birth" := "birth_day",
    "address_line_1" := "address_line_1",
    "address_line_2" := "address_line_2",
    "city" := "city",
    "province" := "province",
    "country" := "country",
    "postal_code" := "postal_code",
    "gender" := "gender",
    "religion" := "religion",
    "profile_image" := "profile_image",
    "user_bio" := "user_bio",
    "interests" := "user_interest",
    "education_institutions" := "education_institutions",
    "education_majors" := "education_majors",
    "education_degrees" := "education_degrees",
    "graduation_date" := "graduation_date",
    "identification_option" := "identification_option",
    "identification_material" := "identification_material"
  ]

  /**
   * The arguments the PATCH parser declares; only these reach the loop that
   * writes them back, whatever else the form carries.
   */
  const UpdateArgs: set<string> :=
    {"first_name", "mid_name", "last_name", "age", "birth_day",
     "address_line_1", "address_line_2", "city", "province", "country", "postal_code",
     "gender", "profile_image", "religion", "user_bio", "user_interest",
     "education_institutions", "education_majors", "education_degrees",
     "graduation_date", "identification_option", "identification_material"}

  /**
   * Columns a POST fills from an argument of another name; the PATCH parser
   * declares none of them.
   */
  const RenamedColumns: set<string> := {"middle_name", "date_of_birth", "interests"}

  /** The four permissions a completed profile grants, in the order they are granted. */
  const StudyPermissions: seq<string> := [
    "can_view_study_preferences",
    "can_change_study_preferences",
    "can_view_availability_schedule",
    "can_change_availability_schedule"
  ]

  // ---------------------------------------------------------------- POST

  /** The arguments the field validator sees. */
  function ValidatorInput(args: Args): (m: Args)
    ensures m.Keys == ValidatedArgs
    ensures forall k :: k in m ==> m[k] == Arg(args, k)
  {
    map k | k in ValidatedArgs :: Arg(args, k)
  }

  /** The address a POST asks the address validator about: the request's own six fields. */
  function PostAddress(args: Args): (a: Address)
    ensures a.Keys == AddressArgs
    ensures forall k :: k in a ==> a[k] == Arg(args, k)
  {
    map k | k in AddressArgs :: Arg(args, k)
  }

  /**
   * The row a successful POST inserts: every insert column holds the
   * argument it is built from (missing arguments as `None`), and the row is
   * keyed by the user's id.
   */
  function NewRecord(u: UserId, args: Args): (r: Record)
    ensures r.Keys == InsertColumns.Keys + {UserIdColumn}
    ensures r[UserIdColumn] == Str(u)
    ensures forall c :: c in InsertColumns ==> r[c] == Arg(args, InsertColumns[c])
  {
    (map c | c in InsertColumns :: Arg(args, InsertColumns[c]))[UserIdColumn := Str(u)]
  }

  /** No permission row appears twice. */
  predicate NoDuplicates(rows: seq<string>)
  {
    forall i, j :: 0 <= i < j < |rows| ==> rows[i] != rows[j]
  }

  /** One step of the grant loop: add a row for `p` unless the user already holds it. */
  function GrantIfAbsent(rows: seq<string>, p: string): seq<string>
  {
    if p in rows then rows else rows + [p]
  }

  /**
   * The permission rows after granting each of `ps` in turn, if absent.
   * The old rows stay in place, in front; every name of `ps` is then held,
   * and nothing else is added.
   */
  function GrantAll(rows: seq<string>, ps: seq<string>): (r: seq<string>)
    ensures rows <= r
    ensures forall p :: p in r <==> p in rows || p in ps
    decreases |ps|
  {
    if ps == [] then rows
    else GrantIfAbsent(GrantAll(rows, ps[..|ps| - 1]), ps[|ps| - 1])
  }

  /**
   * After the grants, each granted name is held exactly as often as before
   * if it was already held, and exactly once if it was not; every other
   * name is held exactly as often as before.
   */
  lemma {:induction false} GrantAllCounts(rows: seq<string>, ps: seq<string>, p: string)
    ensures multiset(GrantAll(rows, ps))[p] ==
            if p in ps && p !in rows then 1 else multiset(rows)[p]
    decreases |ps|
  {
    if ps != [] {
      var init, last := ps[..|ps| - 1], ps[|ps| - 1];
      GrantAllCounts(rows, init, p);
      assert ps == init + [last];
      var before := GrantAll(rows, init);
      if last !in before {
        assert GrantAll(rows, ps) == before + [last];
        assert multiset(before + [last]) == multiset(before) + multiset{last};
      }
    }
  }

  /** Granting never introduces a duplicate row. */
  lemma {:induction false} GrantAllKeepsNoDuplicates(rows: seq<string>, ps: seq<string>)
    requires NoDuplicates(rows)
    ensures NoDuplicates(GrantAll(rows, ps))
    decreases |ps|
  {
    if ps != [] {
      GrantAllKeepsNoDuplicates(rows, ps[..|ps| - 1]);
    }
  }

  /** Granting the same permissions twice is the same as granting them once. */
  lemma {:induction false} GrantAllIdempotent(rows: seq<string>, ps: seq<string>)
    ensures GrantAll(GrantAll(rows, ps), ps) == GrantAll(rows, ps)
    decreases |ps|
  {
    if ps != [] {
      var init := ps[..|ps| - 1];
      GrantAllIdempotent(rows, init);
      GrantAllHeld(GrantAll(rows, ps), init);
    }
  }

  /** Granting permissions that are all held already changes nothing. */
  lemma {:induction false} GrantAllHeld(rows: seq<string>, ps: seq<string>)
    requires forall p :: p in ps ==> p in rows
    ensures GrantAll(rows, ps) == rows
    decreases |ps|
  {
    if ps != [] {
      GrantAllHeld(rows, ps[..|ps| - 1]);
    }
  }

  // --------------------------------------------------------------- PATCH

  /** The address fields of a PATCH request, `None` where the request omits one. */
  function RequestAddress(args: Args): Address
  {
    map k | k in AddressArgs :: Arg(args, k)
  }

  /** The stored row's five address columns. */
  function StoredAddress(row: Record): Address
  {
    map k | k in StoredAddressColumns :: Column(row, k)
  }

  /**
   * The address a PATCH validates: the request's address updated with the
   * stored one, so the five stored columns win over whatever the request
   * sends, and only `province` comes from the request.
   */
  function MergedAddress(row: Record, args: Args): (a: Address)
    ensures a.Keys == AddressArgs
    ensures forall k :: k in StoredAddressColumns ==> a[k] == Column(row, k)
    ensures a["province"] == Arg(args, "province")
  {
    RequestAddress(args) + StoredAddress(row)
  }

  /**
   * The address a PATCH validates does not depend on the request's values
   * for the five stored columns: two requests that agree on `province` are
   * validated against the same address.
   */
  lemma MergedAddressIgnoresRequestedColumns(row: Record, args1: Args, args2: Args)
    requires Arg(args1, "province") == Arg(args2, "province")
    ensures MergedAddress(row, args1) == MergedAddress(row, args2)
  {
  }

  /** The arguments of a PATCH that are truthy, and so get written. */
  function TruthyArgs(args: Args, names: set<string>): (m: Args)
    ensures forall k :: k in m <==> k in names && k in args && Truthy(args[k])
    ensures forall k :: k in m ==> m[k] == args[k]
  {
    map k | k in names && k in args && Truthy(args[k]) :: args[k]
  }

  /** Writing one more argument extends the rows written so far by that argument, if truthy. */
  lemma WriteOneMore(row: Record, args: Args, done: set<string>, k: string)
    requires k !in done
    ensures row + TruthyArgs(args, done + {k}) ==
            if Truthy(Arg(args, k)) then (row + TruthyArgs(args, done))[k := Arg(args, k)]
            else row + TruthyArgs(args, done)
  {
  }

  /**
   * The row after a PATCH writes its truthy arguments, under their argument
   * names: every truthy declared argument is written, every other column
   * keeps its stored value, and nothing else appears.
   */
  function Overwritten(row: Record, args: Args): (r: Record)
    ensures r.Keys == row.Keys + (set k | k in UpdateArgs && k in args && Truthy(args[k]))
    ensures forall k :: k in UpdateArgs && k in args && Truthy(args[k]) ==> r[k] == args[k]
    ensures forall k :: k in row && !(k in UpdateArgs && k in args && Truthy(args[k])) ==> r[k] == row[k]
  {
    row + TruthyArgs(args, UpdateArgs)
  }

  /**
   * A PATCH cannot move a profile to another owner, nor touch a column the
   * update parser does not declare, whatever the form carries.
   */
  lemma {:induction false} OverwrittenKeepsUndeclaredColumns(row: Record, args: Args)
    ensures forall c :: c in row && c !in UpdateArgs ==> Overwritten(row, args)[c] == row[c]
    ensures UserIdColumn in row ==> Overwritten(row, args)[UserIdColumn] == row[UserIdColumn]
    ensures forall c :: c in row && c in RenamedColumns ==> Overwritten(row, args)[c] == row[c]
  {
    assert UserIdColumn !in UpdateArgs;
    assert forall c :: c in RenamedColumns ==> c !in UpdateArgs;
  }

  /**
   * A PATCH that sends a new value for a stored address column writes that
   * value, although the address it validated held the stored one; and a
   * PATCH that omits `province` is validated with no province at all.
   */
  lemma PatchValidatesStoredAddress(row: Record, args: Args, k: string)
    requires k in StoredAddressColumns && k in args && Truthy(args[k])
    ensures MergedAddress(row, args)[k] == Column(row, k)
    ensures Overwritten(row, args)[k] == args[k]
    ensures "province" !in args ==> MergedAddress(row, args)["province"] == Null
  {
    assert k in UpdateArgs;
  }

  /** Sending the same PATCH twice leaves the row as sending it once does. */
  lemma OverwrittenIdempotent(row: Record, args: Args)
    ensures Overwritten(Overwritten(row, args), args) == Overwritten(row, args)
  {
  }

  /** A PATCH with no truthy argument leaves the row as it is. */
  lemma OverwrittenByFalsyArgs(row: Record, args: Args)
    requires forall k :: k in args ==> !Truthy(args[k])
    ensures Overwritten(row, args) == row
  {
  }
}
