/**
 * `UserManager.create_user` and `create_superuser` (apps/users/managers.py).
 * Django's `normalize_email` and the password hasher behind `set_password`
 * are the parameters `normalize` and `hash`; the extra keyword arguments are
 * an ordered dict; `save` appends the user to the table.
 */
module UserManager {
  import opened Values

  /** The exception the two methods raise. */
  datatype ManagerError = ValueError(message: string)

  /** A saved user: the stored email, the stored password hash and the extra fields. */
  datatype UserRecord = UserRecord(email: string, passwordHash: string, fields: seq<(string, Value)>)

  const EmailRequired: string := "Email field is required"
  const StaffRequired: string := "Superuser must have is_staff=True."
  const SuperuserRequired: string := "Superuser must have is_superuser=True."

  /** The extra fields of `create_superuser` after both `setdefault` calls. */
  function SuperuserFields(extra: seq<(string, Value)>): (r: seq<(string, Value)>)
    ensures Get(r, "is_staff") == (if HasKey(extra, "is_staff") then Get(extra, "is_staff") else Some(Bool(true)))
    ensures Get(r, "is_superuser") == (if HasKey(extra, "is_superuser") then Get(extra, "is_superuser") else Some(Bool(true)))
    ensures forall k :: k != "is_staff" && k != "is_superuser" ==> Get(r, k) == Get(extra, k)
    ensures |r| >= |extra| && r[..|extra|] == extra
  {
    var r1 := SetDefault(extra, "is_staff", Bool(true));
    var r2 := SetDefault(r1, "is_superuser", Bool(true));
    assert r2[..|extra|] == extra by {
      assert r1[..|extra|] == extra;
      assert r2[..|r1|] == r1;
    }
    r2
  }

  /**
   * The two flag checks, `is_staff` first: each flag must be the boolean
   * True itself (`is not True` rejects 1 and any other truthy value).
   */
  function SuperuserFlagError(fields: seq<(string, Value)>): (e: Option<ManagerError>)
    ensures e.None? <==> Get(fields, "is_staff") == Some(Bool(true)) && Get(fields, "is_superuser") == Some(Bool(true))
    ensures Get(fields, "is_staff") != Some(Bool(true)) ==> e == Some(ValueError(StaffRequired))
    ensures Get(fields, "is_staff") == Some(Bool(true)) && Get(fields, "is_superuser") != Some(Bool(true)) ==>
      e == Some(ValueError(SuperuserRequired))
  {
    if Get(fields, "is_staff") != Some(Bool(true)) then Some(ValueError(StaffRequired))
    else if Get(fields, "is_superuser") != Some(Bool(true)) then Some(ValueError(SuperuserRequired))
    else None
  }

  /** Without either flag supplied, the defaults pass both checks. */
  lemma DefaultsPass(extra: seq<(string, Value)>)
    requires !HasKey(extra, "is_staff") && !HasKey(extra, "is_superuser")
    ensures SuperuserFlagError(SuperuserFields(extra)).None?
  {
  }

  /** A flag supplied as anything but True, even a truthy one like 1, is rejected. */
  lemma NonTrueFlagRejected(extra: seq<(string, Value)>, flag: string)
    requires flag == "is_staff" || flag == "is_superuser"
    requires Get(extra, flag).Some? && Get(extra, flag).value != Bool(true)
    ensures SuperuserFlagError(SuperuserFields(extra)).Some?
  {
    assert HasKey(extra, flag);
  }

  /** `is_staff=1` fails on the staff check even though 1 is truthy. */
  lemma TruthyIntStaffRejected()
    ensures SuperuserFlagError(SuperuserFields([("is_staff", Int(1))])) == Some(ValueError(StaffRequired))
  {
    var extra := [("is_staff", Int(1))];
    assert Get(extra, "is_staff") == Some(Int(1));
    assert HasKey(extra, "is_staff");
  }

  /**
   * What `create_user` returns: a missing or empty email is refused with
   * ValueError; otherwise the user carries the normalized email, the hashed
   * password and the extra fields exactly as given.
   */
  function NewUser(email: Option<string>, password: Option<string>, extra: seq<(string, Value)>,
                   normalize: Option<string> -> string, hash: Option<string> -> string): (r: Result<UserRecord, ManagerError>)
    ensures r.Err? <==> email.None? || email == Some("")
    ensures r.Err? ==> r.error == ValueError(EmailRequired)
    ensures r.Ok? ==> r.value.email == normalize(email) && r.value.passwordHash == hash(password) && r.value.fields == extra
  {
    if email.None? || email.value == "" then Err(ValueError(EmailRequired))
    else Ok(UserRecord(normalize(email), hash(password), extra))
  }

  /**
   * What `create_superuser` returns: the first failing flag check, or the
   * user with the normalized email, the hashed password and the extra fields
   * after both defaults; the email itself is never checked.
   */
  function NewSuperuser(email: Option<string>, password: Option<string>, extra: seq<(string, Value)>,
                        normalize: Option<string> -> string, hash: Option<string> -> string): (r: Result<UserRecord, ManagerError>)
    ensures r.Err? <==> SuperuserFlagError(SuperuserFields(extra)).Some?
    ensures r.Err? ==> r.error == SuperuserFlagError(SuperuserFields(extra)).value
    ensures r.Ok? ==>
      r.value.email == normalize(email) && r.value.passwordHash == hash(password) &&
      r.value.fields == SuperuserFields(extra)
  {
    var fields := SuperuserFields(extra);
    match SuperuserFlagError(fields)
    case Some(e) => Err(e)
    case None => Ok(UserRecord(normalize(email), hash(password), fields))
  }

  /** The user table. */
  class UserTable {
    var users: seq<UserRecord>

    constructor ()
      ensures users == []
    {
      users := [];
    }

    /**
     * `create_user`, saving the user on success. `email` is a named
     * parameter, so Python's call binding already refuses a second "email"
     * among the keyword arguments before the body runs.
     */
    method CreateUser(email: Option<string>, password: Option<string>, extra: seq<(string, Value)>,
                      normalize: Option<string> -> string, hash: Option<string> -> string)
      returns (r: Result<UserRecord, ManagerError>)
      requires !HasKey(extra, "email")
      modifies this
      ensures r == NewUser(email, password, extra, normalize, hash)
      ensures r.Ok? ==> users == old(users) + [r.value]
      ensures r.Err? ==> users == old(users)
    {
      if email.None? || email.value == "" {
        return Err(ValueError(EmailRequired));
      }
      var normalized := normalize(email);
      var user := UserRecord(normalized, hash(password), extra);
      users := users + [user];
      r := Ok(user);
    }

    /**
     * `create_superuser`: defaults both flags to True, checks `is_staff`
     * then `is_superuser`, and then builds and saves the user like
     * `create_user` but without its empty-email check. The call binding
     * excludes an "email" keyword as for `create_user`.
     */
    method CreateSuperuser(email: Option<string>, password: Option<string>, extra: seq<(string, Value)>,
                           normalize: Option<string> -> string, hash: Option<string> -> string)
      returns (r: Result<UserRecord, ManagerError>)
      requires !HasKey(extra, "email")
      modifies this
      ensures r == NewSuperuser(email, password, extra, normalize, hash)
      ensures r.Ok? ==> users == old(users) + [r.value]
      ensures r.Err? ==> users == old(users)
    {
      var fields := SetDefault(extra, "is_staff", Bool(true));
      fields := SetDefault(fields, "is_superuser", Bool(true));
      if Get(fields, "is_staff") != Some(Bool(true)) {
        return Err(ValueError(StaffRequired));
      }
      if Get(fields, "is_superuser") != Some(Bool(true)) {
        return Err(ValueError(SuperuserRequired));
      }
      var normalized := normalize(email);
      var user := UserRecord(normalized, hash(password), fields);
      users := users + [user];
      r := Ok(user);
    }
  }

  /** An empty email is refused by `create_user` but reaches `normalize` in `create_superuser`. */
  lemma EmptyEmailOnlyCheckedByCreateUser(password: Option<string>, normalize: Option<string> -> string,
                                          hash: Option<string> -> string)
    ensures NewUser(Some(""), password, [], normalize, hash) == Err(ValueError(EmailRequired))
    ensures NewSuperuser(Some(""), password, [], normalize, hash).Ok?
    ensures NewSuperuser(Some(""), password, [], normalize, hash).value.email == normalize(Some(""))
  {
    DefaultsPass([]);
  }
}
