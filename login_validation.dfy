/**
 * `UserLoginSerializer.validate` (apps/authentication/serializers.py): the
 * credential checks of the login endpoint.  Django's `authenticate` is the
 * parameter `authenticate`; it receives the request and the two values.
 */
module LoginValidation {
  import opened Values

  /** The user `authenticate` returns. */
  datatype AuthUser = AuthUser(pk: int, isActive: bool)

  /** A DRF `ValidationError` with its message and code. */
  datatype LoginError = ValidationError(message: string, code: string)

  const MissingCredentials: string := "Email and password are required."
  const BadCredentials: string := "Unable to log in with provided credentials."
  const DisabledAccount: string := "User account is disabled."

  /** `attrs.get(key)` is truthy. */
  predicate Supplied(attrs: seq<(string, Value)>, key: string)
  {
    Get(attrs, key).Some? && Truthy(Get(attrs, key).value)
  }

  /**
   * The three checks of `validate`, in their order: both credentials
   * supplied, `authenticate` found a user, the user is active.  The first
   * failure decides the message, and every failure has code "authorization".
   */
  function CheckCredentials<R>(attrs: seq<(string, Value)>, request: R,
                               authenticate: (R, Value, Value) -> Option<AuthUser>): (r: Result<AuthUser, LoginError>)
    ensures r.Err? ==> r.error.code == "authorization"
    ensures !Supplied(attrs, "email") || !Supplied(attrs, "password") ==>
      r == Err(ValidationError(MissingCredentials, "authorization"))
    ensures Supplied(attrs, "email") && Supplied(attrs, "password") ==>
      var user := authenticate(request, Get(attrs, "email").value, Get(attrs, "password").value);
      && (user.None? ==> r == Err(ValidationError(BadCredentials, "authorization")))
      && (user.Some? && !user.value.isActive ==> r == Err(ValidationError(DisabledAccount, "authorization")))
      && (user.Some? && user.value.isActive ==> r == Ok(user.value))
  {
    var email := Get(attrs, "email");
    var password := Get(attrs, "password");
    if email.None? || !Truthy(email.value) || password.None? || !Truthy(password.value) then
      Err(ValidationError(MissingCredentials, "authorization"))
    else
      match authenticate(request, email.value, password.value)
      case None => Err(ValidationError(BadCredentials, "authorization"))
      case Some(user) =>
        if !user.isActive then Err(ValidationError(DisabledAccount, "authorization"))
        else Ok(user)
  }

  /** Missing credentials are rejected before `authenticate` is consulted: its answer plays no part. */
  lemma MissingCredentialsNeverAuthenticate<R>(attrs: seq<(string, Value)>, request: R,
                                                a1: (R, Value, Value) -> Option<AuthUser>,
                                                a2: (R, Value, Value) -> Option<AuthUser>)
    requires !Supplied(attrs, "email") || !Supplied(attrs, "password")
    ensures CheckCredentials(attrs, request, a1) == CheckCredentials(attrs, request, a2)
  {
  }

  /** An empty email string counts as missing, whatever the password. */
  lemma EmptyEmailIsMissing<R>(password: string, request: R, authenticate: (R, Value, Value) -> Option<AuthUser>)
    ensures CheckCredentials([("email", Str("")), ("password", Str(password))], request, authenticate) ==
      Err(ValidationError(MissingCredentials, "authorization"))
  {
    assert Get([("email", Str("")), ("password", Str(password))], "email") == Some(Str(""));
  }

  /** The serializer's validated data, which `validate` updates in place. */
  class Attrs {
    var entries: seq<(string, Value)>

    constructor (entries: seq<(string, Value)>)
      ensures this.entries == entries
    {
      this.entries := entries;
    }
  }

  /**
   * `validate`: on a failed check it raises and leaves `attrs` alone; on
   * success it sets `attrs["user"]` to the user, leaves every other entry as
   * it was, and returns the same `attrs`.
   */
  method Validate<R>(attrs: Attrs, request: R, authenticate: (R, Value, Value) -> Option<AuthUser>)
    returns (r: Result<Attrs, LoginError>)
    modifies attrs
    ensures var check := CheckCredentials(old(attrs.entries), request, authenticate);
      && (check.Err? ==> r == Err(check.error) && unchanged(attrs))
      && (check.Ok? ==>
            r.Ok? && r.value == attrs && attrs.entries == SetItem(old(attrs.entries), "user", Object(check.value.pk)))
    ensures r.Ok? ==>
      && Get(attrs.entries, "user").Some? && Get(attrs.entries, "user").value.Object?
      && forall k :: k != "user" ==> Get(attrs.entries, k) == Get(old(attrs.entries), k)
  {
    var check := CheckCredentials(attrs.entries, request, authenticate);
    if check.Err? {
      return Err(check.error);
    }
    SetItemGet(attrs.entries, "user", Object(check.value.pk));
    attrs.entries := SetItem(attrs.entries, "user", Object(check.value.pk));
    r := Ok(attrs);
  }
}
