/** The two password-reset callables: checking the format of a reset code,
    and confirming a reset with a new password through Firebase Auth. */
module PasswordReset {
  import opened Js
  import opened Text

  /** The shortest code the format check accepts. */
  const MinCodeLength := 20
  /** The shortest password accepted. */
  const MinPasswordLength := 8
  /** The address every accepted code answers with. */
  const PlaceholderEmail := "user@example.com"

  /** `verifyPasswordResetCode`: the code must be a non-empty string of at
      least 20 UTF-16 code units (the short-code refusal is an HttpsError,
      rethrown unchanged by the catch). Nothing is verified: every accepted
      code answers with the same placeholder address. */
  function VerifyPasswordResetCode(oobCode: Value): (r: Result<string>)
    ensures r.Err? <==> !IsNonEmptyString(oobCode) || Utf16Length(oobCode.s) < MinCodeLength
    ensures r.Err? ==> r.code == InvalidArgument
    ensures r.Ok? ==> r.value == PlaceholderEmail
    ensures oobCode.Str? && |oobCode.s| >= MinCodeLength ==> r.Ok?
  {
    if !IsNonEmptyString(oobCode) then Err(InvalidArgument)
    else if Utf16Length(oobCode.s) < MinCodeLength then Err(InvalidArgument)
    else Ok(PlaceholderEmail)
  }

  /** The answer says nothing about the code beyond its format: two
      accepted codes get the same answer. */
  lemma VerifyIgnoresCode(a: Value, b: Value)
    requires VerifyPasswordResetCode(a).Ok? && VerifyPasswordResetCode(b).Ok?
    ensures VerifyPasswordResetCode(a) == VerifyPasswordResetCode(b)
  {
  }

  /** What Firebase Auth answers when asked for the code's address. */
  datatype Lookup = Address(email: string) | LookupFailed(thrown: Thrown)

  /** The catch of `confirmPasswordReset`: an invalid, expired or weak
      input is invalid-argument, anything else internal. */
  function ResetErrorCode(t: Thrown): (c: Code)
    ensures c == InvalidArgument <==>
      t.AuthError? && t.authCode in ["auth/invalid-action-code", "auth/expired-action-code", "auth/weak-password"]
    ensures c != InvalidArgument ==> c == Internal
  {
    match t
    case AuthError(code) =>
      if code == "auth/invalid-action-code" then InvalidArgument
      else if code == "auth/expired-action-code" then InvalidArgument
      else if code == "auth/weak-password" then InvalidArgument
      else Internal
    case Https(_) => Internal
    case OtherError => Internal
  }

  /** The input checks of `confirmPasswordReset`, in order. */
  predicate ConfirmInputValid(oobCode: Value, newPassword: Value)
  {
    IsNonEmptyString(oobCode) && IsNonEmptyString(newPassword) && Utf16Length(newPassword.s) >= MinPasswordLength
  }

  /** `confirmPasswordReset`: the input checks come before any Auth call;
      then the code's address is looked up and the reset applied
      (`applied` is the error the reset throws, if any). The reply's
      address is the one the lookup gave. */
  function ConfirmPasswordReset(oobCode: Value, newPassword: Value, lookup: Lookup, applied: Option<Thrown>): (r: Result<string>)
    ensures !ConfirmInputValid(oobCode, newPassword) ==> r == Err(InvalidArgument)
    ensures ConfirmInputValid(oobCode, newPassword) && lookup.LookupFailed? ==> r == Err(ResetErrorCode(lookup.thrown))
    ensures ConfirmInputValid(oobCode, newPassword) && lookup.Address? && applied.Some? ==> r == Err(ResetErrorCode(applied.value))
    ensures r.Ok? <==> ConfirmInputValid(oobCode, newPassword) && lookup.Address? && applied.None?
    ensures r.Ok? ==> r.value == lookup.email
    ensures r.Err? ==> r.code in {InvalidArgument, Internal}
  {
    if !IsNonEmptyString(oobCode) then Err(InvalidArgument)
    else if !IsNonEmptyString(newPassword) then Err(InvalidArgument)
    else if Utf16Length(newPassword.s) < MinPasswordLength then Err(InvalidArgument)
    else match lookup
      case LookupFailed(t) => Err(ResetErrorCode(t))
      case Address(email) =>
        if applied.Some? then Err(ResetErrorCode(applied.value)) else Ok(email)
  }

  /** A rejected input is rejected whatever Firebase Auth would answer:
      no Auth call is made before the checks pass. */
  lemma ConfirmChecksFirst(oobCode: Value, newPassword: Value, l1: Lookup, a1: Option<Thrown>, l2: Lookup, a2: Option<Thrown>)
    requires !ConfirmInputValid(oobCode, newPassword)
    ensures ConfirmPasswordReset(oobCode, newPassword, l1, a1) == ConfirmPasswordReset(oobCode, newPassword, l2, a2)
  {
  }

  // ---------------------------------------------------------------------
  // As written: the Admin SDK has no code lookup

  /** `getAuth()` from "firebase-admin/auth" is the Admin SDK's Auth, which
      offers neither `verifyPasswordResetCode` nor `confirmPasswordReset`
      (the comment on the format check says as much). Calling the missing
      method throws a TypeError, which carries no Auth error code. */
  const AdminSdkLookup: Lookup := LookupFailed(OtherError)

  /** `confirmPasswordReset` as written: the lookup always throws. */
  function ConfirmPasswordResetAsWritten(oobCode: Value, newPassword: Value): (r: Result<string>)
    ensures r.Err?
    ensures !ConfirmInputValid(oobCode, newPassword) ==> r == Err(InvalidArgument)
  {
    ConfirmPasswordReset(oobCode, newPassword, AdminSdkLookup, None)
  }

  /** As written, every input that passes the checks ends in internal,
      where the intended flow resets the password and answers with the
      code's address. */
  lemma ValidResetFailsAsWritten(oobCode: Value, newPassword: Value, email: string)
    requires ConfirmInputValid(oobCode, newPassword)
    ensures ConfirmPasswordResetAsWritten(oobCode, newPassword) == Err(Internal)
    ensures ConfirmPasswordReset(oobCode, newPassword, Address(email), None) == Ok(email)
  {
  }

  /** A concrete input: a code and an eight-character password. */
  lemma ResetExampleFailsAsWritten()
    ensures ConfirmPasswordResetAsWritten(Str("abc"), Str("password")) == Err(Internal)
  {
    ValidResetFailsAsWritten(Str("abc"), Str("password"), PlaceholderEmail);
  }
}
