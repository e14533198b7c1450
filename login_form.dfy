/** The log-in form's field rules and its password-visibility toggle. */
module LoginForm {
  import opened Wrappers

  const RequiredMessage: string := "This field is required"
  const InvalidEmailMessage: string := "Please provide a valid email address"
  const ShortPasswordMessage: string := "Password needs a minimum of 8 characters"
  const MinPasswordLength: nat := 8

  /** The characters the regular-expression class `\s` matches in JavaScript: the ASCII
      spaces and line breaks, the Unicode space separators, the line and paragraph
      separators and the byte-order mark. */
  predicate IsRegexSpace(c: char) {
    ('\t' <= c <= '\r') || c == ' ' || c == '\U{00A0}' || c == '\U{1680}' ||
    ('\U{2000}' <= c <= '\U{200A}') || c == '\U{2028}' || c == '\U{2029}' ||
    c == '\U{202F}' || c == '\U{205F}' || c == '\U{3000}' || c == '\U{FEFF}'
  }

  /** `s[i..j]` is a non-empty run of characters matched by `\S`. */
  predicate NonSpaceRun(s: string, i: int, j: int)
    requires 0 <= i <= j <= |s|
  {
    i < j && forall k | i <= k < j :: !IsRegexSpace(s[k])
  }

  /** `s[a..d]` matches `\S+@\S+\.\S+`, with the `@` at `b` and the `.` at `c`. */
  ghost predicate MatchAt(s: string, a: int, b: int, c: int, d: int) {
    0 <= a < b < c < d <= |s| &&
    NonSpaceRun(s, a, b) && s[b] == '@' && NonSpaceRun(s, b + 1, c) &&
    s[c] == '.' && NonSpaceRun(s, c + 1, d)
  }

  /** The email rule's pattern is not anchored: it is met when some substring matches. */
  ghost predicate MatchesEmailPattern(s: string) {
    exists a, b, c, d :: MatchAt(s, a, b, c, d)
  }

  /** An `@` at `b` and a `.` at `c`, with a non-space character before the `@`, only
      non-space characters between them, and a non-space character after the `.`. */
  predicate AtDotAt(s: string, b: int, c: int)
    requires 1 <= b < c < |s| - 1
  {
    !IsRegexSpace(s[b - 1]) && s[b] == '@' && NonSpaceRun(s, b + 1, c) &&
    s[c] == '.' && !IsRegexSpace(s[c + 1])
  }

  predicate HasEmailShape(s: string) {
    exists b, c | 1 <= b < c < |s| - 1 :: AtDotAt(s, b, c)
  }

  /** The outer runs of the pattern can always be cut down to one character, so the test
      reduces to finding a suitable `@` and `.`. */
  lemma {:induction false} EmailShapeIffPattern(s: string)
    ensures HasEmailShape(s) <==> MatchesEmailPattern(s)
  {
    if HasEmailShape(s) {
      var b, c :| 1 <= b < c < |s| - 1 && AtDotAt(s, b, c);
      assert MatchAt(s, b - 1, b, c, c + 2);
    }
    if MatchesEmailPattern(s) {
      var a, b, c, d :| MatchAt(s, a, b, c, d);
      assert s[b - 1] == s[a..b][b - 1 - a];
      assert AtDotAt(s, b, c);
    }
  }

  /** The email field's rules: required, then the pattern; `None` means no error. */
  function ValidateEmail(email: string): (error: Option<string>)
    ensures error == None <==> email != "" && MatchesEmailPattern(email)
    ensures email == "" ==> error == Some(RequiredMessage)
    ensures email != "" && !MatchesEmailPattern(email) ==> error == Some(InvalidEmailMessage)
  {
    EmailShapeIffPattern(email);
    if email == "" then Some(RequiredMessage)
    else if !HasEmailShape(email) then Some(InvalidEmailMessage)
    else None
  }

  /** Text around an accepted address does not make it fail, since the pattern is unanchored. */
  lemma {:induction false} EmailPatternUnanchored(prefix: string, s: string, suffix: string)
    requires MatchesEmailPattern(s)
    ensures MatchesEmailPattern(prefix + s + suffix)
  {
    var a, b, c, d :| MatchAt(s, a, b, c, d);
    var t := prefix + s + suffix;
    var n := |prefix|;
    forall k | 0 <= k < |s|
      ensures t[n + k] == s[k]
    {
    }
    assert MatchAt(t, n + a, n + b, n + c, n + d);
  }

  /** An address with a space between the `@` and the last `.` and no other `@` or `.` is
      rejected: the pattern cannot run across the space. */
  lemma {:induction false} SpaceSplitsAddress(user: string, host: string, tld: string)
    requires user != [] && host != [] && tld != []
    requires '@' !in user + host + tld && '.' !in user + host + tld
    ensures ValidateEmail(user + "@" + host + " ." + tld) == Some(InvalidEmailMessage)
  {
    var s := user + "@" + host + " ." + tld;
    var at := |user|;
    var space := |user| + 1 + |host|;
    forall k | 0 <= k < |s| && k != at && k != space + 1
      ensures s[k] != '@' && s[k] != '.'
    {
      if k < at {
        assert s[k] == user[k];
      } else if at < k < space {
        assert s[k] == host[k - at - 1];
      } else if k > space + 1 {
        assert s[k] == tld[k - space - 2];
      }
    }
    assert s[at] == '@' && s[space] == ' ' && s[space + 1] == '.';
    forall a, b, c, d
      ensures !MatchAt(s, a, b, c, d)
    {
      assert MatchAt(s, a, b, c, d) ==> b == at && c == space + 1;
      assert b == at && c == space + 1 ==> !NonSpaceRun(s, b + 1, c);
    }
  }

  /** An ordinary address is accepted. */
  lemma ExampleAddressAccepted()
    ensures ValidateEmail("shopper@vogal.store") == None
  {
    var s := "shopper@vogal.store";
    assert MatchAt(s, 0, 7, 13, |s|);
  }

  /** The password field's rules: required, then at least eight characters. */
  function ValidatePassword(password: string): (error: Option<string>)
    ensures error == None <==> |password| >= MinPasswordLength
    ensures password == "" ==> error == Some(RequiredMessage)
    ensures 0 < |password| < MinPasswordLength ==> error == Some(ShortPasswordMessage)
  {
    if password == "" then Some(RequiredMessage)
    else if |password| < MinPasswordLength then Some(ShortPasswordMessage)
    else None
  }

  /** The `type` of the password input: plain text while the password is visible. */
  function PasswordInputType(isPasswordVisible: bool): (inputType: string)
    ensures inputType == "text" <==> isPasswordVisible
    ensures inputType == "password" <==> !isPasswordVisible
  {
    if isPasswordVisible then "text" else "password"
  }

  /** The CSS `display` of the show/hide control: shown only once something has been typed. */
  function ToggleDisplay(password: string): (display: string)
    ensures display == "block" <==> |password| > 0
    ensures display == "none" <==> |password| == 0
  {
    if |password| > 0 then "block" else "none"
  }

  /** The form's password-visibility state. */
  class PasswordVisibility {
    var isPasswordVisible: bool

    constructor()
      ensures !isPasswordVisible
    {
      isPasswordVisible := false;
    }

    /** A click on the show/hide control flips the flag. */
    method Toggle()
      modifies this
      ensures isPasswordVisible == !old(isPasswordVisible)
    {
      isPasswordVisible := !isPasswordVisible;
    }
  }

  /** Two clicks on the control restore the original visibility and input type. */
  method ToggleTwice(field: PasswordVisibility)
    modifies field
    ensures field.isPasswordVisible == old(field.isPasswordVisible)
    ensures PasswordInputType(field.isPasswordVisible) == PasswordInputType(old(field.isPasswordVisible))
  {
    field.Toggle();
    field.Toggle();
  }
}
