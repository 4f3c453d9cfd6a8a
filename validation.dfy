/**
 * The input validators of src/utils/validation.ts. `validateEmail` is one
 * regular-expression test and is a function here; the other three build an
 * ordered list of error messages by pushing onto a local array, one rule
 * after another, and are methods that do the same.
 */
module Validation {
  import opened Types
  import opened Text

  const PasswordTooShort := "Password must be at least 6 characters long"
  const PasswordNeedsUppercase := "Password must contain at least one uppercase letter"
  const PasswordNeedsLowercase := "Password must contain at least one lowercase letter"
  const PasswordNeedsDigit := "Password must contain at least one number"

  const UsernameTooShort := "Username must be at least 3 characters long"
  const UsernameTooLong := "Username must be less than 20 characters long"
  const UsernameBadCharacters := "Username can only contain letters, numbers, and underscores"

  const MessageEmpty := "Message cannot be empty"
  const MessageTooLong := "Message must be less than 1000 characters long"

  const MaxMessageLength := 1000

  /** One rule of a validator: whether the input fails it, and the message pushed when it does. */
  datatype Check = Check(fails: bool, message: string)

  /** The messages of the failing checks, in the order in which the checks run. */
  function FailedMessages(checks: seq<Check>): (errors: seq<string>)
    ensures |errors| <= |checks|
  {
    if checks == [] then [] else Pushed(checks[0]) + FailedMessages(checks[1..])
  }

  /** What `errors.push(c.message)` under the test `c.fails` adds. */
  function Pushed(c: Check): seq<string> {
    if c.fails then [c.message] else []
  }

  /** No message is reported exactly when every check passes. */
  lemma {:induction false} FailedMessagesEmpty(checks: seq<Check>)
    ensures FailedMessages(checks) == [] <==> forall k :: 0 <= k < |checks| ==> !checks[k].fails
  {
    if checks != [] {
      FailedMessagesEmpty(checks[1..]);
      assert forall k :: 1 <= k < |checks| ==> checks[k] == checks[1..][k - 1];
    }
  }

  /** Running one more check after the others adds its message, if it fails, at the end. */
  lemma {:induction false} FailedMessagesSnoc(checks: seq<Check>, c: Check)
    ensures FailedMessages(checks + [c]) == FailedMessages(checks) + Pushed(c)
  {
    if checks == [] {
      assert [c][1..] == [];
      assert checks + [c] == [c];
    } else {
      var rest := checks[1..];
      assert (checks + [c])[1..] == rest + [c];
      FailedMessagesSnoc(rest, c);
      calc {
        FailedMessages(checks + [c]);
        Pushed(checks[0]) + FailedMessages(rest + [c]);
        Pushed(checks[0]) + (FailedMessages(rest) + Pushed(c));
        (Pushed(checks[0]) + FailedMessages(rest)) + Pushed(c);
      }
    }
  }

  /** The messages pushed by the two checks of a validator, spelled out. */
  lemma FailedMessagesOfTwo(checks: seq<Check>)
    requires |checks| == 2
    ensures FailedMessages(checks) == Pushed(checks[0]) + Pushed(checks[1])
  {
    var rest := checks[1..];
    assert rest[1..] == [];
    assert FailedMessages(rest) == Pushed(checks[1]) + [];
  }

  /** The messages pushed by the three checks of a validator, spelled out. */
  lemma FailedMessagesOfThree(checks: seq<Check>)
    requires |checks| == 3
    ensures FailedMessages(checks) == Pushed(checks[0]) + Pushed(checks[1]) + Pushed(checks[2])
  {
    FailedMessagesOfTwo(checks[1..]);
    assert FailedMessages(checks) == Pushed(checks[0]) + (Pushed(checks[1]) + Pushed(checks[2]));
  }

  /** The messages pushed by the four checks of a validator, spelled out. */
  lemma FailedMessagesOfFour(checks: seq<Check>)
    requires |checks| == 4
    ensures FailedMessages(checks) == Pushed(checks[0]) + Pushed(checks[1]) + Pushed(checks[2]) + Pushed(checks[3])
  {
    FailedMessagesOfThree(checks[1..]);
    assert FailedMessages(checks) == Pushed(checks[0]) + (Pushed(checks[1]) + Pushed(checks[2]) + Pushed(checks[3]));
  }

  /** A message is reported exactly when some check carrying it fails. */
  lemma {:induction false} FailedMessagesMember(checks: seq<Check>, e: string)
    ensures e in FailedMessages(checks) <==> exists k :: 0 <= k < |checks| && checks[k].fails && checks[k].message == e
  {
    if checks != [] {
      FailedMessagesMember(checks[1..], e);
      if e in FailedMessages(checks[1..]) {
        var k :| 0 <= k < |checks[1..]| && checks[1..][k].fails && checks[1..][k].message == e;
        assert checks[k + 1] == checks[1..][k];
      }
      if exists k :: 0 <= k < |checks| && checks[k].fails && checks[k].message == e {
        var k :| 0 <= k < |checks| && checks[k].fails && checks[k].message == e;
        if k > 0 {
          assert checks[1..][k - 1] == checks[k];
        }
      }
    }
  }

  /** The first reported message is the message of the first failing check. */
  lemma {:induction false} FailedMessagesFirst(checks: seq<Check>, k: nat)
    requires k < |checks| && checks[k].fails
    requires forall j :: 0 <= j < k ==> !checks[j].fails
    ensures FailedMessages(checks) != [] && FailedMessages(checks)[0] == checks[k].message
  {
    if k > 0 {
      FailedMessagesFirst(checks[1..], k - 1);
    }
  }

  // ---------------------------------------------------------------- email

  /** `[^\s@]+`: a non-empty run of characters that are neither white space nor '@'. */
  predicate IsEmailAtom(t: string) {
    |t| > 0 && forall k :: 0 <= k < |t| ==> !IsWhitespace(t[k]) && t[k] != '@'
  }

  /**
   * `/^[^\s@]+@[^\s@]+\.[^\s@]+$/.test(email)`: the email splits as
   * atom '@' atom '.' atom.
   */
  predicate ValidateEmail(email: string) {
    exists i, j | 0 <= i < j < |email| ::
      && email[i] == '@' && email[j] == '.'
      && IsEmailAtom(email[..i]) && IsEmailAtom(email[i + 1..j]) && IsEmailAtom(email[j + 1..])
  }

  /** The accepted addresses described without the regular expression. */
  ghost predicate IsEmailShape(email: string) {
    && (forall k :: 0 <= k < |email| ==> !IsWhitespace(email[k]))
    && exists i :: (
      && 0 <= i < |email| && email[i] == '@'
      && (forall k :: 0 <= k < |email| && email[k] == '@' ==> k == i)
      && i > 0
      && (exists j :: i + 1 < j < |email| - 1 && email[j] == '.'))
  }

  /** An address validateEmail accepts has the shape: the '@' it splits at is the only one. */
  lemma {:induction false} ValidateEmailHasShape(email: string)
    requires ValidateEmail(email)
    ensures IsEmailShape(email)
  {
    var i, j :| 0 <= i < j < |email| && email[i] == '@' && email[j] == '.'
      && IsEmailAtom(email[..i]) && IsEmailAtom(email[i + 1..j]) && IsEmailAtom(email[j + 1..]);
    forall k | 0 <= k < |email|
      ensures !IsWhitespace(email[k]) && (email[k] == '@' ==> k == i)
    {
      if k < i {
        assert email[k] == email[..i][k];
      } else if i < k < j {
        assert email[k] == email[i + 1..j][k - i - 1];
      } else if k > j {
        assert email[k] == email[j + 1..][k - j - 1];
      }
    }
    assert i + 1 < j < |email| - 1;
  }

  /** An address of that shape splits into the three atoms validateEmail looks for. */
  lemma {:induction false} ShapeIsValidEmail(email: string)
    requires IsEmailShape(email)
    ensures ValidateEmail(email)
  {
    var i :| 0 <= i < |email| && email[i] == '@'
      && (forall k :: 0 <= k < |email| && email[k] == '@' ==> k == i)
      && i > 0
      && (exists j :: i + 1 < j < |email| - 1 && email[j] == '.');
    var j :| i + 1 < j < |email| - 1 && email[j] == '.';
    assert IsEmailAtom(email[..i]);
    assert IsEmailAtom(email[i + 1..j]);
    assert IsEmailAtom(email[j + 1..]);
  }

  /**
   * validateEmail accepts exactly the strings that have no white space and
   * exactly one '@', with a non-empty part before it and, after it, a '.'
   * that is neither the first nor the last character of the domain.
   */
  lemma ValidateEmailIffShape(email: string)
    ensures ValidateEmail(email) <==> IsEmailShape(email)
  {
    if ValidateEmail(email) {
      ValidateEmailHasShape(email);
    }
    if IsEmailShape(email) {
      ShapeIsValidEmail(email);
    }
  }

  /** validateEmail rejects the empty string (the login and register forms test emptiness first). */
  lemma EmptyEmailRejected()
    ensures !ValidateEmail("")
  {
  }

  // ---------------------------------------------------------------- password

  /** `/[A-Z]/.test(s)` */
  predicate HasUppercase(s: string) {
    exists k | 0 <= k < |s| :: 'A' <= s[k] <= 'Z'
  }

  /** `/[a-z]/.test(s)` */
  predicate HasLowercase(s: string) {
    exists k | 0 <= k < |s| :: 'a' <= s[k] <= 'z'
  }

  /** `/\d/.test(s)`; `\d` is the ASCII digits only. */
  predicate HasDigit(s: string) {
    exists k | 0 <= k < |s| :: '0' <= s[k] <= '9'
  }

  /** The passwords validatePassword accepts. */
  predicate IsStrongPassword(password: string) {
    |password| >= 6 && HasUppercase(password) && HasLowercase(password) && HasDigit(password)
  }

  /** The rules of validatePassword, in the order it checks them. */
  function PasswordChecks(password: string): seq<Check> {
    [ Check(|password| < 6, PasswordTooShort),
      Check(!HasUppercase(password), PasswordNeedsUppercase),
      Check(!HasLowercase(password), PasswordNeedsLowercase),
      Check(!HasDigit(password), PasswordNeedsDigit) ]
  }

  /** The message validatePassword reports first for a password it rejects. */
  function FirstPasswordError(password: string): (e: string)
    requires !IsStrongPassword(password)
    ensures FailedMessages(PasswordChecks(password)) != []
    ensures e == FailedMessages(PasswordChecks(password))[0]
    ensures |password| < 6 ==> e == PasswordTooShort
  {
    FailedMessagesOfFour(PasswordChecks(password));
    FailedMessages(PasswordChecks(password))[0]
  }

  /**
   * What the errors of validatePassword mean: each rule's message is there
   * exactly when the rule fails, there are none exactly for a strong
   * password, and a short password always gets the length message first.
   */
  lemma PasswordErrorsMeaning(password: string)
    ensures var errors := FailedMessages(PasswordChecks(password));
      && (errors == [] <==> IsStrongPassword(password))
      && (PasswordTooShort in errors <==> |password| < 6)
      && (PasswordNeedsUppercase in errors <==> !HasUppercase(password))
      && (PasswordNeedsLowercase in errors <==> !HasLowercase(password))
      && (PasswordNeedsDigit in errors <==> !HasDigit(password))
      && (|password| < 6 ==> errors[0] == PasswordTooShort)
      && |errors| <= 4
  {
    FailedMessagesOfFour(PasswordChecks(password));
  }

  /**
   * validatePassword: the errors are the messages of the failed rules in the
   * order length, uppercase, lowercase, digit (what they mean is
   * `PasswordErrorsMeaning`), and the result is valid exactly when there
   * are none, that is for a strong password.
   */
  method ValidatePassword(password: string) returns (r: ValidationResult)
    ensures r.errors == FailedMessages(PasswordChecks(password))
    ensures r.isValid <==> r.errors == []
    ensures r.isValid <==> IsStrongPassword(password)
  {
    ghost var checks := PasswordChecks(password);
    var errors: seq<string> := [];
    if |password| < 6 {
      errors := errors + [PasswordTooShort];
    }
    assert errors == Pushed(checks[0]);
    if !HasUppercase(password) {
      errors := errors + [PasswordNeedsUppercase];
    }
    assert errors == Pushed(checks[0]) + Pushed(checks[1]);
    if !HasLowercase(password) {
      errors := errors + [PasswordNeedsLowercase];
    }
    assert errors == Pushed(checks[0]) + Pushed(checks[1]) + Pushed(checks[2]);
    if !HasDigit(password) {
      errors := errors + [PasswordNeedsDigit];
    }
    r := ValidationResult(|errors| == 0, errors);
    FailedMessagesOfFour(checks);
    PasswordErrorsMeaning(password);
  }

  // ---------------------------------------------------------------- username

  /** `/^[a-zA-Z0-9_]+$/.test(s)` */
  predicate IsUsernameCharset(s: string) {
    |s| > 0 && forall k :: 0 <= k < |s| ==>
      ('a' <= s[k] <= 'z') || ('A' <= s[k] <= 'Z') || ('0' <= s[k] <= '9') || s[k] == '_'
  }

  /** The rules of validateUsername, in the order it checks them. */
  function UsernameChecks(username: string): seq<Check> {
    [ Check(|username| < 3, UsernameTooShort),
      Check(|username| > 20, UsernameTooLong),
      Check(!IsUsernameCharset(username), UsernameBadCharacters) ]
  }

  /**
   * validateUsername: the length must lie in [3, 20] (20 itself is accepted,
   * although the message says "less than 20") and the characters must be
   * letters, digits or '_'. The two length messages never occur together,
   * and the empty string gets the short-length and the charset message.
   */
  method ValidateUsername(username: string) returns (r: ValidationResult)
    ensures r.errors == FailedMessages(UsernameChecks(username))
    ensures r.isValid <==> r.errors == []
    ensures r.isValid <==> 3 <= |username| <= 20 && IsUsernameCharset(username)
    ensures UsernameTooShort in r.errors <==> |username| < 3
    ensures UsernameTooLong in r.errors <==> |username| > 20
    ensures UsernameBadCharacters in r.errors <==> !IsUsernameCharset(username)
    ensures !(UsernameTooShort in r.errors && UsernameTooLong in r.errors)
    ensures username == "" ==> r.errors == [UsernameTooShort, UsernameBadCharacters]
  {
    var errors: seq<string> := [];
    if |username| < 3 {
      errors := errors + [UsernameTooShort];
    }
    if |username| > 20 {
      errors := errors + [UsernameTooLong];
    }
    if !IsUsernameCharset(username) {
      errors := errors + [UsernameBadCharacters];
    }
    r := ValidationResult(|errors| == 0, errors);
    ghost var checks := UsernameChecks(username);
    FailedMessagesOfThree(checks);
  }

  // ---------------------------------------------------------------- message

  /** The rules of validateMessage, in the order it checks them. */
  function MessageChecks(message: string): seq<Check> {
    [ Check(Trim(message) == "", MessageEmpty),
      Check(|message| > MaxMessageLength, MessageTooLong) ]
  }

  /**
   * validateMessage: content is rejected when it is white space only and
   * when it is longer than 1000 characters (exactly 1000 is accepted); a
   * blank message over the limit gets both messages, the empty one first.
   */
  method ValidateMessage(message: string) returns (r: ValidationResult)
    ensures r.errors == FailedMessages(MessageChecks(message))
    ensures r.isValid <==> r.errors == []
    ensures r.isValid <==> !IsBlank(message) && |message| <= MaxMessageLength
    ensures MessageEmpty in r.errors <==> IsBlank(message)
    ensures MessageTooLong in r.errors <==> |message| > MaxMessageLength
    ensures IsBlank(message) && |message| > MaxMessageLength ==> r.errors == [MessageEmpty, MessageTooLong]
    ensures !r.isValid ==> r.errors[0] == if IsBlank(message) then MessageEmpty else MessageTooLong
  {
    var errors: seq<string> := [];
    if Trim(message) == "" {
      errors := errors + [MessageEmpty];
    }
    if |message| > MaxMessageLength {
      errors := errors + [MessageTooLong];
    }
    r := ValidationResult(|errors| == 0, errors);
    ghost var checks := MessageChecks(message);
    FailedMessagesOfTwo(checks);
    TrimEmptyIffBlank(message);
  }
}
