/**
 * The form validators of the front end. Each one returns the empty string
 * when the value is acceptable and otherwise one fixed Russian message; the
 * required check always comes first. The two regular expressions are given
 * twice: as the language the expression denotes (a ghost predicate) and as a
 * direct check, with a lemma that the two agree on every string.
 */
module Validators {
  import opened Text

  const RequiredMessage: string := "Поле обязательно для заполнения"
  const EmailMessage: string := "Некорректный формат email адреса"
  const LoginMessage: string := "Логин должен содержать минимум 3 символа"
  const PasswordLengthMessage: string := "Пароль должен содержать минимум 6 символов"
  const PasswordCompositionMessage: string := "Пароль должен содержать одну заглавную букву и одну цифру"
  const MismatchMessage: string := "Пароли должны совпадать"

  /** `validateRequired`: accepts exactly the values that do not trim to the empty string. */
  function ValidateRequired(value: string): (r: string)
    ensures r == "" <==> !Blank(value)
  {
    if Trim(value) != "" then "" else RequiredMessage
  }

  // ---------------------------------------------------------------------------
  // E-mail: /^[^\s@]+@[^\s@]+\.[^\s@]+$/
  // ---------------------------------------------------------------------------

  /** A character of the class `[^\s@]`. */
  predicate AddressChar(c: char)
  {
    !IsSpace(c) && c != '@'
  }

  /** A non-empty run of `[^\s@]`, that is `[^\s@]+`. */
  predicate AddressWord(w: string)
  {
    |w| >= 1 && forall i :: 0 <= i < |w| ==> AddressChar(w[i])
  }

  /** `s` is `a@b.c` with the three words matched by the three `[^\s@]+`. */
  predicate EmailParts(s: string, a: string, b: string, c: string)
  {
    s == a + "@" + b + "." + c && AddressWord(a) && AddressWord(b) && AddressWord(c)
  }

  /** The language of the e-mail expression: some way to split `s` as the pattern reads it. */
  ghost predicate EmailPattern(s: string)
  {
    exists a, b, c :: EmailParts(s, a, b, c)
  }

  /**
   * The direct check: one `@`, not first, every other character outside
   * `\s` and `@`, and after the `@` a `.` that is neither the first nor the
   * last character of the domain.
   */
  predicate IsEmail(s: string)
  {
    var i := IndexOf(s, '@');
    1 <= i < |s|
    && (forall k :: 0 <= k < |s| && k != i ==> AddressChar(s[k]))
    && exists j :: i + 1 < j < |s| - 1 && s[j] == '.'
  }

  lemma EmailPartsIsEmail(s: string, a: string, b: string, c: string)
    requires EmailParts(s, a, b, c)
    ensures IsEmail(s)
  {
    assert '@' !in a by {
      forall k | 0 <= k < |a| ensures a[k] != '@' {
        assert AddressChar(a[k]);
      }
    }
    IndexAfter(a, '@', b + "." + c);
    assert s == a + ['@'] + (b + "." + c);
    var i := |a|;
    var j := |a| + 1 + |b|;
    assert s[j] == '.';
    forall k | 0 <= k < |s| && k != i ensures AddressChar(s[k]) {
      if k < i {
        assert s[k] == a[k];
      } else if k < j {
        assert s[k] == b[k - i - 1];
      } else if k > j {
        assert s[k] == c[k - j - 1];
      }
    }
  }

  lemma IsEmailParts(s: string)
    requires IsEmail(s)
    ensures EmailPattern(s)
  {
    var i := IndexOf(s, '@');
    var j :| i + 1 < j < |s| - 1 && s[j] == '.';
    var a, b, c := s[..i], s[i + 1..j], s[j + 1..];
    assert s == a + "@" + b + "." + c by {
      assert s == s[..i] + [s[i]] + s[i + 1..j] + [s[j]] + s[j + 1..];
    }
    assert AddressWord(a) by {
      forall k | 0 <= k < |a| ensures AddressChar(a[k]) {
        assert a[k] == s[k];
      }
    }
    assert AddressWord(b) by {
      forall k | 0 <= k < |b| ensures AddressChar(b[k]) {
        assert b[k] == s[i + 1 + k];
      }
    }
    assert AddressWord(c) by {
      forall k | 0 <= k < |c| ensures AddressChar(c[k]) {
        assert c[k] == s[j + 1 + k];
      }
    }
    assert EmailParts(s, a, b, c);
  }

  /** The direct check accepts exactly the language of the expression. */
  lemma EmailPatternIff(s: string)
    ensures EmailPattern(s) <==> IsEmail(s)
  {
    if EmailPattern(s) {
      var a, b, c :| EmailParts(s, a, b, c);
      EmailPartsIsEmail(s, a, b, c);
    }
    if IsEmail(s) {
      IsEmailParts(s);
    }
  }

  /** `validateEmail`: the required message for a blank value, then the format check. */
  function ValidateEmail(value: string): string
  {
    var required := ValidateRequired(value);
    if required != "" then required
    else if IsEmail(value) then ""
    else EmailMessage
  }

  /** `validateEmail` accepts exactly the non-blank strings in the language of the expression. */
  lemma EmailAccepted(value: string)
    ensures ValidateEmail(value) == "" <==> !Blank(value) && EmailPattern(value)
  {
    EmailPatternIff(value);
  }

  /** A string with a space in it is never an address. */
  lemma EmailHasNoSpace(s: string, k: nat)
    requires k < |s| && IsSpace(s[k])
    ensures ValidateEmail(s) != ""
  {
    assert !AddressChar(s[k]);
  }

  /** A second `@` makes the address invalid. */
  lemma EmailSingleAt(s: string, k: nat)
    requires k < |s| && s[k] == '@' && k != IndexOf(s, '@')
    ensures ValidateEmail(s) != ""
  {
    assert !AddressChar(s[k]);
  }

  // ---------------------------------------------------------------------------
  // Login
  // ---------------------------------------------------------------------------

  /** `validateLogin`: required, then at least three UTF-16 code units. */
  function ValidateLogin(value: string): (r: string)
    ensures r == "" <==> !Blank(value) && Utf16Length(value) >= 3
  {
    var required := ValidateRequired(value);
    if required != "" then required
    else if Utf16Length(value) >= 3 then ""
    else LoginMessage
  }

  // ---------------------------------------------------------------------------
  // Password: /^(?=.*[A-Z])(?=.*\d).+$/
  // ---------------------------------------------------------------------------

  predicate IsUpper(c: char)
  {
    'A' <= c <= 'Z'
  }

  /** `.*` matches `s`: `.` is any character but a line terminator. */
  predicate DotStar(s: string)
  {
    forall i :: 0 <= i < |s| ==> !IsLineTerminator(s[i])
  }

  /** The lookahead `(?=.*[A-Z])` read at the start: an uppercase letter reachable by `.*`. */
  ghost predicate LookaheadUpper(s: string)
  {
    exists k :: 0 <= k < |s| && IsUpper(s[k]) && DotStar(s[..k])
  }

  /** The lookahead `(?=.*\d)` read at the start. */
  ghost predicate LookaheadDigit(s: string)
  {
    exists k :: 0 <= k < |s| && IsDigit(s[k]) && DotStar(s[..k])
  }

  /** The language of the password expression: both lookaheads, then `.+` to the end. */
  ghost predicate PasswordPattern(s: string)
  {
    LookaheadUpper(s) && LookaheadDigit(s) && |s| >= 1 && DotStar(s)
  }

  /** The direct check: no line terminator, an ASCII capital somewhere and an ASCII digit somewhere. */
  predicate IsStrongPassword(s: string)
  {
    DotStar(s)
    && (exists k :: 0 <= k < |s| && IsUpper(s[k]))
    && (exists k :: 0 <= k < |s| && IsDigit(s[k]))
  }

  lemma DotStarPrefix(s: string, k: nat)
    requires DotStar(s) && k <= |s|
    ensures DotStar(s[..k])
  {
    forall i | 0 <= i < k ensures !IsLineTerminator(s[..k][i]) {
      assert s[..k][i] == s[i];
    }
  }

  /** The direct check accepts exactly the language of the expression. */
  lemma PasswordPatternIff(s: string)
    ensures PasswordPattern(s) <==> IsStrongPassword(s)
  {
    if IsStrongPassword(s) {
      var u :| 0 <= u < |s| && IsUpper(s[u]);
      var d :| 0 <= d < |s| && IsDigit(s[d]);
      DotStarPrefix(s, u);
      DotStarPrefix(s, d);
    }
  }

  /**
   * `validatePassword`: required, then at least six UTF-16 code units, then
   * the composition expression.
   */
  function ValidatePassword(value: string): string
  {
    var required := ValidateRequired(value);
    if required != "" then required
    else if Utf16Length(value) < 6 then PasswordLengthMessage
    else if !IsStrongPassword(value) then PasswordCompositionMessage
    else ""
  }

  /** `validatePassword` accepts exactly the non-blank strings of six code units or more in the language of the expression. */
  lemma PasswordAccepted(value: string)
    ensures ValidatePassword(value) == "" <==> !Blank(value) && Utf16Length(value) >= 6 && PasswordPattern(value)
  {
    PasswordPatternIff(value);
  }

  // ---------------------------------------------------------------------------
  // Confirmation
  // ---------------------------------------------------------------------------

  /**
   * `validateConfirmPassword`: only the confirmation is required to be
   * non-blank; then it must equal the password exactly.
   */
  function ValidateConfirmPassword(password: string, confirm: string): (r: string)
    ensures r == "" <==> !Blank(confirm) && password == confirm
  {
    var required := ValidateRequired(confirm);
    if required != "" then required
    else if password == confirm then ""
    else MismatchMessage
  }

  // ---------------------------------------------------------------------------
  // The messages
  // ---------------------------------------------------------------------------

  /** A blank value gets the required message from every validator, before any other check. */
  lemma RequiredFirst(value: string, password: string)
    requires Blank(value)
    ensures ValidateRequired(value) == RequiredMessage
    ensures ValidateEmail(value) == RequiredMessage
    ensures ValidateLogin(value) == RequiredMessage
    ensures ValidatePassword(value) == RequiredMessage
    ensures ValidateConfirmPassword(password, value) == RequiredMessage
  {
  }

  /** A non-blank password shorter than six code units gets the length message, whatever its letters. */
  lemma PasswordTooShort(value: string)
    requires !Blank(value) && Utf16Length(value) < 6
    ensures ValidatePassword(value) == PasswordLengthMessage
  {
  }

  /** A long enough password that fails the expression gets the composition message. */
  lemma PasswordTooWeak(value: string)
    requires !Blank(value) && Utf16Length(value) >= 6 && !PasswordPattern(value)
    ensures ValidatePassword(value) == PasswordCompositionMessage
  {
    PasswordPatternIff(value);
  }

  /** Every validator answers with the empty string or one of its own messages. */
  lemma OwnMessages(value: string, password: string)
    ensures ValidateRequired(value) in {"", RequiredMessage}
    ensures ValidateEmail(value) in {"", RequiredMessage, EmailMessage}
    ensures ValidateLogin(value) in {"", RequiredMessage, LoginMessage}
    ensures ValidatePassword(value) in {"", RequiredMessage, PasswordLengthMessage, PasswordCompositionMessage}
    ensures ValidateConfirmPassword(password, value) in {"", RequiredMessage, MismatchMessage}
  {
  }
}
