/**
 * The two client-side input checks of the authentication page: the sign-up
 * password policy and the login e-mail check. Both are total boolean tests
 * on the text the user typed; neither ever throws.
 */
module Validation {

  /** The characters of the bracket class `[!@#$%^&*(),.?":{}|<>]` of the password policy. */
  const SpecialChars: seq<char> := "!@#$%^&*(),.?\":{}|<>"

  /** The characters matched by `\d` in a pattern without the Unicode flag. */
  const Digits: seq<char> := "0123456789"

  /** The minimum password length accepted at sign-up. */
  const MinPasswordLength: nat := 8

  /**
   * A left-to-right search of `s` for any character of `chars`: what a
   * regular expression made of one character class does when it is tested
   * against `s`, and what `includes` does with a one-character needle.
   */
  function ContainsAnyOf(s: seq<char>, chars: seq<char>): (r: bool)
    ensures r <==> exists i :: 0 <= i < |s| && s[i] in chars
  {
    if |s| == 0 then false
    else if s[0] in chars then true
    else
      var rest := ContainsAnyOf(s[1..], chars);
      assert forall i :: 0 < i < |s| ==> s[i] == s[1..][i - 1];
      rest
  }

  /** `\d` matches exactly the ASCII decimal digits. */
  lemma DigitClass(c: char)
    ensures c in Digits <==> '0' <= c <= '9'
  {
    if '0' <= c <= '9' {
      var k := c as int - '0' as int;
      assert Digits[k] == c;
    }
  }

  /** The first clause of the policy: `/\d/.test(password)`. */
  function HasDigit(password: seq<char>): (r: bool)
    ensures r <==> exists i :: 0 <= i < |password| && '0' <= password[i] <= '9'
  {
    var found := ContainsAnyOf(password, Digits);
    assert forall i :: 0 <= i < |password| ==> (password[i] in Digits <==> '0' <= password[i] <= '9') by {
      forall i | 0 <= i < |password| ensures password[i] in Digits <==> '0' <= password[i] <= '9' {
        DigitClass(password[i]);
      }
    }
    found
  }

  /** The second clause of the policy: `/[!@#$%^&*(),.?":{}|<>]/.test(password)`. */
  function HasSpecialChar(password: seq<char>): (r: bool)
    ensures r <==> exists i :: 0 <= i < |password| && password[i] in SpecialChars
  {
    ContainsAnyOf(password, SpecialChars)
  }

  /**
   * The sign-up password policy: the negation of the submit guard, which
   * rejects a password shorter than `MinPasswordLength`, or lacking a digit,
   * or lacking a special character.
   */
  function IsValidPassword(password: seq<char>): (r: bool)
    ensures r <==>
      && |password| >= MinPasswordLength
      && (exists i :: 0 <= i < |password| && '0' <= password[i] <= '9')
      && (exists j :: 0 <= j < |password| && password[j] in SpecialChars)
  {
    |password| >= MinPasswordLength && HasDigit(password) && HasSpecialChar(password)
  }

  /** The login e-mail check: `email.includes('@')`. */
  function HasAtSign(email: seq<char>): (r: bool)
    ensures r <==> '@' in email
  {
    ContainsAnyOf(email, "@")
  }

  /** A password meeting all three clauses is accepted. */
  lemma AcceptsCompliantPassword()
    ensures IsValidPassword("Secret1!")
  {
    assert "Secret1!"[6] == '1' && "Secret1!"[7] == '!';
  }

  /** A password with a digit and a special character is still rejected below eight characters. */
  lemma RejectsShortPassword()
    ensures HasDigit("Sec1!") && HasSpecialChar("Sec1!") && !IsValidPassword("Sec1!")
  {
    assert "Sec1!"[3] == '1' && "Sec1!"[4] == '!';
  }

  /** A long password with a special character is rejected without a digit. */
  lemma RejectsPasswordWithoutDigit()
    ensures |"Secret!!"| >= 8 && HasSpecialChar("Secret!!") && !IsValidPassword("Secret!!")
  {
    var s := "Secret!!";
    assert s[7] == '!';
    forall i | 0 <= i < |s| ensures !('0' <= s[i] <= '9') {
      assert s[i] in "Secret!";
    }
  }

  /** A long password with a digit is rejected without a special character. */
  lemma RejectsPasswordWithoutSpecialChar()
    ensures |"Secret11"| >= 8 && HasDigit("Secret11") && !IsValidPassword("Secret11")
  {
    var s := "Secret11";
    assert s[7] == '1';
    forall i | 0 <= i < |s| ensures s[i] !in SpecialChars {
      assert s[i] in "Secrt1";
    }
  }

  /** The e-mail check is only a search for '@': the bare "@" passes, a dotted address without '@' does not. */
  lemma AtSignIsAllThatIsChecked()
    ensures HasAtSign("@")
    ensures !HasAtSign("user.example.com")
  {
    assert "@"[0] == '@';
  }
}
