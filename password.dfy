/** The password strength rules of `is_password_strong` (src/auth/password.rs). The Argon2
    `hash_password` and `verify_password` are foreign and appear only as parameters of the
    authentication services. */
module Password {
  import opened Types
  import opened Errors

  /** Shortest accepted password, in bytes. */
  const MinLength: nat := 12

  const TooShort := "Password is too short"
  const NoLowercase := "Password must contain at least one lowercase letter"
  const NoUppercase := "Password must contain at least one uppercase letter"
  const NoDigit := "Password must contain at least one digit"
  const NoSpecial := "Password must contain at least one special character"

  predicate IsAscii(c: char) { c as int < 0x80 }

  predicate IsAsciiDigit(c: char) { '0' <= c <= '9' }

  /** The Unicode classes the checks consult: `char::is_lowercase`, `char::is_uppercase` and the
      word class `\w` of the `regex` crate. Their tables are not reproduced; see AgreesOnAscii. */
  datatype CharClasses = CharClasses(isLowercase: char -> bool, isUppercase: char -> bool, isWord: char -> bool)

  /** What the three Unicode classes are on the ASCII range. */
  ghost predicate AgreesOnAscii(k: CharClasses) {
    forall c: char ::
      IsAscii(c) ==>
        && (k.isLowercase(c) <==> 'a' <= c <= 'z')
        && (k.isUppercase(c) <==> 'A' <= c <= 'Z')
        && (k.isWord(c) <==> 'a' <= c <= 'z' || 'A' <= c <= 'Z' || '0' <= c <= '9' || c == '_')
  }

  /** Number of bytes of the UTF-8 encoding of one Unicode scalar value. */
  function Utf8Width(c: char): (n: nat)
    ensures 1 <= n <= 4
    ensures n == 1 <==> IsAscii(c)
  {
    if c as int < 0x80 then 1 else if c as int < 0x800 then 2 else if c as int < 0x1_0000 then 3 else 4
  }

  /** `str::len`: the length of the UTF-8 encoding, in bytes. */
  function Utf8Len(s: string): nat {
    if s == [] then 0 else Utf8Width(s[0]) + Utf8Len(s[1..])
  }

  /** `s.chars().any(p)`. */
  function Any(s: string, p: char -> bool): (b: bool)
    ensures b <==> exists i :: 0 <= i < |s| && p(s[i])
  {
    if s == [] then false
    else if p(s[0]) then true
    else
      var b := Any(s[1..], p);
      assert forall i :: 1 <= i < |s| ==> s[i] == s[1..][i - 1];
      b
  }

  /** A special character is one the regular expression `\W` matches: any non-word character. */
  predicate IsSpecial(k: CharClasses, c: char) { !k.isWord(c) }

  function Rejection(message: string): ErrorResponse {
    ErrorResponse(BadRequest, ErrorBody(BadRequest, message))
  }

  /** `check_min_length`: `password.len()` counts UTF-8 bytes. */
  function CheckMinLength(password: string, minLength: nat): (r: Result<bool, ErrorResponse>)
    ensures r.Ok? <==> Utf8Len(password) >= minLength
    ensures r.Ok? ==> r.value
    ensures r.Err? ==> r.error.status == BadRequest && r.error.body.message == TooShort
  {
    if Utf8Len(password) >= minLength then Ok(true) else Err(Rejection(TooShort))
  }

  /** `check_lowercase`. */
  function CheckLowercase(k: CharClasses, password: string): (r: Result<bool, ErrorResponse>)
    ensures r.Ok? <==> exists i :: 0 <= i < |password| && k.isLowercase(password[i])
    ensures r.Ok? ==> r.value
    ensures r.Err? ==> r.error.status == BadRequest && r.error.body.message == NoLowercase
  {
    if Any(password, k.isLowercase) then Ok(true) else Err(Rejection(NoLowercase))
  }

  /** `check_uppercase`. */
  function CheckUppercase(k: CharClasses, password: string): (r: Result<bool, ErrorResponse>)
    ensures r.Ok? <==> exists i :: 0 <= i < |password| && k.isUppercase(password[i])
    ensures r.Ok? ==> r.value
    ensures r.Err? ==> r.error.status == BadRequest && r.error.body.message == NoUppercase
  {
    if Any(password, k.isUppercase) then Ok(true) else Err(Rejection(NoUppercase))
  }

  /** `check_digit`: `is_digit(10)` accepts only '0'..'9'. */
  function CheckDigit(password: string): (r: Result<bool, ErrorResponse>)
    ensures r.Ok? <==> exists i :: 0 <= i < |password| && '0' <= password[i] <= '9'
    ensures r.Ok? ==> r.value
    ensures r.Err? ==> r.error.status == BadRequest && r.error.body.message == NoDigit
  {
    if Any(password, IsAsciiDigit) then Ok(true) else Err(Rejection(NoDigit))
  }

  /** `check_special_char`: the regex `\W` matches somewhere iff some character is not a word
      character. */
  function CheckSpecialChar(k: CharClasses, password: string): (r: Result<bool, ErrorResponse>)
    ensures r.Ok? <==> exists i :: 0 <= i < |password| && !k.isWord(password[i])
    ensures r.Ok? ==> r.value
    ensures r.Err? ==> r.error.status == BadRequest && r.error.body.message == NoSpecial
  {
    if Any(password, c => IsSpecial(k, c)) then Ok(true) else Err(Rejection(NoSpecial))
  }

  /** The declarative meaning of a strong password. */
  ghost predicate Strong(k: CharClasses, p: string) {
    && Utf8Len(p) >= MinLength
    && (exists i :: 0 <= i < |p| && k.isLowercase(p[i]))
    && (exists i :: 0 <= i < |p| && k.isUppercase(p[i]))
    && (exists i :: 0 <= i < |p| && IsAsciiDigit(p[i]))
    && (exists i :: 0 <= i < |p| && !k.isWord(p[i]))
  }

  /** `is_password_strong`: the five checks in their fixed order; the first one that fails gives
      the error. */
  function IsPasswordStrong(k: CharClasses, password: string): (r: Result<bool, ErrorResponse>)
    ensures r.Ok? <==> Strong(k, password)
    ensures r.Ok? ==> r.value
    ensures r.Err? ==> r.error.status == BadRequest && r.error.body.code == 400
    ensures Utf8Len(password) < MinLength ==> r == Err(Rejection(TooShort))
    ensures Utf8Len(password) >= MinLength && (forall i :: 0 <= i < |password| ==> !k.isLowercase(password[i]))
      ==> r == Err(Rejection(NoLowercase))
    ensures Utf8Len(password) >= MinLength && (exists i :: 0 <= i < |password| && k.isLowercase(password[i]))
            && (forall i :: 0 <= i < |password| ==> !k.isUppercase(password[i]))
      ==> r == Err(Rejection(NoUppercase))
    ensures Utf8Len(password) >= MinLength && (exists i :: 0 <= i < |password| && k.isLowercase(password[i]))
            && (exists i :: 0 <= i < |password| && k.isUppercase(password[i]))
            && (forall i :: 0 <= i < |password| ==> !IsAsciiDigit(password[i]))
      ==> r == Err(Rejection(NoDigit))
    ensures Utf8Len(password) >= MinLength && (exists i :: 0 <= i < |password| && k.isLowercase(password[i]))
            && (exists i :: 0 <= i < |password| && k.isUppercase(password[i]))
            && (exists i :: 0 <= i < |password| && IsAsciiDigit(password[i]))
            && (forall i :: 0 <= i < |password| ==> k.isWord(password[i]))
      ==> r == Err(Rejection(NoSpecial))
  {
    if CheckMinLength(password, MinLength).Err? then CheckMinLength(password, MinLength)
    else if CheckLowercase(k, password).Err? then CheckLowercase(k, password)
    else if CheckUppercase(k, password).Err? then CheckUppercase(k, password)
    else if CheckDigit(password).Err? then CheckDigit(password)
    else if CheckSpecialChar(k, password).Err? then CheckSpecialChar(k, password)
    else Ok(true)
  }

  /** The length rule counts bytes, not characters: never fewer bytes than characters, and as
      many exactly when the password is pure ASCII. */
  lemma {:induction false} Utf8LenBounds(s: string)
    ensures |s| <= Utf8Len(s) <= 4 * |s|
    ensures Utf8Len(s) == |s| <==> forall i :: 0 <= i < |s| ==> IsAscii(s[i])
  {
    if s != [] {
      Utf8LenBounds(s[1..]);
      assert forall i :: 1 <= i < |s| ==> s[i] == s[1..][i - 1];
      if Utf8Len(s) == |s| {
        forall i | 0 <= i < |s| ensures IsAscii(s[i]) {
          if i > 0 { assert s[i] == s[1..][i - 1]; }
        }
      }
    }
  }

  /** Six copies of 'é' (two bytes each) pass the length check although they are six characters. */
  lemma ShortMultibytePasswordIsLongEnough()
    ensures CheckMinLength("\U{e9}\U{e9}\U{e9}\U{e9}\U{e9}\U{e9}", MinLength) == Ok(true)
  {
    var p := "\U{e9}\U{e9}\U{e9}\U{e9}\U{e9}\U{e9}";
    assert p[1..][1..][1..][1..][1..][1..] == [];
  }

  /** The underscore is a word character, so it never satisfies the special-character rule;
      the space is not, so it does. Only '0'..'9' count as digits. */
  lemma SpecialCharacterClass(k: CharClasses)
    requires AgreesOnAscii(k)
    ensures !IsSpecial(k, '_')
    ensures IsSpecial(k, ' ')
    ensures forall c :: IsAsciiDigit(c) ==> !IsSpecial(k, c)
  {
    assert IsAscii('_') && IsAscii(' ');
    assert k.isWord('_');
    assert !k.isWord(' ');
  }

  /** The strength rule on ASCII passwords, stated without the abstract classes. */
  lemma {:induction false} StrongAscii(k: CharClasses, p: string)
    requires AgreesOnAscii(k)
    requires forall i :: 0 <= i < |p| ==> IsAscii(p[i])
    ensures Strong(k, p) <==>
      && |p| >= MinLength
      && (exists i :: 0 <= i < |p| && 'a' <= p[i] <= 'z')
      && (exists i :: 0 <= i < |p| && 'A' <= p[i] <= 'Z')
      && (exists i :: 0 <= i < |p| && '0' <= p[i] <= '9')
      && (exists i :: 0 <= i < |p| && !('a' <= p[i] <= 'z' || 'A' <= p[i] <= 'Z' || '0' <= p[i] <= '9' || p[i] == '_'))
  {
    Utf8LenBounds(p);
    assert forall i :: 0 <= i < |p| ==> (k.isLowercase(p[i]) <==> 'a' <= p[i] <= 'z');
    assert forall i :: 0 <= i < |p| ==> (k.isUppercase(p[i]) <==> 'A' <= p[i] <= 'Z');
    assert forall i :: 0 <= i < |p| ==> (k.isWord(p[i]) <==> 'a' <= p[i] <= 'z' || 'A' <= p[i] <= 'Z' || '0' <= p[i] <= '9' || p[i] == '_');
  }
}
