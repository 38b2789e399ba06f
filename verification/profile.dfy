/** The cached user profile and its text form in storage.

    `Encode` and `Decode` stand in for `JSON.stringify` and `JSON.parse`
    on an `AuthUser`: `Encode` writes the object with its fields in
    declaration order, integers in decimal and strings quoted with `"` and
    `\` escaped; `Decode` reads exactly that layout and fails (the
    counterpart of `JSON.parse` throwing) on anything else. */
module Profile {
  import opened Js

  /** The profile the authentication service returns with a login. */
  datatype AuthUser = AuthUser(
    id: int,
    username: string,
    email: string,
    first_name: string,
    last_name: string,
    role_id: int,
    is_verified: int,
    must_change_password: int)

  /** A value read from the front of a text, and the text after it. */
  datatype Parsed<+T> = Parsed(value: T, rest: string)

  // ---------------------------------------------------------------------
  // Integers in decimal

  predicate IsDigit(c: char) {
    '0' <= c <= '9'
  }

  predicate AllDigits(s: string) {
    forall i :: 0 <= i < |s| ==> IsDigit(s[i])
  }

  /** The decimal digits of `n`, most significant first, without leading zeros. */
  function NatText(n: nat): (s: string)
    ensures |s| > 0 && AllDigits(s)
  {
    var last := [('0' as int + n % 10) as char];
    if n < 10 then last else NatText(n / 10) + last
  }

  /** The decimal text of an integer, as JavaScript prints an integral number. */
  function IntText(n: int): (s: string)
    ensures |s| > 0
  {
    if n < 0 then "-" + NatText(-n) else NatText(n)
  }

  /** The number a string of decimal digits denotes. */
  function DigitsValue(s: string): nat
    requires AllDigits(s)
  {
    if s == [] then 0 else DigitsValue(s[..|s| - 1]) * 10 + (s[|s| - 1] as int - '0' as int)
  }

  lemma {:induction false} DigitsValueOfNatText(n: nat)
    ensures DigitsValue(NatText(n)) == n
  {
    var s := NatText(n);
    if n >= 10 {
      assert s[..|s| - 1] == NatText(n / 10);
      DigitsValueOfNatText(n / 10);
    }
  }

  /** The length of the run of digits at the front of `s`. */
  function DigitRun(s: string): (k: nat)
    ensures k <= |s| && AllDigits(s[..k])
    ensures k < |s| ==> !IsDigit(s[k])
  {
    if s == [] || !IsDigit(s[0]) then 0
    else
      var k := 1 + DigitRun(s[1..]);
      assert s[..k] == [s[0]] + s[1..][..k - 1];
      k
  }

  function ParseNat(s: string): Option<Parsed<nat>> {
    var k := DigitRun(s);
    if k == 0 then None else Some(Parsed(DigitsValue(s[..k]), s[k..]))
  }

  function ParseInt(s: string): Option<Parsed<int>> {
    if |s| > 0 && s[0] == '-' then
      var p :- ParseNat(s[1..]);
      var v: int := 0 - p.value as int;
      Some(Parsed(v, p.rest))
    else
      ParseNat(s)
  }

  lemma {:induction false} DigitRunOf(digits: string, tail: string)
    requires AllDigits(digits)
    requires tail == [] || !IsDigit(tail[0])
    ensures DigitRun(digits + tail) == |digits|
  {
    if digits == [] {
      assert digits + tail == tail;
    } else {
      assert (digits + tail)[1..] == digits[1..] + tail;
      DigitRunOf(digits[1..], tail);
    }
  }

  lemma ParseNatText(n: nat, tail: string)
    requires tail == [] || !IsDigit(tail[0])
    ensures ParseNat(NatText(n) + tail) == Some(Parsed(n, tail))
  {
    var d := NatText(n);
    DigitRunOf(d, tail);
    assert (d + tail)[..|d|] == d;
    assert (d + tail)[|d|..] == tail;
    DigitsValueOfNatText(n);
  }

  /** An integer written by `IntText` reads back as itself, whatever follows
      it, provided the next character is not a digit. */
  lemma ParseIntText(n: int, tail: string)
    requires tail == [] || !IsDigit(tail[0])
    ensures ParseInt(IntText(n) + tail) == Some(Parsed(n, tail))
  {
    if n < 0 {
      var s := IntText(n) + tail;
      assert s == "-" + (NatText(-n) + tail);
      assert s[1..] == NatText(-n) + tail;
      ParseNatText(-n, tail);
    } else {
      ParseNatText(n, tail);
      assert (NatText(n) + tail)[0] == NatText(n)[0];
    }
  }

  // ---------------------------------------------------------------------
  // Quoted strings

  function EscapeChar(c: char): string {
    if c == '"' || c == '\\' then ['\\', c] else [c]
  }

  /** The body of a quoted string: `"` and `\` are preceded by `\`. */
  function Escape(s: string): string {
    if s == [] then [] else EscapeChar(s[0]) + Escape(s[1..])
  }

  /** Reads a string body up to its closing quote and returns the
      unescaped contents and the text after the quote. */
  function Unescape(s: string): Option<Parsed<string>>
    decreases |s|
  {
    if s == [] then None
    else if s[0] == '"' then Some(Parsed([], s[1..]))
    else if s[0] == '\\' then
      if |s| >= 2 && (s[1] == '"' || s[1] == '\\') then
        var p :- Unescape(s[2..]);
        Some(Parsed([s[1]] + p.value, p.rest))
      else None
    else
      var p :- Unescape(s[1..]);
      Some(Parsed([s[0]] + p.value, p.rest))
  }

  lemma {:induction false} UnescapeEscape(s: string, tail: string)
    ensures Unescape(Escape(s) + ("\"" + tail)) == Some(Parsed(s, tail))
  {
    var t := "\"" + tail;
    if s == [] {
      assert Escape(s) + t == t;
      assert t[1..] == tail;
    } else {
      var e := EscapeChar(s[0]);
      assert Escape(s) + t == e + (Escape(s[1..]) + t);
      UnescapeEscape(s[1..], tail);
      assert (e + (Escape(s[1..]) + t))[|e|..] == Escape(s[1..]) + t;
      assert [s[0]] + s[1..] == s;
    }
  }

  // ---------------------------------------------------------------------
  // The profile object

  /** `lit` at the front of `s`: the text after it, or failure. */
  function Literal(lit: string, s: string): Option<string> {
    if lit <= s then Some(s[|lit|..]) else None
  }

  lemma LiteralOf(lit: string, tail: string)
    ensures Literal(lit, lit + tail) == Some(tail)
  {
    assert lit <= lit + tail;
    assert (lit + tail)[|lit|..] == tail;
  }

  /** The stored text of a profile (`JSON.stringify(user)`). */
  function Encode(u: AuthUser): string {
    "{\"id\":" + (IntText(u.id) +
    (",\"username\":\"" + (Escape(u.username) + ("\"" +
    (",\"email\":\"" + (Escape(u.email) + ("\"" +
    (",\"first_name\":\"" + (Escape(u.first_name) + ("\"" +
    (",\"last_name\":\"" + (Escape(u.last_name) + ("\"" +
    (",\"role_id\":" + (IntText(u.role_id) +
    (",\"is_verified\":" + (IntText(u.is_verified) +
    (",\"must_change_password\":" + (IntText(u.must_change_password) +
    "}")))))))))))))))))))
  }

  /** Reads a stored profile back (`JSON.parse(text)`); `None` where the
      parse would throw. */
  function Decode(s: string): Option<AuthUser> {
    var s1 :- Literal("{\"id\":", s);
    var id :- ParseInt(s1);
    var s2 :- Literal(",\"username\":\"", id.rest);
    var username :- Unescape(s2);
    var s3 :- Literal(",\"email\":\"", username.rest);
    var email :- Unescape(s3);
    var s4 :- Literal(",\"first_name\":\"", email.rest);
    var firstName :- Unescape(s4);
    var s5 :- Literal(",\"last_name\":\"", firstName.rest);
    var lastName :- Unescape(s5);
    var s6 :- Literal(",\"role_id\":", lastName.rest);
    var roleId :- ParseInt(s6);
    var s7 :- Literal(",\"is_verified\":", roleId.rest);
    var isVerified :- ParseInt(s7);
    var s8 :- Literal(",\"must_change_password\":", isVerified.rest);
    var mustChange :- ParseInt(s8);
    var s9 :- Literal("}", mustChange.rest);
    if s9 == [] then
      Some(AuthUser(id.value, username.value, email.value, firstName.value, lastName.value,
                    roleId.value, isVerified.value, mustChange.value))
    else None
  }

  /** Reading back a stored profile yields the profile that was stored,
      and its text is never empty (so storage treats it as present). */
  lemma DecodeEncode(u: AuthUser)
    ensures Encode(u) != ""
    ensures Decode(Encode(u)) == Some(u)
  {
    var t9 := "}";
    var t8 := IntText(u.must_change_password) + t9;
    var l8 := ",\"must_change_password\":" + t8;
    var t7 := IntText(u.is_verified) + l8;
    var l7 := ",\"is_verified\":" + t7;
    var t6 := IntText(u.role_id) + l7;
    var l6 := ",\"role_id\":" + t6;
    var t5 := Escape(u.last_name) + ("\"" + l6);
    var l5 := ",\"last_name\":\"" + t5;
    var t4 := Escape(u.first_name) + ("\"" + l5);
    var l4 := ",\"first_name\":\"" + t4;
    var t3 := Escape(u.email) + ("\"" + l4);
    var l3 := ",\"email\":\"" + t3;
    var t2 := Escape(u.username) + ("\"" + l3);
    var l2 := ",\"username\":\"" + t2;
    var t1 := IntText(u.id) + l2;
    assert Encode(u) == "{\"id\":" + t1;

    LiteralOf("{\"id\":", t1);
    ParseIntText(u.id, l2);
    LiteralOf(",\"username\":\"", t2);
    UnescapeEscape(u.username, l3);
    LiteralOf(",\"email\":\"", t3);
    UnescapeEscape(u.email, l4);
    LiteralOf(",\"first_name\":\"", t4);
    UnescapeEscape(u.first_name, l5);
    LiteralOf(",\"last_name\":\"", t5);
    UnescapeEscape(u.last_name, l6);
    LiteralOf(",\"role_id\":", t6);
    ParseIntText(u.role_id, l7);
    LiteralOf(",\"is_verified\":", t7);
    ParseIntText(u.is_verified, l8);
    LiteralOf(",\"must_change_password\":", t8);
    ParseIntText(u.must_change_password, t9);
    LiteralOf("}", []);
    assert t9 == "}" + [];
  }
}
