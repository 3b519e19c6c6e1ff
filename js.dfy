// JavaScript string semantics the client relies on.
//
// A JavaScript string is a sequence of UTF-16 code units and `.length` counts
// code units; here a string is a `seq<char>` and every `char` stands for one
// code unit (characters outside the Basic Multilingual Plane are not modelled).
module Js {

  /** A JavaScript value that is a `T` or `null` (`None` is `null`). */
  datatype Option<+T> = None | Some(value: T)

  /** JavaScript truthiness of a string: only the empty string is falsy. */
  predicate Truthy(s: string) {
    s != ""
  }

  /** Truthiness of a value that is a string or `null` (`Boolean(x)`). */
  predicate TruthyOrNull(v: Option<string>) {
    v.Some? && Truthy(v.value)
  }

  /** String conversion of a string-or-null, as done by `localStorage.setItem`
      and by template literals: `null` becomes the four characters "null". */
  function ToJsString(v: Option<string>): string {
    match v
    case None => "null"
    case Some(s) => s
  }

  /** ECMA-262 WhiteSpace and LineTerminator code points: the set matched by
      the regular-expression class `\s` and removed by `String.prototype.trim`.
      WhiteSpace is TAB, VT, FF, ZWNBSP and the Space_Separator (Zs) category;
      LineTerminator is LF, CR, LS and PS. */
  predicate IsWs(c: char) {
    var n := c as int;
    || n == 0x09 || n == 0x0B || n == 0x0C || n == 0xFEFF           // TAB, VT, FF, ZWNBSP
    || n == 0x20 || n == 0xA0 || n == 0x1680 || (0x2000 <= n <= 0x200A)
    || n == 0x202F || n == 0x205F || n == 0x3000                    // Zs
    || n == 0x0A || n == 0x0D || n == 0x2028 || n == 0x2029         // LineTerminator
  }

  /** No character of `s` is whitespace. */
  predicate NoWs(s: string) {
    forall i :: 0 <= i < |s| ==> !IsWs(s[i])
  }

  /** Every character of `s` is whitespace (vacuously true of ""). */
  predicate IsBlank(s: string) {
    forall i :: 0 <= i < |s| ==> IsWs(s[i])
  }

  /** Removes leading whitespace. */
  function TrimStart(s: string): (r: string)
    ensures |r| <= |s| && r == s[|s| - |r|..]
    ensures IsBlank(s[..|s| - |r|])
    ensures r != "" ==> !IsWs(r[0])
  {
    if s != "" && IsWs(s[0]) then
      var t := s[1..];
      var r := TrimStart(t);
      assert r == s[|s| - |r|..] by { assert t[|t| - |r|..] == s[|s| - |r|..]; }
      var head := s[..|s| - |r|];
      assert IsBlank(head) by {
        forall i | 0 <= i < |head| ensures IsWs(head[i]) {
          if i > 0 { assert head[i] == t[..|t| - |r|][i - 1]; }
        }
      }
      r
    else s
  }

  /** Removes trailing whitespace. */
  function TrimEnd(s: string): (r: string)
    ensures |r| <= |s| && r == s[..|r|]
    ensures IsBlank(s[|r|..])
    ensures r != "" ==> !IsWs(r[|r| - 1])
  {
    if s != "" && IsWs(s[|s| - 1]) then
      var t := s[..|s| - 1];
      var r := TrimEnd(t);
      assert r == s[..|r|] by { assert t[..|r|] == s[..|r|]; }
      var tail := s[|r|..];
      assert IsBlank(tail) by {
        forall i | 0 <= i < |tail| ensures IsWs(tail[i]) {
          if i < |t| - |r| { assert tail[i] == t[|r|..][i]; }
        }
      }
      r
    else s
  }

  /** `String.prototype.trim`: the string with leading and trailing whitespace
      removed. The result is a slice of `s` with only whitespace before and
      after it, it neither starts nor ends with whitespace, and a string
      without whitespace is returned unchanged. */
  function Trim(s: string): (r: string)
    ensures |r| <= |s|
    ensures exists i :: 0 <= i <= |s| - |r| && r == s[i..i + |r|] && IsBlank(s[..i]) && IsBlank(s[i + |r|..])
    ensures r != "" ==> !IsWs(r[0]) && !IsWs(r[|r| - 1])
    ensures NoWs(s) ==> r == s
  {
    var t := TrimStart(s);
    var r := TrimEnd(t);
    var i := |s| - |t|;
    assert r == s[i..i + |r|] by { assert t[..|r|] == s[i..i + |r|]; }
    assert s[i + |r|..] == t[|r|..];
    r
  }

  /** `!s.trim()` holds exactly when `s` is empty or all whitespace. */
  lemma TrimEmptyIffBlank(s: string)
    ensures Trim(s) == "" <==> IsBlank(s)
  {
    var t := TrimStart(s);
    if Trim(s) == "" {
      assert IsBlank(t[0..]);
      assert t == "";
      assert s == s[..|s| - |t|];
    } else {
      var r := Trim(s);
      assert r[0] == t[0] == s[|s| - |t|];
    }
  }

  /** An ASCII letter or digit: the class `[a-zA-Z0-9]`. */
  predicate IsAsciiAlnum(c: char) {
    ('a' <= c <= 'z') || ('A' <= c <= 'Z') || ('0' <= c <= '9')
  }

  /** `/^([a-zA-Z0-9]+)$/.test(s)`: one or more ASCII letters or digits and
      nothing else. */
  predicate MatchesAlnumWord(s: string) {
    |s| >= 1 && forall i :: 0 <= i < |s| ==> IsAsciiAlnum(s[i])
  }

  /** `/^\S+@\S+$/.test(s)` read off the pattern: `s` splits into a non-empty
      run of non-whitespace, an '@', and a non-empty run of non-whitespace.
      (`\S` also matches '@', so further '@' characters may occur on either side.) */
  ghost predicate EmailPatternSplit(s: string) {
    exists i :: 1 <= i <= |s| - 2 && s[i] == '@' && NoWs(s[..i]) && NoWs(s[i + 1..])
  }

  /** The executable form of the email test used by the registration form:
      no whitespace at all, and an '@' that is neither the first nor the last
      character. This is a shape test, not an address check. */
  predicate MatchesEmail(s: string) {
    NoWs(s) && exists i | 1 <= i <= |s| - 2 :: s[i] == '@'
  }

  /** The executable email test agrees with the pattern read off the regular
      expression, on every string. */
  lemma MatchesEmailIsPattern(s: string)
    ensures MatchesEmail(s) <==> EmailPatternSplit(s)
  {
    if MatchesEmail(s) {
      var i :| 1 <= i <= |s| - 2 && s[i] == '@';
      assert NoWs(s[..i]) by {
        forall j | 0 <= j < i ensures !IsWs(s[..i][j]) { assert s[..i][j] == s[j]; }
      }
      var tail := s[i + 1..];
      assert NoWs(tail) by {
        forall j | 0 <= j < |tail| ensures !IsWs(tail[j]) { assert tail[j] == s[i + 1 + j]; }
      }
    }
    if EmailPatternSplit(s) {
      var i :| 1 <= i <= |s| - 2 && s[i] == '@' && NoWs(s[..i]) && NoWs(s[i + 1..]);
      forall j | 0 <= j < |s| ensures !IsWs(s[j]) {
        if j < i {
          assert s[j] == s[..i][j];
        } else if j > i {
          assert s[j] == s[i + 1..][j - i - 1];
        }
      }
    }
  }
}
