/**
 * The string operations the source takes from JavaScript and MongoDB
 * (`trim`, `split`, `join`, `toLowerCase`, `includes`, string ordering),
 * restricted to their ASCII behaviour.
 */
module Strings {
  import opened Wrappers

  /** ASCII whitespace: the part of the `trim` whitespace set this model keeps. */
  predicate IsSpace(c: char) {
    c == ' ' || c == '\t' || c == '\n' || c == '\r' || c == '\U{000B}' || c == '\U{000C}'
  }

  /** True when `s` has no whitespace at either end. */
  predicate IsTrimmed(s: string) {
    s == [] || (!IsSpace(s[0]) && !IsSpace(s[|s| - 1]))
  }

  /** `s` without its leading whitespace. */
  function TrimStart(s: string): (r: string)
    ensures |r| <= |s| && r == s[|s| - |r|..]
    ensures r == [] || !IsSpace(r[0])
    ensures forall k :: 0 <= k < |s| - |r| ==> IsSpace(s[k])
    decreases |s|
  {
    if |s| > 0 && IsSpace(s[0]) then TrimStart(s[1..]) else s
  }

  /** `s` without its trailing whitespace. */
  function TrimEnd(s: string): (r: string)
    ensures |r| <= |s| && r == s[..|r|]
    ensures r == [] || !IsSpace(r[|r| - 1])
    ensures forall k :: |r| <= k < |s| ==> IsSpace(s[k])
    decreases |s|
  {
    if |s| > 0 && IsSpace(s[|s| - 1]) then TrimEnd(s[..|s| - 1]) else s
  }

  /** Only whitespace lies before position `k` of `s`. */
  predicate SpacesBefore(s: string, k: int)
    requires k <= |s|
  {
    forall j :: 0 <= j < k ==> IsSpace(s[j])
  }

  /** Only whitespace lies from position `k` of `s` on. */
  predicate SpacesFrom(s: string, k: int)
    requires 0 <= k
  {
    forall j :: k <= j < |s| ==> IsSpace(s[j])
  }

  /** `r` is the piece of `s` starting at `k`, and only whitespace lies outside it. */
  predicate CoreAt(s: string, r: string, k: int) {
    && 0 <= k && k + |r| <= |s| && r == s[k..k + |r|]
    && SpacesBefore(s, k)
    && SpacesFrom(s, k + |r|)
  }

  /** A prefix of a suffix of `s` is a slice of `s`. */
  lemma PrefixOfSuffix(s: string, k: nat, n: nat)
    requires k + n <= |s|
    ensures s[k..][..n] == s[k..k + n]
  {
  }

  /** Whitespace cut off the end of a suffix of `s` is whitespace at the end of `s`. */
  lemma SpacesFromSuffix(s: string, t: string, n: nat)
    requires |t| <= |s| && t == s[|s| - |t|..] && n <= |t|
    requires forall j :: n <= j < |t| ==> IsSpace(t[j])
    ensures SpacesFrom(s, |s| - |t| + n)
  {
    var k := |s| - |t|;
    forall j | k + n <= j < |s| ensures IsSpace(s[j]) {
      assert s[j] == t[j - k];
    }
  }

  /** Only whitespace is cut off the start. */
  lemma TrimStartSpaces(s: string)
    ensures SpacesBefore(s, |s| - |TrimStart(s)|)
  {
  }

  /** Trimming the start, then the end, leaves the piece of `s` with only whitespace around it. */
  lemma TrimStartEndCore(s: string)
    ensures CoreAt(s, TrimEnd(TrimStart(s)), |s| - |TrimStart(s)|)
  {
    var t := TrimStart(s);
    var r := TrimEnd(t);
    var k := |s| - |t|;
    PrefixOfSuffix(s, k, |r|);
    assert r == s[k..k + |r|];
    SpacesFromSuffix(s, t, |r|);
    TrimStartSpaces(s);
    assert 0 <= k;
    assert k + |r| <= |s|;
    assert SpacesBefore(s, k);
    assert SpacesFrom(s, k + |r|);
    assert CoreAt(s, r, k);
  }

  /** String.prototype.trim, and MongoDB's `$trim`, on ASCII whitespace. */
  function Trim(s: string): (r: string)
    ensures IsTrimmed(r)
    ensures CoreAt(s, r, |s| - |TrimStart(s)|)
    ensures |r| <= |s|
    ensures forall c :: c in r ==> c in s
  {
    var t := TrimStart(s);
    var r := TrimEnd(t);
    TrimStartEndCore(s);
    assert forall c :: c in r ==> c in t;
    r
  }

  /** A piece with no whitespace at its ends and only whitespace around it is the trim. */
  lemma TrimUnique(s: string, r: string, k: int)
    requires IsTrimmed(r) && CoreAt(s, r, k)
    ensures r == Trim(s)
  {
    var t := Trim(s);
    var k0 := |s| - |TrimStart(s)|;
    assert CoreAt(s, t, k0);
    assert t != [] ==> t[0] == s[k0] && t[|t| - 1] == s[k0 + |t| - 1];
    if r == [] {
      assert forall j :: 0 <= j < |s| ==> IsSpace(s[j]) by {
        forall j | 0 <= j < |s| ensures IsSpace(s[j]) {
          if j < k {
            assert SpacesBefore(s, k);
          } else {
            assert SpacesFrom(s, k + |r|);
          }
        }
      }
    } else {
      // Both pieces start at the first non-space character and end at the last.
      assert r[0] == s[k] && r[|r| - 1] == s[k + |r| - 1];
      assert t != [];
      assert k == k0;
      assert |r| == |t|;
    }
  }

  /** A string with no whitespace at its ends is its own trim. */
  lemma TrimOfTrimmed(s: string)
    requires IsTrimmed(s)
    ensures Trim(s) == s
  {
    assert s[0..0 + |s|] == s;
    TrimUnique(s, s, 0);
  }

  /** Trimming twice is trimming once. */
  lemma TrimIdempotent(s: string)
    ensures Trim(Trim(s)) == Trim(s)
  {
    TrimOfTrimmed(Trim(s));
  }

  /** `map(a => a.trim())`: every string trimmed, in order. */
  function TrimEach(names: seq<string>): (r: seq<string>)
    ensures |r| == |names|
    ensures forall i :: 0 <= i < |r| ==> r[i] == Trim(names[i])
  {
    seq(|names|, i requires 0 <= i < |names| => Trim(names[i]))
  }

  /**
   * String.prototype.split with a one-character separator: the pieces between
   * separators, in order; "" splits into [""] and a trailing separator gives a
   * trailing empty piece.
   */
  function Split(s: string, sep: char): (parts: seq<string>)
    ensures |parts| >= 1
    ensures forall i :: 0 <= i < |parts| ==> sep !in parts[i]
    decreases |s|
  {
    if s == [] then [[]]
    else
      var rest := Split(s[1..], sep);
      if s[0] == sep then [[]] + rest
      else [[s[0]] + rest[0]] + rest[1..]
  }

  /** Array.prototype.join: the parts with `sep` between consecutive ones. */
  function Join(parts: seq<string>, sep: string): string
    decreases |parts|
  {
    if |parts| == 0 then []
    else if |parts| == 1 then parts[0]
    else parts[0] + sep + Join(parts[1..], sep)
  }

  /** Joining the pieces of a split with the separator gives the original string back. */
  lemma {:induction false} SplitJoin(s: string, sep: char)
    ensures Join(Split(s, sep), [sep]) == s
    decreases |s|
  {
    if s != [] {
      var rest := Split(s[1..], sep);
      SplitJoin(s[1..], sep);
      if s[0] == sep {
        assert Split(s, sep) == [[]] + rest;
        assert ([[]] + rest)[1..] == rest;
        assert s == [sep] + s[1..];
      } else {
        var parts := [[s[0]] + rest[0]] + rest[1..];
        assert Split(s, sep) == parts;
        if |rest| == 1 {
          assert rest == [rest[0]];
          assert s == [s[0]] + s[1..];
        } else {
          assert parts[1..] == rest[1..];
          assert Join(rest, [sep]) == rest[0] + [sep] + Join(rest[1..], [sep]);
          assert s == [s[0]] + s[1..];
        }
      }
    }
  }

  /** A string without the separator splits into itself alone. */
  lemma {:induction false} SplitWithoutSeparator(s: string, sep: char)
    requires sep !in s
    ensures Split(s, sep) == [s]
    decreases |s|
  {
    if s != [] {
      assert sep !in s[1..];
      SplitWithoutSeparator(s[1..], sep);
      assert s == [s[0]] + s[1..];
    }
  }

  /** `flatMap(a => a.split(sep))`: every entry's pieces, entry after entry. */
  function SplitEntries(entries: seq<string>, sep: char): seq<string>
    decreases |entries|
  {
    if entries == [] then [] else Split(entries[0], sep) + SplitEntries(entries[1..], sep)
  }

  /** ASCII lowercasing of one character. */
  function LowerChar(c: char): (r: char)
    ensures 'A' <= c <= 'Z' ==> 'a' <= r <= 'z' && r as int - c as int == 32
    ensures !('A' <= c <= 'Z') ==> r == c
  {
    if 'A' <= c <= 'Z' then (c as int + 32) as char else c
  }

  /** String.prototype.toLowerCase on ASCII letters; every other character is kept. */
  function ToLower(s: string): (r: string)
    ensures |r| == |s|
    ensures forall i :: 0 <= i < |s| ==> r[i] == LowerChar(s[i])
  {
    seq(|s|, i requires 0 <= i < |s| => LowerChar(s[i]))
  }

  /** String.prototype.includes: `sub` occurs in `s` as a contiguous piece. */
  predicate Contains(s: string, sub: string)
    decreases |s|
  {
    |sub| <= |s| && (s[..|sub|] == sub || Contains(s[1..], sub))
  }

  /** `sub` sits in `s` starting at position `i`. */
  predicate OccursAt(s: string, sub: string, i: int) {
    0 <= i && i + |sub| <= |s| && s[i..i + |sub|] == sub
  }

  /** An occurrence in the tail is an occurrence one position further on in the whole string. */
  lemma OccursInTail(s: string, sub: string, i: int)
    requires s != [] && 0 <= i
    ensures OccursAt(s[1..], sub, i) <==> OccursAt(s, sub, i + 1)
  {
    if i + |sub| <= |s| - 1 {
      assert s[1..][i..i + |sub|] == s[i + 1..i + 1 + |sub|];
    }
  }

  /** When `includes` holds, the query occurs at some position. */
  lemma {:induction false} ContainsOccurs(s: string, sub: string)
    requires Contains(s, sub)
    ensures exists i :: OccursAt(s, sub, i)
    decreases |s|
  {
    if s[..|sub|] == sub {
      assert OccursAt(s, sub, 0);
    } else {
      ContainsOccurs(s[1..], sub);
      var i :| OccursAt(s[1..], sub, i);
      OccursInTail(s, sub, i);
    }
  }

  /** An occurrence at position `i` makes `includes` hold. */
  lemma {:induction false} OccursContains(s: string, sub: string, i: int)
    requires OccursAt(s, sub, i)
    ensures Contains(s, sub)
    decreases i
  {
    if i > 0 {
      OccursInTail(s, sub, i - 1);
      OccursContains(s[1..], sub, i - 1);
    } else {
      assert s[..|sub|] == s[0..0 + |sub|];
    }
  }

  /** `Contains` holds exactly when `sub` sits at some position of `s`. */
  lemma ContainsIffOccurs(s: string, sub: string)
    ensures Contains(s, sub) <==> exists i :: OccursAt(s, sub, i)
  {
    if Contains(s, sub) {
      ContainsOccurs(s, sub);
    }
    if exists i :: OccursAt(s, sub, i) {
      var i :| OccursAt(s, sub, i);
      OccursContains(s, sub, i);
    }
  }

  /** Strict lexicographic order on character codes (a proper prefix comes first). */
  predicate Less(a: string, b: string)
    decreases |a|
  {
    if a == [] then b != []
    else if b == [] then false
    else a[0] < b[0] || (a[0] == b[0] && Less(a[1..], b[1..]))
  }

  lemma {:induction false} LessIrreflexive(a: string)
    ensures !Less(a, a)
    decreases |a|
  {
    if a != [] {
      LessIrreflexive(a[1..]);
    }
  }

  lemma {:induction false} LessTransitive(a: string, b: string, c: string)
    requires Less(a, b) && Less(b, c)
    ensures Less(a, c)
    decreases |a|
  {
    if a != [] && a[0] == b[0] && b[0] == c[0] {
      LessTransitive(a[1..], b[1..], c[1..]);
    }
  }

  /** Any two different strings are ordered one way. */
  lemma {:induction false} LessTotal(a: string, b: string)
    ensures a == b || Less(a, b) || Less(b, a)
    decreases |a|
  {
    if a != [] && b != [] && a[0] == b[0] {
      LessTotal(a[1..], b[1..]);
      if a[1..] == b[1..] {
        assert a == [a[0]] + a[1..] && b == [b[0]] + b[1..];
      }
    }
  }

  lemma {:induction false} LessAsymmetric(a: string, b: string)
    requires Less(a, b)
    ensures !Less(b, a)
    decreases |a|
  {
    if a != [] && a[0] == b[0] {
      LessAsymmetric(a[1..], b[1..]);
    }
  }

  /** String.prototype.localeCompare, modelled on code-point order: -1, 0 or 1. */
  function Compare(a: string, b: string): (r: int)
    ensures r == -1 <==> Less(a, b)
    ensures r == 0 <==> a == b
    ensures r == 1 <==> Less(b, a)
  {
    LessIrreflexive(a);
    LessTotal(a, b);
    if Less(a, b) then
      LessAsymmetric(a, b);
      -1
    else if a == b then 0
    else 1
  }

  /** A JavaScript value that is a non-empty string (truthy); a missing value and "" are falsy. */
  predicate Present(s: Option<string>) {
    s != None && s.value != ""
  }

  /** The decimal digits '0'..'9'. */
  predicate IsDigit(c: char) {
    '0' <= c <= '9'
  }

  function DigitValue(c: char): (d: nat)
    requires IsDigit(c)
    ensures d < 10
  {
    c as int - '0' as int
  }

  function DigitChar(d: nat): (c: char)
    requires d < 10
    ensures IsDigit(c) && DigitValue(c) == d
  {
    ('0' as int + d) as char
  }

  /** The value of a string of decimal digits (parseInt on such a string). */
  function DigitsValue(s: string): (n: nat)
    requires forall i :: 0 <= i < |s| ==> IsDigit(s[i])
    decreases |s|
  {
    if s == [] then 0 else 10 * DigitsValue(s[..|s| - 1]) + DigitValue(s[|s| - 1])
  }

  /** Appending a digit multiplies the value by ten and adds the digit. */
  lemma DigitsValueSnoc(s: string, c: char)
    requires forall i :: 0 <= i < |s| ==> IsDigit(s[i])
    requires IsDigit(c)
    ensures DigitsValue(s + [c]) == 10 * DigitsValue(s) + DigitValue(c)
  {
    assert (s + [c])[..|s|] == s;
  }

  /** The decimal rendering of a natural number, without leading zeros. */
  function NatToString(n: nat): (s: string)
    ensures |s| >= 1
    ensures forall i :: 0 <= i < |s| ==> IsDigit(s[i])
    ensures |s| > 1 ==> s[0] != '0'
    decreases n
  {
    if n < 10 then [DigitChar(n)] else NatToString(n / 10) + [DigitChar(n % 10)]
  }

  /** Reading back a rendered number gives the number. */
  lemma {:induction false} NatToStringValue(n: nat)
    ensures DigitsValue(NatToString(n)) == n
    decreases n
  {
    if n >= 10 {
      NatToStringValue(n / 10);
      var s := NatToString(n);
      assert s[..|s| - 1] == NatToString(n / 10);
    }
  }
}
