/** String helpers shared by the retry classifier and the SQL builders:
    ASCII lower-casing, substring search, decimal rendering of naturals,
    `Array.prototype.join`, and a scanner that reads back the `$k`
    parameter references of a Postgres statement. */
module Text {

  // ---------------------------------------------------------------------------
  // Case and substring search
  // ---------------------------------------------------------------------------

  function LowerChar(c: char): char {
    if 'A' <= c <= 'Z' then (c as int - 'A' as int + 'a' as int) as char else c
  }

  /** Lower-cases the ASCII letters of `s` and leaves every other character. */
  function AsciiLower(s: string): (r: string)
    ensures |r| == |s|
    ensures forall i :: 0 <= i < |s| ==> r[i] == LowerChar(s[i])
  {
    if |s| == 0 then [] else [LowerChar(s[0])] + AsciiLower(s[1..])
  }

  lemma AsciiLowerIdempotent(s: string)
    ensures AsciiLower(AsciiLower(s)) == AsciiLower(s)
  {
  }

  /** `sub` occurs in `s` starting at position `i`. */
  predicate OccursAt(s: string, sub: string, i: int) {
    0 <= i && i + |sub| <= |s| && s[i..i + |sub|] == sub
  }

  /** Occurrences in `s[1..]` are the occurrences in `s` shifted by one. */
  lemma OccursShift(s: string, sub: string, i: int)
    requires |s| >= 1 && i >= 0
    ensures OccursAt(s[1..], sub, i) <==> OccursAt(s, sub, i + 1)
  {
    if 0 <= i && i + 1 + |sub| <= |s| {
      assert s[1..][i..i + |sub|] == s[i + 1..i + 1 + |sub|];
    }
  }

  /** JavaScript's `s.includes(sub)`: a left-to-right search. */
  function Includes(s: string, sub: string): (r: bool)
    ensures r <==> exists i :: OccursAt(s, sub, i)
    decreases |s|
  {
    if |s| < |sub| then
      assert forall i :: !OccursAt(s, sub, i);
      false
    else if s[..|sub|] == sub then
      assert OccursAt(s, sub, 0);
      true
    else
      var rest := Includes(s[1..], sub);
      assert rest ==> exists i :: OccursAt(s, sub, i) by {
        if rest {
          var i :| OccursAt(s[1..], sub, i);
          OccursShift(s, sub, i);
        }
      }
      assert (exists i :: OccursAt(s, sub, i)) ==> rest by {
        if exists i :: OccursAt(s, sub, i) {
          var i :| OccursAt(s, sub, i);
          assert i != 0;
          OccursShift(s, sub, i - 1);
        }
      }
      rest
  }

  /** A string that lacks one of the characters of `sub` cannot contain `sub`. */
  lemma MissingCharExcludes(s: string, sub: string, j: nat)
    requires j < |sub| && sub[j] !in s
    ensures !Includes(s, sub)
  {
    forall i | 0 <= i && i + |sub| <= |s|
      ensures !OccursAt(s, sub, i)
    {
      assert s[i..i + |sub|][j] == s[i + j];
      assert s[i + j] in s;
    }
  }

  // ---------------------------------------------------------------------------
  // Decimal digits
  // ---------------------------------------------------------------------------

  predicate IsDigit(c: char) {
    '0' <= c <= '9'
  }

  predicate AllDigits(s: string) {
    forall i :: 0 <= i < |s| ==> IsDigit(s[i])
  }

  function DigitChar(d: nat): char
    requires d < 10
  {
    ('0' as int + d) as char
  }

  /** The number a string of decimal digits denotes (most significant first). */
  function DigitsValue(s: string): nat
    requires AllDigits(s)
  {
    if |s| == 0 then 0
    else DigitsValue(s[..|s| - 1]) * 10 + (s[|s| - 1] as int - '0' as int)
  }

  /** JavaScript's rendering of a non-negative integer, as in a template
      literal `${n}`: decimal, no sign, no leading zeros. */
  function NatToString(n: nat): (r: string)
    ensures 1 <= |r| && AllDigits(r)
    ensures DigitsValue(r) == n
    ensures r[0] == '0' ==> r == "0"
    decreases n
  {
    if n < 10 then [DigitChar(n)]
    else
      var prefix := NatToString(n / 10);
      var r := prefix + [DigitChar(n % 10)];
      assert r[..|r| - 1] == prefix;
      r
  }

  /** Length of the run of digits at the start of `s`. */
  function DigitRun(s: string): (k: nat)
    ensures k <= |s|
    ensures forall i :: 0 <= i < k ==> IsDigit(s[i])
    ensures k < |s| ==> !IsDigit(s[k])
  {
    if |s| == 0 || !IsDigit(s[0]) then 0 else 1 + DigitRun(s[1..])
  }

  /** Appending text after a run of digits that has already stopped, or text
      that does not begin with a digit, does not lengthen the run. */
  lemma DigitRunAppend(x: string, y: string)
    requires DigitRun(x) < |x| || |y| == 0 || !IsDigit(y[0])
    ensures DigitRun(x + y) == DigitRun(x)
  {
    var k := DigitRun(x);
    var s := x + y;
    assert forall i :: 0 <= i < k ==> s[i] == x[i];
    if k < |s| {
      assert s[k] == (if k < |x| then x[k] else y[0]);
    }
  }

  // ---------------------------------------------------------------------------
  // Parameter references of a Postgres statement
  // ---------------------------------------------------------------------------

  /** The numbers `k` of the `$k` parameter references in `s`, left to right.
      A `$` not followed by a digit references nothing. */
  function ParamRefs(s: string): seq<nat>
    decreases |s|
  {
    if |s| == 0 then []
    else if s[0] != '$' then ParamRefs(s[1..])
    else
      var k := DigitRun(s[1..]);
      if k == 0 then ParamRefs(s[1..])
      else [DigitsValue(s[1..1 + k])] + ParamRefs(s[1 + k..])
  }

  /** Splitting `a + b` at this point cannot cut a `$k` reference in two. */
  predicate Boundary(a: string, b: string) {
    || |a| == 0
    || |b| == 0
    || !IsDigit(b[0])
    || (!IsDigit(a[|a| - 1]) && a[|a| - 1] != '$')
  }

  lemma NoDollarNoRefs(s: string)
    requires '$' !in s
    ensures ParamRefs(s) == []
    decreases |s|
  {
    if |s| > 0 {
      assert s[0] in s;
      NoDollarNoRefs(s[1..]);
    }
  }

  lemma {:induction false} ParamRefsAppend(a: string, b: string)
    requires Boundary(a, b)
    ensures ParamRefs(a + b) == ParamRefs(a) + ParamRefs(b)
    decreases |a|, 1
  {
    if |a| == 0 {
      assert a + b == b;
    } else if |b| == 0 {
      assert a + b == a;
    } else {
      var s := a + b;
      var x := a[1..];
      assert s[1..] == x + b;
      if |x| > 0 {
        assert x[|x| - 1] == a[|a| - 1];
      }
      assert Boundary(x, b);
      if a[0] != '$' {
        ParamRefsAppend(x, b);
      } else {
        var k := DigitRun(x);
        DigitRunAppend(x, b);
        if k == 0 {
          ParamRefsAppend(x, b);
        } else {
          ReferenceThenAppend(a, b, k);
        }
      }
    }
  }

  /** The case of `ParamRefsAppend` where `a` starts with a reference of `k`
      digits. */
  lemma {:induction false} ReferenceThenAppend(a: string, b: string, k: nat)
    requires Boundary(a, b) && |a| > 0 && |b| > 0 && a[0] == '$'
    requires 0 < k == DigitRun(a[1..]) == DigitRun((a + b)[1..])
    ensures ParamRefs(a + b) == ParamRefs(a) + ParamRefs(b)
    decreases |a|, 0
  {
    var s := a + b;
    var rest := a[1 + k..];
    var head := DigitsValue(a[1..1 + k]);
    assert Boundary(rest, b) by {
      if |rest| > 0 {
        assert rest[|rest| - 1] == a[|a| - 1];
      }
    }
    calc {
      ParamRefs(s);
      { assert s[0] == '$' && s[1..1 + k] == a[1..1 + k] && s[1 + k..] == rest + b; }
      [head] + ParamRefs(rest + b);
      { ParamRefsAppend(rest, b); }
      [head] + (ParamRefs(rest) + ParamRefs(b));
      ([head] + ParamRefs(rest)) + ParamRefs(b);
      ParamRefs(a) + ParamRefs(b);
    }
  }

  /** A single reference `$k` reads back as `[k]`. */
  lemma PlaceholderRefs(k: nat)
    ensures ParamRefs("$" + NatToString(k)) == [k]
  {
    var d := NatToString(k);
    var s := "$" + d;
    assert s[1..] == d;
    assert DigitRun(d) == |d|;
    assert s[1..1 + |d|] == d;
    assert s[1 + |d|..] == "";
  }

  // ---------------------------------------------------------------------------
  // Joining
  // ---------------------------------------------------------------------------

  /** JavaScript's `parts.join(sep)`. */
  function Join(sep: string, parts: seq<string>): string {
    if |parts| == 0 then ""
    else if |parts| == 1 then parts[0]
    else parts[0] + sep + Join(sep, parts[1..])
  }

  /** A separator that cannot merge with the text around it and holds no
      reference of its own. */
  predicate NeutralSeparator(sep: string) {
    && |sep| > 0
    && !IsDigit(sep[0])
    && !IsDigit(sep[|sep| - 1])
    && sep[|sep| - 1] != '$'
    && '$' !in sep
  }

  /** The references of each part, part after part. */
  function JoinedRefs(parts: seq<string>): seq<nat> {
    if |parts| == 0 then [] else ParamRefs(parts[0]) + JoinedRefs(parts[1..])
  }

  /** Joining with a neutral separator keeps the references of every part,
      in order, and adds none. */
  lemma {:induction false} ParamRefsJoin(sep: string, parts: seq<string>)
    requires NeutralSeparator(sep)
    ensures ParamRefs(Join(sep, parts)) == JoinedRefs(parts)
    decreases |parts|
  {
    if |parts| == 1 {
      assert JoinedRefs(parts) == ParamRefs(parts[0]) + JoinedRefs([]);
    } else if |parts| > 1 {
      var p := parts[0];
      var rest := Join(sep, parts[1..]);
      var tail := sep + rest;
      assert Join(sep, parts) == p + tail;
      assert tail[0] == sep[0];
      assert Boundary(p, tail);
      ParamRefsAppend(p, tail);
      assert Boundary(sep, rest);
      ParamRefsAppend(sep, rest);
      NoDollarNoRefs(sep);
      ParamRefsJoin(sep, parts[1..]);
      assert JoinedRefs(parts) == ParamRefs(p) + JoinedRefs(parts[1..]);
    }
  }

  /** `[f, f + 1, ..., f + c - 1]`. */
  function Range(f: nat, c: nat): (r: seq<nat>)
    ensures |r| == c
    ensures forall j :: 0 <= j < c ==> r[j] == f + j
  {
    seq(c, j requires 0 <= j < c => f + j)
  }

  lemma RangeSplit(f: nat, a: nat, b: nat)
    ensures Range(f, a + b) == Range(f, a) + Range(f + a, b)
  {
  }
}
