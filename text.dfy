/** String helpers the chat code relies on from the JavaScript runtime:
    `trim`, `toLowerCase`, `includes`, number-to-string interpolation and
    `Array.prototype.join`. */
module Text {

  /** A character that ECMAScript's `String.prototype.trim` strips: the
      WhiteSpace and LineTerminator code points. */
  predicate IsWhitespace(c: char) {
    c == ' ' || c == '\t' || c == '\n' || c == '\r' || c == '\U{B}' || c == '\U{C}'
    || c == '\U{A0}' || c == '\U{FEFF}' || c == '\U{1680}'
    || ('\U{2000}' <= c <= '\U{200A}')
    || c == '\U{2028}' || c == '\U{2029}' || c == '\U{202F}' || c == '\U{205F}' || c == '\U{3000}'
  }

  /** Every character of `s` is whitespace: `s.trim()` is the empty string. */
  predicate IsBlank(s: string) {
    forall i :: 0 <= i < |s| ==> IsWhitespace(s[i])
  }

  /** `s` without its leading whitespace. */
  function TrimStart(s: string): (r: string)
    ensures |r| <= |s| && r == s[|s| - |r|..]
    ensures r != [] ==> !IsWhitespace(r[0])
  {
    if s != [] && IsWhitespace(s[0]) then TrimStart(s[1..]) else s
  }

  /** `s` without its trailing whitespace. */
  function TrimEnd(s: string): (r: string)
    ensures |r| <= |s| && r == s[..|r|]
    ensures r != [] ==> !IsWhitespace(r[|r| - 1])
  {
    if s != [] && IsWhitespace(s[|s| - 1]) then TrimEnd(s[..|s| - 1]) else s
  }

  /** The value of `s.trim()`: it is empty exactly when every character of `s`
      is whitespace, and otherwise it starts and ends with a character that
      is not. */
  function Trim(s: string): (r: string)
    ensures |r| <= |s|
    ensures r == [] <==> IsBlank(s)
    ensures r != [] ==> !IsWhitespace(r[0]) && !IsWhitespace(r[|r| - 1])
  {
    TrimStartBlank(s);
    var t := TrimStart(s);
    if t == [] then TrimEnd(t)
    else
      TrimEndKeepsFirst(t);
      TrimEnd(t)
  }

  lemma {:induction false} TrimStartBlank(s: string)
    ensures TrimStart(s) == [] <==> IsBlank(s)
  {
    if s != [] && IsWhitespace(s[0]) {
      TrimStartBlank(s[1..]);
      assert IsBlank(s) <==> IsBlank(s[1..]) by {
        forall i | 0 <= i < |s[1..]| ensures s[1..][i] == s[i + 1] { }
        if IsBlank(s[1..]) {
          forall i | 0 <= i < |s| ensures IsWhitespace(s[i]) {
            if i > 0 { assert s[i] == s[1..][i - 1]; }
          }
        }
      }
    }
  }

  lemma {:induction false} TrimEndKeepsFirst(t: string)
    requires t != [] && !IsWhitespace(t[0])
    ensures TrimEnd(t) != [] && TrimEnd(t)[0] == t[0]
  {
    if IsWhitespace(t[|t| - 1]) {
      assert |t| > 1;
      TrimEndKeepsFirst(t[..|t| - 1]);
    }
  }

  /** ASCII lower-casing of one character; every other character is kept. */
  function LowerChar(c: char): (r: char)
    ensures 'A' <= c <= 'Z' ==> r as int == c as int + 32
    ensures !('A' <= c <= 'Z') ==> r == c
    ensures !('A' <= r <= 'Z')
  {
    if 'A' <= c <= 'Z' then (c as int + 32) as char else c
  }

  /** `s.toLowerCase()` restricted to ASCII letters. */
  function Lower(s: string): (r: string)
    ensures |r| == |s|
    ensures forall i :: 0 <= i < |s| ==> r[i] == LowerChar(s[i])
  {
    if s == [] then [] else [LowerChar(s[0])] + Lower(s[1..])
  }

  lemma {:induction false} LowerIdempotent(s: string)
    ensures Lower(Lower(s)) == Lower(s)
  {
    var l := Lower(s);
    assert forall i :: 0 <= i < |l| ==> Lower(l)[i] == l[i];
  }

  /** `t` occurs in `s` starting at position `k`. */
  predicate OccursAt(s: string, t: string, k: nat) {
    k + |t| <= |s| && s[k..k + |t|] == t
  }

  /** `s.includes(t)`, by scanning `s` from the left; a text never includes
      anything longer than itself. */
  predicate Contains(s: string, t: string): (r: bool)
    ensures r ==> |t| <= |s|
    decreases |s|
  {
    t <= s || (s != [] && Contains(s[1..], t))
  }

  /** An occurrence at `k + 1` in `s` is an occurrence at `k` in its tail. */
  lemma OccursShift(s: string, t: string, k: nat)
    requires s != []
    ensures OccursAt(s, t, k + 1) <==> OccursAt(s[1..], t, k)
  {
    if k + 1 + |t| <= |s| {
      forall x | k <= x < k + |t| ensures s[1..][x] == s[x + 1] { }
      assert s[k + 1..k + 1 + |t|] == s[1..][k..k + |t|];
    }
  }

  /** An occurrence anywhere is found by the scan. */
  lemma {:induction false} OccursImpliesContains(s: string, t: string, k: nat)
    requires OccursAt(s, t, k)
    ensures Contains(s, t)
    decreases k
  {
    if k == 0 {
      assert s[..|t|] == t;
    } else {
      OccursShift(s, t, k - 1);
      OccursImpliesContains(s[1..], t, k - 1);
    }
  }

  /** The scan succeeds only at an actual occurrence. */
  lemma {:induction false} ContainsImpliesOccurs(s: string, t: string) returns (k: nat)
    requires Contains(s, t)
    ensures OccursAt(s, t, k)
    decreases |s|
  {
    if t <= s {
      assert s[0..|t|] == t;
      k := 0;
    } else {
      var j := ContainsImpliesOccurs(s[1..], t);
      OccursShift(s, t, j);
      k := j + 1;
    }
  }

  /** The scan agrees with the positional definition of an occurrence. */
  lemma ContainsIffOccurs(s: string, t: string)
    ensures Contains(s, t) <==> exists k: nat :: OccursAt(s, t, k)
  {
    if Contains(s, t) {
      var k := ContainsImpliesOccurs(s, t);
    }
    forall k: nat | OccursAt(s, t, k) ensures Contains(s, t) {
      OccursImpliesContains(s, t, k);
    }
  }

  /** `t` occurs in `a + t + b`. */
  lemma ContainsMiddle(a: string, t: string, b: string)
    ensures Contains(a + t + b, t)
  {
    var s := a + t + b;
    assert s[|a|..|a| + |t|] == t;
    assert OccursAt(s, t, |a|);
    ContainsIffOccurs(s, t);
  }

  /** An occurrence in `u` is an occurrence in every string that has `u` inside it. */
  lemma ContainsTransitive(s: string, u: string, t: string)
    requires Contains(s, u) && Contains(u, t)
    ensures Contains(s, t)
  {
    ContainsIffOccurs(s, u);
    ContainsIffOccurs(u, t);
    var i: nat :| OccursAt(s, u, i);
    var j: nat :| OccursAt(u, t, j);
    forall x | j <= x < j + |t| ensures u[x] == s[i + x] {
      assert u[x] == s[i..i + |u|][x];
    }
    assert s[i + j..i + j + |t|] == u[j..j + |t|];
    assert OccursAt(s, t, i + j);
    ContainsIffOccurs(s, t);
  }

  predicate IsDigit(c: char) {
    '0' <= c <= '9'
  }

  function DigitChar(d: nat): (c: char)
    requires d < 10
    ensures IsDigit(c) && c as int - '0' as int == d
  {
    ('0' as int + d) as char
  }

  /** The decimal rendering that `${n}` gives a non-negative integer. */
  function NatToString(n: nat): (r: string)
    ensures r != [] && forall i :: 0 <= i < |r| ==> IsDigit(r[i])
    ensures r[0] == '0' ==> n == 0 && r == "0"
  {
    if n < 10 then [DigitChar(n)] else NatToString(n / 10) + [DigitChar(n % 10)]
  }

  /** The number a string of decimal digits denotes. */
  function DecimalValue(s: string): nat
    requires forall i :: 0 <= i < |s| ==> IsDigit(s[i])
  {
    if s == [] then 0
    else
      assert IsDigit(s[|s| - 1]);
      DecimalValue(s[..|s| - 1]) * 10 + (s[|s| - 1] as int - '0' as int)
  }

  /** Reading back the rendering gives the number: the rendering loses nothing. */
  lemma {:induction false} NatToStringRoundTrip(n: nat)
    ensures DecimalValue(NatToString(n)) == n
  {
    if n >= 10 {
      NatToStringRoundTrip(n / 10);
      var r := NatToString(n);
      assert r[..|r| - 1] == NatToString(n / 10);
    }
  }

  /** Two different numbers never render the same. */
  lemma NatToStringInjective(m: nat, n: nat)
    requires NatToString(m) == NatToString(n)
    ensures m == n
  {
    NatToStringRoundTrip(m);
    NatToStringRoundTrip(n);
  }

  /** `parts.join(sep)`: the parts in order, with `sep` between neighbours and
      nowhere else. */
  function Join(parts: seq<string>, sep: string): string {
    if parts == [] then ""
    else if |parts| == 1 then parts[0]
    else Join(parts[..|parts| - 1], sep) + sep + parts[|parts| - 1]
  }

  /** Joining one more part adds the separator and the part, except after nothing. */
  lemma JoinSnoc(parts: seq<string>, p: string, sep: string)
    ensures Join(parts + [p], sep) == if parts == [] then p else Join(parts, sep) + sep + p
  {
    assert (parts + [p])[..|parts|] == parts;
  }

  /** Joining from the front: the first part, then the separator, then the rest. */
  lemma {:induction false} JoinCons(p: string, rest: seq<string>, sep: string)
    requires rest != []
    ensures Join([p] + rest, sep) == p + sep + Join(rest, sep)
    decreases |rest|
  {
    var init, last := rest[..|rest| - 1], rest[|rest| - 1];
    assert rest == init + [last];
    assert [p] + rest == ([p] + init) + [last];
    JoinSnoc([p] + init, last, sep);
    JoinSnoc(init, last, sep);
    if init != [] {
      JoinCons(p, init, sep);
    } else {
      assert [p] + init == [p];
    }
  }

  /** Every part occurs in the joined string. */
  lemma {:induction false} JoinContainsPart(parts: seq<string>, sep: string, k: nat)
    requires k < |parts|
    ensures Contains(Join(parts, sep), parts[k])
    decreases |parts|
  {
    if |parts| == 1 {
      ContainsMiddle("", parts[k], "");
      assert "" + parts[k] + "" == parts[k];
    } else if k == |parts| - 1 {
      ContainsMiddle(Join(parts[..|parts| - 1], sep) + sep, parts[k], "");
      assert Join(parts[..|parts| - 1], sep) + sep + parts[k] + "" == Join(parts, sep);
    } else {
      var init := parts[..|parts| - 1];
      JoinContainsPart(init, sep, k);
      ContainsMiddle("", Join(init, sep), sep + parts[|parts| - 1]);
      assert "" + Join(init, sep) + (sep + parts[|parts| - 1]) == Join(parts, sep);
      ContainsTransitive(Join(parts, sep), Join(init, sep), parts[k]);
    }
  }
}
