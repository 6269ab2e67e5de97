/** String helpers shared by the modules: JavaScript truthiness of an optional
    string, the `a || b || c` fallback chain, `toLowerCase`, `includes` and the
    decimal rendering `String(n)` of an integer. */
module Text {
  import opened Wrappers

  /** An optional string is truthy in JavaScript iff it is present and not "". */
  predicate Truthy(o: Option<string>) {
    o.Some? && o.value != ""
  }

  /** `xs[0] || xs[1] || ... || xs[|xs|-1]`: the first truthy operand, or the last
      operand when none of the others is truthy. */
  function FirstTruthy(xs: seq<Option<string>>): (r: Option<string>)
    requires |xs| > 0
    ensures r in xs
    ensures forall i :: (0 <= i < |xs| - 1 && Truthy(xs[i]) &&
                         (forall j :: 0 <= j < i ==> !Truthy(xs[j]))) ==> r == xs[i]
    ensures (forall j :: 0 <= j < |xs| - 1 ==> !Truthy(xs[j])) ==> r == xs[|xs| - 1]
    ensures Truthy(r) <==> exists i :: 0 <= i < |xs| && Truthy(xs[i])
  {
    if |xs| == 1 || Truthy(xs[0]) then xs[0]
    else
      var r := FirstTruthy(xs[1..]);
      assert forall j :: 1 <= j < |xs| ==> xs[j] == xs[1..][j - 1];
      r
  }

  /** A chain of three operands: `a || b || c`. */
  lemma FirstTruthy3(a: Option<string>, b: Option<string>, c: Option<string>)
    ensures FirstTruthy([a, b, c]) == if Truthy(a) then a else if Truthy(b) then b else c
  {
    var xs := [a, b, c];
    if !Truthy(a) && Truthy(b) {
      assert forall j :: 0 <= j < 1 ==> !Truthy(xs[j]);
    }
  }

  /** A chain of four operands: `a || b || c || d`. */
  lemma FirstTruthy4(a: Option<string>, b: Option<string>, c: Option<string>, d: Option<string>)
    ensures FirstTruthy([a, b, c, d]) ==
            if Truthy(a) then a else if Truthy(b) then b else if Truthy(c) then c else d
  {
    if !Truthy(a) {
      assert [a, b, c, d][1..] == [b, c, d];
      FirstTruthy3(b, c, d);
    }
  }

  /** `toLowerCase` on the characters the model covers: ASCII letters and the
      upper-case letters of Latin-1 (U+00C0 to U+00DE except U+00D7). */
  function LowerChar(c: char): char {
    if 'A' <= c <= 'Z' || ('À' <= c <= 'Þ' && c != '×')
    then (c as int + 32) as char
    else c
  }

  predicate IsUpper(c: char) {
    'A' <= c <= 'Z' || ('À' <= c <= 'Þ' && c != '×')
  }

  function Lower(s: string): (r: string)
    ensures |r| == |s|
    ensures forall i :: 0 <= i < |s| ==> r[i] == LowerChar(s[i])
    ensures forall i :: 0 <= i < |r| ==> !IsUpper(r[i])
  {
    if s == [] then [] else [LowerChar(s[0])] + Lower(s[1..])
  }

  /** Lower-casing twice is lower-casing once. */
  lemma LowerIdempotent(s: string)
    ensures Lower(Lower(s)) == Lower(s)
  {
    var l := Lower(s);
    assert forall i :: 0 <= i < |l| ==> LowerChar(l[i]) == l[i];
  }

  predicate IsPrefix(t: string, s: string) {
    |t| <= |s| && s[..|t|] == t
  }

  /** `s.includes(t)`. */
  predicate Contains(s: string, t: string)
    ensures Contains(s, t) ==> |t| <= |s|
    decreases |s|
  {
    IsPrefix(t, s) || (|t| < |s| && Contains(s[1..], t))
  }

  /** `t` occurs in `s` starting at index `i`. */
  predicate OccursAt(s: string, t: string, i: int) {
    0 <= i && i + |t| <= |s| && s[i..i + |t|] == t
  }

  /** `t` occurs in `s` at some index once both are lower-cased: what
      `s.toLowerCase().includes(t.toLowerCase())` means. */
  ghost predicate HasIgnoringCase(s: string, t: string) {
    exists i :: OccursAt(Lower(s), Lower(t), i)
  }

  /** `Contains` is substring occurrence at some index. */
  lemma {:induction false} ContainsIff(s: string, t: string)
    ensures Contains(s, t) <==> exists i :: OccursAt(s, t, i)
    decreases |s|
  {
    if exists i :: OccursAt(s, t, i) {
      var i :| OccursAt(s, t, i);
      if i == 0 {
        assert s[..|t|] == s[0..0 + |t|];
      } else {
        var u := s[1..];
        ContainsIff(u, t);
        assert u[i - 1..i - 1 + |t|] == s[i..i + |t|];
        assert OccursAt(u, t, i - 1);
      }
    }
    if Contains(s, t) {
      if IsPrefix(t, s) {
        assert OccursAt(s, t, 0);
      } else {
        ContainsIff(s[1..], t);
        var i :| OccursAt(s[1..], t, i);
        assert s[i + 1..i + 1 + |t|] == s[1..][i..i + |t|];
        assert OccursAt(s, t, i + 1);
      }
    }
  }

  /** The empty string is contained in every string. */
  lemma ContainsEmpty(s: string)
    ensures Contains(s, "")
  {
    assert IsPrefix("", s);
  }

  function DigitChar(d: nat): (c: char)
    requires d < 10
    ensures '0' <= c <= '9'
  {
    "0123456789"[d]
  }

  function DigitValue(c: char): nat {
    if '0' <= c <= '9' then c as int - '0' as int else 0
  }

  /** `String(n)` for a non-negative integer: its decimal digits, no leading zero. */
  function NatToString(n: nat): (r: string)
    ensures |r| > 0
    ensures forall i :: 0 <= i < |r| ==> '0' <= r[i] <= '9'
    ensures |r| > 1 ==> r[0] != '0'
    decreases n
  {
    if n < 10 then [DigitChar(n)] else NatToString(n / 10) + [DigitChar(n % 10)]
  }

  /** Reads a string of decimal digits back as a number. */
  function DecimalValue(s: string): nat {
    if s == [] then 0 else DecimalValue(s[..|s| - 1]) * 10 + DigitValue(s[|s| - 1])
  }

  lemma {:induction false} DecimalRoundTrip(n: nat)
    ensures DecimalValue(NatToString(n)) == n
    decreases n
  {
    var r := NatToString(n);
    if n < 10 {
      assert "0123456789"[n] as int - '0' as int == n;
    } else {
      DecimalRoundTrip(n / 10);
      assert r[..|r| - 1] == NatToString(n / 10);
      assert "0123456789"[n % 10] as int - '0' as int == n % 10;
    }
  }

  /** `String(i)` for any integer. */
  function IntToString(i: int): (r: string)
    ensures |r| > 0
    ensures r[0] == '-' <==> i < 0
  {
    if i < 0 then "-" + NatToString(-i) else NatToString(i)
  }
}
