/** The handful of JavaScript string operations the screens rely on:
    `trim`, `toLowerCase`, `includes` and the `a || b` fallback on
    optional strings. Strings are sequences of characters. */
module Text {
  import opened Wrappers

  /** The characters JavaScript's `trim` removes and the regular-expression
      class `\s` matches: ECMAScript WhiteSpace and LineTerminator. */
  predicate IsSpace(c: char) {
    c == '\t' || c == '\n' || c == '\U{B}' || c == '\U{C}' || c == '\r' ||
    c == ' ' || c == '\U{A0}' || c == '\U{1680}' ||
    ('\U{2000}' <= c <= '\U{200A}') ||
    c == '\U{2028}' || c == '\U{2029}' || c == '\U{202F}' || c == '\U{205F}' ||
    c == '\U{3000}' || c == '\U{FEFF}'
  }

  predicate AllSpace(s: string) {
    forall i :: 0 <= i < |s| ==> IsSpace(s[i])
  }

  /** Neither end of `s` is white space. */
  predicate Trimmed(s: string) {
    s == [] || (!IsSpace(s[0]) && !IsSpace(s[|s| - 1]))
  }

  function TrimStart(s: string): (r: string)
    ensures |r| <= |s|
    ensures r == [] || !IsSpace(r[0])
  {
    if s != [] && IsSpace(s[0]) then TrimStart(s[1..]) else s
  }

  function TrimEnd(s: string): (r: string)
    ensures |r| <= |s|
    ensures r == [] || !IsSpace(r[|r| - 1])
  {
    if s != [] && IsSpace(s[|s| - 1]) then TrimEnd(s[..|s| - 1]) else s
  }

  /** `TrimStart` removes a white-space prefix. */
  lemma {:induction false} TrimStartSuffix(s: string)
    ensures TrimStart(s) == s[|s| - |TrimStart(s)|..]
    ensures AllSpace(s[..|s| - |TrimStart(s)|])
  {
    if s != [] && IsSpace(s[0]) {
      TrimStartSuffix(s[1..]);
      var k := |s| - |TrimStart(s)|;
      assert s[1..][..k - 1] == s[1..k];
      assert forall i :: 1 <= i < k ==> s[..k][i] == s[1..k][i - 1];
    }
  }

  /** `TrimEnd` removes a white-space suffix. */
  lemma {:induction false} TrimEndPrefix(s: string)
    ensures TrimEnd(s) == s[..|TrimEnd(s)|]
    ensures AllSpace(s[|TrimEnd(s)|..])
  {
    if s != [] && IsSpace(s[|s| - 1]) {
      var p := s[..|s| - 1];
      TrimEndPrefix(p);
      var k := |TrimEnd(s)|;
      assert p[..k] == s[..k];
      assert forall j :: 0 <= j < |s| - 1 - k ==> s[k..][j] == p[k..][j];
    }
  }

  /** `s.trim()`: `s` without its leading and trailing white space. */
  function Trim(s: string): (r: string)
    ensures Trimmed(r) && |r| <= |s|
  {
    TrimEndPrefix(TrimStart(s));
    TrimEnd(TrimStart(s))
  }

  lemma SliceJoin(s: string, k: int)
    requires 0 <= k <= |s|
    ensures s == s[..k] + s[k..]
  {
  }

  /** `s` is its trimmed form surrounded by white space. */
  lemma {:induction false} TrimSplit(s: string) returns (front: string, back: string)
    ensures AllSpace(front) && AllSpace(back) && s == front + Trim(s) + back
  {
    var t := TrimStart(s);
    var r := TrimEnd(t);
    TrimStartSuffix(s);
    TrimEndPrefix(t);
    front, back := s[..|s| - |t|], t[|r|..];
    SliceJoin(s, |s| - |t|);
    SliceJoin(t, |r|);
    assert s == front + (r + back);
  }

  lemma {:induction false} AllSpaceAppend(a: string, b: string)
    ensures AllSpace(a + b) <==> AllSpace(a) && AllSpace(b)
  {
    if AllSpace(a) && AllSpace(b) {
      forall i | 0 <= i < |a + b| ensures IsSpace((a + b)[i]) {
        if i < |a| { assert (a + b)[i] == a[i]; } else { assert (a + b)[i] == b[i - |a|]; }
      }
    }
    if AllSpace(a + b) {
      forall i | 0 <= i < |a| ensures IsSpace(a[i]) {
        assert (a + b)[i] == a[i];
      }
      forall i | 0 <= i < |b| ensures IsSpace(b[i]) {
        assert (a + b)[|a| + i] == b[i];
      }
    }
  }

  lemma {:induction false} TrimStartUnique(front: string, rest: string)
    requires AllSpace(front) && (rest == [] || !IsSpace(rest[0]))
    ensures TrimStart(front + rest) == rest
  {
    if front == [] {
      assert front + rest == rest;
    } else {
      assert (front + rest)[0] == front[0];
      assert (front + rest)[1..] == front[1..] + rest;
      TrimStartUnique(front[1..], rest);
    }
  }

  lemma {:induction false} TrimEndUnique(rest: string, back: string)
    requires AllSpace(back) && (rest == [] || !IsSpace(rest[|rest| - 1]))
    ensures TrimEnd(rest + back) == rest
  {
    if back == [] {
      assert rest + back == rest;
    } else {
      var s := rest + back;
      assert s[|s| - 1] == back[|back| - 1];
      assert s[..|s| - 1] == rest + back[..|back| - 1];
      TrimEndUnique(rest, back[..|back| - 1]);
    }
  }

  /** Trimming is determined by the decomposition: whatever white space
      surrounds a trimmed middle part, `trim` returns exactly that part. */
  lemma {:induction false} TrimUnique(front: string, middle: string, back: string)
    requires AllSpace(front) && AllSpace(back) && Trimmed(middle)
    ensures Trim(front + middle + back) == middle
  {
    if middle == [] {
      AllSpaceAppend(front, back);
      assert front + middle + back == (front + back) + [];
      TrimStartUnique(front + back, []);
    } else {
      assert front + middle + back == front + (middle + back);
      assert (middle + back)[0] == middle[0];
      TrimStartUnique(front, middle + back);
      TrimEndUnique(middle, back);
    }
  }

  lemma TrimEmptyIff(s: string)
    ensures Trim(s) == [] <==> AllSpace(s)
  {
    var r := Trim(s);
    var f, b := TrimSplit(s);
    if r == [] {
      AllSpaceAppend(f, b);
      assert s == f + b;
    } else {
      assert s[|f|] == r[0];
    }
  }

  lemma TrimIdempotent(s: string)
    ensures Trim(Trim(s)) == Trim(s)
  {
    TrimUnique([], Trim(s), []);
    assert [] + Trim(s) + [] == Trim(s);
  }

  /** ASCII lower-casing of one character. */
  function LowerChar(c: char): char {
    if 'A' <= c <= 'Z' then (c as int + 32) as char else c
  }

  /** `s.toLowerCase()` on ASCII letters; other characters are kept. */
  function ToLower(s: string): (r: string)
    ensures |r| == |s|
  {
    if s == [] then [] else [LowerChar(s[0])] + ToLower(s[1..])
  }

  lemma {:induction false} ToLowerAppend(a: string, b: string)
    ensures ToLower(a + b) == ToLower(a) + ToLower(b)
  {
    if a == [] {
      assert a + b == b;
    } else {
      assert (a + b)[0] == a[0];
      assert (a + b)[1..] == a[1..] + b;
      ToLowerAppend(a[1..], b);
    }
  }

  lemma {:induction false} ToLowerAt(s: string, i: int)
    requires 0 <= i < |s|
    ensures ToLower(s)[i] == LowerChar(s[i])
  {
    if i > 0 {
      ToLowerAt(s[1..], i - 1);
    }
  }

  lemma LowerCharSpace(c: char)
    ensures IsSpace(LowerChar(c)) == IsSpace(c)
  {
  }

  lemma AllSpaceToLower(s: string)
    ensures AllSpace(ToLower(s)) == AllSpace(s)
  {
    forall i | 0 <= i < |s| ensures IsSpace(ToLower(s)[i]) == IsSpace(s[i]) {
      ToLowerAt(s, i);
      LowerCharSpace(s[i]);
    }
  }

  /** Lower-casing and trimming commute, so `s.toLowerCase().trim()` is
      also the lower-cased trimmed string. */
  lemma {:induction false} ToLowerTrimCommute(s: string)
    ensures Trim(ToLower(s)) == ToLower(Trim(s))
  {
    var r := Trim(s);
    var f, b := TrimSplit(s);
    ToLowerAppend(f + r, b);
    ToLowerAppend(f, r);
    AllSpaceToLower(f);
    AllSpaceToLower(b);
    var lr := ToLower(r);
    if r != [] {
      ToLowerAt(r, 0);
      ToLowerAt(r, |r| - 1);
      LowerCharSpace(r[0]);
      LowerCharSpace(r[|r| - 1]);
    }
    assert Trimmed(lr);
    TrimUnique(ToLower(f), lr, ToLower(b));
  }

  /** `s` begins with `w`. */
  predicate StartsWith(s: string, w: string) {
    w == [] || (s != [] && s[0] == w[0] && StartsWith(s[1..], w[1..]))
  }

  /** `s.includes(w)`: `w` occurs somewhere in `s`. */
  predicate Contains(s: string, w: string) {
    StartsWith(s, w) || (s != [] && Contains(s[1..], w))
  }

  /** A string that begins with `w + more` begins with `w`. */
  lemma {:induction false} StartsWithPrefix(s: string, w: string, more: string)
    requires StartsWith(s, w + more)
    ensures StartsWith(s, w)
  {
    if w != [] {
      assert (w + more)[0] == w[0] && (w + more)[1..] == w[1..] + more;
      StartsWithPrefix(s[1..], w[1..], more);
    }
  }

  /** A string that contains `w + more` contains `w`. */
  lemma {:induction false} ContainsPrefix(s: string, w: string, more: string)
    requires Contains(s, w + more)
    ensures Contains(s, w)
  {
    if StartsWith(s, w + more) {
      StartsWithPrefix(s, w, more);
    } else {
      ContainsPrefix(s[1..], w, more);
    }
  }

  /** JavaScript's `a || fallback` where `a` is an optional string: an absent
      or empty `a` is falsy. */
  function Or(a: Option<string>, fallback: string): (r: string)
    ensures r == fallback || (a.Some? && r == a.value && r != [])
    ensures a.Some? && a.value != [] ==> r == a.value
  {
    if a.Some? && a.value != [] then a.value else fallback
  }
}
