/** The forgot-password form: the blank and format guards on the trimmed
    email, and the request that sends the reset code. */
module ForgotPassword {
  import opened Wrappers
  import opened Text

  /** A character that the class `[^\s@]` accepts. */
  predicate Plain(c: char) {
    !IsSpace(c) && c != '@'
  }

  predicate AllPlain(s: string) {
    forall i :: 0 <= i < |s| ==> Plain(s[i])
  }

  /** `s` splits as the pattern below requires, with its `@` at `at` and
      the separating dot at `dot`. */
  predicate SplitsAt(s: string, at: int, dot: int) {
    0 < at && at + 1 < dot && dot + 1 < |s| && s[at] == '@' && s[dot] == '.' &&
    AllPlain(s[..at]) && AllPlain(s[at + 1..dot]) && AllPlain(s[dot + 1..])
  }

  /** The regular expression `^[^\s@]+@[^\s@]+\.[^\s@]+$`: a non-empty
      local part, an `@`, a non-empty domain name, a dot and a non-empty
      last label, none of which contains white space or `@`. */
  ghost predicate MatchesEmailPattern(s: string)
    ensures MatchesEmailPattern(s) ==> |s| >= 5 && s[0] != '@' && s[|s| - 1] != '@'
  {
    var r := exists at, dot :: SplitsAt(s, at, dot);
    if r then
      var at, dot :| SplitsAt(s, at, dot);
      assert s[0] == s[..at][0];
      assert s[|s| - 1] == s[dot + 1..][|s| - dot - 2];
      r
    else r
  }

  /** The index of the first `c` in `s`. */
  function IndexOf(s: string, c: char): (r: Option<nat>)
    ensures r.None? ==> c !in s
    ensures r.Some? ==> r.value < |s| && s[r.value] == c && c !in s[..r.value]
  {
    if s == [] then None
    else if s[0] == c then Some(0)
    else match IndexOf(s[1..], c)
      case None => None
      case Some(i) =>
        assert s[..i + 1] == [s[0]] + s[1..][..i];
        Some(i + 1)
  }

  /** Only the first occurrence can have no earlier occurrence. */
  lemma {:induction false} IndexOfFirst(s: string, c: char, i: nat)
    requires i < |s| && s[i] == c && c !in s[..i]
    ensures IndexOf(s, c) == Some(i)
  {
    if i > 0 {
      assert s[0] in s[..i];
      assert s[1..][..i - 1] == s[1..i];
      assert forall x :: x in s[1..i] ==> x in s[..i];
      IndexOfFirst(s[1..], c, i - 1);
    }
  }

  /** A decision procedure for the pattern: a first `@` that is not at the
      start, everything after it plain, and a dot strictly inside that
      remainder (neither its first nor its last character). */
  function ValidEmail(s: string): (r: bool)
    ensures r ==> |s| >= 5 && s[0] != '@' && '@' in s
  {
    match IndexOf(s, '@')
    case None => false
    case Some(at) =>
      var rest := s[at + 1..];
      at > 0 && AllPlain(s[..at]) && AllPlain(rest) && |rest| >= 3 && '.' in rest[1..|rest| - 1]
  }

  lemma AllPlainSlice(s: string, i: int, j: int)
    requires AllPlain(s) && 0 <= i <= j <= |s|
    ensures AllPlain(s[i..j])
  {
    forall k | 0 <= k < j - i ensures Plain(s[i..j][k]) {
      assert s[i..j][k] == s[i + k];
    }
  }

  lemma AllPlainNoAt(s: string)
    requires AllPlain(s)
    ensures '@' !in s
  {
    forall k | 0 <= k < |s| ensures s[k] != '@' {
      assert Plain(s[k]);
    }
  }

  lemma {:induction false} AllPlainJoin(a: string, c: char, b: string)
    requires AllPlain(a) && Plain(c) && AllPlain(b)
    ensures AllPlain(a + [c] + b)
  {
    var s := a + [c] + b;
    forall i | 0 <= i < |s| ensures Plain(s[i]) {
      if i < |a| { assert s[i] == a[i]; }
      else if i == |a| { assert s[i] == c; }
      else { assert s[i] == b[i - |a| - 1]; }
    }
  }

  /** A string the decision procedure accepts splits as the pattern asks. */
  lemma SplitOfValid(s: string) returns (at: int, dot: int)
    requires ValidEmail(s)
    ensures SplitsAt(s, at, dot)
  {
    at := IndexOf(s, '@').value;
    var rest := s[at + 1..];
    var mid := rest[1..|rest| - 1];
    var k :| 0 <= k < |mid| && mid[k] == '.';
    dot := at + 2 + k;
    assert s[at + 1..dot] == rest[..k + 1];
    assert s[dot + 1..] == rest[k + 2..];
    AllPlainSlice(rest, 0, k + 1);
    AllPlainSlice(rest, k + 2, |rest|);
    assert rest[k + 2..|rest|] == rest[k + 2..];
  }

  /** A string that splits as the pattern asks is accepted. */
  lemma ValidOfSplit(s: string, at: int, dot: int)
    requires SplitsAt(s, at, dot)
    ensures ValidEmail(s)
  {
    AllPlainNoAt(s[..at]);
    IndexOfFirst(s, '@', at);
    var rest := s[at + 1..];
    assert rest == s[at + 1..dot] + [s[dot]] + s[dot + 1..];
    AllPlainJoin(s[at + 1..dot], s[dot], s[dot + 1..]);
    assert rest[1..|rest| - 1][dot - at - 2] == '.';
  }

  /** The decision procedure accepts exactly the strings the pattern
      matches. */
  lemma EmailPatternIff(s: string)
    ensures ValidEmail(s) <==> MatchesEmailPattern(s)
  {
    if ValidEmail(s) {
      var at, dot := SplitOfValid(s);
    }
    if MatchesEmailPattern(s) {
      var at, dot :| SplitsAt(s, at, dot);
      ValidOfSplit(s, at, dot);
    }
  }

  datatype ForgotIssue = BlankEmail | InvalidEmail

  /** The body of the reset-code request; the same email is also handed to
      the reset-password screen as its route parameter. */
  datatype ResetCodeRequest = ResetCodeRequest(email: string)

  /** The forgot-password handler up to the request. The guards test the
      trimmed email, and the trimmed email is what is sent and what the
      next screen receives. */
  function RequestResetCode(email: string): (r: Result<ResetCodeRequest, ForgotIssue>)
    ensures r == Failure(BlankEmail) <==> AllSpace(email)
    ensures r == Failure(InvalidEmail) <==> !AllSpace(email) && !MatchesEmailPattern(Trim(email))
    ensures r.Success? <==> MatchesEmailPattern(Trim(email))
    ensures r.Success? ==> r.value.email == Trim(email)
  {
    TrimEmptyIff(email);
    EmailPatternIff(Trim(email));
    if Trim(email) == [] then Failure(BlankEmail)
    else if !ValidEmail(Trim(email)) then Failure(InvalidEmail)
    else Success(ResetCodeRequest(Trim(email)))
  }

  /** An accepted email has no white space at all and exactly one `@`. */
  lemma AcceptedEmailShape(email: string)
    requires RequestResetCode(email).Success?
    ensures var e := RequestResetCode(email).value.email;
      (forall i :: 0 <= i < |e| ==> !IsSpace(e[i])) &&
      (exists at :: 0 < at < |e| && e[at] == '@' && '@' !in e[..at] && '@' !in e[at + 1..])
  {
    var e := Trim(email);
    var at, dot :| SplitsAt(e, at, dot);
    ValidOfSplit(e, at, dot);
    var rest := e[at + 1..];
    AllPlainNoAt(e[..at]);
    AllPlainNoAt(rest);
    forall i | 0 <= i < |e| ensures !IsSpace(e[i]) {
      if i < at { assert e[i] == e[..at][i]; }
      else if i > at { assert e[i] == rest[i - at - 1]; }
    }
  }

  /** Surrounding white space is forgiven: the pattern is tested on the
      trimmed email. */
  lemma PaddedEmailAccepted()
    ensures RequestResetCode(" a@b.co ") == Success(ResetCodeRequest("a@b.co"))
  {
    var e := "a@b.co";
    TrimUnique(" ", e, " ");
    assert " " + e + " " == " a@b.co ";
    assert SplitsAt(e, 1, 3);
  }
}
