/** The contact-number rules of the report form: what typing keeps, how the
    stored digits are shown, how a stored profile number is pre-filled and
    what is sent with the report. */
module ContactNumber {
  import opened Wrappers

  /** The form holds at most this many digits (the number without the
      country code and without its leading zero). */
  const MaxDigits := 10

  /** Prefix sent in front of the stored digits. */
  const CountryCode := "+63"

  predicate IsDigit(c: char) {
    '0' <= c <= '9'
  }

  predicate AllDigits(s: string) {
    forall i :: 0 <= i < |s| ==> IsDigit(s[i])
  }

  /** The digits of `text`, in order, and nothing else (the effect of
      replacing every non-digit by nothing). */
  function KeepDigits(text: string): (r: string)
    ensures AllDigits(r)
    ensures |r| <= |text|
    ensures AllDigits(text) ==> r == text
  {
    if text == [] then []
    else (if IsDigit(text[0]) then [text[0]] else []) + KeepDigits(text[1..])
  }

  /** Filtering is done character by character: it distributes over
      concatenation, so a digit is kept wherever it stands and any other
      character is dropped wherever it stands. */
  lemma {:induction false} KeepDigitsAppend(a: string, b: string)
    ensures KeepDigits(a + b) == KeepDigits(a) + KeepDigits(b)
  {
    if a == [] {
      assert a + b == b;
    } else {
      assert (a + b)[0] == a[0];
      assert (a + b)[1..] == a[1..] + b;
      KeepDigitsAppend(a[1..], b);
    }
  }

  /** On a single character the filter keeps a digit and drops anything
      else; with `KeepDigitsAppend` this fixes the result on every input:
      the digits of the text, in their order, and nothing more. */
  lemma KeepDigitsOne(c: char)
    ensures KeepDigits([c]) == if IsDigit(c) then [c] else []
  {
    assert [c][1..] == [];
  }

  /** The filter drops every non-digit: a text whose characters are none of
      them digits leaves nothing. */
  lemma {:induction false} KeepDigitsNoDigits(text: string)
    requires forall i :: 0 <= i < |text| ==> !IsDigit(text[i])
    ensures KeepDigits(text) == []
  {
    if text != [] {
      KeepDigitsNoDigits(text[1..]);
    }
  }

  /** The number shown in the field: the first three characters, a space,
      the next three, a space, the rest; fewer groups when it is shorter. */
  function Grouped(n: string): (r: string)
    ensures |r| == |n| + (if |n| <= 3 then 0 else if |n| <= 6 then 1 else 2)
    ensures r[..if |n| <= 3 then |n| else 3] == n[..if |n| <= 3 then |n| else 3]
  {
    if |n| > 6 then n[..3] + " " + n[3..6] + " " + n[6..]
    else if |n| > 3 then n[..3] + " " + n[3..]
    else n
  }

  /** `s` with every space taken out. */
  function RemoveSpaces(s: string): (r: string)
    ensures ' ' !in r
    ensures ' ' !in s ==> r == s
  {
    if s == [] then []
    else (if s[0] == ' ' then [] else [s[0]]) + RemoveSpaces(s[1..])
  }

  lemma {:induction false} RemoveSpacesAppend(a: string, b: string)
    ensures RemoveSpaces(a + b) == RemoveSpaces(a) + RemoveSpaces(b)
  {
    if a == [] {
      assert a + b == b;
    } else {
      assert (a + b)[0] == a[0];
      assert (a + b)[1..] == a[1..] + b;
      RemoveSpacesAppend(a[1..], b);
    }
  }

  /** A separating space disappears when the spaces are taken out. */
  lemma {:induction false} RemoveSpacesAroundSpace(x: string, y: string)
    ensures RemoveSpaces(x + " " + y) == RemoveSpaces(x) + RemoveSpaces(y)
  {
    var sp := " ";
    assert RemoveSpaces(sp) == [] by {
      assert sp[0] == ' ' && sp[1..] == [];
    }
    RemoveSpacesAppend(x + sp, y);
    RemoveSpacesAppend(x, sp);
    assert RemoveSpaces(x + sp) == RemoveSpaces(x);
  }

  lemma {:induction false} NoSpaceSlice(n: string, i: int, j: int)
    requires ' ' !in n && 0 <= i <= j <= |n|
    ensures ' ' !in n[i..j]
  {
    assert forall k :: 0 <= k < j - i ==> n[i..j][k] == n[i + k];
  }

  /** Taking the spaces out of the displayed number gives back the stored
      number, for any stored number that has no spaces of its own (every
      digit string). */
  lemma {:induction false} GroupedRoundTrip(n: string)
    requires ' ' !in n
    ensures RemoveSpaces(Grouped(n)) == n
  {
    if |n| > 6 {
      NoSpaceSlice(n, 0, 3);
      NoSpaceSlice(n, 3, 6);
      NoSpaceSlice(n, 6, |n|);
      RemoveSpacesAroundSpace(n[..3] + " " + n[3..6], n[6..]);
      RemoveSpacesAroundSpace(n[..3], n[3..6]);
      assert n[..3] + n[3..6] + n[6..] == n;
    } else if |n| > 3 {
      NoSpaceSlice(n, 0, 3);
      NoSpaceSlice(n, 3, |n|);
      RemoveSpacesAroundSpace(n[..3], n[3..]);
      assert n[..3] + n[3..] == n;
    }
  }

  /** Positions of the spaces in `s`. */
  function SpaceIndices(s: string): set<int> {
    set i | 0 <= i < |s| && s[i] == ' '
  }

  /** The display of a space-free number has no space for up to three
      characters, one after the third for four to six, and one after the
      third and one after the sixth character (index 7 in the display) for
      seven or more. */
  lemma GroupedSpaces(n: string)
    requires ' ' !in n
    ensures SpaceIndices(Grouped(n)) == if |n| <= 3 then {} else if |n| <= 6 then {3} else {3, 7}
  {
    var r := Grouped(n);
    if |n| > 6 {
      forall i | 0 <= i < |r| ensures r[i] == ' ' <==> i == 3 || i == 7 {
        if i < 3 { assert r[i] == n[i]; }
        else if 3 < i < 7 { assert r[i] == n[i - 1]; }
        else if i > 7 { assert r[i] == n[i - 2]; }
      }
    } else if |n| > 3 {
      forall i | 0 <= i < |r| ensures r[i] == ' ' <==> i == 3 {
        if i < 3 { assert r[i] == n[i]; }
        else if i > 3 { assert r[i] == n[i - 1]; }
      }
    } else {
      forall i | 0 <= i < |r| ensures r[i] != ' ' {
        assert r[i] == n[i];
      }
    }
  }

  /** The digits kept from a profile's stored contact number: a number of
      exactly eleven characters that starts with `0` loses that zero;
      any other stored number is not used. */
  function PrefillDigits(contact: string): (r: Option<string>)
    ensures r.Some? <==> |contact| == 11 && contact[0] == '0'
    ensures r.Some? ==> |r.value| == MaxDigits && contact == "0" + r.value
    ensures r.Some? ==> Grouped(r.value) == r.value[..3] + " " + r.value[3..6] + " " + r.value[6..]
    ensures r.Some? ==> |r.value[6..]| == 4
  {
    if |contact| > 0 && contact[0] == '0' && |contact| == 11 then Some(contact[1..]) else None
  }

  /** The contact value sent with a report. */
  function WithCountryCode(n: string): (r: string)
    ensures |r| == |CountryCode| + |n| && r[..|CountryCode|] == CountryCode && r[|CountryCode|..] == n
  {
    CountryCode + n
  }

  /** A profile number pre-filled and then sent unedited goes out as its
      international form: the leading `0` replaced by `+63`. */
  lemma PrefillThenSend(contact: string)
    requires PrefillDigits(contact).Some?
    ensures WithCountryCode(PrefillDigits(contact).value) == CountryCode + contact[1..]
    ensures |WithCountryCode(PrefillDigits(contact).value)| == 13
  {
    var n := PrefillDigits(contact).value;
    assert contact[1..] == n;
  }
}
