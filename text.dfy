/** Python's `str.strip()` and `str.lower()`, as the reversal handler applies them to
    a record's Status and TransactionType before comparing them with lowercase words. */
module Text {

  /** The characters Python's `str.isspace()` accepts, which `strip()` removes. */
  predicate IsSpace(c: char) {
    || c == ' ' || c == '\t' || c == '\n' || c == '\r'
    || c == '\U{000B}' || c == '\U{000C}'
    || ('\U{001C}' <= c <= '\U{001F}')
    || c == '\U{0085}' || c == '\U{00A0}' || c == '\U{1680}'
    || ('\U{2000}' <= c <= '\U{200A}')
    || c == '\U{2028}' || c == '\U{2029}' || c == '\U{202F}' || c == '\U{205F}' || c == '\U{3000}'
  }

  predicate AllSpace(s: string) {
    forall i :: 0 <= i < |s| ==> IsSpace(s[i])
  }

  /** `lstrip()`: the longest whitespace prefix removed. */
  function TrimLeft(s: string): (r: string)
    ensures |r| <= |s| && r == s[|s| - |r|..]
    ensures AllSpace(s[..|s| - |r|])
    ensures r != [] ==> !IsSpace(r[0])
    decreases |s|
  {
    if s != [] && IsSpace(s[0]) then
      var r := TrimLeft(s[1..]);
      DropLeadingSpace(s, r);
      r
    else s
  }

  /** `rstrip()`: the longest whitespace suffix removed. */
  function TrimRight(s: string): (r: string)
    ensures |r| <= |s| && r == s[..|r|]
    ensures AllSpace(s[|r|..])
    ensures r != [] ==> !IsSpace(r[|r| - 1])
    decreases |s|
  {
    if s != [] && IsSpace(s[|s| - 1]) then
      var r := TrimRight(s[..|s| - 1]);
      DropTrailingSpace(s, r);
      r
    else s
  }

  /** A whitespace character in front of what is left of the rest joins the removed
      prefix. */
  lemma DropLeadingSpace(s: string, r: string)
    requires s != [] && IsSpace(s[0])
    requires |r| < |s| && r == s[1..][|s| - 1 - |r|..] && AllSpace(s[1..][..|s| - 1 - |r|])
    ensures r == s[|s| - |r|..] && AllSpace(s[..|s| - |r|])
  {
    var k := |s| - |r|;
    forall i | 0 < i < k
      ensures IsSpace(s[..k][i])
    {
      assert s[..k][i] == s[1..][..k - 1][i - 1];
    }
  }

  /** A whitespace character behind what is left of the rest joins the removed
      suffix. */
  lemma DropTrailingSpace(s: string, r: string)
    requires s != [] && IsSpace(s[|s| - 1])
    requires |r| < |s| && r == s[..|s| - 1][..|r|] && AllSpace(s[..|s| - 1][|r|..])
    ensures r == s[..|r|] && AllSpace(s[|r|..])
  {
    var k := |r|;
    forall i | 0 <= i < |s| - k - 1
      ensures IsSpace(s[k..][i])
    {
      assert s[k..][i] == s[..|s| - 1][k..][i];
    }
  }

  /** `strip()`. */
  function Trim(s: string): (r: string)
    ensures |r| <= |s|
    // the result is the input with a whitespace prefix and a whitespace suffix cut off ...
    ensures exists i, j :: 0 <= i <= j <= |s| && r == s[i..j] && AllSpace(s[..i]) && AllSpace(s[j..])
    // ... and neither starts nor ends with whitespace
    ensures r != [] ==> !IsSpace(r[0]) && !IsSpace(r[|r| - 1])
    ensures AllSpace(s) <==> r == []
  {
    var l := TrimLeft(s);
    var r := TrimRight(l);
    SliceBetweenSpace(s, l, r);
    StripsToEmpty(s, l, r);
    r
  }

  /** Stripping leaves nothing exactly when the input is all whitespace. */
  lemma StripsToEmpty(s: string, l: string, r: string)
    requires l == TrimLeft(s) && r == TrimRight(l)
    ensures AllSpace(s) <==> r == []
  {
    var i := |s| - |l|;
    if r == [] {
      // what lstrip() leaves does not start with whitespace, so rstrip() removes
      // nothing of it only when it is empty
      assert AllSpace(l) by { assert l[|r|..] == l; }
      assert l == [];
      assert s[..i] == s;
    } else {
      assert r[0] == s[i];
    }
  }

  /** Cutting a whitespace prefix off `s`, and then a whitespace suffix off what is
      left, keeps a slice of `s` with only whitespace around it. */
  lemma SliceBetweenSpace(s: string, l: string, t: string)
    requires |l| <= |s| && l == s[|s| - |l|..] && AllSpace(s[..|s| - |l|])
    requires |t| <= |l| && t == l[..|t|] && AllSpace(l[|t|..])
    ensures exists i, j :: 0 <= i <= j <= |s| && t == s[i..j] && AllSpace(s[..i]) && AllSpace(s[j..])
  {
    var i, j := |s| - |l|, |s| - |l| + |t|;
    assert t == s[i..j];
    assert l[|t|..] == s[j..];
  }

  /** `lower()` on one character; only the ASCII letters are mapped. */
  function LowerChar(c: char): (d: char)
    ensures IsSpace(d) == IsSpace(c)
    ensures !('A' <= d <= 'Z')
    // an uppercase ASCII letter becomes its lowercase letter; anything else is kept
    ensures 'A' <= c <= 'Z' ==> d == (c as int + 32) as char
    ensures !('A' <= c <= 'Z') ==> d == c
  {
    if 'A' <= c <= 'Z' then (c as int + 32) as char else c
  }

  /** `lower()`. */
  function Lower(s: string): (r: string)
    ensures |r| == |s|
    // no uppercase ASCII letter is left: each becomes its lowercase letter ...
    ensures forall i :: 0 <= i < |r| ==> !('A' <= r[i] <= 'Z')
    ensures forall i :: 0 <= i < |s| && 'A' <= s[i] <= 'Z' ==> r[i] == (s[i] as int + 32) as char
    // ... every other character is kept, and whitespace stays whitespace
    ensures forall i :: 0 <= i < |s| && !('A' <= s[i] <= 'Z') ==> r[i] == s[i]
    ensures forall i :: 0 <= i < |s| ==> IsSpace(r[i]) == IsSpace(s[i])
  {
    seq(|s|, i requires 0 <= i < |s| => LowerChar(s[i]))
  }

  /** `strip().lower()`: the form in which the reversal handler compares Status and
      TransactionType. */
  function Normalize(s: string): (r: string)
    ensures |r| <= |s|
    // the result is the lowercased input with a whitespace prefix and suffix cut off
    ensures exists i, j :: 0 <= i <= j <= |s| && r == Lower(s[i..j]) && AllSpace(s[..i]) && AllSpace(s[j..])
    ensures forall i :: 0 <= i < |r| ==> !('A' <= r[i] <= 'Z')
    ensures r != [] ==> !IsSpace(r[0]) && !IsSpace(r[|r| - 1])
    ensures AllSpace(s) <==> r == []
  {
    Lower(Trim(s))
  }

  /** A string that does not start with whitespace is its own left-stripped form. */
  lemma TrimLeftKeeps(s: string)
    requires s != [] && !IsSpace(s[0])
    ensures TrimLeft(s) == s
  {
  }

  /** A string that does not end with whitespace is its own right-stripped form. */
  lemma TrimRightKeeps(s: string)
    requires s != [] && !IsSpace(s[|s| - 1])
    ensures TrimRight(s) == s
  {
  }

  /** Lowercasing twice is lowercasing once. */
  lemma LowerIdempotent(s: string)
    ensures Lower(Lower(s)) == Lower(s)
  {
  }

  lemma TrimIdempotent(s: string)
    ensures Trim(Trim(s)) == Trim(s)
  {
    var t := Trim(s);
    assert TrimLeft(t) == t;
    assert TrimRight(t) == t;
  }

  /** Normalizing twice is normalizing once: a normalized word compares as itself. */
  lemma NormalizeIdempotent(s: string)
    ensures Normalize(Normalize(s)) == Normalize(s)
  {
    TrimLower(Trim(s));
    TrimIdempotent(s);
    LowerIdempotent(Trim(s));
  }

  /** Lowercasing works character by character, so it commutes with slicing. */
  lemma LowerSlices(s: string, n: nat)
    requires n <= |s|
    ensures Lower(s)[..n] == Lower(s[..n]) && Lower(s)[n..] == Lower(s[n..])
  {
  }

  lemma {:induction false} TrimLeftLower(s: string)
    ensures TrimLeft(Lower(s)) == Lower(TrimLeft(s))
    decreases |s|
  {
    if s != [] {
      assert Lower(s)[0] == LowerChar(s[0]);
      if IsSpace(s[0]) {
        LowerSlices(s, 1);
        TrimLeftLower(s[1..]);
      }
    }
  }

  lemma {:induction false} TrimRightLower(s: string)
    ensures TrimRight(Lower(s)) == Lower(TrimRight(s))
    decreases |s|
  {
    if s != [] {
      assert Lower(s)[|s| - 1] == LowerChar(s[|s| - 1]);
      if IsSpace(s[|s| - 1]) {
        LowerSlices(s, |s| - 1);
        TrimRightLower(s[..|s| - 1]);
      }
    }
  }

  /** Lowercasing before or after stripping gives the same string. */
  lemma TrimLower(s: string)
    ensures Trim(Lower(s)) == Lower(Trim(s))
  {
    TrimLeftLower(s);
    TrimRightLower(TrimLeft(s));
  }

  /** Two strings that differ only in letter case normalize to the same string. */
  lemma NormalizeIgnoresCase(a: string, b: string)
    requires Lower(a) == Lower(b)
    ensures Normalize(a) == Normalize(b)
  {
    TrimLower(a);
    TrimLower(b);
  }

  lemma {:induction false} TrimLeftSkipsSpace(w: string, s: string)
    requires AllSpace(w)
    ensures TrimLeft(w + s) == TrimLeft(s)
    decreases |w|
  {
    if w != [] {
      assert (w + s)[0] == w[0] && IsSpace(w[0]);
      assert (w + s)[1..] == w[1..] + s;
      TrimLeftSkipsSpace(w[1..], s);
    } else {
      assert w + s == s;
    }
  }

  lemma {:induction false} TrimRightSkipsSpace(s: string, w: string)
    requires AllSpace(w)
    ensures TrimRight(s + w) == TrimRight(s)
    decreases |w|
  {
    if w != [] {
      assert (s + w)[|s + w| - 1] == w[|w| - 1] && IsSpace(w[|w| - 1]);
      assert (s + w)[..|s + w| - 1] == s + w[..|w| - 1];
      TrimRightSkipsSpace(s, w[..|w| - 1]);
    } else {
      assert s + w == s;
    }
  }

  /** Appending to a string that does not end up empty once left-stripped does not
      change what left-stripping removes. */
  lemma {:induction false} TrimLeftAppend(s: string, w: string)
    requires TrimLeft(s) != []
    ensures TrimLeft(s + w) == TrimLeft(s) + w
    decreases |s|
  {
    var t := s + w;
    assert t[0] == s[0];
    if IsSpace(s[0]) {
      assert t[1..] == s[1..] + w;
      TrimLeftAppend(s[1..], w);
      assert TrimLeft(t) == TrimLeft(t[1..]);
    } else {
      assert TrimLeft(t) == t;
    }
  }

  /** Whitespace around a string changes neither its stripped form nor its
      normalized form. */
  lemma TrimIgnoresPadding(w1: string, s: string, w2: string)
    requires AllSpace(w1) && AllSpace(w2)
    ensures Trim(w1 + s + w2) == Trim(s)
  {
    assert w1 + s + w2 == w1 + (s + w2);
    TrimLeftSkipsSpace(w1, s + w2);
    if TrimLeft(s) != [] {
      TrimLeftAppend(s, w2);
      TrimRightSkipsSpace(TrimLeft(s), w2);
    } else {
      // both sides are all whitespace, so both strip to nothing
      assert s[..|s| - |TrimLeft(s)|] == s;
      assert AllSpace(s);
      assert Trim(s) == [];
      var all := w1 + s + w2;
      assert forall i :: 0 <= i < |all| ==> IsSpace(all[i]) by {
        forall i | 0 <= i < |all|
          ensures IsSpace(all[i])
        {
          if i < |w1| { assert all[i] == w1[i]; }
          else if i < |w1| + |s| { assert all[i] == s[i - |w1|]; }
          else { assert all[i] == w2[i - |w1| - |s|]; }
        }
      }
    }
  }

  lemma NormalizeIgnoresPadding(w1: string, s: string, w2: string)
    requires AllSpace(w1) && AllSpace(w2)
    ensures Normalize(w1 + s + w2) == Normalize(s)
  {
    TrimIgnoresPadding(w1, s, w2);
  }
}
