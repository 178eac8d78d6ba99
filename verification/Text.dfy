/** Trimming of white space, as the service applies it to names and media types. */
module Text {

  /** The characters Unicode counts as white space. */
  predicate IsSpace(c: char) {
    var u := c as int;
    || 0x09 <= u <= 0x0d || 0x1c <= u <= 0x20 || u == 0x85 || u == 0xa0 || u == 0x1680
    || 0x2000 <= u <= 0x200a || u == 0x2028 || u == 0x2029 || u == 0x202f || u == 0x205f || u == 0x3000
  }

  /** One by one. */
  lemma SpacesAre(c: char)
    ensures IsSpace(c) <==>
              c as int in {9, 10, 11, 12, 13, 28, 29, 30, 31, 32, 133, 160, 5760, 8192, 8193, 8194, 8195, 8196, 8197,
                           8198, 8199, 8200, 8201, 8202, 8232, 8233, 8239, 8287, 12288}
  {}

  function StripStart(s: string): string {
    if s != "" && IsSpace(s[0]) then StripStart(s[1..]) else s
  }

  function StripEnd(s: string): string {
    if s != "" && IsSpace(s[|s| - 1]) then StripEnd(s[..|s| - 1]) else s
  }

  function Strip(s: string): string {
    StripEnd(StripStart(s))
  }

  predicate Spaces(t: string, from: nat, to: nat)
    requires from <= to <= |t|
  {
    forall k :: from <= k < to ==> IsSpace(t[k])
  }

  predicate Blank(t: string) {
    Spaces(t, 0, |t|)
  }

  /** Nothing but white space lies outside, and none at the ends inside. */
  predicate Middle(t: string, i: nat, j: nat)
    requires i <= j <= |t|
  {
    && Spaces(t, 0, i) && Spaces(t, j, |t|)
    && (i < j ==> !IsSpace(t[i]) && !IsSpace(t[j - 1]))
  }

  ghost predicate Trimmed(t: string, u: string) {
    exists i: nat, j: nat :: i <= j <= |t| && u == t[i..j] && Middle(t, i, j)
  }

  lemma {:induction false} StartTrimmed(s: string) returns (i: nat)
    ensures i <= |s| && StripStart(s) == s[i..] && Spaces(s, 0, i)
    ensures i < |s| ==> !IsSpace(s[i])
  {
    i := 0;
    if s != "" && IsSpace(s[0]) {
      var k := StartTrimmed(s[1..]);
      i := k + 1;
      assert s[1..][k..] == s[i..] && forall m :: 0 < m <= |s| - 1 ==> s[m] == s[1..][m - 1];
    }
  }

  lemma {:induction false} EndTrimmed(s: string) returns (j: nat)
    ensures j <= |s| && StripEnd(s) == s[..j] && Spaces(s, j, |s|)
    ensures j > 0 ==> !IsSpace(s[j - 1])
  {
    j := |s|;
    if s != "" && IsSpace(s[|s| - 1]) {
      var before := s[..|s| - 1];
      j := EndTrimmed(before);
      assert before[..j] == s[..j];
    }
  }

  /** Stripping keeps exactly the trimmed middle, and nothing only of a blank text. */
  lemma {:induction false} StripTrims(t: string)
    ensures Trimmed(t, Strip(t))
    ensures Strip(t) == "" <==> Blank(t)
  {
    var i := StartTrimmed(t);
    var j := EndTrimmed(t[i..]);
    assert t[i..][..j] == t[i..i + j];
    assert forall k :: i <= k < |t| ==> t[k] == t[i..][k - i];
    assert Middle(t, i, i + j);
  }

  lemma MiddleOnce(t: string, i: nat, j: nat, k: nat, l: nat)
    requires i <= j <= |t| && k <= l <= |t| && Middle(t, i, j) && Middle(t, k, l)
    ensures t[i..j] == t[k..l]
  {
    if i == j {
      assert k == l;
    } else {
      assert i == k && j == l;
    }
  }

  /** There is one way to trim a text. */
  lemma TrimmedOnce(t: string, u: string, v: string)
    requires Trimmed(t, u) && Trimmed(t, v)
    ensures u == v
  {
    hide Middle;
    var i: nat, j: nat :| i <= j <= |t| && u == t[i..j] && Middle(t, i, j);
    var k: nat, l: nat :| k <= l <= |t| && v == t[k..l] && Middle(t, k, l);
    MiddleOnce(t, i, j, k, l);
  }
}
