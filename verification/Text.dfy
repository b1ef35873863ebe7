/** The string operations the source takes from its standard library. */
module Text {

  /** `pat` stands at position `i` of `s`. */
  predicate OccursAt(s: string, pat: string, i: int) {
    0 <= i && i + |pat| <= |s| && s[i..i + |pat|] == pat
  }

  predicate Contains(s: string, pat: string) {
    exists i | 0 <= i <= |s| :: OccursAt(s, pat, i)
  }

  /** Leftmost, non-overlapping replacement. */
  function Replace(s: string, pat: string, rep: string): string
    requires |pat| > 0
  {
    if |s| < |pat| then s
    else if s[..|pat|] == pat then rep + Replace(s[|pat|..], pat, rep)
    else [s[0]] + Replace(s[1..], pat, rep)
  }

  predicate IsSpace(c: char) {
    c == ' ' || ('\t' <= c <= '\r') || ('\U{1c}' <= c <= '\U{1f}')
  }

  function TrimLeft(s: string): string {
    if s != "" && IsSpace(s[0]) then TrimLeft(s[1..]) else s
  }

  function TrimRight(s: string): string {
    if s != "" && IsSpace(s[|s| - 1]) then TrimRight(s[..|s| - 1]) else s
  }

  function Strip(s: string): string {
    TrimRight(TrimLeft(s))
  }

  predicate Blank(s: string) {
    forall i | 0 <= i < |s| :: IsSpace(s[i])
  }

  lemma {:induction false} TrimLeftReads(s: string) returns (i: nat)
    ensures i <= |s| && TrimLeft(s) == s[i..]
    ensures (forall k | 0 <= k < i :: IsSpace(s[k])) && (i < |s| ==> !IsSpace(s[i]))
  {
    hide IsSpace;
    if s != "" && IsSpace(s[0]) {
      var rest := s[1..];
      i := TrimLeftReads(rest);
      i := i + 1;
      forall k | 0 <= k < i ensures IsSpace(s[k]) {
        if k > 0 { assert rest[k - 1] == s[k]; }
      }
      assert s[i..] == rest[i - 1..];
    } else {
      i := 0;
    }
  }

  lemma {:induction false} TrimRightReads(s: string) returns (j: nat)
    ensures j <= |s| && TrimRight(s) == s[..j]
    ensures (forall k | j <= k < |s| :: IsSpace(s[k])) && (j > 0 ==> !IsSpace(s[j - 1]))
  {
    hide IsSpace;
    if s != "" && IsSpace(s[|s| - 1]) {
      j := TrimRightReads(s[..|s| - 1]);
      assert s[..j] == s[..|s| - 1][..j];
    } else {
      j := |s|;
    }
  }

  /** Stripping cuts blanks off both ends and nothing else; what is left starts and ends with none. */
  lemma StripReads(s: string) returns (i: nat, j: nat)
    ensures i <= j <= |s| && Strip(s) == s[i..j]
    ensures forall k | 0 <= k < |s| && !(i <= k < j) :: IsSpace(s[k])
    ensures i < j ==> !IsSpace(s[i]) && !IsSpace(s[j - 1])
    ensures Strip(s) == "" <==> Blank(s)
  {
    i := TrimLeftReads(s);
    var t := s[i..];
    var n := TrimRightReads(t);
    j := i + n;
    hide TrimLeft, TrimRight, IsSpace;
    assert t[..n] == s[i..j];
    forall k | j <= k < |s| ensures IsSpace(s[k]) {
      assert t[k - i] == s[k];
    }
    if n > 0 { assert t[n - 1] == s[j - 1] && t[0] == s[i]; }
  }

  function LowerChar(c: char): char {
    if 'A' <= c <= 'Z' then (c as int + 32) as char else c
  }

  function Lower(s: string): string {
    seq(|s|, i requires 0 <= i < |s| => LowerChar(s[i]))
  }

  function UpperChar(c: char): char {
    if 'a' <= c <= 'z' then (c as int - 32) as char else c
  }

  function Upper(s: string): string {
    seq(|s|, i requires 0 <= i < |s| => UpperChar(s[i]))
  }

  /** Lower-casing is letter by letter and blind to the case it starts from. */
  lemma LowerReads(s: string)
    ensures |Lower(s)| == |s| == |Upper(s)|
    ensures forall i | 0 <= i < |s| && 'A' <= s[i] <= 'Z' :: Lower(s)[i] as int - 'a' as int == s[i] as int - 'A' as int
    ensures forall i | 0 <= i < |s| && !('A' <= s[i] <= 'Z') :: Lower(s)[i] == s[i]
    ensures Lower(Upper(s)) == Lower(s) == Lower(Lower(s))
  {
  }

  lemma ContainsNeedsHead(s: string, pat: string)
    requires |pat| > 0
    ensures Contains(s, pat) ==> pat[0] in s
  {
    if Contains(s, pat) {
      var i :| 0 <= i <= |s| && OccursAt(s, pat, i);
      assert s[i] == s[i..i + |pat|][0];
    }
  }

  lemma {:induction false} ReplaceAbsent(s: string, pat: string, rep: string)
    requires |pat| > 0
    requires !Contains(s, pat)
    ensures Replace(s, pat, rep) == s
  {
    if |s| >= |pat| {
      assert !OccursAt(s, pat, 0);
      forall i | 0 <= i <= |s[1..]| ensures !OccursAt(s[1..], pat, i) {
        assert !OccursAt(s, pat, i + 1);
        if i + |pat| <= |s[1..]| {
          assert s[1..][i..i + |pat|] == s[i + 1..i + 1 + |pat|];
        }
      }
      ReplaceAbsent(s[1..], pat, rep);
    }
  }

  /** Up to the first character of the replacement text, the output copies the input. */
  lemma {:induction false} ReplaceCopiesPrefix(s: string, pat: string, rep: string, k: nat)
    requires |pat| > 0 && |rep| > 0
    requires k <= |Replace(s, pat, rep)|
    requires rep[0] !in Replace(s, pat, rep)[..k]
    ensures k <= |s| && Replace(s, pat, rep)[..k] == s[..k]
  {
    var r := Replace(s, pat, rep);
    if k > 0 && |s| >= |pat| {
      assert r[..k][0] == r[0];
      if s[..|pat|] == pat {
        assert false;
      } else {
        var tail := Replace(s[1..], pat, rep);
        assert r[..k] == [s[0]] + tail[..k - 1];
        ReplaceCopiesPrefix(s[1..], pat, rep, k - 1);
        assert s[..k] == [s[0]] + s[1..][..k - 1];
      }
    }
  }

  /** A replacement text that shares neither end with `pat` leaves no `pat` behind. */
  lemma {:induction false} ReplaceRemoves(s: string, pat: string, rep: string)
    requires |pat| > 0 && |rep| > 0
    requires rep[0] !in pat && rep[|rep| - 1] !in pat && !Contains(rep, pat)
    ensures !Contains(Replace(s, pat, rep), pat)
  {
    var r := Replace(s, pat, rep);
    forall i | 0 <= i <= |r| ensures !OccursAt(r, pat, i) {
      if OccursAt(r, pat, i) {
        if |s| < |pat| {
          assert false;
        } else if s[..|pat|] == pat {
          ReplaceRemoves(s[|pat|..], pat, rep);
          OccursInConcat(rep, Replace(s[|pat|..], pat, rep), pat, i);
        } else {
          var tail := Replace(s[1..], pat, rep);
          ReplaceRemoves(s[1..], pat, rep);
          if i > 0 {
            assert tail[i - 1..i - 1 + |pat|] == r[i..i + |pat|];
            assert OccursAt(tail, pat, i - 1);
          } else {
            assert r[..|pat|] == pat;
            assert tail[..|pat| - 1] == r[1..|pat|] == pat[1..];
            ReplaceCopiesPrefix(s[1..], pat, rep, |pat| - 1);
            assert false;
          }
        }
      }
    }
  }

  lemma OccursInConcat(a: string, b: string, pat: string, i: int)
    requires |a| > 0 && OccursAt(a + b, pat, i)
    ensures Contains(a, pat) || Contains(b, pat) || a[|a| - 1] in pat
  {
    if i + |pat| <= |a| {
      assert (a + b)[i..i + |pat|] == a[i..i + |pat|];
      assert OccursAt(a, pat, i);
    } else if i >= |a| {
      assert (a + b)[i..i + |pat|] == b[i - |a|..i - |a| + |pat|];
      assert OccursAt(b, pat, i - |a|);
    } else {
      assert (a + b)[i..i + |pat|][|a| - 1 - i] == a[|a| - 1];
    }
  }
}
