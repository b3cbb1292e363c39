/** Trimming of white space, as strings.TrimSpace does it on ASCII text. */
module Text {

  predicate IsSpace(c: char) {
    c == ' ' || '\t' <= c <= '\r'
  }

  function TrimLeft(s: string): string {
    if s != [] && IsSpace(s[0]) then TrimLeft(s[1..]) else s
  }

  function TrimRight(s: string): string {
    if s != [] && IsSpace(s[|s| - 1]) then TrimRight(s[..|s| - 1]) else s
  }

  function Trim(s: string): string {
    TrimRight(TrimLeft(s))
  }

  predicate AllSpace(s: string) {
    forall i :: 0 <= i < |s| ==> s[i] == ' ' || '\t' <= s[i] <= '\r'
  }

  lemma {:induction false} LeftIs(s: string) returns (n: nat)
    ensures n <= |s| && TrimLeft(s) == s[n..] && AllSpace(s[..n])
    ensures n < |s| ==> s[n] != ' ' && !('\t' <= s[n] <= '\r')
  {
    if s != [] && IsSpace(s[0]) {
      var rest := LeftIs(s[1..]);
      n := rest + 1;
      assert s[1..][rest..] == s[n..] && s[..n] == [s[0]] + s[1..][..rest];
    } else {
      n := 0;
    }
  }

  lemma {:induction false} RightIs(s: string) returns (n: nat)
    ensures n <= |s| && TrimRight(s) == s[..n] && AllSpace(s[n..])
    ensures n > 0 ==> s[n - 1] != ' ' && !('\t' <= s[n - 1] <= '\r')
  {
    if s != [] && IsSpace(s[|s| - 1]) {
      n := RightIs(s[..|s| - 1]);
      assert s[..|s| - 1][..n] == s[..n] && s[n..] == s[..|s| - 1][n..] + [s[|s| - 1]];
    } else {
      n := |s|;
    }
  }

  /** Trimming takes off exactly the white space at both ends. */
  lemma TrimIsExact(s: string) returns (i: nat, j: nat)
    ensures i <= j <= |s| && Trim(s) == s[i..j] && AllSpace(s[..i]) && AllSpace(s[j..])
    ensures i < j ==> s[i] != ' ' && !('\t' <= s[i] <= '\r') && s[j - 1] != ' ' && !('\t' <= s[j - 1] <= '\r')
  {
    i := LeftIs(s);
    var left := s[i..];
    var n := RightIs(left);
    j := i + n;
    assert left[..n] == s[i..j] && left[n..] == s[j..];
  }
}
