/** Small shared vocabulary: optional values and the text helpers of Go's `strings` package. */
module Common {

  datatype Option<+T> = None | Some(value: T)

  /** Go's `unicode.IsSpace`. */
  predicate IsSpace(c: char) {
    || c == ' ' || c == '\t' || c == '\n' || c == '\r'
    || c as int == 0x0B || c as int == 0x0C || c as int == 0x85 || c as int == 0xA0
    || c as int == 0x1680 || 0x2000 <= c as int <= 0x200A
    || c as int == 0x2028 || c as int == 0x2029 || c as int == 0x202F
    || c as int == 0x205F || c as int == 0x3000
  }

  function TrimLeft(s: string): (r: string)
    ensures |r| <= |s|
  {
    if s != "" && IsSpace(s[0]) then TrimLeft(s[1..]) else s
  }

  function TrimRight(s: string): (r: string)
    ensures |r| <= |s|
  {
    if s != "" && IsSpace(s[|s| - 1]) then TrimRight(s[..|s| - 1]) else s
  }

  /** Go's `strings.TrimSpace`. */
  function Trim(s: string): string {
    TrimRight(TrimLeft(s))
  }

  predicate Blank(s: string) {
    Trim(s) == ""
  }

  /** The characters from `i` up to `j` are all white space. */
  predicate SpaceIn(s: string, i: nat, j: nat)
    requires i <= j <= |s|
  {
    forall k | i <= k < j :: IsSpace(s[k])
  }

  /** Cutting `s` down to `i .. j` takes off white space only, and all there is at the ends. */
  predicate Strips(s: string, i: nat, j: nat)
    requires i <= j <= |s|
  {
    SpaceIn(s, 0, i) && SpaceIn(s, j, |s|) && (i < j ==> !IsSpace(s[i]) && !IsSpace(s[j - 1]))
  }

  lemma {:induction false} LeftCut(s: string) returns (i: nat)
    ensures i <= |s| && TrimLeft(s) == s[i..] && SpaceIn(s, 0, i)
    ensures i < |s| ==> !IsSpace(s[i])
  {
    i := 0;
    if s != "" && IsSpace(s[0]) {
      i := LeftCut(s[1..]);
      assert forall k | 0 < k <= i :: s[k] == s[1..][k - 1];
      i := i + 1;
    }
  }

  lemma {:induction false} RightCut(s: string) returns (j: nat)
    ensures j <= |s| && TrimRight(s) == s[..j] && SpaceIn(s, j, |s|)
    ensures j > 0 ==> !IsSpace(s[j - 1])
  {
    j := |s|;
    if s != "" && IsSpace(s[|s| - 1]) {
      var rest := s[..|s| - 1];
      j := RightCut(rest);
      assert forall k | 0 <= k < |rest| :: s[k] == rest[k];
      assert s[..j] == rest[..j];
    }
  }

  /** Trimming takes off the white space at both ends and nothing else, so a text is blank if it is all white space. */
  lemma TrimMeaning(s: string)
    ensures exists i, j :: 0 <= i <= j <= |s| && Strips(s, i, j) && Trim(s) == s[i..j]
    ensures Blank(s) <==> SpaceIn(s, 0, |s|)
  {
    var i := LeftCut(s);
    var n := RightCut(s[i..]);
    var j := i + n;
    assert forall k | i <= k < |s| :: s[k] == s[i..][k - i];
    assert Strips(s, i, j) && Trim(s) == s[i..j];
  }

  /** There is only one way to do that. */
  lemma TrimUnique(s: string, i: nat, j: nat)
    requires i <= j <= |s| && Strips(s, i, j)
    ensures Trim(s) == s[i..j]
  {
    TrimMeaning(s);
    var i', j' :| 0 <= i' <= j' <= |s| && Strips(s, i', j') && Trim(s) == s[i'..j'];
    if i < j {
      assert i' <= i && j <= j';
    }
    if i' < j' {
      assert i <= i' && j' <= j;
    }
  }
}
