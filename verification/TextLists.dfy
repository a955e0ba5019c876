/** Joining texts with a separator and splitting them apart again. */
module TextLists {

  /** Go's `strings.Join`. */
  function Join(parts: seq<string>, sep: char): string {
    if parts == [] then ""
    else if |parts| == 1 then parts[0]
    else parts[0] + [sep] + Join(parts[1..], sep)
  }

  /** The text before the first separator. */
  function Head(s: string, sep: char): (h: string)
    ensures |h| <= |s| && h == s[..|h|] && sep !in h
    ensures |h| < |s| ==> s[|h|] == sep
  {
    if s == "" || s[0] == sep then "" else [s[0]] + Head(s[1..], sep)
  }

  /** Go's `strings.Split` for a one-character separator. */
  function Split(s: string, sep: char): (parts: seq<string>)
    ensures |parts| >= 1
    decreases |s|
  {
    var h := Head(s, sep);
    if |h| == |s| then [s] else [h] + Split(s[|h| + 1..], sep)
  }

  lemma {:induction false} HeadOfJoined(a: string, rest: string, sep: char)
    requires sep !in a
    ensures Head(a + [sep] + rest, sep) == a
    ensures Head(a, sep) == a
  {
    if a == "" {
      assert (a + [sep] + rest)[0] == sep;
    } else {
      assert sep != a[0];
      HeadOfJoined(a[1..], rest, sep);
      assert (a + [sep] + rest)[1..] == a[1..] + [sep] + rest;
    }
  }

  /** Splitting undoes joining when no part contains the separator. */
  lemma {:induction false} SplitJoin(parts: seq<string>, sep: char)
    requires parts != []
    requires forall p <- parts :: sep !in p
    ensures Split(Join(parts, sep), sep) == parts
  {
    if |parts| == 1 {
      HeadOfJoined(parts[0], "", sep);
    } else {
      var rest := Join(parts[1..], sep);
      HeadOfJoined(parts[0], rest, sep);
      SplitJoin(parts[1..], sep);
      var whole := parts[0] + [sep] + rest;
      assert whole[|parts[0]| + 1..] == rest;
    }
  }

  lemma JoinCons(part: string, parts: seq<string>, sep: char)
    requires parts != []
    ensures Join([part] + parts, sep) == part + [sep] + Join(parts, sep)
  {
    assert ([part] + parts)[1..] == parts;
  }

  /** Joining undoes splitting, always. */
  lemma {:induction false} JoinSplit(s: string, sep: char)
    ensures Join(Split(s, sep), sep) == s
    decreases |s|
  {
    var h := Head(s, sep);
    if |h| < |s| {
      var rest := s[|h| + 1..];
      JoinSplit(rest, sep);
      JoinCons(h, Split(rest, sep), sep);
      assert h + [sep] + rest == s;
    }
  }
}
