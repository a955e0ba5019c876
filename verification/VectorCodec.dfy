/** Embedding vectors as text: `[x,y,...]` and back. */
module VectorCodec {
  import opened Common
  import opened TextLists

  /** How one element is written (`strconv.FormatFloat`) and read (`strconv.ParseFloat`). */
  datatype Codec<!T> = Codec(format: T -> string, parse: string -> Option<T>)

  /** What the element codec must do for vectors to survive: an element's text has no comma, is not blank,
      and reads back (after trimming) as the element. */
  ghost predicate Faithful<T(!new)>(c: Codec<T>) {
    forall x: T :: ',' !in c.format(x) && !Blank(c.format(x)) && c.parse(Trim(c.format(x))) == Some(x)
  }

  function Texts<T>(c: Codec<T>, v: seq<T>): (texts: seq<string>)
    ensures |texts| == |v| && forall i | 0 <= i < |v| :: texts[i] == c.format(v[i])
  {
    if v == [] then [] else [c.format(v[0])] + Texts(c, v[1..])
  }

  function Format<T>(c: Codec<T>, v: seq<T>): string {
    "[" + Join(Texts(c, v), ',') + "]"
  }

  function ParseParts<T>(c: Codec<T>, parts: seq<string>): Option<seq<T>> {
    if parts == [] then Some([])
    else
      match (ParseParts(c, parts[..|parts| - 1]), c.parse(Trim(parts[|parts| - 1])))
      case (Some(v), Some(x)) => Some(v + [x])
      case (_, _) => None
  }

  /** Drops one closing and one opening bracket if they are there. */
  function Unwrap(s: string): string {
    var t := if s != "" && s[|s| - 1] == ']' then s[..|s| - 1] else s;
    if t != "" && t[0] == '[' then t[1..] else t
  }

  function Parse<T>(c: Codec<T>, raw: string): Option<seq<T>> {
    var s := Trim(raw);
    if s == "" then None
    else if Blank(Unwrap(s)) then Some([])
    else ParseParts(c, Split(Unwrap(s), ','))
  }

  method FormatVector<T>(c: Codec<T>, v: seq<T>) returns (s: string)
    ensures s == Format(c, v)
  {
    var parts := [];
    var i := 0;
    while i < |v|
      invariant 0 <= i <= |v|
      invariant parts == Texts(c, v)[..i]
    {
      parts := parts + [c.format(v[i])];
      i := i + 1;
    }
    assert Texts(c, v)[..i] == Texts(c, v);
    s := "[" + Join(parts, ',') + "]";
  }

  method ParseVector<T>(c: Codec<T>, raw: string) returns (v: Option<seq<T>>)
    ensures v == Parse(c, raw)
  {
    var s := Trim(raw);
    if s == "" {
      return None;
    }
    s := Unwrap(s);
    if Blank(s) {
      return Some([]);
    }
    var parts := Split(s, ',');
    var out := [];
    var i := 0;
    while i < |parts|
      invariant 0 <= i <= |parts|
      invariant ParseParts(c, parts[..i]) == Some(out)
    {
      assert parts[..i + 1][..i] == parts[..i];
      var x := c.parse(Trim(parts[i]));
      if x.None? {
        ParseFailsEarly(c, parts, i + 1);
        return None;
      }
      out := out + [x.value];
      i := i + 1;
    }
    assert parts[..i] == parts;
    v := Some(out);
  }

  lemma {:induction false} ParseFailsEarly<T>(c: Codec<T>, parts: seq<string>, n: nat)
    requires n <= |parts| && ParseParts(c, parts[..n]).None?
    ensures ParseParts(c, parts).None?
    decreases |parts| - n
  {
    if n < |parts| {
      assert parts[..n + 1][..n] == parts[..n];
      ParseFailsEarly(c, parts, n + 1);
    } else {
      assert parts[..n] == parts;
    }
  }

  /** A list of parts reads as the vector of what each part, trimmed, reads as; it does not if one of them does not. */
  lemma {:induction false} PartsRead<T>(c: Codec<T>, parts: seq<string>)
    ensures match ParseParts(c, parts)
            case Some(v) => |v| == |parts| && forall i | 0 <= i < |v| :: c.parse(Trim(parts[i])) == Some(v[i])
            case None => exists i :: 0 <= i < |parts| && c.parse(Trim(parts[i])) == None
  {
    if parts != [] {
      var n := |parts| - 1;
      PartsRead(c, parts[..n]);
      assert forall i | 0 <= i < n :: parts[i] == parts[..n][i];
    }
  }

  /** A text that begins and ends with something other than white space and brackets. */
  predicate Bare(text: string) {
    && text != "" && !IsSpace(text[0]) && !IsSpace(text[|text| - 1])
    && text[0] != '[' && text[|text| - 1] != ']'
  }

  lemma UnwrapBare(text: string)
    requires Bare(text)
    ensures Unwrap(text) == Unwrap("[" + text) == Unwrap(text + "]") == Unwrap("[" + text + "]") == text
  {
    assert ("[" + text)[1..] == text && (text + "]")[..|text|] == text;
    assert ("[" + text + "]")[..|text| + 1] == "[" + text;
  }

  lemma ParseTrimmed<T>(c: Codec<T>, text: string)
    requires text != "" && !IsSpace(text[0]) && !IsSpace(text[|text| - 1]) && !Blank(Unwrap(text))
    ensures Parse(c, text) == ParseParts(c, Split(Unwrap(text), ','))
  {
    TrimKeepsEnds(text);
  }

  /** The brackets are optional, either or both. */
  lemma BracketsAreOptional<T>(c: Codec<T>, text: string)
    requires Bare(text)
    ensures Parse(c, text) == ParseParts(c, Split(text, ','))
    ensures Parse(c, "[" + text + "]") == Parse(c, "[" + text) == Parse(c, text + "]") == Parse(c, text)
  {
    UnwrapBare(text);
    TrimKeepsEnds(text);
    ParseTrimmed(c, text);
    ParseTrimmed(c, "[" + text);
    ParseTrimmed(c, text + "]");
    ParseTrimmed(c, "[" + text + "]");
  }

  // ---------- round trip ----------

  lemma {:induction false} TrimKeepsEnds(s: string)
    requires s != "" && !IsSpace(s[0]) && !IsSpace(s[|s| - 1])
    ensures Trim(s) == s
  {
  }

  lemma {:induction false} PartsReadBack<T(!new)>(c: Codec<T>, v: seq<T>, parts: seq<string>)
    requires Faithful(c) && |parts| == |v|
    requires forall i | 0 <= i < |v| :: parts[i] == c.format(v[i])
    ensures ParseParts(c, parts) == Some(v)
  {
    if v != [] {
      var n := |v| - 1;
      PartsReadBack(c, v[..n], parts[..n]);
      assert parts[n] == c.format(v[n]);
      assert v == v[..n] + [v[n]];
    }
  }

  lemma JoinedHasComma(texts: seq<string>)
    requires |texts| >= 2
    ensures ',' in Join(texts, ',')
  {
    assert Join(texts, ',')[|texts[0]|] == ',';
  }

  lemma {:induction false} CommaIsNotBlank(s: string)
    requires ',' in s
    ensures !Blank(s)
  {
    TrimLeftKeeps(s);
    TrimRightKeeps(TrimLeft(s));
  }

  lemma {:induction false} TrimLeftKeeps(s: string)
    requires ',' in s
    ensures ',' in TrimLeft(s)
  {
    if s[0] != ',' && IsSpace(s[0]) {
      TrimLeftKeeps(s[1..]);
    }
  }

  lemma {:induction false} TrimRightKeeps(s: string)
    requires ',' in s
    ensures ',' in TrimRight(s)
  {
    if s[|s| - 1] != ',' && IsSpace(s[|s| - 1]) {
      TrimRightKeeps(s[..|s| - 1]);
    }
  }

  lemma UnwrapWrapped(inner: string)
    ensures Trim("[" + inner + "]") == "[" + inner + "]"
    ensures Unwrap("[" + inner + "]") == inner
  {
    var s := "[" + inner + "]";
    TrimKeepsEnds(s);
    assert s[..|s| - 1] == "[" + inner;
    assert ("[" + inner)[1..] == inner;
  }

  lemma InnerIsNotBlank<T(!new)>(c: Codec<T>, v: seq<T>)
    requires Faithful(c) && v != []
    ensures !Blank(Join(Texts(c, v), ','))
  {
    var texts := Texts(c, v);
    if |texts| >= 2 {
      JoinedHasComma(texts);
      CommaIsNotBlank(Join(texts, ','));
    } else {
      assert texts[0] == c.format(v[0]);
    }
  }

  /** Every vector, the empty one included, reads back as itself. */
  lemma RoundTrip<T(!new)>(c: Codec<T>, v: seq<T>)
    requires Faithful(c)
    ensures Parse(c, Format(c, v)) == Some(v)
  {
    var texts := Texts(c, v);
    UnwrapWrapped(Join(texts, ','));
    if v != [] {
      InnerIsNotBlank(c, v);
      SplitJoin(texts, ',');
      PartsReadBack(c, v, texts);
    }
  }

  /** What the text looks like: elements one after another, commas between them, brackets around them. */
  lemma {:induction false} FormatGrows<T>(c: Codec<T>, v: seq<T>, x: T)
    ensures Format(c, []) == "[]" && Format(c, [x]) == "[" + c.format(x) + "]"
    ensures v != [] ==> Format(c, [x] + v) == "[" + c.format(x) + "," + Format(c, v)[1..]
  {
    assert [x][1..] == [] && ([x] + v)[1..] == v;
    if v != [] {
      JoinCons(c.format(x), Texts(c, v), ',');
    }
  }

  /** So the stored text determines the vector. */
  lemma FormatInjective<T(!new)>(c: Codec<T>, v: seq<T>, w: seq<T>)
    requires Faithful(c) && Format(c, v) == Format(c, w)
    ensures v == w
  {
    RoundTrip(c, v);
    RoundTrip(c, w);
  }
}
