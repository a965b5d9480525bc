/** Searching and splitting strings at a separator character, the way
    `strings.IndexByte` and `strings.Split` see a string. The separators used
    here ('.' and '/') are ASCII, so a character position is the same place as
    Go's byte offset for the purpose of slicing. */
module Text {

  /** Position of the first `c` in `s`, or -1 when there is none. */
  function IndexOf(s: string, c: char): (i: int)
    ensures -1 <= i < |s|
    ensures i == -1 <==> c !in s
    ensures i >= 0 ==> s[i] == c && forall j :: 0 <= j < i ==> s[j] != c
  {
    if s == [] then -1
    else if s[0] == c then 0
    else
      var j := IndexOf(s[1..], c);
      if j == -1 then -1 else j + 1
  }

  /** In `x + [c] + y` with no `c` in `x`, the first `c` is the one joining them. */
  lemma IndexOfJoin(x: string, c: char, y: string)
    requires c !in x
    ensures IndexOf(x + [c] + y, c) == |x|
  {
    var s := x + [c] + y;
    assert s[|x|] == c;
    assert forall j :: 0 <= j < |x| ==> s[j] == x[j];
  }

  /** The pieces of `s` between occurrences of `sep`, like Go's `strings.Split`. */
  function Split(s: string, sep: char): (parts: seq<string>)
    ensures |parts| >= 1
    decreases |s|
  {
    var i := IndexOf(s, sep);
    if i == -1 then [s] else [s[..i]] + Split(s[i + 1..], sep)
  }

  /** Glues pieces back together with `sep`, like Go's `strings.Join`. */
  function Join(parts: seq<string>, sep: char): string
    requires |parts| >= 1
  {
    if |parts| == 1 then parts[0] else parts[0] + [sep] + Join(parts[1..], sep)
  }

  /** Splitting a joined string peels off its separator-free head. */
  lemma SplitJoin(x: string, sep: char, y: string)
    requires sep !in x
    ensures Split(x + [sep] + y, sep) == [x] + Split(y, sep)
  {
    var s := x + [sep] + y;
    IndexOfJoin(x, sep, y);
    assert s[..|x|] == x;
    assert s[|x| + 1..] == y;
  }

  /** Joining separator-free pieces and splitting again gives back the pieces. */
  lemma {:induction false} JoinSplitRoundTrip(parts: seq<string>, sep: char)
    requires |parts| >= 1
    requires forall k :: 0 <= k < |parts| ==> sep !in parts[k]
    ensures Split(Join(parts, sep), sep) == parts
    decreases |parts|
  {
    if |parts| > 1 {
      JoinSplitRoundTrip(parts[1..], sep);
      SplitJoin(parts[0], sep, Join(parts[1..], sep));
    }
  }

  /** A separator-free head is determined by the joined string. */
  lemma JoinInjective(x1: string, y1: string, x2: string, y2: string, sep: char)
    requires sep !in x1 && sep !in x2
    requires x1 + [sep] + y1 == x2 + [sep] + y2
    ensures x1 == x2 && y1 == y2
  {
    IndexOfJoin(x1, sep, y1);
    IndexOfJoin(x2, sep, y2);
    var s := x1 + [sep] + y1;
    assert x1 == s[..|x1|] && y1 == s[|x1| + 1..];
    assert x2 == s[..|x2|] && y2 == s[|x2| + 1..];
  }
}
