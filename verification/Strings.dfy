/** The parts of Go's strings package that the codecs use, for one-character separators. */
module Strings {

  /** The first position of `sep`, or the length when there is none. */
  function IndexOf(s: string, sep: char): (i: nat)
    ensures i <= |s| && sep !in s[..i] && (i < |s| ==> s[i] == sep) && (i == |s| <==> sep !in s)
  {
    if s == [] || s[0] == sep then 0
    else
      var i := IndexOf(s[1..], sep);
      assert s[..i + 1] == [s[0]] + s[1..][..i];
      assert s == [s[0]] + s[1..];
      i + 1
  }

  lemma {:induction false} IndexOfFirst(a: string, sep: char, b: string)
    requires sep !in a
    ensures IndexOf(a + [sep] + b, sep) == |a|
  {
    if a != "" {
      assert (a + [sep] + b)[1..] == a[1..] + [sep] + b;
      assert a[0] in a;
      IndexOfFirst(a[1..], sep, b);
    }
  }

  /** strings.Split. */
  function Split(s: string, sep: char): (parts: seq<string>)
    ensures parts != [] && forall p <- parts :: sep !in p
    decreases |s|
  {
    var i := IndexOf(s, sep);
    if i == |s| then [s] else [s[..i]] + Split(s[i + 1..], sep)
  }

  /** strings.SplitN with n > 0: at most n parts, the last one unsplit. */
  function SplitN(s: string, sep: char, n: nat): (parts: seq<string>)
    requires n > 0
    ensures 0 < |parts| <= n
    decreases n
  {
    var i := IndexOf(s, sep);
    if i == |s| || n == 1 then [s] else [s[..i]] + SplitN(s[i + 1..], sep, n - 1)
  }

  /** strings.Join. */
  function Join(parts: seq<string>, sep: char): string {
    if parts == [] then ""
    else if |parts| == 1 then parts[0]
    else parts[0] + [sep] + Join(parts[1..], sep)
  }

  lemma JoinFirst(first: string, rest: seq<string>, sep: char)
    requires rest != []
    ensures Join([first] + rest, sep) == first + [sep] + Join(rest, sep)
  {
    assert ([first] + rest)[1..] == rest;
  }

  lemma CutAt(s: string, i: nat)
    requires i < |s|
    ensures s == s[..i] + [s[i]] + s[i + 1..]
  {}

  lemma {:induction false} JoinOfSplit(s: string, sep: char)
    ensures Join(Split(s, sep), sep) == s
    decreases |s|
  {
    var i := IndexOf(s, sep);
    if i < |s| {
      var rest := Split(s[i + 1..], sep);
      JoinOfSplit(s[i + 1..], sep);
      JoinFirst(s[..i], rest, sep);
      CutAt(s, i);
    }
  }

  /** What lies before and after the first separator. */
  lemma FirstCut(a: string, sep: char, rest: string)
    requires sep !in a
    ensures var s := a + [sep] + rest;
            IndexOf(s, sep) == |a| < |s| && s[..|a|] == a && s[|a| + 1..] == rest
  {
    IndexOfFirst(a, sep, rest);
  }

  lemma SplitFirst(a: string, sep: char, rest: string)
    requires sep !in a
    ensures Split(a + [sep] + rest, sep) == [a] + Split(rest, sep)
  {
    FirstCut(a, sep, rest);
  }

  lemma SplitNFirst(a: string, sep: char, rest: string, n: nat)
    requires sep !in a && n > 1
    ensures SplitN(a + [sep] + rest, sep, n) == [a] + SplitN(rest, sep, n - 1)
  {
    FirstCut(a, sep, rest);
  }

  lemma {:induction false} SplitOfJoin(parts: seq<string>, sep: char)
    requires parts != [] && forall p <- parts :: sep !in p
    ensures Split(Join(parts, sep), sep) == parts
  {
    if |parts| > 1 {
      SplitOfJoin(parts[1..], sep);
      SplitFirst(parts[0], sep, Join(parts[1..], sep));
      assert parts == [parts[0]] + parts[1..];
    }
  }

  /** SplitN undoes Join when only the last part may hold the separator. */
  lemma {:induction false} SplitNOfJoin(parts: seq<string>, sep: char)
    requires parts != [] && forall i :: 0 <= i < |parts| - 1 ==> sep !in parts[i]
    ensures SplitN(Join(parts, sep), sep, |parts|) == parts
  {
    if |parts| > 1 {
      SplitNOfJoin(parts[1..], sep);
      SplitNFirst(parts[0], sep, Join(parts[1..], sep), |parts|);
      assert parts == [parts[0]] + parts[1..];
    }
  }

  /** With room for every part SplitN is Split. */
  lemma {:induction false} SplitNEnough(s: string, sep: char, n: nat)
    requires |Split(s, sep)| <= n
    ensures SplitN(s, sep, n) == Split(s, sep)
    decreases n
  {
    var i := IndexOf(s, sep);
    if i < |s| {
      assert Split(s, sep) == [s[..i]] + Split(s[i + 1..], sep);
      SplitNEnough(s[i + 1..], sep, n - 1);
    }
  }
}
