/** String helpers the plugin borrows from Go's standard library:
    strings.Split and strings.Join with a single-space separator, and
    filepath.Base on slash-separated paths. */
module Text {

  /** strings.Join(parts, " "). */
  function Join(parts: seq<string>): string
  {
    if |parts| == 0 then ""
    else if |parts| == 1 then parts[0]
    else parts[0] + " " + Join(parts[1..])
  }

  /** The position of the first space in `s`. */
  function FirstSpace(s: string): (i: nat)
    requires ' ' in s
    ensures i < |s| && s[i] == ' ' && ' ' !in s[..i]
  {
    if s[0] == ' ' then 0
    else
      assert s[1..][FirstSpace(s[1..])] == s[1 + FirstSpace(s[1..])];
      assert s[..1 + FirstSpace(s[1..])] == [s[0]] + s[1..][..FirstSpace(s[1..])];
      1 + FirstSpace(s[1..])
  }

  /** strings.Split(s, " "): the text before the first space, then the
      pieces of the rest. There is always at least one piece; a string
      without a space is its own single piece. */
  function Split(s: string): (parts: seq<string>)
    ensures |parts| >= 1
    decreases |s|
  {
    if ' ' !in s then [s]
    else
      var i := FirstSpace(s);
      [s[..i]] + Split(s[i + 1..])
  }

  /** No piece of Split(s) holds a space. */
  lemma {:induction false} SplitNoSpaces(s: string)
    ensures forall i :: 0 <= i < |Split(s)| ==> ' ' !in Split(s)[i]
    decreases |s|
  {
    if ' ' in s {
      var i := FirstSpace(s);
      SplitNoSpaces(s[i + 1..]);
      assert Split(s)[1..] == Split(s[i + 1..]);
    }
  }

  /** Joining the pieces of Split(s) with single spaces gives back `s`. */
  lemma {:induction false} JoinSplit(s: string)
    ensures Join(Split(s)) == s
    decreases |s|
  {
    if ' ' in s {
      var i := FirstSpace(s);
      var rest := s[i + 1..];
      JoinSplit(rest);
      assert Split(s)[1..] == Split(rest);
      assert s == s[..i] + " " + rest;
    }
  }

  /** Splitting `a + " " + b`, when `a` holds no space, gives `a` and then
      the pieces of `b`. */
  lemma SplitAfterFirst(a: string, b: string)
    requires ' ' !in a
    ensures Split(a + " " + b) == [a] + Split(b)
  {
    var s := a + " " + b;
    assert s[..|a|] == a;
    assert s[|a| + 1..] == b;
    assert s[|a|] == ' ';
    var i := FirstSpace(s);
    assert i == |a|;
  }

  /** Splitting is the inverse of joining pieces that hold no space. */
  lemma {:induction false} SplitJoin(parts: seq<string>)
    requires |parts| >= 1
    requires forall i :: 0 <= i < |parts| ==> ' ' !in parts[i]
    ensures Split(Join(parts)) == parts
    decreases |parts|
  {
    if |parts| > 1 {
      var rest := Join(parts[1..]);
      assert Join(parts) == parts[0] + " " + rest;
      SplitAfterFirst(parts[0], rest);
      SplitJoin(parts[1..]);
      assert parts == [parts[0]] + parts[1..];
    }
  }

  /** The pieces of every argument, split on single spaces, concatenated
      in argument order. */
  function SplitAll(args: seq<string>): seq<string>
  {
    if |args| == 0 then [] else SplitAll(args[..|args| - 1]) + Split(args[|args| - 1])
  }

  /** No piece of SplitAll holds a space, and there is at least one piece
      per argument. */
  lemma {:induction false} SplitAllPieces(args: seq<string>)
    ensures |SplitAll(args)| >= |args|
    ensures forall i :: 0 <= i < |SplitAll(args)| ==> ' ' !in SplitAll(args)[i]
  {
    if |args| > 0 {
      SplitAllPieces(args[..|args| - 1]);
      SplitNoSpaces(args[|args| - 1]);
    }
  }

  /** Joining two non-empty lists joins their joins with one space. */
  lemma {:induction false} JoinAppend(a: seq<string>, b: seq<string>)
    requires |a| > 0 && |b| > 0
    ensures Join(a + b) == Join(a) + " " + Join(b)
    decreases |a|
  {
    if |a| == 1 {
      assert (a + b)[1..] == b;
    } else {
      assert (a + b)[1..] == a[1..] + b;
      JoinAppend(a[1..], b);
    }
  }

  /** Splitting every argument on spaces and joining the pieces with
      spaces gives the arguments joined with spaces: the split never
      changes the command line that is logged. */
  lemma {:induction false} JoinSplitAll(args: seq<string>)
    ensures Join(SplitAll(args)) == Join(args)
  {
    if |args| > 1 {
      var init := args[..|args| - 1];
      JoinSplitAll(init);
      SplitAllPieces(init);
      JoinSplit(args[|args| - 1]);
      JoinAppend(SplitAll(init), Split(args[|args| - 1]));
      JoinAppend(init, [args[|args| - 1]]);
      assert init + [args[|args| - 1]] == args;
    } else if |args| == 1 {
      assert args[..0] == [];
      assert SplitAll(args) == [] + Split(args[0]) == Split(args[0]);
      JoinSplit(args[0]);
      assert Join(args) == args[0];
    }
  }

  /** The path with every trailing '/' removed. */
  function TrimTrailingSlashes(p: string): (q: string)
    ensures q <= p
    ensures q == [] || q[|q| - 1] != '/'
    decreases |p|
  {
    if |p| > 0 && p[|p| - 1] == '/' then TrimTrailingSlashes(p[..|p| - 1]) else p
  }

  /** The text after the last '/' of `p` (all of `p` when it has none). */
  function LastElement(p: string): (e: string)
    ensures '/' !in e
    ensures |p| > 0 && p[|p| - 1] != '/' ==> |e| > 0
    decreases |p|
  {
    if |p| == 0 || p[|p| - 1] == '/' then [] else LastElement(p[..|p| - 1]) + [p[|p| - 1]]
  }

  /** filepath.Base: the last element of a path. Trailing slashes are
      dropped first; an empty path gives "." and a path of slashes "/".
      The result is never empty and holds no '/' unless it is "/". */
  function Base(path: string): (b: string)
    ensures b != []
    ensures b == "/" || '/' !in b
  {
    if path == [] then "."
    else
      var trimmed := TrimTrailingSlashes(path);
      if trimmed == [] then "/" else LastElement(trimmed)
  }

  /** A string without '/' is its own last element. */
  lemma {:induction false} LastElementNoSlash(p: string)
    requires '/' !in p
    ensures LastElement(p) == p
    decreases |p|
  {
    if |p| > 0 {
      assert p[|p| - 1] in p;
      LastElementNoSlash(p[..|p| - 1]);
      assert p[..|p| - 1] + [p[|p| - 1]] == p;
    }
  }

  /** A bare name, without any '/', is its own base. */
  lemma BaseOfName(p: string)
    requires p != [] && '/' !in p
    ensures Base(p) == p
  {
    assert p[|p| - 1] in p;
    LastElementNoSlash(p);
  }

  /** A trailing '/' does not change the base of a non-empty path. */
  lemma BaseIgnoresTrailingSlash(p: string)
    requires p != []
    ensures Base(p + "/") == Base(p)
  {
    assert (p + "/")[..|p + "/"| - 1] == p;
  }

  lemma {:induction false} LastElementAfterSlash(dir: string, name: string)
    requires '/' !in name
    ensures LastElement(dir + "/" + name) == name
    decreases |name|
  {
    if |name| == 0 {
      assert dir + "/" + name == dir + "/";
    } else {
      var init := name[..|name| - 1];
      assert (dir + "/" + name)[..|dir + "/" + name| - 1] == dir + "/" + init;
      assert name[|name| - 1] in name;
      LastElementAfterSlash(dir, init);
      assert init + [name[|name| - 1]] == name;
    }
  }

  /** The base of a namespace path is its final name: Base("/var/run/netns/x") is "x". */
  lemma BaseOfPath(dir: string, name: string)
    requires name != [] && '/' !in name
    ensures Base(dir + "/" + name) == name
  {
    var p := dir + "/" + name;
    assert p[|p| - 1] == name[|name| - 1];
    assert name[|name| - 1] in name;
    assert TrimTrailingSlashes(p) == p;
    LastElementAfterSlash(dir, name);
  }
}
