/**
 * Path strings. The repository's HelperPaths class is not part of this model;
 * its operations are given the simplest reading consistent with how
 * DXVcsRepository uses them (see README).  Local paths follow Windows rules:
 * '/' and '\' are the same separator and letter case does not matter, which
 * `Canon` makes explicit.
 */
module Paths {

  predicate IsSep(c: char) { c == '/' || c == '\\' }

  predicate NoSep(s: string) { forall i :: 0 <= i < |s| ==> !IsSep(s[i]) }

  /** Case folding used by the case-insensitive comparisons (ASCII letters only). */
  function FoldChar(c: char): char {
    if 'A' <= c <= 'Z' then (c as int + 32) as char else c
  }

  function Fold(s: string): (r: string)
    ensures |r| == |s|
  {
    seq(|s|, i requires 0 <= i < |s| => FoldChar(s[i]))
  }

  /** String.Equals(a, b, ...IgnoreCase). */
  predicate EqualsIgnoreCase(a: string, b: string) { Fold(a) == Fold(b) }

  function CanonChar(c: char): char {
    if c == '/' then '\\' else FoldChar(c)
  }

  /** The key under which the (Windows) file system knows a local path. */
  function Canon(s: string): (r: string)
    ensures |r| == |s|
  {
    seq(|s|, i requires 0 <= i < |s| => CanonChar(s[i]))
  }

  lemma CanonAppend(a: string, b: string)
    ensures Canon(a + b) == Canon(a) + Canon(b)
  {
    assert forall i :: 0 <= i < |a + b| ==> Canon(a + b)[i] == (Canon(a) + Canon(b))[i];
  }

  /** Canon maps a character to '\' exactly when it is a separator. */
  lemma CanonSep(c: char)
    ensures IsSep(c) <==> CanonChar(c) == '\\'
  {
  }

  /** Rewriting '/' as '\' names the same path on the (Windows) file system. */
  lemma CanonBackslashes(s: string)
    ensures Canon(ToBackslashes(s)) == Canon(s)
  {
    assert forall i :: 0 <= i < |s| ==> Canon(ToBackslashes(s))[i] == Canon(s)[i];
  }

  /** Paths the file system does not tell apart stay so once a trailing separator is dropped. */
  lemma CanonRemoveFinishSlash(a: string, b: string)
    requires Canon(a) == Canon(b)
    ensures Canon(RemoveFinishSlash(a)) == Canon(RemoveFinishSlash(b))
  {
    if |a| > 0 {
      assert Canon(a)[|a| - 1] == Canon(b)[|a| - 1];
      CanonSep(a[|a| - 1]);
      CanonSep(b[|a| - 1]);
      if IsSep(a[|a| - 1]) {
        assert Canon(a[..|a| - 1]) == Canon(a)[..|a| - 1];
        assert Canon(b[..|a| - 1]) == Canon(b)[..|a| - 1];
      }
    }
  }

  /** Joining `seg` under `root` with '\' separators keeps `root` as the prefix and no '/' after it. */
  lemma JoinBackslashesUnder(root: string, seg: string)
    ensures var f := RemoveFinishSlash(root + "\\" + ToBackslashes(seg));
      |f| >= |root| && f[..|root|] == root && '/' !in f[|root|..]
  {
    var joined := root + "\\" + ToBackslashes(seg);
    assert joined[|root|..] == "\\" + ToBackslashes(seg);
    var f := RemoveFinishSlash(joined);
    assert f[|root|..] <= joined[|root|..];
  }

  /** A folder joined with `seg` under '\' is, on the file system, the folder joined with `seg` as written. */
  lemma CanonJoinBackslashes(root: string, seg: string)
    ensures Canon(RemoveFinishSlash(root + "\\" + ToBackslashes(seg))) == Canon(RemoveFinishSlash(root + "\\" + seg))
  {
    CanonAppend(root + "\\", ToBackslashes(seg));
    CanonAppend(root + "\\", seg);
    CanonBackslashes(seg);
    CanonRemoveFinishSlash(root + "\\" + ToBackslashes(seg), root + "\\" + seg);
  }

  /** HelperPaths.RemoveFinishSlash: drops one trailing separator. */
  function RemoveFinishSlash(s: string): (r: string)
    ensures |s| > 0 && IsSep(s[|s| - 1]) ==> r + [s[|s| - 1]] == s
    ensures !(|s| > 0 && IsSep(s[|s| - 1])) ==> r == s
  {
    if |s| > 0 && IsSep(s[|s| - 1]) then s[..|s| - 1] else s
  }

  /** String.Replace('/', '\\'). */
  function ToBackslashes(s: string): (r: string)
    ensures |r| == |s|
    ensures '/' !in r
    ensures forall i :: 0 <= i < |s| && s[i] != '/' ==> r[i] == s[i]
  {
    seq(|s|, i requires 0 <= i < |s| => if s[i] == '/' then '\\' else s[i])
  }

  /** Index of the last separator of `s`, or -1 when there is none. */
  function LastSep(s: string): (r: int)
    ensures -1 <= r < |s|
    ensures r >= 0 ==> IsSep(s[r])
    ensures forall j :: r < j < |s| ==> !IsSep(s[j])
  {
    if s == [] then -1
    else if IsSep(s[|s| - 1]) then |s| - 1
    else LastSep(s[..|s| - 1])
  }

  /** HelperPaths.GetDirectory: everything before the last separator. */
  function GetDirectory(p: string): string {
    if LastSep(p) < 0 then "" else p[..LastSep(p)]
  }

  /** HelperPaths.GetFile and Path.GetFileName: everything after the last separator. */
  function GetFile(p: string): (r: string)
    ensures NoSep(r)
  {
    p[LastSep(p) + 1..]
  }

  /** Splitting `dir + sep + name` at its last separator gives `dir` and `name` back. */
  lemma DirectoryOfJoined(dir: string, sep: char, name: string)
    requires IsSep(sep) && NoSep(name)
    ensures GetDirectory(dir + [sep] + name) == dir
    ensures GetFile(dir + [sep] + name) == name
  {
    var p := dir + [sep] + name;
    var r := LastSep(p);
    assert IsSep(p[|dir|]);
    assert r == |dir|;
  }

  /** HelperPaths.Combine: joins with '/' unless the second part is empty. */
  function Combine(a: string, b: string): string {
    if b == "" then a else a + "/" + b
  }

  /** On the (Windows) file system, Combine names the same file as a '\'-join. */
  lemma CanonCombine(dir: string, name: string)
    requires name != ""
    ensures Canon(Combine(dir, name)) == Canon(dir + "\\" + name)
  {
    CanonAppend(dir + "/", name);
    CanonAppend(dir + "\\", name);
    CanonAppend(dir, "/");
    CanonAppend(dir, "\\");
  }

  /** Position of the first '/' of `s`, or |s| when there is none. */
  function FirstSlash(s: string): (k: nat)
    ensures k <= |s|
    ensures forall j :: 0 <= j < k ==> s[j] != '/'
    ensures k < |s| ==> s[k] == '/'
  {
    if s == [] || s[0] == '/' then 0 else 1 + FirstSlash(s[1..])
  }

  /** String.Split('/', StringSplitOptions.RemoveEmptyEntries). */
  function Split(s: string): (r: seq<string>)
    ensures forall k :: 0 <= k < |r| ==> r[k] != "" && '/' !in r[k]
    decreases |s|
  {
    if s == [] then []
    else
      var k := FirstSlash(s);
      (if k == 0 then [] else [s[..k]]) + (if k < |s| then Split(s[k + 1..]) else [])
  }

  /** A non-empty string without '/' is one segment. */
  lemma SplitNoSlash(s: string)
    requires s != "" && '/' !in s
    ensures Split(s) == [s]
  {
    assert FirstSlash(s) == |s|;
    assert s[..|s|] == s;
  }

  /** A '/' at k with none before it is the first one. */
  lemma {:induction false} FirstSlashAt(s: string, k: nat)
    requires k < |s| && s[k] == '/' && forall j :: 0 <= j < k ==> s[j] != '/'
    ensures FirstSlash(s) == k
    decreases k
  {
    if k > 0 {
      assert s[0] != '/';
      FirstSlashAt(s[1..], k - 1);
    }
  }

  /** Split at the first '/': the segment before it, if any, then the rest split. */
  lemma SplitFirst(s: string, k: nat)
    requires k < |s| && k == FirstSlash(s)
    ensures Split(s) == (if k == 0 then [] else [s[..k]]) + Split(s[k + 1..])
  {
  }

  /** A first segment without '/' comes off whole when a '/' follows it. */
  lemma SplitSlashBase(a: string, b: string)
    requires FirstSlash(a) == |a|
    ensures Split(a + "/" + b) == Split(a) + Split(b)
  {
    var s := a + "/" + b;
    assert forall i :: 0 <= i < |a| ==> s[i] == a[i];
    FirstSlashAt(s, |a|);
    SplitFirst(s, |a|);
    assert s[|a| + 1..] == b;
    if a != [] {
      assert s[..|a|] == a;
      SplitNoSlash(a);
    }
  }

  /** The first '/' of `a` is also the first of `a + "/" + b`. */
  lemma SplitSlashStep(a: string, b: string, k: nat)
    requires k < |a| && k == FirstSlash(a)
    ensures Split(a + "/" + b) == (if k == 0 then [] else [a[..k]]) + Split(a[k + 1..] + "/" + b)
  {
    var s := a + "/" + b;
    assert forall i :: 0 <= i <= k ==> s[i] == a[i];
    FirstSlashAt(s, k);
    SplitFirst(s, k);
    assert s[..k] == a[..k];
    assert s[k + 1..] == a[k + 1..] + "/" + b;
  }

  /** Peeling the same head off both sides, as the inductive step of SplitSlash does. */
  lemma PeelHead<T>(whole: seq<T>, left: seq<T>, head: seq<T>, rest: seq<T>, restLeft: seq<T>, right: seq<T>)
    requires whole == head + rest && left == head + restLeft && rest == restLeft + right
    ensures whole == left + right
  {
  }

  /**
   * Splitting at one '/' splits each side on its own; with `Split("") == []`
   * and SplitNoSlash this fixes the result for every string, so empty
   * entries (leading, trailing or doubled '/') are dropped and nothing else.
   */
  lemma {:induction false} SplitSlash(a: string, b: string)
    ensures Split(a + "/" + b) == Split(a) + Split(b)
    decreases |a|
  {
    var k := FirstSlash(a);
    if k == |a| {
      SplitSlashBase(a, b);
    } else {
      var t := a[k + 1..];
      var head: seq<string> := if k == 0 then [] else [a[..k]];
      SplitSlash(t, b);
      SplitSlashStep(a, b, k);
      SplitFirst(a, k);
      PeelHead(Split(a + "/" + b), Split(a), head, Split(t + "/" + b), Split(t), Split(b));
    }
  }

  /** Segments joined by '/', the way AddFile and AddProject accumulate a parent path. */
  function Join(segs: seq<string>): string {
    if |segs| == 0 then ""
    else if |segs| == 1 then segs[0]
    else Join(segs[..|segs| - 1]) + "/" + segs[|segs| - 1]
  }

  predicate ValidSegments(segs: seq<string>) {
    forall k :: 0 <= k < |segs| ==> segs[k] != "" && '/' !in segs[k]
  }

  lemma {:induction false} JoinCons(x: string, rest: seq<string>)
    requires |rest| > 0
    ensures Join([x] + rest) == x + "/" + Join(rest)
    decreases |rest|
  {
    var s := [x] + rest;
    if |rest| == 1 {
      assert s[..|s| - 1] == [x];
    } else {
      assert s[..|s| - 1] == [x] + rest[..|rest| - 1];
      JoinCons(x, rest[..|rest| - 1]);
    }
  }

  /**
   * Splitting a path built from valid segments gives the segments back:
   * the segment decomposition of AddFile/AddProject loses nothing.
   */
  lemma {:induction false} SplitJoin(segs: seq<string>)
    requires ValidSegments(segs)
    ensures Split(Join(segs)) == segs
    decreases |segs|
  {
    if |segs| == 0 {
    } else if |segs| == 1 {
      var x := segs[0];
      assert FirstSlash(x) == |x|;
      assert x[..|x|] == x;
    } else {
      var x, rest := segs[0], segs[1..];
      assert segs == [x] + rest;
      JoinCons(x, rest);
      var s := x + "/" + Join(rest);
      assert forall j :: 0 <= j < |x| ==> s[j] == x[j];
      assert s[|x|] == '/';
      assert FirstSlash(s) == |x|;
      assert s[..|x|] == x;
      assert s[|x| + 1..] == Join(rest);
      SplitJoin(rest);
    }
  }
}
