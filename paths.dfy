/** The string operations of `str` and `pathlib` that the modelled code relies on. */
module Paths {
  import opened Outcomes

  /** The components a POSIX `PurePath` keeps: the pieces between separators, without empty pieces and ".". */
  function Parts(s: string): seq<string> {
    PartsFrom("", s)
  }

  /** The kept components of `s` when the piece `cur` is already under way. */
  function PartsFrom(cur: string, s: string): seq<string>
    decreases |s|
  {
    if s == [] then Kept(cur)
    else if s[0] == '/' then Kept(cur) + PartsFrom("", s[1..])
    else PartsFrom(cur + [s[0]], s[1..])
  }

  /** A piece between separators, unless it is empty or ".". */
  function Kept(piece: string): seq<string> {
    if |piece| == 0 || (|piece| == 1 && piece[0] == '.') then [] else [piece]
  }

  /** The root of a POSIX path: exactly two leading slashes are kept, one or three and more become "/". */
  function Root(s: string): string {
    if |s| >= 2 && s[0] == '/' && s[1] == '/' && (|s| == 2 || s[2] != '/') then "//"
    else if |s| >= 1 && s[0] == '/' then "/"
    else ""
  }

  /** `str(PurePosixPath(s))`: the root and the kept components, or "." when there are neither. */
  function PathStr(s: string): string {
    if Root(s) == "" && Parts(s) == [] then "." else Root(s) + JoinAll(Parts(s))
  }

  /** `str(PurePosixPath(dir) / name)`: an absolute `name` replaces `dir`, otherwise the two are joined and normalised. */
  function Join(dir: string, name: string): string {
    if |name| > 0 && name[0] == '/' then PathStr(name) else PathStr(Concat(dir, name))
  }

  /** `dir` and `name` as one string, with one separator between them unless `dir` is empty or ends in one. */
  function Concat(dir: string, name: string): string {
    if dir == "" then name
    else if dir[|dir| - 1] == '/' then dir + name
    else dir + "/" + name
  }

  /** Components joined with "/", as `str(Path(*parts))` prints a relative path. */
  function JoinAll(parts: seq<string>): string
    decreases |parts|
  {
    if parts == [] then ""
    else if |parts| == 1 then parts[0]
    else parts[0] + "/" + JoinAll(parts[1..])
  }

  /** A single path component: non-empty, not ".", and free of separators. */
  predicate Component(name: string) {
    name != "" && name != "." && '/' !in name
  }

  /** The pieces of `a` followed by a separator and `b`: those of `a`, then those of `b` from a fresh piece. */
  lemma {:induction false} PartsFromConcat(cur: string, a: string, b: string)
    ensures PartsFrom(cur, a + "/" + b) == PartsFrom(cur, a) + PartsFrom("", b)
    decreases |a|
  {
    var s := a + "/" + b;
    if a == [] {
      assert s == "/" + b && s[1..] == b;
    } else {
      assert s[0] == a[0] && s[1..] == a[1..] + "/" + b;
      if a[0] == '/' {
        PartsFromConcat("", a[1..], b);
      } else {
        PartsFromConcat(cur + [a[0]], a[1..], b);
      }
    }
  }

  /** Joining two strings with a separator concatenates their components. */
  lemma PartsConcat(a: string, b: string)
    ensures Parts(a + "/" + b) == Parts(a) + Parts(b)
  {
    PartsFromConcat("", a, b);
  }

  /** Without a separator the pieces under way and `s` are one piece. */
  lemma {:induction false} PartsFromNoSlash(cur: string, s: string)
    requires '/' !in s
    ensures PartsFrom(cur, s) == Kept(cur + s)
    decreases |s|
  {
    if s == [] {
      assert cur + s == cur;
    } else {
      assert cur + [s[0]] + s[1..] == cur + s;
      PartsFromNoSlash(cur + [s[0]], s[1..]);
    }
  }

  /** A string without separators is one piece. */
  lemma PartsNoSlash(s: string)
    requires '/' !in s
    ensures Parts(s) == Kept(s)
  {
    PartsFromNoSlash("", s);
    assert "" + s == s;
  }

  /** Every kept component is a single path component, given a separator-free piece under way. */
  lemma {:induction false} PartsFromAreComponents(cur: string, s: string)
    requires '/' !in cur
    ensures forall i :: 0 <= i < |PartsFrom(cur, s)| ==> Component(PartsFrom(cur, s)[i])
    decreases |s|
  {
    if s != [] {
      if s[0] == '/' {
        PartsFromAreComponents("", s[1..]);
      } else {
        PartsFromAreComponents(cur + [s[0]], s[1..]);
      }
    }
  }

  /** Every kept component is a single path component. */
  lemma PartsAreComponents(s: string)
    ensures forall i :: 0 <= i < |Parts(s)| ==> Component(Parts(s)[i])
  {
    PartsFromAreComponents("", s);
  }

  lemma {:induction false} JoinAllSnoc(ps: seq<string>, name: string)
    ensures JoinAll(ps + [name]) == if ps == [] then name else JoinAll(ps) + "/" + name
    decreases |ps|
  {
    if |ps| > 1 {
      assert (ps + [name])[1..] == ps[1..] + [name];
      JoinAllSnoc(ps[1..], name);
    } else if |ps| == 1 {
      assert (ps + [name])[1..] == [name];
    }
  }

  lemma RootPrefix(dir: string, t: string)
    requires dir != "" && ((dir != "/" && dir != "//") || t == "" || t[0] != '/')
    ensures Root(dir + t) == Root(dir)
  {
    if |dir| >= 3 {
      assert (dir + t)[..3] == dir[..3];
    }
  }

  /** A trailing separator adds no component. */
  lemma PartsTrailingSlash(d: string)
    ensures Parts(d + "/") == Parts(d)
  {
    assert d + "/" + "" == d + "/";
    PartsConcat(d, "");
    PartsNoSlash("");
  }

  /** After a separator-terminated `dir`, a component is one more kept piece. */
  lemma ConcatAfterSlash(d: string, name: string)
    requires Component(name)
    ensures Parts(d + "/" + name) == Parts(d + "/") + [name]
  {
    PartsTrailingSlash(d);
    PartsConcat(d, name);
    PartsNoSlash(name);
  }

  /** Appending a component keeps the root and adds the component to the kept ones. */
  lemma ConcatComponent(dir: string, name: string)
    requires Component(name)
    ensures Root(Concat(dir, name)) == Root(dir) && Parts(Concat(dir, name)) == Parts(dir) + [name]
  {
    if dir == "" {
      PartsNoSlash(name);
      PartsNoSlash(dir);
    } else if dir[|dir| - 1] == '/' {
      ConcatSlashEnded(dir, name);
    } else {
      ConcatPlain(dir, name);
    }
  }

  lemma ConcatSlashEnded(dir: string, name: string)
    requires Component(name) && dir != "" && dir[|dir| - 1] == '/'
    ensures Root(dir + name) == Root(dir) && Parts(dir + name) == Parts(dir) + [name]
  {
    var d := dir[..|dir| - 1];
    assert dir == d + "/";
    ConcatAfterSlash(d, name);
    RootPrefix(dir, name);
  }

  lemma ConcatPlain(dir: string, name: string)
    requires Component(name) && dir != "" && dir[|dir| - 1] != '/'
    ensures Root(dir + "/" + name) == Root(dir) && Parts(dir + "/" + name) == Parts(dir) + [name]
  {
    PlainParts(dir, name);
    PlainRoot(dir, name);
  }

  lemma PlainParts(dir: string, name: string)
    requires Component(name)
    ensures Parts(dir + "/" + name) == Parts(dir) + [name]
  {
    PartsNoSlash(name);
    PartsConcat(dir, name);
  }

  lemma PlainRoot(dir: string, name: string)
    requires Component(name) && dir != "" && dir[|dir| - 1] != '/'
    ensures Root(dir + "/" + name) == Root(dir)
  {
    assert dir + "/" + name == dir + ("/" + name);
    RootPrefix(dir, "/" + name);
  }

  /**
   * `PurePosixPath(dir) / name` for a single component `name`: the root of `dir` is kept and
   * `name` is appended to its components, so the string is `name` after ".", the root followed
   * by `name` after a bare root, and `dir`'s normal form, "/" and `name` otherwise.
   */
  lemma JoinComponent(dir: string, name: string)
    requires Component(name)
    ensures Join(dir, name) == if Parts(dir) == [] then Root(dir) + name else PathStr(dir) + "/" + name
  {
    var c := Concat(dir, name);
    ConcatComponent(dir, name);
    assert Join(dir, name) == PathStr(c);
    assert PathStr(c) == Root(dir) + JoinAll(Parts(dir) + [name]);
    JoinAllSnoc(Parts(dir), name);
  }

  /** A one-component directory joined with a separator-free name: "" and "." leave the directory itself. */
  lemma JoinToComponent(dir: string, name: string)
    requires Component(dir) && '/' !in name
    ensures Join(dir, name) == if name == "" || name == "." then dir else dir + "/" + name
  {
    PartsNoSlash(dir);
    assert PathStr(dir) == dir;
    if name == "" || name == "." {
      assert Concat(dir, name) == dir + "/" + name;
      assert Parts(Concat(dir, name)) == [dir] by {
        PartsConcat(dir, name);
        PartsNoSlash(name);
      }
      assert Root(Concat(dir, name)) == "" by {
        RootPrefix(dir, "/" + name);
        assert dir + "/" + name == dir + ("/" + name);
      }
    } else {
      JoinComponent(dir, name);
    }
  }

  /** An empty directory and "." are the working directory: the component alone. */
  lemma JoinCurrentDir(name: string)
    requires Component(name)
    ensures Join("", name) == name && Join(".", name) == name
  {
    PartsNoSlash("");
    PartsNoSlash(".");
    JoinComponent("", name);
    JoinComponent(".", name);
  }

  /** A leading "./" of a relative directory is dropped. */
  lemma JoinDropsLeadingDot(dir: string, name: string)
    requires Component(name) && (dir == "" || dir[0] != '/')
    ensures Join("./" + dir, name) == Join(dir, name)
  {
    var x := "./" + dir;
    assert Parts(x) == Parts(dir) && Root(x) == Root(dir) by {
      assert x == "." + "/" + dir;
      PartsConcat(".", dir);
      PartsNoSlash(".");
    }
    JoinComponent(x, name);
    JoinComponent(dir, name);
  }

  /** A trailing "/" of a directory with components is dropped. */
  lemma JoinDropsTrailingSlash(dir: string, name: string)
    requires Component(name) && Parts(dir) != []
    ensures Join(dir + "/", name) == Join(dir, name)
  {
    var x := dir + "/";
    assert Parts(x) == Parts(dir) by {
      assert x == dir + "/" + "";
      PartsConcat(dir, "");
      PartsNoSlash("");
    }
    assert Root(x) == Root(dir) by {
      assert dir != "/" && dir != "//" by {
        PartsNoSlash("");
        PartsConcat("", "");
        PartsConcat("", "/");
        assert "/" == "" + "/" + "" && "//" == "" + "/" + "/";
      }
      RootPrefix(dir, "/");
    }
    JoinComponent(x, name);
    JoinComponent(dir, name);
  }

  /** `s.endswith(t)`. */
  predicate EndsWith(s: string, t: string) {
    |t| <= |s| && s[|s| - |t|..] == t
  }

  /** `t` occurs in `s` starting at index `i`. */
  predicate OccursAt(s: string, t: string, i: int) {
    0 <= i <= |s| - |t| && s[i..i + |t|] == t
  }

  /** `t in s` on strings: `t` occurs as a contiguous substring of `s`. */
  predicate HasSubstring(s: string, t: string) {
    exists i :: 0 <= i <= |s| && OccursAt(s, t, i)
  }

  /** `s.count(c)` for a single character. */
  function CountChar(s: string, c: char): (n: nat)
    ensures n <= |s|
  {
    if s == [] then 0 else CountChar(s[..|s| - 1], c) + (if s[|s| - 1] == c then 1 else 0)
  }

  /** Counting over a prefix never exceeds counting over the whole string. */
  lemma {:induction false} CountCharPrefix(s: string, c: char, k: nat)
    requires k <= |s|
    ensures CountChar(s[..k], c) <= CountChar(s, c)
    decreases |s|
  {
    if k < |s| {
      assert s[..|s| - 1][..k] == s[..k];
      CountCharPrefix(s[..|s| - 1], c, k);
    } else {
      assert s[..k] == s;
    }
  }

  /** `s.count(c)` of a concatenation. */
  lemma {:induction false} CountCharConcat(s: string, t: string, c: char)
    ensures CountChar(s + t, c) == CountChar(s, c) + CountChar(t, c)
    decreases |t|
  {
    if t == [] {
      assert s + t == s;
    } else {
      assert (s + t)[..|s + t| - 1] == s + t[..|t| - 1];
      CountCharConcat(s, t[..|t| - 1], c);
    }
  }

  /** A character that does not occur is counted zero times. */
  lemma {:induction false} CountCharAbsent(s: string, c: char)
    requires c !in s
    ensures CountChar(s, c) == 0
    decreases |s|
  {
    if s != [] {
      assert forall i :: 0 <= i < |s| - 1 ==> s[..|s| - 1][i] == s[i];
      CountCharAbsent(s[..|s| - 1], c);
    }
  }

  /** `name.rfind('.')`: the index of the last dot, or -1. */
  function LastDot(name: string): (i: int)
    ensures -1 <= i < |name|
    ensures i >= 0 ==> name[i] == '.'
    ensures forall j :: i < j < |name| ==> name[j] != '.'
  {
    if name == [] then -1
    else if name[|name| - 1] == '.' then |name| - 1
    else LastDot(name[..|name| - 1])
  }

  /** Where `PurePath.suffix`/`stem` split `name`, if they split it (Python 3.9 to 3.13). */
  function SuffixStart(name: string): Option<nat> {
    var i := LastDot(name);
    if 0 < i < |name| - 1 then Some(i) else None
  }

  /** `PurePath(name).suffix`: from the last dot on, unless that dot is first or last. */
  function Suffix(name: string): string {
    match SuffixStart(name)
    case Some(i) => name[i..]
    case None => ""
  }

  /** `PurePath(name).stem`: the name without its suffix. */
  function Stem(name: string): string {
    match SuffixStart(name)
    case Some(i) => name[..i]
    case None => name
  }

  /** A last dot strictly inside the name starts its suffix. */
  lemma SuffixFromLastDot(name: string, i: nat)
    requires 0 < i < |name| - 1 && name[i] == '.' && '.' !in name[i + 1..]
    ensures Suffix(name) == name[i..] && Stem(name) == name[..i]
  {
    assert forall j :: i < j < |name| ==> name[j] == name[i + 1..][j - i - 1];
  }

  /** Stem and suffix split the name: gluing them back gives the name. */
  lemma StemSuffix(name: string)
    ensures Stem(name) + Suffix(name) == name
    ensures Suffix(name) == "" || (Suffix(name)[0] == '.' && 2 <= |Suffix(name)| && '.' !in Suffix(name)[1..])
    ensures Stem(name) != "" || name == ""
  {
    match SuffixStart(name)
    case Some(i) =>
      assert name[..i] + name[i..] == name;
      assert forall j :: 0 <= j < |name[i..]| - 1 ==> name[i..][1..][j] == name[i + 1 + j];
    case None =>
  }
}
