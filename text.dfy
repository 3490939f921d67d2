/** String operations of Python's str and os.path (POSIX) that the scripts rely on. */
module Text {

  /** sub occurs in s starting at index i. */
  predicate OccursAt(s: string, sub: string, i: nat) {
    i + |sub| <= |s| && s[i..i + |sub|] == sub
  }

  /** Python's `sub in s` on strings. */
  predicate Contains(s: string, sub: string) {
    exists i: nat :: i <= |s| && OccursAt(s, sub, i)
  }

  /** str.endswith */
  predicate EndsWith(s: string, suffix: string) {
    |suffix| <= |s| && s[|s| - |suffix|..] == suffix
  }

  /** Concatenation regroups. */
  lemma Regroup(a: string, b: string, c: string)
    ensures a + b + c == a + (b + c)
  {
  }

  lemma ContainsAt(s: string, sub: string, i: nat)
    requires OccursAt(s, sub, i)
    ensures Contains(s, sub)
  {
  }

  /** A string that lacks the first character of sub does not contain sub. */
  lemma NotContainsMissingChar(s: string, sub: string)
    requires |sub| > 0 && sub[0] !in s
    ensures !Contains(s, sub)
  {
  }

  /** Every character of an occurrence of sub is a character of sub. */
  lemma OccurrenceChar(s: string, sub: string, i: nat, k: nat)
    requires OccursAt(s, sub, i) && i <= k < i + |sub|
    ensures s[k] in sub
  {
    assert s[k] == s[i..i + |sub|][k - i];
  }

  /** A string shorter than sub does not contain it. */
  lemma NotContainsShorter(s: string, sub: string)
    requires |s| < |sub|
    ensures !Contains(s, sub)
  {
  }

  /** A string of the same length as sub contains it only by being equal to it. */
  lemma NotContainsSameLength(s: string, sub: string)
    requires |s| == |sub| && s != sub
    ensures !Contains(s, sub)
  {
  }

  /** An occurrence of sub cannot straddle a separator character that sub does not contain. */
  lemma ContainsAround(a: string, c: char, b: string, sub: string)
    requires c !in sub
    ensures Contains(a + [c] + b, sub) <==> Contains(a, sub) || Contains(b, sub)
  {
    var s := a + [c] + b;
    if Contains(s, sub) {
      var i: nat :| i <= |s| && OccursAt(s, sub, i);
      OccurrenceAround(a, c, b, sub, i);
    }
    if Contains(a, sub) {
      ContainsExtended(a, [c] + b, sub);
      assert a + ([c] + b) == s;
    }
    if Contains(b, sub) {
      ContainsPrefixed(a + [c], b, sub);
    }
  }

  /** An occurrence in a + [c] + b, where c is not in sub, lies within a or within b. */
  lemma OccurrenceAround(a: string, c: char, b: string, sub: string, i: nat)
    requires c !in sub && OccursAt(a + [c] + b, sub, i)
    ensures Contains(a, sub) || Contains(b, sub)
  {
    var s := a + [c] + b;
    if i + |sub| <= |a| {
      assert s[i..i + |sub|] == a[i..i + |sub|];
      ContainsAt(a, sub, i);
    } else if i > |a| {
      assert s[i..i + |sub|] == b[i - |a| - 1..i - |a| - 1 + |sub|];
      ContainsAt(b, sub, i - |a| - 1);
    } else {
      assert s[|a|] == c;
      OccurrenceChar(s, sub, i, |a|);
      assert false;
    }
  }

  /** An occurrence survives appending. */
  lemma ContainsExtended(a: string, x: string, sub: string)
    requires Contains(a, sub)
    ensures Contains(a + x, sub)
  {
    var i: nat :| i <= |a| && OccursAt(a, sub, i);
    assert (a + x)[i..i + |sub|] == a[i..i + |sub|];
    ContainsAt(a + x, sub, i);
  }

  /** An occurrence survives prepending. */
  lemma ContainsPrefixed(x: string, b: string, sub: string)
    requires Contains(b, sub)
    ensures Contains(x + b, sub)
  {
    var i: nat :| i <= |b| && OccursAt(b, sub, i);
    assert (x + b)[|x| + i..|x| + i + |sub|] == b[i..i + |sub|];
    ContainsAt(x + b, sub, |x| + i);
  }

  /** os.path.basename: the longest suffix of p without '/', which is all of p or follows a '/'. */
  function Basename(p: string): (b: string)
    ensures '/' !in b
    ensures |b| <= |p| && p[|p| - |b|..] == b
    ensures |b| < |p| ==> p[|p| - |b| - 1] == '/'
  {
    if p == [] || p[|p| - 1] == '/' then []
    else
      var b := Basename(p[..|p| - 1]) + [p[|p| - 1]];
      assert p[|p| - |b|..] == p[..|p| - 1][|p| - |b|..] + [p[|p| - 1]];
      b
  }

  /** A path without '/' is its own basename. */
  lemma {:induction false} BasenameOfName(p: string)
    requires '/' !in p
    ensures Basename(p) == p
  {
    if p != [] {
      var q, c := p[..|p| - 1], p[|p| - 1];
      assert c in p;
      assert '/' !in q by {
        forall k | 0 <= k < |q| ensures q[k] != '/' {
          assert q[k] in p;
        }
      }
      BasenameOfName(q);
      assert Basename(p) == Basename(q) + [c];
      assert p == q + [c];
    }
  }

  /** The basename of dir + "/" + name is name when name has no '/'. */
  lemma {:induction false} BasenameAfterSlash(dir: string, name: string)
    requires '/' !in name
    ensures Basename(dir + "/" + name) == name
  {
    var p := dir + "/" + name;
    if name == [] {
      assert p[|p| - 1] == '/';
    } else {
      assert name[|name| - 1] in name;
      assert p[|p| - 1] == name[|name| - 1];
      assert p[..|p| - 1] == dir + "/" + name[..|name| - 1];
      BasenameAfterSlash(dir, name[..|name| - 1]);
      assert name == name[..|name| - 1] + [name[|name| - 1]];
    }
  }

  /** os.path.join(a, b) on POSIX: an absolute b replaces a; otherwise a '/' is added unless a
      is empty or already ends with one. */
  function Join(a: string, b: string): (r: string)
    ensures EndsWith(r, b)
    ensures |b| > 0 && b[0] == '/' ==> r == b
    ensures !(|b| > 0 && b[0] == '/') ==> |a| <= |r| && r[..|a|] == a
  {
    if |b| > 0 && b[0] == '/' then b
    else if a == [] || a[|a| - 1] == '/' then a + b
    else a + "/" + b
  }

  /** The part of p before its last '/': "" when p has no '/' (a name in the working directory)
      and when its only '/' comes first (a name in the root directory). */
  function DirPart(p: string): (d: string)
    ensures |Basename(p)| < |p| ==> p == d + "/" + Basename(p)
    ensures |Basename(p)| == |p| ==> d == []
  {
    var b := Basename(p);
    if |b| < |p| then p[..|p| - |b| - 1] else []
  }

  /** The folder part of dir + "/" + name, name without '/', is dir. */
  lemma DirPartAfterSlash(dir: string, name: string)
    requires '/' !in name
    ensures DirPart(dir + "/" + name) == dir
  {
    BasenameAfterSlash(dir, name);
    var p := dir + "/" + name;
    assert p == DirPart(p) + "/" + name;
    assert p[..|dir|] == dir;
  }

  /** Joining a directory that does not end in '/' with a relative name inserts one '/'. */
  lemma JoinInserts(dir: string, name: string)
    requires dir != [] && dir[|dir| - 1] != '/' && '/' !in name
    ensures Join(dir, name) == dir + "/" + name
  {
    if |name| > 0 {
      assert name[0] in name;
    }
  }

  /** Joining any directory with a name without '/' yields a path whose basename is that name. */
  lemma JoinBasename(dir: string, name: string)
    requires '/' !in name
    ensures Basename(Join(dir, name)) == name
  {
    if |name| > 0 {
      assert name[0] in name;
    }
    if dir == [] {
      assert Join(dir, name) == name;
      BasenameOfName(name);
    } else if dir[|dir| - 1] == '/' {
      var d := dir[..|dir| - 1];
      assert dir == d + "/";
      assert Join(dir, name) == d + "/" + name;
      BasenameAfterSlash(d, name);
    } else {
      assert Join(dir, name) == dir + "/" + name;
      BasenameAfterSlash(dir, name);
    }
  }

  /** A path ending in "/" + name (name without '/') determines both the directory and the name. */
  lemma SplitAtLastSlash(a: string, x: string, b: string, y: string)
    requires '/' !in x && '/' !in y
    requires a + "/" + x == b + "/" + y
    ensures a == b && x == y
  {
    BasenameAfterSlash(a, x);
    BasenameAfterSlash(b, y);
    assert (a + "/" + x)[..|a|] == a;
    assert (b + "/" + y)[..|b|] == b;
  }
}
