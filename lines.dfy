/** The line view of a text file that both scripts use for project.xml and config.xml: a file
    opened in text mode is read with universal newlines ("\r\n" and a lone '\r' become '\n'),
    file.readlines() splits the text after every '\n', file.writelines(lines) concatenates and
    writes '\n' unchanged (POSIX). */
module Lines {

  /** writelines: the text made of the lines, in order. */
  function Concat(ls: seq<string>): string {
    if ls == [] then [] else ls[0] + Concat(ls[1..])
  }

  lemma {:induction false} ConcatAppend(a: seq<string>, b: seq<string>)
    ensures Concat(a + b) == Concat(a) + Concat(b)
  {
    if a == [] {
      assert a + b == b;
    } else {
      assert (a + b)[1..] == a[1..] + b;
      ConcatAppend(a[1..], b);
    }
  }

  /** One line as readlines returns it: not empty, with '\n' at most as its last character. */
  predicate IsLine(l: string) {
    l != [] && '\n' !in l[..|l| - 1]
  }

  /** The line ends with '\n'. */
  predicate Terminated(l: string) {
    l != [] && l[|l| - 1] == '\n'
  }

  /** What readlines can return: lines, all of them terminated except possibly the last. */
  predicate ProperLines(ls: seq<string>) {
    (forall i :: 0 <= i < |ls| ==> IsLine(ls[i])) &&
    (forall i :: 0 <= i < |ls| - 1 ==> Terminated(ls[i]))
  }

  /** Length of the first line of t: up to and including the first '\n', or all of t. */
  function LineEnd(t: string): (k: nat)
    ensures k <= |t| && (t != [] ==> k > 0)
    ensures k == 0 || '\n' !in t[..k - 1]
    ensures 0 < k < |t| ==> t[k - 1] == '\n'
    ensures k == |t| || t[k - 1] == '\n' || k == 0
  {
    if t == [] then 0
    else if t[0] == '\n' then 1
    else
      var k := 1 + LineEnd(t[1..]);
      assert k == 1 || t[..k - 1] == [t[0]] + t[1..][..k - 2];
      k
  }

  /** readlines */
  function ReadLines(t: string): (ls: seq<string>)
    ensures Concat(ls) == t
    ensures ProperLines(ls)
    ensures ls != [] ==> Terminated(ls[|ls| - 1]) == Terminated(t)
    decreases |t|
  {
    if t == [] then []
    else
      var k := LineEnd(t);
      var rest := ReadLines(t[k..]);
      assert (rest == []) == (k == |t|) by {
        if k == |t| { assert t[k..] == []; }
        if rest == [] { assert |t[k..]| == 0; }
      }
      ConcatFirstLine(t, k, rest);
      ProperFirstLine(t, k, rest);
      LastLineOfCons(t, k, rest);
      [t[..k]] + rest
  }

  /** Writing the first line of t and then the remainder gives t back. */
  lemma ConcatFirstLine(t: string, k: nat, rest: seq<string>)
    requires k <= |t| && Concat(rest) == t[k..]
    ensures Concat([t[..k]] + rest) == t
  {
    ConcatCons(t[..k], rest);
    assert t == t[..k] + t[k..];
  }

  /** The first line of t followed by proper lines of the remainder are proper lines. */
  lemma ProperFirstLine(t: string, k: nat, rest: seq<string>)
    requires 0 < k <= |t| && '\n' !in t[..k - 1] && (k < |t| ==> t[k - 1] == '\n')
    requires ProperLines(rest) && (rest == []) == (k == |t|)
    ensures ProperLines([t[..k]] + rest)
  {
    FirstLineIsLine(t, k);
    assert rest != [] ==> t[..k][k - 1] == '\n';
    ProperCons(t[..k], rest);
  }

  lemma ConcatCons(l: string, rest: seq<string>)
    ensures Concat([l] + rest) == l + Concat(rest)
  {
    assert ([l] + rest)[1..] == rest;
  }

  lemma FirstLineIsLine(t: string, k: nat)
    requires 0 < k <= |t| && '\n' !in t[..k - 1]
    ensures IsLine(t[..k])
  {
    assert t[..k][..k - 1] == t[..k - 1];
  }

  /** The last line read from t ends with '\n' exactly when t does. */
  lemma LastLineOfCons(t: string, k: nat, rest: seq<string>)
    requires 0 < k <= |t| && (rest == []) == (k == |t|)
    requires rest != [] ==> Terminated(rest[|rest| - 1]) == Terminated(t[k..])
    ensures Terminated(([t[..k]] + rest)[|rest|]) == Terminated(t)
  {
    if rest == [] {
      assert t[..k] == t;
    } else {
      assert ([t[..k]] + rest)[|rest|] == rest[|rest| - 1];
      assert t[k..][|t[k..]| - 1] == t[|t| - 1];
    }
  }

  /** The first line of a text that starts with a line l is l itself. */
  lemma {:induction false} LineEndOfLine(l: string, r: string)
    requires IsLine(l) && (Terminated(l) || r == [])
    ensures LineEnd(l + r) == |l|
  {
    if |l| > 1 {
      assert l[0] in l[..|l| - 1];
      assert (l + r)[1..] == l[1..] + r;
      assert l[1..][..|l[1..]| - 1] == l[..|l| - 1][1..];
      LineEndOfLine(l[1..], r);
    }
  }

  /** Characters of t consumed by one step of the translation: "\r\n" is one line break. */
  function BreakLength(t: string): (n: nat)
    requires t != []
    ensures 1 <= n <= |t|
  {
    if t[0] == '\r' && |t| > 1 && t[1] == '\n' then 2 else 1
  }

  /** What one step of the translation produces: '\n' for a line break, else the character. */
  function Head(t: string): string
    requires t != []
  {
    if t[0] == '\r' then "\n" else [t[0]]
  }

  /** Universal-newline translation of Python 3's text mode on reading: "\r\n" and a lone '\r'
      each become '\n'; other characters are kept in order. */
  function Translate(t: string): (r: string)
    ensures '\r' !in r
    ensures '\r' !in t ==> r == t
    ensures t != [] && (t[|t| - 1] == '\n' || t[|t| - 1] == '\r') ==> r != [] && r[|r| - 1] == '\n'
    ensures t != [] <==> r != []
  {
    if t == [] then []
    else
      var rest := Translate(t[BreakLength(t)..]);
      StepFacts(t, rest);
      Head(t) + rest
  }

  /** One step of the translation keeps the properties Translate promises. */
  lemma StepFacts(t: string, rest: string)
    requires t != [] && '\r' !in rest
    requires '\r' !in t[BreakLength(t)..] ==> rest == t[BreakLength(t)..]
    requires t[BreakLength(t)..] != [] && (t[|t| - 1] == '\n' || t[|t| - 1] == '\r') ==>
      rest != [] && rest[|rest| - 1] == '\n'
    ensures '\r' !in Head(t) + rest
    ensures '\r' !in t ==> Head(t) + rest == t
    ensures t[|t| - 1] == '\n' || t[|t| - 1] == '\r' ==> (Head(t) + rest)[|Head(t) + rest| - 1] == '\n'
  {
    var n := BreakLength(t);
    assert '\r' !in t ==> '\r' !in t[n..] by {
      if '\r' in t[n..] {
        var i :| 0 <= i < |t[n..]| && t[n..][i] == '\r';
        assert t[n + i] == '\r';
      }
    }
    assert t[n..] != [] ==> t[n..][|t[n..]| - 1] == t[|t| - 1];
    if '\r' !in t {
      assert n == 1 && t == [t[0]] + t[1..];
    }
  }

  /** One step of translating x + y is the step of x, when x does not end in '\r'. */
  lemma StepAppend(x: string, y: string)
    requires x != [] && x[|x| - 1] != '\r'
    ensures BreakLength(x + y) == BreakLength(x) && Head(x + y) == Head(x)
    ensures (x + y)[BreakLength(x)..] == x[BreakLength(x)..] + y
    ensures var n := BreakLength(x); x[n..] == [] || x[n..][|x[n..]| - 1] != '\r'
  {
    assert x[0] == '\r' ==> |x| > 1;
    var n := BreakLength(x);
    assert x[n..] == [] || x[n..][|x[n..]| - 1] == x[|x| - 1];
  }

  /** Translation works piecewise across a cut that does not follow a '\r'. */
  lemma {:induction false} TranslateAppend(x: string, y: string)
    requires x == [] || x[|x| - 1] != '\r'
    ensures Translate(x + y) == Translate(x) + Translate(y)
  {
    if x == [] {
      assert x + y == y;
    } else {
      var n := BreakLength(x);
      StepAppend(x, y);
      TranslateAppend(x[n..], y);
      var h, a, b := Head(x), Translate(x[n..]), Translate(y);
      assert Translate(x[n..] + y) == a + b;
      TranslateUnfold(x + y);
      TranslateUnfold(x);
      Associate(h, a, b);
    }
  }

  lemma Associate(h: string, a: string, b: string)
    ensures h + (a + b) == (h + a) + b
  {
  }

  /** One step of Translate. */
  lemma TranslateUnfold(t: string)
    requires t != []
    ensures Translate(t) == Head(t) + Translate(t[BreakLength(t)..])
  {
  }

  /** No line holds a '\r'. */
  predicate NoCR(ls: seq<string>) {
    forall i :: 0 <= i < |ls| ==> '\r' !in ls[i]
  }

  /** The lines of a text without '\r' hold no '\r', and their concatenation has none. */
  lemma {:induction false} NoCRConcat(ls: seq<string>)
    ensures NoCR(ls) <==> '\r' !in Concat(ls)
  {
    if ls != [] {
      NoCRConcat(ls[1..]);
      assert Concat(ls) == ls[0] + Concat(ls[1..]);
      assert forall i :: 1 <= i < |ls| ==> ls[i] == ls[1..][i - 1];
      if '\r' in ls[0] {
        var j :| 0 <= j < |ls[0]| && ls[0][j] == '\r';
        assert Concat(ls)[j] == '\r';
      }
      if '\r' in Concat(ls[1..]) {
        var j :| 0 <= j < |Concat(ls[1..])| && Concat(ls[1..])[j] == '\r';
        assert Concat(ls)[|ls[0]| + j] == '\r';
      }
    }
  }

  /** f.readlines() on a file opened in text mode: the lines of the translated text. */
  function ReadFile(t: string): (ls: seq<string>)
    ensures Concat(ls) == Translate(t)
    ensures ProperLines(ls) && NoCR(ls)
    ensures ls != [] ==> Terminated(ls[|ls| - 1]) == Terminated(Translate(t))
    ensures '\r' !in t ==> ls == ReadLines(t)
  {
    var ls := ReadLines(Translate(t));
    NoCRConcat(ls);
    ls
  }

  /** writelines followed by readlines in text mode gives the same proper, '\r'-free lines. */
  lemma ReadFileConcat(ls: seq<string>)
    requires ProperLines(ls) && NoCR(ls)
    ensures ReadFile(Concat(ls)) == ls
  {
    NoCRConcat(ls);
    ReadConcat(ls);
  }

  /** Reading back what writelines wrote gives the same lines, when they are proper lines. */
  lemma {:induction false} ReadConcat(ls: seq<string>)
    requires ProperLines(ls)
    ensures ReadLines(Concat(ls)) == ls
  {
    if ls != [] {
      assert |ls| == 1 ==> Concat(ls[1..]) == [];
      ReadFirstLine(ls[0], Concat(ls[1..]));
      ProperSlice(ls, 1, |ls|);
      ReadConcat(ls[1..]);
      assert ls == [ls[0]] + ls[1..];
    }
  }

  /** Reading a text that starts with a line l gives l, then the lines of the rest. */
  lemma ReadFirstLine(l: string, r: string)
    requires IsLine(l) && (Terminated(l) || r == [])
    ensures ReadLines(l + r) == [l] + ReadLines(r)
  {
    var t := l + r;
    LineEndOfLine(l, r);
    assert t[..|l|] == l;
    assert t[|l|..] == r;
  }

  /** Proper line lists can be chained when the first one's last line is terminated. */
  lemma ProperAppend(a: seq<string>, b: seq<string>)
    requires ProperLines(a) && ProperLines(b)
    requires a != [] && b != [] ==> Terminated(a[|a| - 1])
    ensures ProperLines(a + b)
  {
    forall i | 0 <= i < |a + b| ensures IsLine((a + b)[i]) {
      if i < |a| { assert (a + b)[i] == a[i]; } else { assert (a + b)[i] == b[i - |a|]; }
    }
    forall i | 0 <= i < |a + b| - 1 ensures Terminated((a + b)[i]) {
      if i < |a| { assert (a + b)[i] == a[i]; } else { assert (a + b)[i] == b[i - |a|]; }
    }
  }

  lemma ProperCons(l: string, rest: seq<string>)
    requires IsLine(l) && ProperLines(rest) && (rest != [] ==> Terminated(l))
    ensures ProperLines([l] + rest)
  {
    ProperAppend([l], rest);
  }

  /** Slices of proper lines are proper. */
  lemma ProperSlice(ls: seq<string>, i: nat, j: nat)
    requires ProperLines(ls) && i <= j <= |ls|
    ensures ProperLines(ls[i..j])
  {
    forall k | 0 <= k < j - i ensures IsLine(ls[i..j][k]) {
      assert ls[i..j][k] == ls[i + k];
    }
    forall k | 0 <= k < j - i - 1 ensures Terminated(ls[i..j][k]) {
      assert ls[i..j][k] == ls[i + k];
    }
  }

  /** A text without '\n' followed by '\n' is one terminated line. */
  lemma OneLine(body: string)
    requires '\n' !in body
    ensures IsLine(body + "\n") && Terminated(body + "\n")
  {
    assert (body + "\n")[..|body|] == body;
  }

  lemma FourLinesProper(a: string, b: string, c: string, d: string)
    requires '\n' !in a && '\n' !in b && '\n' !in c && '\n' !in d
    ensures ProperLines([a + "\n", b + "\n", c + "\n", d + "\n"])
  {
    OneLine(a);
    OneLine(b);
    OneLine(c);
    OneLine(d);
  }

  lemma ConcatFour(a: string, b: string, c: string, d: string)
    ensures Concat([a, b, c, d]) == a + b + c + d
  {
    var ls := [a, b, c, d];
    assert Concat(ls[3..]) == ls[3] by { assert Concat(ls[4..]) == []; }
    assert Concat(ls[2..]) == ls[2] + Concat(ls[3..]);
    assert Concat(ls[1..]) == ls[1] + Concat(ls[2..]);
    assert Concat(ls) == ls[0] + Concat(ls[1..]);
  }

  /** Four terminated lines are read back as themselves. */
  lemma ReadFourLines(a: string, b: string, c: string, d: string)
    requires '\n' !in a && '\n' !in b && '\n' !in c && '\n' !in d
    ensures ReadLines(a + "\n" + (b + "\n") + (c + "\n") + (d + "\n"))
      == [a + "\n", b + "\n", c + "\n", d + "\n"]
  {
    FourLinesProper(a, b, c, d);
    ConcatFour(a + "\n", b + "\n", c + "\n", d + "\n");
    ReadConcat([a + "\n", b + "\n", c + "\n", d + "\n"]);
  }
}
