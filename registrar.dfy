/** The project registrar, add_new_app_to_project: inserts an <app> stanza into the lines of
    project.xml at a fixed offset from the end and writes the lines back. The two scripts differ
    only in the offset (Common.InsertOffset). There is no check for an existing entry. */
module Registrar {
  import opened Text
  import opened Lines

  /** The literal pieces of the stanza, in the order the script concatenates them. */
  const AppOpen := "    <app>\n"
  const NameOpen := "        <name>"
  const NameClose := "</name>\n"
  const FriendlyOpen := "        <user_friendly_name>"
  const FriendlyClose := "</user_friendly_name>\n"
  const AppClose := "    </app>\n"

  /** The four-line <app> stanza, kept as one element of the line list. */
  function Stanza(appName: string): string {
    AppOpen + NameOpen + appName + NameClose + FriendlyOpen + appName + FriendlyClose + AppClose
  }

  /** The four lines of the stanza, as they are read back from the file. */
  function StanzaLines(appName: string): seq<string> {
    [AppOpen, NameOpen + appName + NameClose, FriendlyOpen + appName + FriendlyClose, AppClose]
  }

  /** `for i in range(n): if i == n - offset` fires exactly when 0 <= n - offset < n. */
  predicate Inserts(n: nat, offset: nat) {
    1 <= offset <= n
  }

  /** The line list after the loop: the stanza goes in front of the last offset lines. */
  function Registered(contents: seq<string>, stanza: string, offset: nat): seq<string> {
    if Inserts(|contents|, offset) then
      var k := |contents| - offset;
      contents[..k] + [stanza] + contents[k..]
    else contents
  }

  /** The loop of add_new_app_to_project: its bound is len(contents) taken before the list grows,
      and the list is updated in place by contents.insert(i, line). */
  method InsertStanza(contents: seq<string>, stanza: string, offset: nat) returns (r: seq<string>)
    ensures r == Registered(contents, stanza, offset)
    ensures Inserts(|contents|, offset) ==>
      |r| == |contents| + 1 && r[|contents| - offset] == stanza &&
      r[..|contents| - offset] == contents[..|contents| - offset] &&
      r[|contents| - offset + 1..] == contents[|contents| - offset..]
    ensures !Inserts(|contents|, offset) ==> r == contents
    ensures multiset(r)[stanza] == multiset(contents)[stanza] + (if Inserts(|contents|, offset) then 1 else 0)
  {
    r := contents;
    var lenContents := |contents|;
    for i := 0 to lenContents
      invariant r == if Inserts(lenContents, offset) && lenContents - offset < i
                     then Registered(contents, stanza, offset) else contents
    {
      if i == lenContents - offset {
        r := r[..i] + [stanza] + r[i..];
      }
    }
    if Inserts(lenContents, offset) {
      var k := lenContents - offset;
      assert contents == contents[..k] + contents[k..];
      assert r == contents[..k] + [stanza] + contents[k..];
    }
  }

  /** The stanza is the four lines of StanzaLines, one after the other. */
  lemma StanzaAsLines(appName: string)
    ensures Stanza(appName) == Concat(StanzaLines(appName))
  {
    var ls := StanzaLines(appName);
    ConcatFour(ls[0], ls[1], ls[2], ls[3]);
    assert ls == [ls[0], ls[1], ls[2], ls[3]];
    Regroup(AppOpen, NameOpen + appName, NameClose);
    Regroup(AppOpen, NameOpen, appName);
    Regroup(ls[0] + ls[1], FriendlyOpen + appName, FriendlyClose);
    Regroup(ls[0] + ls[1], FriendlyOpen, appName);
  }

  /** The stanza occupies exactly four lines of the file when the name holds neither '\n' nor
      '\r'. */
  lemma StanzaReadsAsFourLines(appName: string)
    requires '\n' !in appName && '\r' !in appName
    ensures ReadFile(Stanza(appName)) == StanzaLines(appName)
  {
    var a := "    <app>";
    var b := NameOpen + appName + "</name>";
    var c := FriendlyOpen + appName + "</user_friendly_name>";
    var d := "    </app>";
    assert '\n' !in b && '\n' !in c;
    assert AppOpen == a + "\n" && AppClose == d + "\n";
    assert NameClose == "</name>" + "\n" && FriendlyClose == "</user_friendly_name>" + "\n";
    Regroup(NameOpen + appName, "</name>", "\n");
    Regroup(FriendlyOpen + appName, "</user_friendly_name>", "\n");
    FourLinesProper(a, b, c, d);
    assert StanzaLines(appName) == [a + "\n", b + "\n", c + "\n", d + "\n"];
    StanzaNoCR(appName);
    StanzaAsLines(appName);
    ReadFileConcat(StanzaLines(appName));
  }

  /** The stanza's lines hold no '\r' when the name holds none. */
  lemma StanzaNoCR(appName: string)
    requires '\r' !in appName
    ensures NoCR(StanzaLines(appName))
  {
    assert '\r' !in AppOpen && '\r' !in NameOpen && '\r' !in NameClose by {
      forall k | 0 <= k < |AppOpen| ensures AppOpen[k] != '\r' { }
      forall k | 0 <= k < |NameOpen| ensures NameOpen[k] != '\r' { }
      forall k | 0 <= k < |NameClose| ensures NameClose[k] != '\r' { }
    }
    assert '\r' !in FriendlyOpen && '\r' !in FriendlyClose && '\r' !in AppClose by {
      forall k | 0 <= k < |FriendlyOpen| ensures FriendlyOpen[k] != '\r' { }
      forall k | 0 <= k < |FriendlyClose| ensures FriendlyClose[k] != '\r' { }
      forall k | 0 <= k < |AppClose| ensures AppClose[k] != '\r' { }
    }
  }

  /** project.xml after add_new_app_to_project: read the lines in text mode, insert the stanza
      text, write the lines. The script passes Stanza(app_name). The file grows by exactly the
      stanza, spliced in front of its last offset lines; a file with fewer lines than the offset
      is written back with only its line endings translated. */
  function RegisterFile(text: string, stanza: string, offset: nat): (r: string)
    ensures var ls := ReadFile(text);
      if Inserts(|ls|, offset) then
        r == Concat(ls[..|ls| - offset]) + stanza + Concat(ls[|ls| - offset..])
      else r == Translate(text)
  {
    var ls := ReadFile(text);
    if Inserts(|ls|, offset) then
      var k := |ls| - offset;
      assert Registered(ls, stanza, offset) == ls[..k] + [stanza] + ls[k..];
      SpliceConcat(ls, k, stanza);
      Concat(Registered(ls, stanza, offset))
    else
      Concat(Registered(ls, stanza, offset))
  }

  /** Writing out a line list with one more element spliced in writes that element's text at
      the splice point. */
  lemma SpliceConcat(ls: seq<string>, k: nat, s: string)
    requires k <= |ls|
    ensures Concat(ls[..k] + [s] + ls[k..]) == Concat(ls[..k]) + s + Concat(ls[k..])
  {
    ConcatAppend(ls[..k] + [s], ls[k..]);
    ConcatAppend(ls[..k], [s]);
    assert Concat([s]) == s + Concat([]);
  }

  /** Reading back, in text mode, a file into which a terminated text s was spliced before line
      k of '\r'-free lines: the lines before, the lines read from s, the lines after. */
  lemma ReadSpliced(ls: seq<string>, k: nat, s: string)
    requires ProperLines(ls) && NoCR(ls) && k < |ls| && Terminated(s)
    ensures ReadFile(Concat(ls[..k]) + s + Concat(ls[k..])) == ls[..k] + ReadFile(s) + ls[k..]
  {
    var p, q, m := ls[..k], ls[k..], ReadFile(s);
    assert NoCR(p) && NoCR(q) by {
      assert forall i :: 0 <= i < |p| ==> p[i] == ls[i];
      assert forall i :: 0 <= i < |q| ==> q[i] == ls[k + i];
    }
    assert ProperLines(p) && ProperLines(q) by {
      ProperSlice(ls, 0, k);
      ProperSlice(ls, k, |ls|);
      assert ls[0..k] == p && ls[k..|ls|] == q;
    }
    assert p != [] ==> Terminated(p[|p| - 1]) by {
      if p != [] { assert p[|p| - 1] == ls[k - 1]; }
    }
    assert m != [] && Terminated(m[|m| - 1]) by {
      assert Concat(m) == Translate(s) && Translate(s) != [];
    }
    SplicedLines(p, m, q);
    TranslateSplice(p, s, q);
    assert Concat(p + m + q) == Concat(p) + Concat(m) + Concat(q) by {
      ConcatAppend(p + m, q);
      ConcatAppend(p, m);
    }
    ReadFileConcat(p + m + q);
  }

  /** Proper, '\r'-free runs of lines chain when the first two end in a terminated line. */
  lemma SplicedLines(p: seq<string>, m: seq<string>, q: seq<string>)
    requires ProperLines(p) && ProperLines(m) && ProperLines(q) && NoCR(p) && NoCR(m) && NoCR(q)
    requires p != [] ==> Terminated(p[|p| - 1])
    requires m != [] && Terminated(m[|m| - 1])
    ensures ProperLines(p + m + q) && NoCR(p + m + q)
  {
    ProperAppend(p, m);
    ProperAppend(p + m, q);
    forall i | 0 <= i < |p + m + q| ensures '\r' !in (p + m + q)[i] {
      if i < |p| { assert (p + m + q)[i] == p[i]; }
      else if i < |p| + |m| { assert (p + m + q)[i] == m[i - |p|]; }
      else { assert (p + m + q)[i] == q[i - |p| - |m|]; }
    }
  }

  /** Text-mode reading translates only the spliced text when the lines around it hold no
      '\r'. */
  lemma TranslateSplice(p: seq<string>, s: string, q: seq<string>)
    requires NoCR(p) && NoCR(q) && Terminated(s)
    ensures Translate(Concat(p) + s + Concat(q)) == Concat(p) + Translate(s) + Concat(q)
  {
    NoCRConcat(p);
    NoCRConcat(q);
    TranslateAppend(Concat(p), s);
    TranslateAppend(Concat(p) + s, Concat(q));
  }

  /** Registration is not idempotent: registering the same name twice puts two stanzas, one
      after the other, in front of the same closing lines. The first copy has been read back in
      text mode, which changes it only when the name holds a '\r'. */
  lemma RegisterTwiceDuplicates(text: string, appName: string, offset: nat)
    requires Inserts(|ReadFile(text)|, offset)
    ensures var ls := ReadFile(text); var k := |ls| - offset; var s := Stanza(appName);
      RegisterFile(RegisterFile(text, s, offset), s, offset)
        == Concat(ls[..k]) + Translate(s) + s + Concat(ls[k..])
    ensures var ls := ReadFile(text); var k := |ls| - offset; var s := Stanza(appName);
      '\r' !in appName ==>
        RegisterFile(RegisterFile(text, s, offset), s, offset) == Concat(ls[..k]) + s + s + Concat(ls[k..])
  {
    var s := Stanza(appName);
    assert Terminated(s) by { assert s[|s| - 1] == '\n'; }
    RegisterFileTwice(text, s, offset);
    if '\r' !in appName {
      StanzaNoCR(appName);
      StanzaAsLines(appName);
      NoCRConcat(StanzaLines(appName));
    }
  }

  /** Registering a terminated stanza twice, at the same offset from the end: the second copy
      lands right after the first, which was read back in text mode. */
  lemma RegisterFileTwice(text: string, s: string, offset: nat)
    requires Inserts(|ReadFile(text)|, offset) && Terminated(s)
    ensures var ls := ReadFile(text); var k := |ls| - offset;
      RegisterFile(RegisterFile(text, s, offset), s, offset) == Concat(ls[..k]) + Translate(s) + s + Concat(ls[k..])
  {
    var ls := ReadFile(text);
    var k := |ls| - offset;
    var p, q := ls[..k], ls[k..];
    var m := ReadFile(s);
    var t1 := RegisterFile(text, s, offset);
    assert t1 == Concat(p) + s + Concat(q);
    ReadSpliced(ls, k, s);
    var l := p + m + q;
    assert ReadFile(t1) == l;
    // the second splice goes right after the lines of the first copy
    assert l[..|l| - offset] == p + m;
    assert l[|l| - offset..] == q;
    ConcatAppend(p, m);
  }

  /** At the line level: each registration adds one more copy of the stanza. */
  lemma RegisterTwiceCounts(contents: seq<string>, appName: string, offset: nat)
    requires Inserts(|contents|, offset)
    ensures var s := Stanza(appName);
      multiset(Registered(Registered(contents, s, offset), s, offset))[s] == multiset(contents)[s] + 2
  {
    var s := Stanza(appName);
    var k := |contents| - offset;
    var r1 := Registered(contents, s, offset);
    assert contents == contents[..k] + contents[k..];
    assert multiset(r1) == multiset(contents) + multiset{s};
    var k2 := |r1| - offset;
    assert r1 == r1[..k2] + r1[k2..];
    assert multiset(Registered(r1, s, offset)) == multiset(r1) + multiset{s};
  }
}
