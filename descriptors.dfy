/** The per-platform descriptors and the launch script: version.xml (create_version_desc),
    the job file (create_job_description_file) and the script (make_docker_script in
    boinc_docker_create_app.py, create_script in bin/boinc2docker_create_new_app.py).
    Descriptors are element trees; their indented text form is not modelled. */
module Descriptors {
  import opened Common
  import opened Text
  import opened Lines
  import Wrapper

  /** An XML element: tag, optional text, child elements in document order. */
  datatype Xml = Element(tag: string, text: Option<string>, children: seq<Xml>)

  /** ET.Element(tag) */
  function NewElement(tag: string): Xml {
    Element(tag, None, [])
  }

  /** An element with text and no children: ET.SubElement(...).text = text */
  function Leaf(tag: string, text: string): Xml {
    Element(tag, Some(text), [])
  }

  /** ET.SubElement(parent, ...): the child becomes the parent's last child. */
  function SubElement(parent: Xml, child: Xml): (r: Xml)
    ensures r.tag == parent.tag && r.text == parent.text
    ensures r.children == parent.children + [child]
  {
    parent.(children := parent.children + [child])
  }

  /** One <file> entry of version.xml as BOINC reads it. */
  datatype FileRef = FileRef(physical: Option<string>, logical: Option<string>, main: bool)

  /** The text of the first child with the given tag. */
  function ChildText(children: seq<Xml>, tag: string): Option<string> {
    if children == [] then None
    else if children[0].tag == tag then children[0].text
    else ChildText(children[1..], tag)
  }

  /** Some child has the given tag. */
  predicate HasChild(children: seq<Xml>, tag: string) {
    exists i :: 0 <= i < |children| && children[i].tag == tag
  }

  /** The file reference a <file> element stands for. */
  function FileRefOf(file: Xml): FileRef {
    FileRef(ChildText(file.children, "physical_name"), ChildText(file.children, "logical_name"),
            HasChild(file.children, "main_program"))
  }

  /** r is the reading of some <file> child. */
  predicate ReadFromFile(children: seq<Xml>, r: FileRef) {
    exists j :: 0 <= j < |children| && children[j].tag == "file" && r == FileRefOf(children[j])
  }

  /** Reads the <file> children of a version element back, in document order, into file
      references: every reference is the reading of a <file> child, and every <file> child is
      read; other children are skipped. */
  function FileRefs(children: seq<Xml>): (refs: seq<FileRef>)
    ensures |refs| <= |children|
    ensures forall i :: 0 <= i < |refs| ==> ReadFromFile(children, refs[i])
    ensures forall j :: 0 <= j < |children| && children[j].tag == "file" ==> FileRefOf(children[j]) in refs
  {
    if children == [] then []
    else
      var rest := FileRefs(children[1..]);
      assert forall j :: 1 <= j < |children| ==> children[j] == children[1..][j - 1];
      assert forall r :: ReadFromFile(children[1..], r) ==> ReadFromFile(children, r) by {
        forall r | ReadFromFile(children[1..], r) ensures ReadFromFile(children, r) {
          var k :| 0 <= k < |children[1..]| && children[1..][k].tag == "file" && r == FileRefOf(children[1..][k]);
          assert children[k + 1] == children[1..][k];
        }
      }
      if children[0].tag == "file" then [FileRefOf(children[0])] + rest
      else rest
  }

  /** Three <file> elements read back as their three references, in order. */
  lemma FileRefsOfThree(a: Xml, b: Xml, c: Xml)
    requires a.tag == "file" && b.tag == "file" && c.tag == "file"
    ensures FileRefs([a, b, c]) == [FileRefOf(a), FileRefOf(b), FileRefOf(c)]
  {
    assert [a, b, c][1..] == [b, c];
    assert [b, c][1..] == [c];
    assert [c][1..] == [];
    assert FileRefs([c]) == [FileRefOf(c)];
    assert FileRefs([b, c]) == [FileRefOf(b)] + [FileRefOf(c)];
  }

  /** ok_app_name: the physical name of the application file. Only the second script renames
      it, to app_name + ".bat", and only when the wrapper's basename names windows. */
  function OkAppName(v: Variant, wrapper: string, appName: string): (r: string)
    ensures |appName| <= |r| && r[..|appName|] == appName
    ensures r == appName <==> !(v.CreateNewApp? && Contains(wrapper, "windows"))
  {
    if v.CreateNewApp? && Contains(wrapper, "windows") then appName + ".bat" else appName
  }

  /** A <file> element with a physical_name child and one more child reads back as the
      physical name, the second child's text if it is the logical_name, and whether it is the
      main_program marker. */
  lemma RefOfPair(x: Xml, y: Xml)
    requires x.tag == "physical_name"
    ensures FileRefOf(Element("file", None, [x, y]))
         == FileRef(x.text, if y.tag == "logical_name" then y.text else None, y.tag == "main_program")
  {
    var children := [x, y];
    assert "physical_name"[0] != "logical_name"[0] && "physical_name"[0] != "main_program"[0];
    assert children[1..] == [y] && children[1..][1..] == [];
    assert ChildText(children, "physical_name") == x.text;
    assert ChildText(children, "logical_name") == ChildText([y], "logical_name");
    assert ChildText([y], "logical_name") == if y.tag == "logical_name" then y.text else None;
    assert HasChild(children, "main_program") <==> y.tag == "main_program" by {
      if y.tag == "main_program" {
        assert children[1].tag == "main_program";
      }
    }
  }

  /** The first <file> entry: the wrapper, marked as the main program. */
  method MainFileEntry(physical: string) returns (fileinfo: Xml)
    ensures fileinfo.tag == "file" && FileRefOf(fileinfo) == FileRef(Some(physical), None, true)
  {
    fileinfo := NewElement("file");
    fileinfo := SubElement(fileinfo, Leaf("physical_name", physical));
    fileinfo := SubElement(fileinfo, NewElement("main_program"));
    assert fileinfo == Element("file", None, [Leaf("physical_name", physical), NewElement("main_program")]);
    RefOfPair(Leaf("physical_name", physical), NewElement("main_program"));
    assert "main_program" != "logical_name";
  }

  /** A <file> entry that the application opens under a logical name. */
  method NamedFileEntry(physical: string, logical: string) returns (fileinfo: Xml)
    ensures fileinfo.tag == "file" && FileRefOf(fileinfo) == FileRef(Some(physical), Some(logical), false)
  {
    fileinfo := NewElement("file");
    fileinfo := SubElement(fileinfo, Leaf("physical_name", physical));
    fileinfo := SubElement(fileinfo, Leaf("logical_name", logical));
    assert fileinfo == Element("file", None, [Leaf("physical_name", physical), Leaf("logical_name", logical)]);
    RefOfPair(Leaf("physical_name", physical), Leaf("logical_name", logical));
    assert "logical_name" != "main_program";
  }

  /** The element tree of version.xml for the given physical names: the wrapper as the main
      program, the application file under the logical name appName, and appName.xml as job.xml. */
  method BuildVersion(wrapper: string, okAppName: string, appName: string) returns (root: Xml)
    ensures root.tag == "version"
    ensures FileRefs(root.children) == [
      FileRef(Some(wrapper), None, true),
      FileRef(Some(okAppName), Some(appName), false),
      FileRef(Some(appName + ".xml"), Some("job.xml"), false)]
  {
    root := NewElement("version");

    var first := MainFileEntry(wrapper);
    root := SubElement(root, first);

    var second := NamedFileEntry(okAppName, appName);
    root := SubElement(root, second);

    var third := NamedFileEntry(appName + ".xml", "job.xml");
    root := SubElement(root, third);

    assert root.children == [first, second, third];
    FileRefsOfThree(first, second, third);
  }

  /** create_version_desc: three <file> entries, the wrapper (the main program), the
      application under its own logical name, and appName.xml as job.xml. The first script
      fills a fixed template; the second builds the same tree with SubElement. */
  method CreateVersionDesc(v: Variant, wrapperFile: string, appName: string) returns (root: Xml)
    ensures root.tag == "version"
    ensures FileRefs(root.children) == [
      FileRef(Some(Basename(wrapperFile)), None, true),
      FileRef(Some(OkAppName(v, Basename(wrapperFile), appName)), Some(appName), false),
      FileRef(Some(appName + ".xml"), Some("job.xml"), false)]
  {
    var wrapper := Basename(wrapperFile);
    var okAppName := OkAppName(v, wrapper, appName);
    root := BuildVersion(wrapper, okAppName, appName);
  }

  /** The (tag, text) pairs of the children of the first <task> element. */
  function TaskFields(children: seq<Xml>): seq<(string, Option<string>)> {
    if children == [] then []
    else if children[0].tag == "task" then
      seq(|children[0].children|, i requires 0 <= i < |children[0].children| =>
        (children[0].children[i].tag, children[0].children[i].text))
    else TaskFields(children[1..])
  }

  /** create_job_description_file: a job_desc holding one task. The first script names the
      application; the second gives its physical name and the command line "boinc_docker". */
  method CreateJobDescription(v: Variant, appName: string) returns (root: Xml)
    ensures root.tag == "job_desc"
    ensures v.DockerCreateApp? ==> TaskFields(root.children) == [("application", Some(appName))]
    ensures v.CreateNewApp? ==>
      TaskFields(root.children) == [("physical_name", Some(appName)), ("command_line", Some("boinc_docker"))]
  {
    root := NewElement("job_desc");
    var task := NewElement("task");
    if v.DockerCreateApp? {
      task := SubElement(task, Leaf("application", appName));
    } else {
      task := SubElement(task, Leaf("physical_name", appName));
      task := SubElement(task, Leaf("command_line", "boinc_docker"));
    }
    root := SubElement(root, task);
  }

  const VersionFile := "version.xml"

  /** appfolder + "/" + "version.xml" */
  function VersionPath(appfolder: string): string {
    appfolder + "/" + VersionFile
  }

  /** appfolder + "/" + app_name + ".xml" */
  function JobPath(appfolder: string, appName: string): string {
    appfolder + "/" + (appName + ".xml")
  }

  /** The launch script's file name: the second script adds ".bat" when the platform names
      windows; the first always uses the application name. */
  function ScriptName(v: Variant, appName: string, platform: string): (r: string)
    ensures |appName| <= |r| && r[..|appName|] == appName
    ensures r == appName <==> !(v.CreateNewApp? && Contains(platform, "windows"))
  {
    appName + (if v.CreateNewApp? && Contains(platform, "windows") then ".bat" else "")
  }

  /** appfolder + "/" + the script name */
  function ScriptPath(v: Variant, appfolder: string, appName: string, platform: string): string {
    appfolder + "/" + ScriptName(v, appName, platform)
  }

  /** For a slash-free application name, version.xml, the launch script and the job file are
      files directly inside appfolder, under their own names. */
  lemma PathsInFolder(v: Variant, appfolder: string, appName: string, platform: string)
    requires '/' !in appName
    ensures DirPart(VersionPath(appfolder)) == appfolder && Basename(VersionPath(appfolder)) == VersionFile
    ensures DirPart(JobPath(appfolder, appName)) == appfolder && Basename(JobPath(appfolder, appName)) == appName + ".xml"
    ensures var s := ScriptPath(v, appfolder, appName, platform);
      DirPart(s) == appfolder && Basename(s) == ScriptName(v, appName, platform)
  {
    assert '/' !in VersionFile;
    BasenameAfterSlash(appfolder, VersionFile);
    DirPartAfterSlash(appfolder, VersionFile);
    assert '/' !in appName + ".xml";
    BasenameAfterSlash(appfolder, appName + ".xml");
    DirPartAfterSlash(appfolder, appName + ".xml");
    var name := ScriptName(v, appName, platform);
    assert '/' !in name;
    BasenameAfterSlash(appfolder, name);
    DirPartAfterSlash(appfolder, name);
  }

  /** An empty script name (an empty application name outside the .bat case) leaves a script
      path ending in '/', which open() refuses as a directory. */
  lemma EmptyScriptName(v: Variant, appfolder: string, appName: string, platform: string)
    requires ScriptName(v, appName, platform) == []
    ensures Basename(ScriptPath(v, appfolder, appName, platform)) == []
  {
    var p := ScriptPath(v, appfolder, appName, platform);
    assert p[|p| - 1] == '/';
  }

  /** The three commands of the first script's launcher. */
  const Shebang := "#!/bin/sh"
  const ListContainers := "docker ps -a"
  const ListImages := "docker image list"

  /** The launch script's text, after dedent. The first script's text starts with an empty
      line, so its "#!/bin/sh" is not on the first line. */
  function ScriptText(v: Variant, platform: string): string {
    match v
    case DockerCreateApp =>
      "\n" + (Shebang + "\n") + (ListContainers + "\n") + (ListImages + "\n")
    case CreateNewApp(_) =>
      if Contains(platform, "windows") then "wsl " + "chmod 777 %1" + "\n" + "wsl bash %1"
      else "#!/bin/bash\n" + "chmod 777 $1" + "\n\n" + "./$1"
  }

  /** text holds the command grant somewhere before the command run. */
  predicate GrantsThenRuns(text: string, grant: string, run: string) {
    exists i: nat, j: nat :: i < j <= |text| && OccursAt(text, grant, i) && OccursAt(text, run, j)
  }

  /** In a + b + c + d, the non-empty b occurs before d. */
  lemma OccursBefore(a: string, b: string, c: string, d: string)
    requires b != []
    ensures GrantsThenRuns(a + b + c + d, b, d)
  {
    var text := a + b + c + d;
    assert text[|a|..|a| + |b|] == b;
    assert text[|a + b + c|..|a + b + c| + |d|] == d;
    assert OccursAt(text, b, |a|) && OccursAt(text, d, |a + b + c|);
  }

  /** The second script's launcher makes its single argument (%1 or $1) executable and then
      runs it: the grant occurs in the text before the command that runs the argument. */
  lemma ScriptGrantsThenRuns(planClassName: string, platform: string)
    ensures Contains(platform, "windows") ==>
      GrantsThenRuns(ScriptText(CreateNewApp(planClassName), platform), "chmod 777 %1", "wsl bash %1")
    ensures !Contains(platform, "windows") ==>
      GrantsThenRuns(ScriptText(CreateNewApp(planClassName), platform), "chmod 777 $1", "./$1")
  {
    OccursBefore("wsl ", "chmod 777 %1", "\n", "wsl bash %1");
    OccursBefore("#!/bin/bash\n", "chmod 777 $1", "\n\n", "./$1");
  }

  /** The second file entry of version.xml names the script file written for the same platform
      unless only the wrapper id (and not the platform) names windows: the ".bat" decision is
      taken on the wrapper's basename in one place and on the platform in the other. */
  lemma VersionNamesScript(v: Variant, id: string, platform: string, appfolder: string, appName: string)
    requires '/' !in id && '/' !in platform
    ensures OkAppName(v, Basename(Join(appfolder, Wrapper.WrapperName(id, platform))), appName)
              == ScriptName(v, appName, platform)
        <==> v.DockerCreateApp? || Contains(platform, "windows") || !Contains(id, "windows")
  {
    var name := Wrapper.WrapperName(id, platform);
    assert '/' !in name;
    JoinBasename(appfolder, name);
    Wrapper.WrapperNameMentionsWindows(id, platform);
    assert appName + ".bat" != appName + "" by {
      assert |appName + ".bat"| != |appName + ""|;
    }
  }

  /** The first script's launcher, after dedent, starts with an empty line: the interpreter line
      #!/bin/sh is its second line and so is not read as one. The two docker commands follow. */
  lemma DockerScriptLines(platform: string)
    ensures ReadLines(ScriptText(DockerCreateApp, platform))
      == ["\n", Shebang + "\n", ListContainers + "\n", ListImages + "\n"]
  {
    assert '\n' !in Shebang && '\n' !in ListContainers && '\n' !in ListImages by {
      forall k | 0 <= k < |Shebang| ensures Shebang[k] != '\n' { }
      forall k | 0 <= k < |ListContainers| ensures ListContainers[k] != '\n' { }
      forall k | 0 <= k < |ListImages| ensures ListImages[k] != '\n' { }
    }
    ReadFourLines("", Shebang, ListContainers, ListImages);
    assert "" + "\n" == "\n";
  }
}
