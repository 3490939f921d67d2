/** The directory layout of add_new_app: the application root built part by part, the
    per-platform folders, the archive removed after each folder is filled, and the files in the
    project's download directory whose owner is changed at the end. */
module Layout {
  import opened Common
  import opened Text
  import Wrapper

  const ProjectRoot := "/home/boincadm/project/"
  const DownloadDir := "/home/boincadm/project/download/"

  /** The platforms served, in the order they are processed. */
  const Platforms: seq<string> := ["x86_64-pc-linux-gnu", "windows_x86_64", "x86_64-apple-darwin"]

  /** The wrapper release used for each platform. */
  const WrapperIds: map<string, string> :=
    map["x86_64-pc-linux-gnu" := "26015", "windows_x86_64" := "26015", "x86_64-apple-darwin" := "26015"]

  /** app_path: the directories below the project root, outermost first. */
  function AppPath(appName: string): seq<string> {
    ["apps", appName, "1.0.0"]
  }

  /** approot after the first k parts: the project root followed by each part and a '/'. */
  function RootAfter(parts: seq<string>, k: nat): string
    requires k <= |parts|
  {
    if k == 0 then ProjectRoot else RootAfter(parts, k - 1) + parts[k - 1] + "/"
  }

  /** Each directory is a proper prefix of the next and ends with '/'. */
  lemma {:induction false} RootAfterGrows(parts: seq<string>, j: nat, k: nat)
    requires j < k <= |parts|
    ensures RootAfter(parts, j) < RootAfter(parts, k)
    ensures RootAfter(parts, k)[|RootAfter(parts, k)| - 1] == '/'
    decreases k
  {
    if j < k - 1 {
      RootAfterGrows(parts, j, k - 1);
    }
  }

  /** The ownership changes of the first k directories, outermost first. */
  function RootChowns(parts: seq<string>, k: nat): seq<Action>
    requires k <= |parts|
  {
    if k == 0 then [] else RootChowns(parts, k - 1) + [Chown(RootAfter(parts, k))]
  }

  /** The first k directories. */
  function RootDirs(parts: seq<string>, k: nat): set<string>
    requires k <= |parts|
  {
    if k == 0 then {} else RootDirs(parts, k - 1) + {RootAfter(parts, k)}
  }

  /** The approot loop of add_new_app: makedirs and chown of each accumulated directory. */
  method CreateAppRoot(appName: string, env: Env) returns (approot: string, e: Env)
    ensures approot == ProjectRoot + "apps/" + appName + "/1.0.0/"
    ensures approot == RootAfter(AppPath(appName), 3)
    ensures e.log == env.log + [Chown(RootAfter(AppPath(appName), 1)), Chown(RootAfter(AppPath(appName), 2)),
                                Chown(RootAfter(AppPath(appName), 3))]
    ensures forall k :: 1 <= k <= 3 ==> Exists(e, RootAfter(AppPath(appName), k))
    ensures e.files == env.files && env.dirs <= e.dirs
    ensures e.dirs <= env.dirs + {RootAfter(AppPath(appName), 1), RootAfter(AppPath(appName), 2),
                                  RootAfter(AppPath(appName), 3)}
  {
    var appPath := AppPath(appName);
    approot := ProjectRoot;
    e := env;
    for i := 0 to |appPath|
      invariant approot == RootAfter(appPath, i)
      invariant e.log == env.log + RootChowns(appPath, i)
      invariant forall k :: 1 <= k <= i ==> Exists(e, RootAfter(appPath, k))
      invariant e.files == env.files && env.dirs <= e.dirs
      invariant e.dirs <= env.dirs + RootDirs(appPath, i)
    {
      approot := approot + appPath[i] + "/";
      var made := CreateDirectories(e, approot);
      e := made.value;
      var owned := ChownPath(e, approot);
      e := owned.value;
    }
    ThreeRoots(appPath);
    AppRootPath(appName);
  }

  /** The ownership changes and directories of a three-part path, written out. */
  lemma ThreeRoots(parts: seq<string>)
    requires |parts| == 3
    ensures RootChowns(parts, 3) == [Chown(RootAfter(parts, 1)), Chown(RootAfter(parts, 2)), Chown(RootAfter(parts, 3))]
    ensures RootDirs(parts, 3) == {RootAfter(parts, 1), RootAfter(parts, 2), RootAfter(parts, 3)}
  {
    assert RootChowns(parts, 1) == [Chown(RootAfter(parts, 1))];
    assert RootDirs(parts, 1) == {RootAfter(parts, 1)};
  }

  /** The application root spelled out: /home/boincadm/project/apps/<app>/1.0.0/ */
  lemma AppRootPath(appName: string)
    ensures RootAfter(AppPath(appName), 3) == ProjectRoot + "apps/" + appName + "/1.0.0/"
  {
    var parts := AppPath(appName);
    assert RootAfter(parts, 1) == ProjectRoot + "apps" + "/";
    assert RootAfter(parts, 2) == ProjectRoot + "apps" + "/" + appName + "/";
    assert RootAfter(parts, 3) == ProjectRoot + "apps" + "/" + appName + "/" + "1.0.0" + "/";
    Regroup(ProjectRoot, "apps", "/");
  }

  /** appfolder: join(approot, platform + "__" + plan class). */
  function AppFolder(approot: string, platform: string, planClass: string): string {
    Join(approot, platform + "__" + planClass)
  }

  /** Under an approot ending in '/', the folder is plain concatenation and does not end in '/'
      when the platform and plan class have no '/'. */
  lemma AppFolderUnderRoot(approot: string, platform: string, planClass: string)
    requires approot != [] && approot[|approot| - 1] == '/'
    requires '/' !in platform && '/' !in planClass
    ensures AppFolder(approot, platform, planClass) == approot + platform + "__" + planClass
    ensures var f := AppFolder(approot, platform, planClass); f[|f| - 1] != '/'
  {
    var name := platform + "__" + planClass;
    assert name[0] == '_' || name[0] in platform;
    var f := approot + name;
    assert f[|f| - 1] == '_' || f[|f| - 1] in planClass;
  }

  /** The archive name written out for windows_x86_64, with the id 26015. */
  const WindowsZip := "wrapper_26015_windows_x86_64" + ".zip"

  /** The zip removed after a folder is filled: wrapper_file + ".zip", except for windows_x86_64,
      whose archive name is written out. */
  function CleanupZip(platform: string, appfolder: string, wrapperFile: string): string {
    if platform != "windows_x86_64" then wrapperFile + ".zip"
    else appfolder + "/" + WindowsZip
  }

  /** Equal strings with equal surroundings have equal middles. */
  lemma CancelMiddle(a: string, x: string, y: string, b: string)
    requires a + x + b == a + y + b
    ensures x == y
  {
    assert |x| == |y|;
    assert (a + x + b)[|a|..|a| + |x|] == x;
    assert (a + y + b)[|a|..|a| + |y|] == y;
  }

  /** The written-out windows archive name is the archive of wrapper id 26015 only. */
  lemma WindowsZipName(id: string)
    ensures Wrapper.WrapperRoot(id, "windows_x86_64") + ".zip" == WindowsZip <==> id == "26015"
  {
    var tail := "_" + "windows_x86_64" + ".zip";
    assert Wrapper.WrapperRoot(id, "windows_x86_64") + ".zip" == "wrapper_" + id + tail;
    assert WindowsZip == "wrapper_" + "26015" + tail;
    if Wrapper.WrapperRoot(id, "windows_x86_64") + ".zip" == WindowsZip {
      CancelMiddle("wrapper_", id, "26015", tail);
    }
  }

  /** Away from windows_x86_64 the cleanup path is the download target exactly when the
      platform does not name windows (otherwise wrapper_file carries ".exe"). */
  lemma CleanupMatchesDownloadElsewhere(id: string, platform: string, appfolder: string)
    requires '/' !in id && '/' !in platform && platform != "windows_x86_64"
    requires appfolder != [] && appfolder[|appfolder| - 1] != '/'
    ensures CleanupZip(platform, appfolder, Join(appfolder, Wrapper.WrapperName(id, platform)))
              == Wrapper.DownloadTarget(Wrapper.WrapperUrl(id, platform), appfolder)
        <==> !Contains(platform, "windows")
  {
    var root := Wrapper.WrapperRoot(id, platform);
    var name := Wrapper.WrapperName(id, platform);
    Wrapper.WrapperNameSlashFree(id, platform);
    JoinInserts(appfolder, name);
    JoinInserts(appfolder, root + ".zip");
    Wrapper.DownloadTargetIsRootZip(id, platform, appfolder);
    if Contains(platform, "windows") {
      assert |appfolder + "/" + name + ".zip"| != |appfolder + "/" + (root + ".zip")|;
    } else {
      assert appfolder + "/" + name + ".zip" == appfolder + "/" + (root + ".zip");
    }
  }

  /** For windows_x86_64 the written-out archive name is the download target exactly when the
      wrapper id is 26015. */
  lemma CleanupMatchesDownloadWindows(id: string, appfolder: string, wrapperFile: string)
    requires '/' !in id
    requires appfolder != [] && appfolder[|appfolder| - 1] != '/'
    ensures CleanupZip("windows_x86_64", appfolder, wrapperFile)
              == Wrapper.DownloadTarget(Wrapper.WrapperUrl(id, "windows_x86_64"), appfolder)
        <==> id == "26015"
  {
    var zip := Wrapper.WrapperRoot(id, "windows_x86_64") + ".zip";
    var fixed := WindowsZip;
    Wrapper.WrapperNameSlashFree(id, "windows_x86_64");
    JoinInserts(appfolder, zip);
    Wrapper.DownloadTargetIsRootZip(id, "windows_x86_64", appfolder);
    WindowsZipName(id);
    assert '/' !in fixed;
    if appfolder + "/" + fixed == appfolder + "/" + zip {
      SplitAtLastSlash(appfolder, fixed, appfolder, zip);
    }
  }

  /** The wrapper names owned in the download directory: ".exe" only for windows_x86_64. */
  function OwnedWrapperName(id: string, platform: string): string {
    "wrapper_" + id + "_" + platform + (if platform != "windows_x86_64" then "" else ".exe")
  }

  /** The application's own files in the download directory: the second script also owns
      app_name + ".bat". */
  function OwnedAppFiles(v: Variant, appName: string): seq<string> {
    (if v.CreateNewApp? then [DownloadDir + appName + ".bat"] else []) +
    [DownloadDir + appName, DownloadDir + appName + ".xml"]
  }

  /** The ownership changes at the end of add_new_app, in order; the loop visits the wrapper
      dictionary in insertion order, which is the platform list. */
  method OwnedDownloads(v: Variant, appName: string, platforms: seq<string>, ids: map<string, string>)
    returns (paths: seq<string>)
    requires forall p :: p in platforms ==> p in ids
    ensures |paths| == |OwnedAppFiles(v, appName)| + |platforms|
    ensures paths[..|OwnedAppFiles(v, appName)|] == OwnedAppFiles(v, appName)
    ensures forall i :: 0 <= i < |platforms| ==>
      paths[|OwnedAppFiles(v, appName)| + i] == DownloadDir + OwnedWrapperName(ids[platforms[i]], platforms[i])
  {
    paths := OwnedAppFiles(v, appName);
    var n := |paths|;
    for i := 0 to |platforms|
      invariant |paths| == n + i && paths[..n] == OwnedAppFiles(v, appName)
      invariant forall k :: 0 <= k < i ==> paths[n + k] == DownloadDir + OwnedWrapperName(ids[platforms[k]], platforms[k])
    {
      var p := platforms[i];
      if p != "windows_x86_64" {
        paths := paths + [DownloadDir + "wrapper_" + ids[p] + "_" + p];
      } else {
        paths := paths + [DownloadDir + "wrapper_" + ids[p] + "_" + p + ".exe"];
      }
    }
  }

  /** "x86_64-pc-linux-gnu" and "x86_64-apple-darwin" do not name windows. */
  lemma UnixPlatformsNotWindows()
    ensures !Contains("x86_64-pc-linux-gnu", "windows")
    ensures !Contains("x86_64-apple-darwin", "windows")
  {
    NotContainsMissingChar("x86_64-pc-linux-gnu", "windows");
    assert "x86_64-apple-darwin" == "x86_64-apple" + ['-'] + "darwin";
    ContainsAround("x86_64-apple", '-', "darwin", "windows");
    NotContainsMissingChar("x86_64-apple", "windows");
    NotContainsShorter("darwin", "windows");
  }

  /** For the fixed platform list, the test platform == "windows_x86_64" of the ownership loop
      agrees with the test "windows" in platform of get_wrapper, so the owned names are the
      wrapper file names. */
  lemma OwnedNamesAreWrapperNames(id: string, platform: string)
    requires platform in Platforms
    ensures (platform == "windows_x86_64") == Contains(platform, "windows")
    ensures OwnedWrapperName(id, platform) == Wrapper.WrapperName(id, platform)
  {
    UnixPlatformsNotWindows();
    assert OccursAt("windows_x86_64", "windows", 0);
  }

  /** The wrapper dictionary covers exactly the platform list, with one release id. */
  lemma WrapperIdsCoverPlatforms()
    ensures WrapperIds.Keys == set p | p in Platforms
    ensures forall p :: p in Platforms ==> WrapperIds[p] == "26015"
  {
  }
}
