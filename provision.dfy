/** The per-platform loop of add_new_app: make the platform folder, fetch the wrapper, write
    version.xml, the launch script and the job file, then remove the downloaded archive. The
    invariant of interest: every physical_name that a folder's version.xml lists is a file or
    directory in that same folder once the loop is done. */
module Provision {
  import opened Common
  import opened Text
  import opened Wrapper
  import opened Descriptors
  import opened Layout

  /** A filled platform folder: the host afterwards and the two descriptor trees written. */
  datatype Filled = Filled(env: Env, version: Xml, job: Xml)

  /** The archive name removed after the folder is filled, relative to the folder. */
  function CleanupName(platform: string, id: string): string {
    if platform != "windows_x86_64" then WrapperName(id, platform) + ".zip"
    else WindowsZip
  }

  /** The names the folder must hold: the three physical names of version.xml, the script and
      version.xml itself. */
  function FolderNames(v: Variant, id: string, platform: string, appName: string): seq<string> {
    [WrapperName(id, platform), OkAppName(v, WrapperName(id, platform), appName), appName + ".xml",
     ScriptName(v, appName, platform), "version.xml"]
  }

  /** Every name is present in the folder. */
  predicate FolderComplete(env: Env, appfolder: string, names: seq<string>) {
    forall i :: 0 <= i < |names| ==> Exists(env, appfolder + "/" + names[i])
  }

  /** What a filled folder guarantees: all its names are present, and version.xml lists, in
      order, the wrapper, the application file and the job file among them. */
  predicate FolderInvariant(env: Env, version: Xml, v: Variant, appName: string, appfolder: string,
                            id: string, platform: string) {
    FolderComplete(env, appfolder, FolderNames(v, id, platform, appName)) &&
    |FileRefs(version.children)| == 3 &&
    forall i :: 0 <= i < 3 ==> FileRefs(version.children)[i].physical == Some(FolderNames(v, id, platform, appName)[i])
  }

  /** The conditions under which the folder invariant holds: path components without '/', a
      wrapper id that does not name windows, and an application name not ending in ".zip" (the
      cleanup would otherwise remove the launch script; see ZipNamedAppLosesScript). */
  predicate Sane(v: Variant, appName: string, approot: string, platform: string, ids: map<string, string>) {
    approot != [] && approot[|approot| - 1] == '/' &&
    '/' !in appName && !EndsWith(appName, ".zip") && '/' !in PlanClass(v) && '/' !in platform &&
    (platform in ids ==> '/' !in ids[platform] && !Contains(ids[platform], "windows"))
  }

  /** A name ending in ".zip" differs from one whose last character is not 'p'. */
  lemma ZipDiffers(z: string, n: string)
    requires EndsWith(z, ".zip") && n != [] && n[|n| - 1] != 'p'
    ensures z != n
  {
    assert z[|z| - 1] == ".zip"[3];
  }

  /** The archive name ends in ".zip", and it is a plain name when the id and platform are. */
  lemma CleanupNameShape(platform: string, id: string)
    ensures EndsWith(CleanupName(platform, id), ".zip")
    ensures '/' !in CleanupName(platform, id) || '/' in id || '/' in platform
  {
    if platform != "windows_x86_64" {
      var w := WrapperName(id, platform);
      assert (w + ".zip")[|w|..] == ".zip";
      assert '/' !in w || '/' in id || '/' in platform;
    } else {
      var fixed := WindowsZip;
      assert fixed[|fixed| - 4..] == ".zip";
      assert forall k :: 0 <= k < |fixed| ==> fixed[k] != '/';
    }
  }

  /** The archive name is not the wrapper's name: it is longer, or for windows_x86_64 the wrapper
      ends in ".exe". */
  lemma CleanupNotWrapper(platform: string, id: string)
    ensures CleanupName(platform, id) != WrapperName(id, platform)
  {
    var z := CleanupName(platform, id);
    var w := WrapperName(id, platform);
    if platform != "windows_x86_64" {
      assert |z| > |w|;
    } else {
      CleanupNameShape(platform, id);
      assert OccursAt(platform, "windows", 0);
      ZipDiffers(z, w);
    }
  }

  /** A ".zip" name is none of the names the folder derives from the application name. */
  lemma ZipNotAppName(z: string, appName: string)
    requires EndsWith(z, ".zip") && !EndsWith(appName, ".zip")
    ensures z != appName && z != appName + ".bat" && z != appName + ".xml"
  {
    ZipDiffers(z, appName + ".bat");
    ZipDiffers(z, appName + ".xml");
  }

  /** The archive name is none of the folder's names. */
  lemma CleanupSparesNames(v: Variant, id: string, platform: string, appName: string)
    requires !EndsWith(appName, ".zip")
    ensures CleanupName(platform, id) !in FolderNames(v, id, platform, appName)
    ensures '/' !in CleanupName(platform, id) || '/' in id || '/' in platform
  {
    var z := CleanupName(platform, id);
    CleanupNameShape(platform, id);
    CleanupNotWrapper(platform, id);
    ZipNotAppName(z, appName);
    ZipDiffers(z, "version.xml");
    var names := FolderNames(v, id, platform, appName);
    assert names[1] == appName || names[1] == appName + ".bat";
    assert names[3] == appName || names[3] == appName + ".bat";
  }

  /** open(path, "w").write(...) followed by os.chown(path, ...), which finds the file once the
      open has succeeded. */
  function WriteOwned(e: Env, path: string): (r: Result<Env>)
    ensures r.Ok? <==> Writable(e.dirs, path)
    ensures r.Ok? ==> r.value.files == e.files + {path} && r.value.dirs == e.dirs && r.value.log == e.log + [Chown(path)]
    ensures r.Err? ==> r.error == WriteFailure(e.dirs, path)
  {
    match OpenWrite(e, path)
    case Err(failure) => Err(failure)
    case Ok(written) => ChownPath(written, path)
  }

  /** The shape under which a folder ends up complete: a folder path that does not end in '/',
      slash-free names, a wrapper id that does not name windows, an application name not
      ending in ".zip", and the wrapper file that get_wrapper returns for the folder. */
  predicate FolderShape(v: Variant, appName: string, appfolder: string, platform: string, id: string,
                        wrapperFile: string) {
    appfolder != [] && appfolder[|appfolder| - 1] != '/' &&
    '/' !in appName && !EndsWith(appName, ".zip") && '/' !in platform &&
    '/' !in id && !Contains(id, "windows") &&
    wrapperFile == Join(appfolder, WrapperName(id, platform))
  }

  /** The rest of an iteration once the wrapper is in place: version.xml, the launch script and
      the job file are written and handed over, then the archive is removed if it is a file.
      The first file open() refuses ends the iteration with its exception. */
  method FillFolder(v: Variant, appName: string, appfolder: string, platform: string, id: string,
                    wrapperFile: string, env: Env) returns (r: Result<Filled>)
    ensures var version, script, job := VersionPath(appfolder), ScriptPath(v, appfolder, appName, platform),
                                        JobPath(appfolder, appName);
      (r.Ok? <==> Writable(env.dirs, version) && Writable(env.dirs, script) && Writable(env.dirs, job)) &&
      (r.Err? && !Writable(env.dirs, version) ==> r.error == WriteFailure(env.dirs, version)) &&
      (r.Err? && Writable(env.dirs, version) && !Writable(env.dirs, script) ==> r.error == WriteFailure(env.dirs, script)) &&
      (r.Err? && Writable(env.dirs, version) && Writable(env.dirs, script) ==> r.error == WriteFailure(env.dirs, job))
    ensures r.Ok? ==> ScriptName(v, appName, platform) != []
    ensures r.Ok? ==> r.value.env.dirs == env.dirs && env.log <= r.value.env.log
    ensures r.Ok? ==>
      r.value.env.files == (env.files + {VersionPath(appfolder), ScriptPath(v, appfolder, appName, platform),
                                         JobPath(appfolder, appName)})
                           - {CleanupZip(platform, appfolder, wrapperFile)}
    ensures r.Ok? ==> FileRefs(r.value.version.children) == [
      FileRef(Some(Basename(wrapperFile)), None, true),
      FileRef(Some(OkAppName(v, Basename(wrapperFile), appName)), Some(appName), false),
      FileRef(Some(appName + ".xml"), Some("job.xml"), false)]
    ensures r.Ok? && v.DockerCreateApp? ==> TaskFields(r.value.job.children) == [("application", Some(appName))]
    ensures r.Ok? && v.CreateNewApp? ==>
      TaskFields(r.value.job.children) == [("physical_name", Some(appName)), ("command_line", Some("boinc_docker"))]
    ensures r.Ok? && FolderShape(v, appName, appfolder, platform, id, wrapperFile) && Exists(env, wrapperFile) ==>
      FolderInvariant(r.value.env, r.value.version, v, appName, appfolder, id, platform) &&
      CleanupZip(platform, appfolder, wrapperFile) == appfolder + "/" + CleanupName(platform, id)
  {
    var version := CreateVersionDesc(v, wrapperFile, appName);
    var job := CreateJobDescription(v, appName);
    var written := WriteThree(env, VersionPath(appfolder), ScriptPath(v, appfolder, appName, platform),
                              JobPath(appfolder, appName));
    if written.Err? {
      return Err(written.error);
    }
    if ScriptName(v, appName, platform) == [] {
      EmptyScriptName(v, appfolder, appName, platform);
    }
    var e := RemoveIfFile(written.value, CleanupZip(platform, appfolder, wrapperFile));
    r := Ok(Filled(e, version, job));
    AddThree(env.files, VersionPath(appfolder), ScriptPath(v, appfolder, appName, platform), JobPath(appfolder, appName));

    if FolderShape(v, appName, appfolder, platform, id, wrapperFile) && Exists(env, wrapperFile) {
      FilledFolderInvariant(v, appName, appfolder, platform, id, wrapperFile, written.value, version);
    }
  }

  /** The three writes of an iteration, each followed by its os.chown, in order: version.xml,
      the launch script, the job file. The first refused open ends the sequence. */
  function WriteThree(env: Env, a: string, b: string, c: string): (r: Result<Env>)
    ensures r.Ok? <==> Writable(env.dirs, a) && Writable(env.dirs, b) && Writable(env.dirs, c)
    ensures r.Err? && !Writable(env.dirs, a) ==> r.error == WriteFailure(env.dirs, a)
    ensures r.Err? && Writable(env.dirs, a) && !Writable(env.dirs, b) ==> r.error == WriteFailure(env.dirs, b)
    ensures r.Err? && Writable(env.dirs, a) && Writable(env.dirs, b) ==> r.error == WriteFailure(env.dirs, c)
    ensures r.Ok? ==> r.value.dirs == env.dirs && r.value.files == env.files + {a} + {b} + {c} &&
                      r.value.log == env.log + [Chown(a), Chown(b), Chown(c)]
  {
    var first := WriteOwned(env, a);
    if first.Err? then first
    else
      var rest := WriteTwo(first.value, b, c);
      assert rest.Ok? ==> env.log + [Chown(a)] + [Chown(b), Chown(c)] == env.log + [Chown(a), Chown(b), Chown(c)];
      rest
  }

  /** The last two writes of an iteration, each followed by its os.chown. */
  function WriteTwo(env: Env, b: string, c: string): (r: Result<Env>)
    ensures r.Ok? <==> Writable(env.dirs, b) && Writable(env.dirs, c)
    ensures r.Err? && !Writable(env.dirs, b) ==> r.error == WriteFailure(env.dirs, b)
    ensures r.Err? && Writable(env.dirs, b) ==> r.error == WriteFailure(env.dirs, c)
    ensures r.Ok? ==> r.value.dirs == env.dirs && r.value.files == env.files + {b} + {c} &&
                      r.value.log == env.log + [Chown(b), Chown(c)]
  {
    var second := WriteOwned(env, b);
    if second.Err? then second
    else WriteOwned(second.value, c)
  }

  /** What one iteration leaves behind, relative to the host before it: nothing lost but the
      archive, and with sane names the folder invariant, the archive being a name in the folder. */
  predicate PlatformDone(before: Env, filled: Filled, v: Variant, appName: string, approot: string,
                         platform: string, ids: map<string, string>)
    requires platform in ids
  {
    var appfolder := AppFolder(approot, platform, PlanClass(v));
    var wrapperFile := Join(appfolder, WrapperName(ids[platform], platform));
    before.dirs <= filled.env.dirs && before.log <= filled.env.log &&
    before.files - {CleanupZip(platform, appfolder, wrapperFile)} <= filled.env.files &&
    (Sane(v, appName, approot, platform, ids) ==>
      FolderInvariant(filled.env, filled.version, v, appName, appfolder, ids[platform], platform) &&
      CleanupZip(platform, appfolder, wrapperFile) == appfolder + "/" + CleanupName(platform, ids[platform]))
  }

  /** One iteration of the platform loop: make the folder, fetch the wrapper, fill the folder.
      The folder path is never empty and each ownership change finds its path, so only
      get_wrapper and the three writes can fail. */
  method ProvisionPlatform(v: Variant, appName: string, approot: string, platform: string,
                           ids: map<string, string>, archives: map<string, seq<string>>, env: Env)
    returns (r: Result<Filled>)
    ensures platform !in ids ==> r == Err(KeyMissing(platform))
    ensures platform in ids && r.Err? ==> !r.error.KeyMissing?
    ensures r.Err? ==> r.error.KeyMissing? || r.error.DownloadFailed? || r.error.MemberMissing? ||
                       r.error.IsADirectory? || r.error.ParentMissing?
    ensures r.Ok? ==> platform in ids && ScriptName(v, appName, platform) != [] &&
                      PlatformDone(env, r.value, v, appName, approot, platform, ids)
  {
    var appfolder := AppFolder(approot, platform, PlanClass(v));
    var made := CreateDirectories(env, appfolder);
    var e := made.value;
    e := ChownPath(e, appfolder).value;

    var fetched := GetWrapper(platform, appfolder, ids, archives, e);
    if fetched.result.Err? {
      return Err(fetched.result.error);
    }
    PrefixTrans(env.log, e.log, fetched.env.log);
    var finished := FinishPlatform(v, appName, approot, platform, ids, fetched.result.value, env, fetched.env);
    if finished.Err? {
      return Err(finished.error);
    }
    r := Ok(finished.value);
  }

  /** The iteration once the wrapper is in place: hand the wrapper over, then fill the folder. */
  method FinishPlatform(v: Variant, appName: string, approot: string, platform: string,
                        ids: map<string, string>, wrapperFile: string, start: Env, env: Env)
    returns (r: Result<Filled>)
    requires platform in ids
    requires wrapperFile == Join(AppFolder(approot, platform, PlanClass(v)), WrapperName(ids[platform], platform))
    requires wrapperFile in env.files + env.dirs
    requires start.dirs <= env.dirs && start.files <= env.files && start.log <= env.log
    ensures var appfolder := AppFolder(approot, platform, PlanClass(v));
      r.Ok? <==> Writable(env.dirs, VersionPath(appfolder)) && Writable(env.dirs, ScriptPath(v, appfolder, appName, platform)) &&
                 Writable(env.dirs, JobPath(appfolder, appName))
    ensures r.Err? ==> r.error.IsADirectory? || r.error.ParentMissing?
    ensures r.Ok? ==> ScriptName(v, appName, platform) != [] && PlatformDone(start, r.value, v, appName, approot, platform, ids)
  {
    var appfolder := AppFolder(approot, platform, PlanClass(v));
    var e := ChownPath(env, wrapperFile).value;
    assert Exists(e, wrapperFile);
    var id := ids[platform];
    if Sane(v, appName, approot, platform, ids) {
      AppFolderUnderRoot(approot, platform, PlanClass(v));
      assert FolderShape(v, appName, appfolder, platform, id, wrapperFile);
    }
    r := FillFolder(v, appName, appfolder, platform, id, wrapperFile, e);
    if r.Ok? {
      PrefixTrans(start.log, e.log, r.value.env.log);
    }
  }

  /** The loop's preconditions for the invariant: every platform is sane and none repeats. */
  predicate AllSane(v: Variant, appName: string, approot: string, platforms: seq<string>, ids: map<string, string>) {
    (forall k :: 0 <= k < |platforms| ==> Sane(v, appName, approot, platforms[k], ids)) &&
    (forall i, j :: 0 <= i < j < |platforms| ==> platforms[i] != platforms[j])
  }

  /** The first n platforms have their folders filled: each still holds all its names and its
      version.xml lists them. */
  predicate Provisioned(env: Env, versions: seq<Xml>, v: Variant, appName: string, approot: string,
                        platforms: seq<string>, ids: map<string, string>) {
    |versions| <= |platforms| &&
    forall k :: 0 <= k < |versions| ==>
      platforms[k] in ids &&
      FolderInvariant(env, versions[k], v, appName, AppFolder(approot, platforms[k], PlanClass(v)),
                      ids[platforms[k]], platforms[k])
  }

  /** The platform loop of add_new_app: fill one folder per platform, in order, stopping at the
      first failure. With sane, distinct platforms every folder is complete at the end: a later
      iteration removes only an archive in its own folder. */
  method ProvisionPlatforms(v: Variant, appName: string, approot: string, platforms: seq<string>,
                            ids: map<string, string>, archives: map<string, seq<string>>, env: Env)
    returns (r: Result<Env>, versions: seq<Xml>)
    ensures r.Ok? ==> |versions| == |platforms| && forall k :: 0 <= k < |platforms| ==> platforms[k] in ids
    ensures r.Ok? ==> env.dirs <= r.value.dirs && env.log <= r.value.log
    ensures r.Err? ==> |versions| < |platforms| && forall k :: 0 <= k < |versions| ==> platforms[k] in ids
    ensures r.Err? ==> r.error.KeyMissing? || r.error.DownloadFailed? || r.error.MemberMissing? ||
                       r.error.IsADirectory? || r.error.ParentMissing?
    ensures r.Ok? ==> forall k :: 0 <= k < |platforms| ==> ScriptName(v, appName, platforms[k]) != []
    ensures r.Err? && platforms[|versions|] !in ids ==> r.error == KeyMissing(platforms[|versions|])
    ensures r.Err? && platforms[|versions|] in ids ==> !r.error.KeyMissing?
    ensures r.Ok? && AllSane(v, appName, approot, platforms, ids) ==>
      Provisioned(r.value, versions, v, appName, approot, platforms, ids)
  {
    var e := env;
    versions := [];
    for i := 0 to |platforms|
      invariant |versions| == i
      invariant forall k :: 0 <= k < i ==> platforms[k] in ids && ScriptName(v, appName, platforms[k]) != []
      invariant env.dirs <= e.dirs && env.log <= e.log
      invariant AllSane(v, appName, approot, platforms, ids) ==>
        Provisioned(e, versions, v, appName, approot, platforms, ids)
    {
      var step := ProvisionPlatform(v, appName, approot, platforms[i], ids, archives, e);
      if step.Err? {
        return Err(step.error), versions;
      }
      if AllSane(v, appName, approot, platforms, ids) {
        assert Sane(v, appName, approot, platforms[i], ids);
        KeepFolders(v, appName, approot, platforms, ids, versions, e, step.value.env);
        ProvisionedExtend(step.value.env, versions, step.value.version, v, appName, approot, platforms, ids);
      }
      e := step.value.env;
      versions := versions + [step.value.version];
    }
    r := Ok(e);
  }

  /** A folder filled for the next platform extends the provisioned prefix by one. */
  lemma ProvisionedExtend(env: Env, versions: seq<Xml>, version: Xml, v: Variant, appName: string,
                          approot: string, platforms: seq<string>, ids: map<string, string>)
    requires Provisioned(env, versions, v, appName, approot, platforms, ids)
    requires |versions| < |platforms| && platforms[|versions|] in ids
    requires var p := platforms[|versions|];
      FolderInvariant(env, version, v, appName, AppFolder(approot, p, PlanClass(v)), ids[p], p)
    ensures Provisioned(env, versions + [version], v, appName, approot, platforms, ids)
  {
    var ext := versions + [version];
    forall k | 0 <= k < |ext|
      ensures platforms[k] in ids &&
        FolderInvariant(env, ext[k], v, appName, AppFolder(approot, platforms[k], PlanClass(v)),
                        ids[platforms[k]], platforms[k])
    {
      if k < |versions| {
        assert ext[k] == versions[k];
      }
    }
  }

  /** Filling folder i keeps folders 0..i-1 complete: the only path it removes is an archive
      inside folder i, and distinct platforms have distinct folders. */
  lemma KeepFolders(v: Variant, appName: string, approot: string, platforms: seq<string>,
                    ids: map<string, string>, versions: seq<Xml>, before: Env, after: Env)
    requires AllSane(v, appName, approot, platforms, ids)
    requires |versions| < |platforms| && platforms[|versions|] in ids
    requires Provisioned(before, versions, v, appName, approot, platforms, ids)
    requires var p := platforms[|versions|];
      var folder := AppFolder(approot, p, PlanClass(v));
      before.dirs <= after.dirs &&
      before.files - {folder + "/" + CleanupName(p, ids[p])} <= after.files
    ensures Provisioned(after, versions, v, appName, approot, platforms, ids)
  {
    var i := |versions|;
    var p := platforms[i];
    var folder := AppFolder(approot, p, PlanClass(v));
    var z := CleanupName(p, ids[p]);
    CleanupSparesNames(v, ids[p], p, appName);
    forall k | 0 <= k < i
      ensures FolderInvariant(after, versions[k], v, appName, AppFolder(approot, platforms[k], PlanClass(v)),
                              ids[platforms[k]], platforms[k])
    {
      var q := platforms[k];
      var other := AppFolder(approot, q, PlanClass(v));
      FoldersDiffer(approot, q, p, PlanClass(v));
      NamesSlashFree(v, ids[q], q, appName);
      OtherFolderKept(before, after, other, FolderNames(v, ids[q], q, appName), folder, z);
    }
  }

  /** Distinct sane platforms have distinct folders. */
  lemma FoldersDiffer(approot: string, p: string, q: string, planClass: string)
    requires approot != [] && approot[|approot| - 1] == '/'
    requires '/' !in p && '/' !in q && '/' !in planClass && p != q
    ensures AppFolder(approot, p, planClass) != AppFolder(approot, q, planClass)
  {
    AppFolderUnderRoot(approot, p, planClass);
    AppFolderUnderRoot(approot, q, planClass);
    var tail := "__" + planClass;
    assert approot + p + "__" + planClass == approot + p + tail;
    assert approot + q + "__" + planClass == approot + q + tail;
    if approot + p + tail == approot + q + tail {
      CancelMiddle(approot, p, q, tail);
    }
  }

  /** The folder names are single path components. */
  lemma NamesSlashFree(v: Variant, id: string, platform: string, appName: string)
    requires '/' !in id && '/' !in platform && '/' !in appName
    ensures forall i :: 0 <= i < |FolderNames(v, id, platform, appName)| ==> '/' !in FolderNames(v, id, platform, appName)[i]
  {
    WrapperNameSlashFree(id, platform);
    assert '/' !in appName + ".bat";
    assert '/' !in appName + ".xml";
  }

  /** Removing a path inside one folder keeps another folder complete, whatever else grows. */
  lemma OtherFolderKept(before: Env, after: Env, dir: string, names: seq<string>, removedDir: string, z: string)
    requires FolderComplete(before, dir, names)
    requires dir != removedDir && '/' !in z && forall i :: 0 <= i < |names| ==> '/' !in names[i]
    requires before.dirs <= after.dirs && before.files - {removedDir + "/" + z} <= after.files
    ensures FolderComplete(after, dir, names)
  {
    forall i | 0 <= i < |names|
      ensures Exists(after, dir + "/" + names[i])
    {
      if dir + "/" + names[i] == removedDir + "/" + z {
        SplitAtLastSlash(dir, names[i], removedDir, z);
      }
    }
  }

  /** Why Sane excludes application names ending in ".zip": an application named after the
      wrapper archive has its launch script removed by the cleanup of its own folder. */
  lemma ZipNamedAppLosesScript(v: Variant, id: string, platform: string, appfolder: string)
    requires '/' !in id && '/' !in platform && platform != "windows_x86_64"
    requires appfolder != [] && appfolder[|appfolder| - 1] != '/'
    requires v.DockerCreateApp? || !Contains(platform, "windows")
    ensures var appName := WrapperName(id, platform) + ".zip";
      CleanupZip(platform, appfolder, Join(appfolder, WrapperName(id, platform)))
        == ScriptPath(v, appfolder, appName, platform)
  {
    CleanupInFolder(platform, id, appfolder);
  }

  /** The platforms and wrapper ids add_new_app uses meet the loop's conditions for any
      slash-free application name and plan class and any root ending in '/'. */
  lemma FixedPlatformsSane(v: Variant, appName: string, approot: string)
    requires approot != [] && approot[|approot| - 1] == '/'
    requires '/' !in appName && !EndsWith(appName, ".zip") && '/' !in PlanClass(v)
    ensures AllSane(v, appName, approot, Platforms, WrapperIds)
  {
    NotContainsShorter("26015", "windows");
    forall k | 0 <= k < |Platforms|
      ensures Sane(v, appName, approot, Platforms[k], WrapperIds)
    {
      assert '/' !in Platforms[k];
    }
  }

  /** The directory part of add_new_app: build the application root, then fill one folder per
      fixed platform. For a slash-free application name not ending in ".zip", every folder is
      complete when the loop ends. */
  method ProvisionApp(v: Variant, appName: string, archives: map<string, seq<string>>, env: Env)
    returns (approot: string, r: Result<Env>, versions: seq<Xml>)
    ensures approot == ProjectRoot + "apps/" + appName + "/1.0.0/"
    ensures r.Ok? ==> |versions| == |Platforms| && env.dirs <= r.value.dirs && env.log <= r.value.log
    ensures r.Err? ==> r.error.DownloadFailed? || r.error.MemberMissing? ||
                       r.error.IsADirectory? || r.error.ParentMissing?
    ensures appName == [] ==> r.Err?
    ensures r.Ok? && '/' !in appName && !EndsWith(appName, ".zip") && '/' !in PlanClass(v) ==>
      Provisioned(r.value, versions, v, appName, approot, Platforms, WrapperIds)
  {
    var e;
    approot, e := CreateAppRoot(appName, env);
    r, versions := ProvisionPlatforms(v, appName, approot, Platforms, WrapperIds, archives, e);
    if r.Err? {
      assert Platforms[|versions|] in WrapperIds;
    }
    UnixPlatformsNotWindows();
    assert ScriptName(v, [], Platforms[0]) == [];
    if '/' !in appName && !EndsWith(appName, ".zip") && '/' !in PlanClass(v) {
      FixedPlatformsSane(v, appName, approot);
    }
  }

  /** The archive removed lies in the folder, under CleanupName. */
  lemma CleanupInFolder(platform: string, id: string, appfolder: string)
    requires '/' !in id && '/' !in platform
    requires appfolder != [] && appfolder[|appfolder| - 1] != '/'
    ensures CleanupZip(platform, appfolder, Join(appfolder, WrapperName(id, platform)))
         == appfolder + "/" + CleanupName(platform, id)
  {
    if platform != "windows_x86_64" {
      var w := WrapperName(id, platform);
      WrapperNameSlashFree(id, platform);
      JoinInserts(appfolder, w);
      assert CleanupName(platform, id) == w + ".zip";
      assert appfolder + "/" + w + ".zip" == appfolder + "/" + (w + ".zip");
    }
  }

  /** Removing a path that none of the names reaches keeps the folder complete. */
  lemma RemovalKeeps(e: Env, dir: string, names: seq<string>, removed: string)
    requires FolderComplete(e, dir, names)
    requires forall i :: 0 <= i < |names| ==> dir + "/" + names[i] != removed
    ensures FolderComplete(RemoveIfFile(e, removed), dir, names)
  {
  }

  /** Two paths under the same folder differ when their (slash-free) names differ. */
  lemma DistinctNames(dir: string, names: seq<string>, z: string)
    requires '/' !in z && z !in names && forall i :: 0 <= i < |names| ==> '/' !in names[i]
    ensures forall i :: 0 <= i < |names| ==> dir + "/" + names[i] != dir + "/" + z
  {
    forall i | 0 <= i < |names|
      ensures dir + "/" + names[i] != dir + "/" + z
    {
      if dir + "/" + names[i] == dir + "/" + z {
        SplitAtLastSlash(dir, names[i], dir, z);
      }
    }
  }

  /** Before the cleanup, every folder name is present: the wrapper file, the script under the
      name version.xml gives it, the job file, and version.xml. */
  lemma FolderWritten(v: Variant, appName: string, appfolder: string, platform: string, id: string, e: Env)
    requires appfolder != [] && appfolder[|appfolder| - 1] != '/'
    requires '/' !in platform && '/' !in id && !Contains(id, "windows")
    requires Exists(e, Join(appfolder, WrapperName(id, platform)))
    requires VersionPath(appfolder) in e.files && JobPath(appfolder, appName) in e.files
    requires ScriptPath(v, appfolder, appName, platform) in e.files
    ensures FolderComplete(e, appfolder, FolderNames(v, id, platform, appName))
  {
    var w := WrapperName(id, platform);
    WrapperNameSlashFree(id, platform);
    JoinInserts(appfolder, w);
    VersionNamesScript(v, id, platform, appfolder, appName);
    JoinBasename(appfolder, w);
    var names := FolderNames(v, id, platform, appName);
    assert appfolder + "/" + names[0] == Join(appfolder, w);
    assert appfolder + "/" + names[1] == ScriptPath(v, appfolder, appName, platform);
    assert appfolder + "/" + names[2] == JobPath(appfolder, appName);
    assert appfolder + "/" + names[3] == ScriptPath(v, appfolder, appName, platform);
    assert appfolder + "/" + names[4] == VersionPath(appfolder);
  }

  /** Every physical name version.xml lists is, in order, one of the folder's names. */
  lemma VersionRefsInFolder(v: Variant, appName: string, id: string, platform: string, refs: seq<FileRef>)
    requires var w := WrapperName(id, platform);
      refs == [
        FileRef(Some(w), None, true),
        FileRef(Some(OkAppName(v, w, appName)), Some(appName), false),
        FileRef(Some(appName + ".xml"), Some("job.xml"), false)]
    ensures |refs| == 3
    ensures forall i :: 0 <= i < 3 ==> refs[i].physical == Some(FolderNames(v, id, platform, appName)[i])
  {
  }

  /** The invariant of a filled folder: version.xml, the script and the job file are written
      next to an existing wrapper, and the cleanup spares all of them. */
  lemma FilledFolderInvariant(v: Variant, appName: string, appfolder: string, platform: string, id: string,
                              wrapperFile: string, written: Env, version: Xml)
    requires FolderShape(v, appName, appfolder, platform, id, wrapperFile)
    requires Exists(written, wrapperFile) && VersionPath(appfolder) in written.files
    requires ScriptPath(v, appfolder, appName, platform) in written.files && JobPath(appfolder, appName) in written.files
    requires FileRefs(version.children) == [
      FileRef(Some(Basename(wrapperFile)), None, true),
      FileRef(Some(OkAppName(v, Basename(wrapperFile), appName)), Some(appName), false),
      FileRef(Some(appName + ".xml"), Some("job.xml"), false)]
    ensures FolderInvariant(RemoveIfFile(written, CleanupZip(platform, appfolder, wrapperFile)), version,
                            v, appName, appfolder, id, platform)
    ensures CleanupZip(platform, appfolder, wrapperFile) == appfolder + "/" + CleanupName(platform, id)
  {
    FolderFilled(v, appName, appfolder, platform, id, wrapperFile, written);
    WrapperFileBasename(appfolder, id, platform);
    VersionRefsInFolder(v, appName, id, platform, FileRefs(version.children));
  }

  /** The folder invariant for one iteration: before the cleanup every folder name is present;
      the cleanup removes a different name of the same folder. */
  lemma FolderFilled(v: Variant, appName: string, appfolder: string, platform: string, id: string,
                     wrapperFile: string, e: Env)
    requires FolderShape(v, appName, appfolder, platform, id, wrapperFile)
    requires Exists(e, wrapperFile) && VersionPath(appfolder) in e.files
    requires ScriptPath(v, appfolder, appName, platform) in e.files && JobPath(appfolder, appName) in e.files
    ensures CleanupZip(platform, appfolder, wrapperFile) == appfolder + "/" + CleanupName(platform, id)
    ensures FolderComplete(RemoveIfFile(e, CleanupZip(platform, appfolder, wrapperFile)), appfolder,
                           FolderNames(v, id, platform, appName))
  {
    CleanupInFolder(platform, id, appfolder);
    FolderWritten(v, appName, appfolder, platform, id, e);
    CleanupSparesNames(v, id, platform, appName);
    var names := FolderNames(v, id, platform, appName);
    NamesSlashFree(v, id, platform, appName);
    DistinctNames(appfolder, names, CleanupName(platform, id));
    RemovalKeeps(e, appfolder, names, appfolder + "/" + CleanupName(platform, id));
  }
}
