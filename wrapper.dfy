/** The artifact fetcher shared verbatim by both scripts (download and get_wrapper): naming of
    the platform wrapper, its archive URL and download target, the cache check, and the choice of
    the archive member to extract. The network is a map from URL to the member names of the
    archive served there; a URL missing from it is a download that fails. */
module Wrapper {
  import opened Common
  import opened Text

  /** The download site, written as its directory and the separating '/'. */
  const BaseDir := "http://boinc.berkeley.edu/dl"
  const BaseUrl := BaseDir + "/"

  /** wrapper_root: "wrapper_" + id + "_" + platform */
  function WrapperRoot(id: string, platform: string): string {
    "wrapper_" + id + "_" + platform
  }

  /** The wrapper's file name: the root, with ".exe" when the platform names windows. */
  function WrapperName(id: string, platform: string): string {
    WrapperRoot(id, platform) + (if Contains(platform, "windows") then ".exe" else "")
  }

  /** The URL of the wrapper's zip archive. */
  function WrapperUrl(id: string, platform: string): string {
    BaseUrl + WrapperRoot(id, platform) + ".zip"
  }

  /** download(f, appfolder): wget writes f into appfolder under f's basename. */
  function DownloadTarget(url: string, appfolder: string): string {
    Join(appfolder, Basename(url))
  }

  /** The wrapper file name names windows exactly when the wrapper id or the platform does:
      no occurrence of "windows" can span the '_' and '.' separators the name adds. */
  lemma WrapperNameMentionsWindows(id: string, platform: string)
    ensures Contains(WrapperName(id, platform), "windows")
        <==> Contains(id, "windows") || Contains(platform, "windows")
  {
    var ext := if Contains(platform, "windows") then ".exe" else "";
    assert WrapperName(id, platform) == "wrapper" + ['_'] + (id + ['_'] + (platform + ext));
    ContainsAround("wrapper", '_', id + ['_'] + (platform + ext), "windows");
    assert "wrapper"[1] != "windows"[1];
    NotContainsSameLength("wrapper", "windows");
    ContainsAround(id, '_', platform + ext, "windows");
    if ext == ".exe" {
      assert platform + ext == platform + ['.'] + "exe";
      ContainsAround(platform, '.', "exe", "windows");
      NotContainsShorter("exe", "windows");
    } else {
      assert platform + ext == platform;
    }
  }

  /** The archive URL's basename is the wrapper root plus ".zip", so download() saves the archive
      as appfolder/wrapper_root.zip. */
  lemma DownloadTargetIsRootZip(id: string, platform: string, appfolder: string)
    requires '/' !in id && '/' !in platform
    ensures DownloadTarget(WrapperUrl(id, platform), appfolder)
         == Join(appfolder, WrapperRoot(id, platform) + ".zip")
  {
    var root := WrapperRoot(id, platform);
    var name := root + ".zip";
    WrapperNameSlashFree(id, platform);
    Regroup(BaseUrl, root, ".zip");
    BasenameAfterSlash(BaseDir, name);
  }

  /** The wrapper name has no '/' when neither the wrapper id nor the platform has one. */
  lemma WrapperNameSlashFree(id: string, platform: string)
    requires '/' !in id && '/' !in platform
    ensures '/' !in WrapperName(id, platform) && '/' !in WrapperRoot(id, platform) + ".zip"
  {
    var root := WrapperRoot(id, platform);
    assert '/' !in root by {
      assert root == "wrapper_" + id + "_" + platform;
    }
    var ext := if Contains(platform, "windows") then ".exe" else "";
    assert WrapperName(id, platform) == root + ext;
  }

  /** The wrapper file's path is never empty: the wrapper name is not, and the path ends with
      it. */
  lemma WrapperPathNotEmpty(appfolder: string, id: string, platform: string)
    ensures Join(appfolder, WrapperName(id, platform)) != []
  {
    var name := WrapperName(id, platform);
    assert name[0] == 'w';
    assert EndsWith(Join(appfolder, name), name);
  }

  /** The wrapper file's basename is the wrapper name, whatever the folder. */
  lemma WrapperFileBasename(appfolder: string, id: string, platform: string)
    requires '/' !in id && '/' !in platform
    ensures Basename(Join(appfolder, WrapperName(id, platform))) == WrapperName(id, platform)
  {
    var name := WrapperName(id, platform);
    WrapperNameSlashFree(id, platform);
    JoinBasename(appfolder, name);
  }

  /** The basenames of the archive members, in archive order. */
  function Basenames(entries: seq<string>): (b: seq<string>)
    ensures |b| == |entries| && forall i :: 0 <= i < |entries| ==> b[i] == Basename(entries[i])
  {
    seq(|entries|, i requires 0 <= i < |entries| => Basename(entries[i]))
  }

  /** A dictionary built by inserting keys[0], keys[1], ... in turn, each mapped to its position:
      a later duplicate overwrites an earlier one. */
  function LastIndex(keys: seq<string>): map<string, nat> {
    if keys == [] then map[]
    else LastIndex(keys[..|keys| - 1])[keys[|keys| - 1] := |keys| - 1]
  }

  /** {basename(z.filename): z for z in zf.filelist}, members identified by their position. */
  function MemberIndex(entries: seq<string>): map<string, nat> {
    LastIndex(Basenames(entries))
  }

  /** A key is in the dictionary exactly when it occurs in the list, and then it maps to its
      LAST occurrence. */
  lemma {:induction false} LastIndexPicksLast(keys: seq<string>, key: string)
    ensures key in LastIndex(keys) <==> key in keys
    ensures key in LastIndex(keys) ==>
      var i := LastIndex(keys)[key];
      i < |keys| && keys[i] == key && key !in keys[i + 1..]
  {
    if keys != [] {
      var n := |keys| - 1;
      var prefix := keys[..n];
      LastIndexPicksLast(prefix, key);
      assert keys == prefix + [keys[n]];
      if keys[n] != key && key in LastIndex(prefix) {
        var i := LastIndex(prefix)[key];
        assert keys[i + 1..] == prefix[i + 1..] + [keys[n]];
      }
    }
  }

  /** The member lookup succeeds exactly when some member has the wanted basename, and then
      picks the last such member. */
  lemma MemberIndexPicksLast(entries: seq<string>, name: string)
    ensures name in MemberIndex(entries) <==> name in Basenames(entries)
    ensures name in MemberIndex(entries) ==>
      var i := MemberIndex(entries)[name];
      i < |entries| && Basename(entries[i]) == name && name !in Basenames(entries)[i + 1..]
  {
    LastIndexPicksLast(Basenames(entries), name);
  }

  /** The outcome of download and get_wrapper: a path or the exception, and the host afterwards. */
  datatype Fetch = Fetch(result: Result<string>, env: Env)

  /** Characters the shell treats specially in an unquoted word: blanks split the word, the
      others redirect, chain, substitute, quote or expand. */
  const ShellSpecial := " \t\n;&|<>()$`\\\"'*?["

  /** s reaches wget unchanged as one argument of an unquoted sh -c command line. */
  predicate ShellWord(s: string) {
    s != [] && s[0] != '#' && s[0] != '~' && forall i :: 0 <= i < |s| ==> s[i] !in ShellSpecial
  }

  /** download's sh('wget ... %s -O %s' % (url, tgt)). The command line is not quoted, so it runs
      as written only when both are plain shell words. wget then creates (or truncates) the
      target before it transfers anything, and a failed transfer makes the call raise. */
  function Download(url: string, tgt: string, archives: map<string, seq<string>>, env: Env): (f: Fetch)
    ensures f.result.Ok? <==> ShellWord(url) && ShellWord(tgt) && Writable(env.dirs, tgt) && url in archives
    ensures f.result.Ok? ==> f.result.value == tgt
    ensures f.result.Err? ==> f.result.error == DownloadFailed(url)
    ensures f.env.dirs == env.dirs && f.env.log == env.log + [Wget(url, tgt)]
    ensures f.env.files == if ShellWord(url) && ShellWord(tgt) && Writable(env.dirs, tgt)
                           then env.files + {tgt} else env.files
  {
    var logged := env.(log := env.log + [Wget(url, tgt)]);
    if !ShellWord(url) || !ShellWord(tgt) then Fetch(Err(DownloadFailed(url)), logged)
    else match OpenWrite(logged, tgt)
      case Err(_) => Fetch(Err(DownloadFailed(url)), logged)
      case Ok(created) =>
        if url in archives then Fetch(Ok(tgt), created) else Fetch(Err(DownloadFailed(url)), created)
  }

  /** get_wrapper(platform, appfolder, wrapper). An existing wrapper file is returned untouched.
      Otherwise the archive is downloaded, the wrapper file is opened for writing (creating it),
      and only then is the member looked up by basename, so a missing member leaves an empty
      wrapper file behind. */
  function GetWrapper(platform: string, appfolder: string, ids: map<string, string>,
                      archives: map<string, seq<string>>, env: Env): (f: Fetch)
    ensures f.result.Ok? ==>
      platform in ids && f.result.value == Join(appfolder, WrapperName(ids[platform], platform)) &&
      f.result.value in f.env.files + f.env.dirs
    ensures platform !in ids ==> f == Fetch(Err(KeyMissing(platform)), env)
    ensures f.result.Err? ==>
      (f.result.error.KeyMissing? <==> platform !in ids) &&
      (f.result.error.KeyMissing? || f.result.error.DownloadFailed? || f.result.error.MemberMissing? ||
       ((f.result.error.IsADirectory? || f.result.error.ParentMissing?) &&
        platform in ids && f.result.error.path == Join(appfolder, WrapperName(ids[platform], platform))))
    ensures env.files <= f.env.files && f.env.dirs == env.dirs && env.log <= f.env.log
  {
    if platform !in ids then Fetch(Err(KeyMissing(platform)), env)
    else
      var id := ids[platform];
      var wrapperFile := Join(appfolder, WrapperName(id, platform));
      WrapperPathNotEmpty(appfolder, id, platform);
      if Exists(env, wrapperFile) then Fetch(Ok(wrapperFile), env)
      else
        var url := WrapperUrl(id, platform);
        var downloaded := Download(url, DownloadTarget(url, appfolder), archives, env);
        if downloaded.result.Err? then downloaded
        else
          var f := Extract(archives[url], wrapperFile, downloaded.env);
          PrefixTrans(env.log, downloaded.env.log, f.env.log);
          f
  }

  /** i is the position of the last archive member whose basename is name. */
  predicate LastMember(entries: seq<string>, name: string, i: nat) {
    i < |entries| && Basename(entries[i]) == name && name !in Basenames(entries)[i + 1..]
  }

  /** The part of get_wrapper after a successful download: open the wrapper file for writing,
      index the archive members by basename, and copy out the one named like the wrapper file. */
  function Extract(entries: seq<string>, wrapperFile: string, env: Env): (f: Fetch)
    ensures f.env.dirs == env.dirs && env.log <= f.env.log
    ensures !Writable(env.dirs, wrapperFile) ==> f == Fetch(Err(WriteFailure(env.dirs, wrapperFile)), env)
    ensures Writable(env.dirs, wrapperFile) ==> f.env.files == env.files + {wrapperFile}
    ensures f.result.Ok? <==> Writable(env.dirs, wrapperFile) && Basename(wrapperFile) in Basenames(entries)
    ensures f.result.Ok? ==>
      f.result.value == wrapperFile && Basename(wrapperFile) in MemberIndex(entries) &&
      LastMember(entries, Basename(wrapperFile), MemberIndex(entries)[Basename(wrapperFile)]) &&
      f.env.log == env.log + [Unzip(entries[MemberIndex(entries)[Basename(wrapperFile)]], wrapperFile)]
    ensures Writable(env.dirs, wrapperFile) && f.result.Err? ==>
      f.result.error == MemberMissing(Basename(wrapperFile)) && f.env.log == env.log
  {
    match OpenWrite(env, wrapperFile)
    case Err(e) => Fetch(Err(e), env)
    case Ok(created) =>
      var index := MemberIndex(entries);
      var name := Basename(wrapperFile);
      MemberIndexPicksLast(entries, name);
      if name !in index then Fetch(Err(MemberMissing(name)), created)
      else Fetch(Ok(wrapperFile), created.(log := created.log + [Unzip(entries[index[name]], wrapperFile)]))
  }

  /** Cache hit: an existing wrapper file is returned as it is; nothing is downloaded,
      written or extracted. */
  lemma GetWrapperCacheHit(platform: string, appfolder: string, ids: map<string, string>,
                           archives: map<string, seq<string>>, env: Env)
    requires platform in ids && Exists(env, Join(appfolder, WrapperName(ids[platform], platform)))
    ensures GetWrapper(platform, appfolder, ids, archives, env)
         == Fetch(Ok(Join(appfolder, WrapperName(ids[platform], platform))), env)
  {
  }

  /** Cache miss with a failing download: wget is logged with target appfolder/wrapper_root.zip.
      When the command line is intact and the target can be opened, wget has already created the
      target, so an empty archive is left behind; nothing else is written. */
  lemma GetWrapperDownloadFails(platform: string, appfolder: string, ids: map<string, string>,
                                archives: map<string, seq<string>>, env: Env)
    requires platform in ids && '/' !in ids[platform] && '/' !in platform
    requires !Exists(env, Join(appfolder, WrapperName(ids[platform], platform)))
    requires var url := WrapperUrl(ids[platform], platform);
      var tgt := Join(appfolder, WrapperRoot(ids[platform], platform) + ".zip");
      !(ShellWord(url) && ShellWord(tgt) && Writable(env.dirs, tgt) && url in archives)
    ensures var url := WrapperUrl(ids[platform], platform);
      var tgt := Join(appfolder, WrapperRoot(ids[platform], platform) + ".zip");
      var created := ShellWord(url) && ShellWord(tgt) && Writable(env.dirs, tgt);
      GetWrapper(platform, appfolder, ids, archives, env)
        == Fetch(Err(DownloadFailed(url)),
                 env.(log := env.log + [Wget(url, tgt)],
                      files := if created then env.files + {tgt} else env.files))
  {
    DownloadTargetIsRootZip(ids[platform], platform, appfolder);
  }

  /** Cache miss with a successful download: the archive lands in appfolder/wrapper_root.zip,
      then the extraction opens the wrapper file and picks the last member whose basename is the
      wrapper name; without one the lookup fails (KeyError) after the file was created. */
  lemma GetWrapperDownloads(platform: string, appfolder: string, ids: map<string, string>,
                            archives: map<string, seq<string>>, env: Env)
    requires platform in ids && '/' !in ids[platform] && '/' !in platform
    requires !Exists(env, Join(appfolder, WrapperName(ids[platform], platform)))
    requires var url := WrapperUrl(ids[platform], platform);
      var tgt := Join(appfolder, WrapperRoot(ids[platform], platform) + ".zip");
      ShellWord(url) && ShellWord(tgt) && Writable(env.dirs, tgt) && url in archives
    ensures
      var name := WrapperName(ids[platform], platform);
      var url := WrapperUrl(ids[platform], platform);
      var tgt := Join(appfolder, WrapperRoot(ids[platform], platform) + ".zip");
      GetWrapper(platform, appfolder, ids, archives, env)
        == Extract(archives[url], Join(appfolder, name), env.(log := env.log + [Wget(url, tgt)], files := env.files + {tgt})) &&
      Basename(Join(appfolder, name)) == name
  {
    var id := ids[platform];
    var name := WrapperName(id, platform);
    WrapperFileBasename(appfolder, id, platform);
    var url := WrapperUrl(id, platform);
    var tgt := DownloadTarget(url, appfolder);
    DownloadTargetIsRootZip(id, platform, appfolder);
    var downloaded := Download(url, tgt, archives, env);
    assert downloaded.result.Ok? && downloaded.env == env.(log := env.log + [Wget(url, tgt)], files := env.files + {tgt});
    assert GetWrapper(platform, appfolder, ids, archives, env) == Extract(archives[url], Join(appfolder, name), downloaded.env);
  }

  /** Once get_wrapper has succeeded, running it again is a cache hit with the same result. */
  lemma GetWrapperIdempotent(platform: string, appfolder: string, ids: map<string, string>,
                             archives: map<string, seq<string>>, env: Env)
    requires GetWrapper(platform, appfolder, ids, archives, env).result.Ok?
    ensures var f := GetWrapper(platform, appfolder, ids, archives, env);
      GetWrapper(platform, appfolder, ids, archives, f.env) == f.(env := f.env)
  {
    var f := GetWrapper(platform, appfolder, ids, archives, env);
    GetWrapperCacheHit(platform, appfolder, ids, archives, f.env);
  }

  /** A failed member lookup still leaves the (empty) wrapper file behind, so the next run takes
      it for a cached wrapper: it succeeds without downloading or extracting anything. */
  lemma MissingMemberPoisonsCache(platform: string, appfolder: string, ids: map<string, string>,
                                  archives: map<string, seq<string>>, env: Env)
    requires GetWrapper(platform, appfolder, ids, archives, env).result.Err?
    requires GetWrapper(platform, appfolder, ids, archives, env).result.error.MemberMissing?
    requires platform in ids
    ensures var f := GetWrapper(platform, appfolder, ids, archives, env);
      GetWrapper(platform, appfolder, ids, archives, f.env)
        == Fetch(Ok(Join(appfolder, WrapperName(ids[platform], platform))), f.env)
  {
    var f := GetWrapper(platform, appfolder, ids, archives, env);
    var wrapperFile := Join(appfolder, WrapperName(ids[platform], platform));
    var url := WrapperUrl(ids[platform], platform);
    var downloaded := Download(url, DownloadTarget(url, appfolder), archives, env);
    assert !Exists(env, wrapperFile) && downloaded.result.Ok?;
    assert f == Extract(archives[url], wrapperFile, downloaded.env);
    assert Writable(downloaded.env.dirs, wrapperFile);
    assert wrapperFile in f.env.files;
    GetWrapperCacheHit(platform, appfolder, ids, archives, f.env);
  }
}
