# boinc2docker application provisioning, modelled in Dafny

This project models the deterministic core of the two scripts that add a new application to a
BOINC project server in the boinc2docker image:

- `images/makeproject/boinc2docker/boinc_docker_create_app.py`. In the model this is the variant
  `DockerCreateApp`. Its plan class is `vbox64_mt`, and it inserts the stanza two lines from the end.
- `images/makeproject/boinc2docker/bin/boinc2docker_create_new_app.py`. In the model this is the
  variant `CreateNewApp(planClassName)`. Its plan class is a parameter, and it inserts the stanza
  one line from the end.

The two scripts are near-duplicates. Every difference between them is a function of
`Common.Variant`.

The host is a value, `Common.Env`. It holds the set of directories, the set of regular files,
and the ordered log of external actions: wget, unzip, key generation and chown. Each Python
exception that ends a run is a case of `Common.Error`, carried in a `Result`.

The network is a map from URL to the member names of the zip archive served there. A URL
missing from the map is a failed download.

The modules follow the scripts' functions:

- `Common`: variants, errors, the host, `create_directories` and `os.chown`.
- `Text`: Python's `in` on strings, `os.path.basename` and `os.path.join` (POSIX).
- `Lines`: text-mode reading with universal newlines, `readlines`/`writelines`, and the round trip
  between them.
- `Registrar`: `add_new_app_to_project`. The insertion loop is a method over the line list.
  The file-level lemmas show that registering twice duplicates the stanza.
- `Wrapper`: `download` and `get_wrapper`. This covers the wrapper naming, the archive URL and
  download target, and the cache check. The archive member chosen is the last one with the
  wanted basename, and a missing member is a `KeyError` that leaves an empty wrapper file behind.
- `Descriptors`: `create_version_desc`, `create_job_description_file` and
  `make_docker_script`/`create_script`. These are modelled as element trees, the launch script
  text and its path, including the `.bat` rule of the second script.
- `SignKeys`: `create_sign_keys`.
  - The scan of `config.xml` is a loop method proved against `KeyDir`. Every mentioning line
    is split, so the first one without `>` raises `IndexError`. Otherwise the value comes from
    the last mentioning line. With no mentioning line, `key_dir` is unbound.
  - The key generation decision follows.
  - In the second script, `sh(cmd, shell=True)` is a `TypeError`.
  - The four key files then change owner in a fixed order.
- `Layout`: the application root loop, folder names, the archive removed after each folder,
  and the ownership loop over the download directory.
- `Provision`: the per-platform loop of `add_new_app`. Its invariant: every `physical_name`
  that a folder's `version.xml` lists is present in that folder when the loop ends, and the
  removal of a later folder's archive does not disturb it.

Three behaviours of the code that a reader might not expect; the model follows the code:

- Registration has no duplicate check. Running it twice inserts two stanzas
  (`Registrar.RegisterTwiceDuplicates`).
- A zip member is not unique by basename. The last one wins (`Wrapper.MemberIndexPicksLast`).
- The first script runs key generation with `subprocess.call`, whose exit status is ignored.

## Model

| member | source | states |
|---|---|---|
| Common.CreateDirectories | images/makeproject/boinc2docker/bin/boinc2docker_create_new_app.py:13-15 | the empty path fails with the FileNotFoundError of os.makedirs(""), and only it fails; an existing path changes nothing; otherwise the directory is added, so that afterwards something exists at the path; files and the action log never change |
| Common.ChownPath | images/makeproject/boinc2docker/bin/boinc2docker_create_new_app.py:149 | succeeds exactly when the path exists, logging one ownership change and changing no file or directory; a missing path is a FileNotFound error for that path |
| Common.WriteFailure | images/makeproject/boinc2docker/bin/boinc2docker_create_new_app.py:85 | the error of open(path, "w"): FileNotFoundError exactly for the empty path, IsADirectoryError exactly for an existing directory or a path ending in '/', otherwise a missing parent directory; the error names the path |
| Common.OpenWrite | images/makeproject/boinc2docker/bin/boinc2docker_create_new_app.py:85-86 | open(path, "w") succeeds exactly when the path is not empty, not a directory, does not end in '/' and its parent directory exists, and then adds that one file; otherwise the host is unchanged and the error is the one above |
| Common.RemoveIfFile | images/makeproject/boinc2docker/bin/boinc2docker_create_new_app.py:206-208 | after the isfile-guarded os.remove, the path is no longer a file, every other file stays, and directories and the log are untouched |
| Text.Basename | images/makeproject/boinc2docker/bin/boinc2docker_create_new_app.py:44 | the basename has no '/', is a suffix of the path, and is preceded by '/' when it is not the whole path |
| Text.Join | images/makeproject/boinc2docker/bin/boinc2docker_create_new_app.py:21 | os.path.join: the result ends with the second part; an absolute second part discards the first; otherwise the first part is a prefix of the result |
| Text.JoinInserts | images/makeproject/boinc2docker/bin/boinc2docker_create_new_app.py:21 | joining a directory that does not end in '/' with a relative slash-free name puts exactly one '/' between them |
| Text.JoinBasename | images/makeproject/boinc2docker/bin/boinc2docker_create_new_app.py:30-31 | the basename of a joined path is the slash-free name that was joined, whatever the directory |
| Lines.ReadLines | images/makeproject/boinc2docker/bin/boinc2docker_create_new_app.py:110 | readlines splits the (translated) text without loss: the lines concatenate back to the text, each line holds '\n' only at its end, all but the last end in '\n', and the last does exactly when the text does |
| Lines.ReadConcat | images/makeproject/boinc2docker/bin/boinc2docker_create_new_app.py:119-120 | the splitting step of readlines undoes writelines: splitting the concatenation of proper lines after each '\n' gives the same list (the full text-mode round trip, which also needs '\r'-free lines, is Lines.ReadFileConcat) |
| Lines.Translate | images/makeproject/boinc2docker/bin/boinc2docker_create_new_app.py:109-110 | text-mode reading translates line endings: no '\r' survives, a text without '\r' is unchanged, a text ending in a line break still ends in '\n', and only the empty text reads as empty |
| Lines.TranslateAppend | images/makeproject/boinc2docker/bin/boinc2docker_create_new_app.py:109-110 | the translation can be done piecewise across any cut that does not follow a '\r' |
| Lines.ReadFile | images/makeproject/boinc2docker/bin/boinc2docker_create_new_app.py:109-110 | readlines on a file opened in text mode: the lines concatenate to the translated text, are proper lines without '\r', the last ends in '\n' exactly when the translated text does, and a text without '\r' reads exactly as readlines splits it |
| Lines.ReadFileConcat | images/makeproject/boinc2docker/bin/boinc2docker_create_new_app.py:119-120 | writing proper, '\r'-free lines with writelines and reading them back in text mode gives the same lines |
| Registrar.InsertStanza | images/makeproject/boinc2docker/bin/boinc2docker_create_new_app.py:109-114 | the loop inserts the stanza in front of the last offset lines when 1 <= offset <= number of lines (offset 1 here, 2 in boinc_docker_create_app.py), keeping the lines before and after; with fewer lines the list is unchanged; the stanza's count grows by exactly the insertions made |
| Registrar.StanzaAsLines | images/makeproject/boinc2docker/bin/boinc2docker_create_new_app.py:105-107 | the stanza text is its four lines <app>, <name>, <user_friendly_name>, </app> one after the other |
| Registrar.StanzaReadsAsFourLines | images/makeproject/boinc2docker/bin/boinc2docker_create_new_app.py:105-107 | for an application name without '\n' or '\r', the stanza reads back from the file in text mode as exactly those four lines |
| Registrar.RegisterFile | images/makeproject/boinc2docker/bin/boinc2docker_create_new_app.py:103-120 | project.xml after registration: the text as read in text mode up to its last offset lines, then the stanza, then those lines; a file with fewer lines than the offset is written back with only its line endings translated |
| Registrar.ReadSpliced | images/makeproject/boinc2docker/bin/boinc2docker_create_new_app.py:119-120 | a terminated text spliced between two runs of proper, '\r'-free lines reads back in text mode as the first run, the text's own lines, and the second run |
| Registrar.RegisterFileTwice | images/makeproject/boinc2docker/bin/boinc2docker_create_new_app.py:103-120 | registering the same terminated text twice puts the second copy directly after the first (which was read back in text mode, so its line endings are translated), in front of the same closing lines |
| Registrar.RegisterTwiceDuplicates | images/makeproject/boinc2docker/bin/boinc2docker_create_new_app.py:103-120 | registration is not idempotent: a second run for the same name leaves two adjacent stanzas in front of the same closing lines; both are the literal stanza when the name has no '\r' |
| Registrar.RegisterTwiceCounts | images/makeproject/boinc2docker/boinc_docker_create_app.py:229-234 | at the line level, each run adds one more copy of the stanza |
| Wrapper.WrapperNameMentionsWindows | images/makeproject/boinc2docker/bin/boinc2docker_create_new_app.py:29-31 | the wrapper file name contains "windows" exactly when the wrapper id or the platform does |
| Wrapper.DownloadTargetIsRootZip | images/makeproject/boinc2docker/bin/boinc2docker_create_new_app.py:20-23 | download saves the archive of wrapper_root as appfolder joined with wrapper_root + ".zip" |
| Wrapper.WrapperNameSlashFree | images/makeproject/boinc2docker/bin/boinc2docker_create_new_app.py:29-31 | the wrapper name and the archive name wrapper_root.zip are single path components when the wrapper id and the platform are |
| Wrapper.WrapperPathNotEmpty | images/makeproject/boinc2docker/bin/boinc2docker_create_new_app.py:30-31 | the wrapper file's path is never empty, whatever the folder, so opening it never fails for an empty path |
| Wrapper.WrapperFileBasename | images/makeproject/boinc2docker/bin/boinc2docker_create_new_app.py:35-36 | the member looked up is the wrapper name itself, whatever the folder |
| Wrapper.LastIndexPicksLast | images/makeproject/boinc2docker/bin/boinc2docker_create_new_app.py:35 | a dictionary built from a key list holds exactly the listed keys, each mapped to its last position |
| Wrapper.MemberIndexPicksLast | images/makeproject/boinc2docker/bin/boinc2docker_create_new_app.py:35-36 | the member lookup succeeds exactly when some member has the wanted basename, and then picks the last such member |
| Wrapper.Download | images/makeproject/boinc2docker/bin/boinc2docker_create_new_app.py:20-23 | one wget is logged whatever happens; it succeeds, returning the target, exactly when the unquoted command line keeps the URL and the target as single words, the target can be opened and the URL serves an archive; wget -O creates the target whenever it can open it, even if the download then fails; the error names the URL; directories never change |
| Wrapper.GetWrapper | images/makeproject/boinc2docker/bin/boinc2docker_create_new_app.py:25-40 | on success the result is the joined wrapper path and it exists; an unknown platform is a KeyError with the host unchanged; otherwise the errors are a failed download, a missing member, or the open error of the wrapper file naming that path; no directory is created, no file is lost, the action log only grows |
| Wrapper.Extract | images/makeproject/boinc2docker/bin/boinc2docker_create_new_app.py:34-37 | a wrapper file that cannot be opened for writing is that open error with the host unchanged; otherwise the file is created either way, and the extraction succeeds exactly when a member has the wrapper's basename, unzipping the last such member; otherwise it is a missing-member error and nothing is unzipped |
| Wrapper.GetWrapperCacheHit | images/makeproject/boinc2docker/bin/boinc2docker_create_new_app.py:32 | an existing wrapper file is returned with the host untouched: no download, no write, no extraction |
| Wrapper.GetWrapperDownloadFails | images/makeproject/boinc2docker/bin/boinc2docker_create_new_app.py:32-33 | on a cache miss where the wget command line is broken by shell metacharacters, the target cannot be opened, or the URL serves nothing: one wget to appfolder/wrapper_root.zip is logged, the target is created exactly when wget could open it, and the error names the URL |
| Wrapper.GetWrapperDownloads | images/makeproject/boinc2docker/bin/boinc2docker_create_new_app.py:32-37 | on a cache miss with an intact command line, a writable target and a served URL: the archive lands at appfolder/wrapper_root.zip after one logged wget, and extraction proceeds on the member named like the wrapper file |
| Wrapper.GetWrapperIdempotent | images/makeproject/boinc2docker/bin/boinc2docker_create_new_app.py:25-40 | after a success, a second call returns the same path and changes nothing |
| Wrapper.MissingMemberPoisonsCache | images/makeproject/boinc2docker/bin/boinc2docker_create_new_app.py:32-36 | after a missing-member failure, the empty wrapper file left behind makes the next call succeed as a cache hit without downloading |
| Descriptors.MainFileEntry | images/makeproject/boinc2docker/bin/boinc2docker_create_new_app.py:53-55 | the entry reads back as the given physical name, with no logical name, marked as the main program |
| Descriptors.NamedFileEntry | images/makeproject/boinc2docker/bin/boinc2docker_create_new_app.py:57-59 | the entry reads back as the given physical and logical names, not the main program |
| Descriptors.FileRefs | images/makeproject/boinc2docker/bin/boinc2docker_create_new_app.py:51-63 | the file entries of an element: at most one per child, each read from a <file> child, and every <file> child's entry is among them |
| Descriptors.OkAppName | images/makeproject/boinc2docker/bin/boinc2docker_create_new_app.py:46-49 | the application's physical name starts with app_name, and differs from it exactly in the second script when the wrapper's basename contains "windows" |
| Descriptors.BuildVersion | images/makeproject/boinc2docker/bin/boinc2docker_create_new_app.py:51-63 | a version element whose file entries read back, in order, as the main-program wrapper, the application file under the application's name, and appName.xml as job.xml |
| Descriptors.CreateVersionDesc | images/makeproject/boinc2docker/bin/boinc2docker_create_new_app.py:42-67 | version.xml lists three files: the wrapper's basename as the main program; the application, whose physical name gains ".bat" only in the second script and only when the wrapper's basename names windows (boinc_docker_create_app.py fills its template, lines 71-102, with the plain name); and appName.xml as job.xml |
| Descriptors.CreateJobDescription | images/makeproject/boinc2docker/bin/boinc2docker_create_new_app.py:90-101 | a job_desc whose task holds the physical name and the command line "boinc_docker" in the second script, and the application name in the first (its lines 50-68) |
| Descriptors.ScriptGrantsThenRuns | images/makeproject/boinc2docker/bin/boinc2docker_create_new_app.py:73-81 | the second script's launcher first makes its argument executable and then runs it, through wsl on windows platforms |
| Descriptors.DockerScriptLines | images/makeproject/boinc2docker/boinc_docker_create_app.py:206-210 | the first script's launcher reads as four lines: an empty line, then #!/bin/sh (so the interpreter line is not the first line), docker ps -a, and docker image list |
| Descriptors.VersionNamesScript | images/makeproject/boinc2docker/bin/boinc2docker_create_new_app.py:46-49 | the application file that version.xml names is the script file written at line 83 exactly when the variant is the first script, the platform names windows, or the wrapper id does not |
| Descriptors.ScriptName | images/makeproject/boinc2docker/bin/boinc2docker_create_new_app.py:83 | the script's file name starts with app_name, and differs from it exactly in the second script when the platform contains "windows" |
| Descriptors.PathsInFolder | images/makeproject/boinc2docker/bin/boinc2docker_create_new_app.py:66-101 | for a slash-free application name, version.xml, the script and app_name.xml lie directly in the application folder under exactly those names |
| Descriptors.EmptyScriptName | images/makeproject/boinc2docker/bin/boinc2docker_create_new_app.py:83-85 | an empty script name makes the script path end in '/', a directory path that open() refuses |
| SignKeys.TakeUntil | images/makeproject/boinc2docker/bin/boinc2docker_create_new_app.py:129 | split(c)[0] is the longest prefix without c, ending at the first c or at the end |
| SignKeys.KeyDirValue | images/makeproject/boinc2docker/bin/boinc2docker_create_new_app.py:129 | the extraction fails exactly when the line has no '>'; otherwise the value is the text after the first '>' up to the next '<' or '>' |
| SignKeys.KeyDirOfElement | images/makeproject/boinc2docker/bin/boinc2docker_create_new_app.py:129 | on a line of the form pre<key_dir>V</key_dir>post, with no '>' before the tag, the value extracted is V |
| SignKeys.LastMention | images/makeproject/boinc2docker/bin/boinc2docker_create_new_app.py:127-128 | the position of the last line mentioning key_dir, or none when no line does |
| SignKeys.FirstMalformed | images/makeproject/boinc2docker/bin/boinc2docker_create_new_app.py:127-129 | the position of the first mentioning line without '>', or none when there is no such line |
| SignKeys.KeyDir | images/makeproject/boinc2docker/bin/boinc2docker_create_new_app.py:125-129 | the scan fails with the first malformed line when there is one, and with key_dir unbound exactly when no line mentions it; otherwise the value comes from the last mentioning line |
| SignKeys.ScanKeyDir | images/makeproject/boinc2docker/bin/boinc2docker_create_new_app.py:125-129 | the line loop, which reassigns key_dir on every mentioning line and stops at the first IndexError, computes KeyDir |
| SignKeys.KeyGens | images/makeproject/boinc2docker/boinc_docker_create_app.py:188-194 | the first script generates the upload pair exactly when upload_private is absent and the code-signing pair exactly when code_sign_private is absent, upload first; the second script generates none |
| SignKeys.GenerateKey | images/makeproject/boinc2docker/boinc_docker_create_app.py:188-194 | each crypt_prog run is logged; it writes both key files exactly when the key directory exists, and never changes directories |
| SignKeys.ChownKeys | images/makeproject/boinc2docker/bin/boinc2docker_create_new_app.py:147-149 | the loop succeeds exactly when all four key files exist, changing their owner in the order code_sign_private, code_sign_public, upload_private, upload_public; otherwise it fails at the first missing one, all before it being present |
| SignKeys.PrepareKeys | images/makeproject/boinc2docker/bin/boinc2docker_create_new_app.py:131-145 | an empty key_dir is the FileNotFoundError of os.makedirs(""); otherwise the key directory is created if missing and nothing else is; in the second script a missing private key is the TypeError of sh(..., shell=True), the only error; otherwise the log grows by exactly the key generations and, when the key directory is a directory, both private keys are present |
| SignKeys.CreateSignKeys | images/makeproject/boinc2docker/boinc_docker_create_app.py:173-200 | config.xml is read in text mode; a failed scan ends the run with that error, an empty key_dir with FileNotFoundError, a failed key preparation with its error; otherwise the log grows by the key generations and then the four ownership changes, the directories and files are those left by the preparation, and the run fails exactly when a key file is missing, naming it |
| SignKeys.KeysPresentAgree | images/makeproject/boinc2docker/bin/boinc2docker_create_new_app.py:140-145 | when all key files are present, neither script generates a key |
| Layout.RootAfterGrows | images/makeproject/boinc2docker/bin/boinc2docker_create_new_app.py:164-165 | each accumulated approot is a proper prefix of the next and ends with '/' |
| Layout.CreateAppRoot | images/makeproject/boinc2docker/bin/boinc2docker_create_new_app.py:160-167 | the loop ends at /home/boincadm/project/apps/<app>/1.0.0/; each of apps/, apps/<app>/ and the version directory exists afterwards and changes owner, in that order; no file changes, and no directory outside those three is created |
| Layout.AppRootPath | images/makeproject/boinc2docker/bin/boinc2docker_create_new_app.py:160-165 | the three accumulated parts spell /home/boincadm/project/apps/<app>/1.0.0/ |
| Layout.AppFolderUnderRoot | images/makeproject/boinc2docker/bin/boinc2docker_create_new_app.py:177 | under a root ending in '/', the folder is root + platform + "__" + plan class and does not end in '/' |
| Layout.WindowsZipName | images/makeproject/boinc2docker/bin/boinc2docker_create_new_app.py:210-211 | the hard-coded windows archive name is the archive of wrapper id 26015 and of no other id |
| Layout.CleanupMatchesDownloadElsewhere | images/makeproject/boinc2docker/bin/boinc2docker_create_new_app.py:206-208 | away from windows_x86_64, wrapper_file + ".zip" is the downloaded archive exactly when the platform does not name windows |
| Layout.CleanupMatchesDownloadWindows | images/makeproject/boinc2docker/bin/boinc2docker_create_new_app.py:209-211 | for windows_x86_64, the hard-coded archive path is the downloaded archive exactly when the wrapper id is 26015 |
| Layout.OwnedDownloads | images/makeproject/boinc2docker/bin/boinc2docker_create_new_app.py:236-245 | the paths handed over in the download directory, in order: the application's files (with the ".bat" only in the second script), then one wrapper per platform, with ".exe" only for windows_x86_64 |
| Layout.UnixPlatformsNotWindows | images/makeproject/boinc2docker/bin/boinc2docker_create_new_app.py:172 | the linux and darwin platform names do not contain "windows" |
| Layout.OwnedNamesAreWrapperNames | images/makeproject/boinc2docker/bin/boinc2docker_create_new_app.py:241-245 | for the fixed platforms, the test against windows_x86_64 agrees with the "windows" in platform test, so the owned names are the wrapper file names |
| Layout.WrapperIdsCoverPlatforms | images/makeproject/boinc2docker/bin/boinc2docker_create_new_app.py:172-173 | the wrapper dictionary has exactly the platform list as keys, all with release 26015 |
| Provision.CleanupNameShape | images/makeproject/boinc2docker/bin/boinc2docker_create_new_app.py:206-211 | the archive name removed ends in ".zip", and it is a single path component when the wrapper id and platform are |
| Provision.CleanupNotWrapper | images/makeproject/boinc2docker/bin/boinc2docker_create_new_app.py:206-211 | the archive removed is never the wrapper file |
| Provision.CleanupSparesNames | images/makeproject/boinc2docker/bin/boinc2docker_create_new_app.py:206-211 | for an application name not ending in ".zip", the archive removed is none of the folder's names (wrapper, application file, job file, script, version.xml) |
| Provision.CleanupInFolder | images/makeproject/boinc2docker/bin/boinc2docker_create_new_app.py:206-211 | the path removed lies in the platform folder under the archive name |
| Provision.WriteOwned | images/makeproject/boinc2docker/bin/boinc2docker_create_new_app.py:203-204 | open for writing followed by chown: it succeeds exactly when the path can be opened for writing, adding that file and logging one ownership change; otherwise it fails with the open error for that path and logs nothing |
| Provision.WriteThree | images/makeproject/boinc2docker/bin/boinc2docker_create_new_app.py:187-204 | the three writes with their ownership changes, in the order version.xml, script, job file: they succeed exactly when all three paths can be opened, otherwise fail with the open error of the first that cannot; on success the three files are added and three ownership changes logged in that order |
| Provision.FolderWritten | images/makeproject/boinc2docker/bin/boinc2docker_create_new_app.py:188-204 | before the cleanup, every name of the folder is present, including the script under the name version.xml gives it |
| Provision.VersionRefsInFolder | images/makeproject/boinc2docker/bin/boinc2docker_create_new_app.py:51-63 | the three physical names version.xml lists are, in order, the first three names of the folder |
| Provision.FolderFilled | images/makeproject/boinc2docker/bin/boinc2docker_create_new_app.py:187-211 | after the cleanup, the folder still holds all its names |
| Provision.FilledFolderInvariant | images/makeproject/boinc2docker/bin/boinc2docker_create_new_app.py:187-211 | after the cleanup, the folder invariant holds: every physical name of version.xml is present in the folder |
| Provision.FillFolder | images/makeproject/boinc2docker/bin/boinc2docker_create_new_app.py:187-211 | fails exactly when version.xml, the script or the job file cannot be opened, with the open error of the first of them in the source's order; on success the script name is not empty, the three files are added, the archive is removed, version.xml lists the three files and the job description holds each script's task fields; with a well-formed folder and an existing wrapper the folder invariant holds |
| Provision.ProvisionPlatform | images/makeproject/boinc2docker/bin/boinc2docker_create_new_app.py:174-211 | an unknown platform is a KeyError; otherwise the errors are a download, member or open error; on success nothing but the folder's own archive is lost, the script name is not empty, and under sane names the folder invariant holds |
| Provision.FinishPlatform | images/makeproject/boinc2docker/bin/boinc2docker_create_new_app.py:183-211 | once the wrapper exists, the rest of the iteration fails exactly when one of the folder's three files cannot be opened for writing (a directory or a missing parent); otherwise it leaves the folder complete under sane names |
| Provision.KeepFolders | images/makeproject/boinc2docker/bin/boinc2docker_create_new_app.py:174-211 | filling a later platform's folder keeps every earlier folder complete, since the only path removed is an archive inside the later folder |
| Provision.FoldersDiffer | images/makeproject/boinc2docker/bin/boinc2docker_create_new_app.py:177 | distinct platforms get distinct folders |
| Provision.ProvisionPlatforms | images/makeproject/boinc2docker/bin/boinc2docker_create_new_app.py:174-211 | the loop stops at the first failing platform, with a KeyError exactly when that platform has no wrapper id and otherwise a download, member or open error; when every platform succeeds, every script name is non-empty, and under sane, distinct platforms every folder is complete and its version.xml lists files present in it |
| Provision.ZipNamedAppLosesScript | images/makeproject/boinc2docker/boinc_docker_create_app.py:296-298 | an application named like the wrapper archive has its own launch script removed by the cleanup, which is why the folder invariant needs names not ending in ".zip" |
| Provision.FixedPlatformsSane | images/makeproject/boinc2docker/bin/boinc2docker_create_new_app.py:172-173 | the fixed platforms and wrapper ids meet the loop's conditions for any slash-free application name not ending in ".zip" |
| Provision.ProvisionApp | images/makeproject/boinc2docker/bin/boinc2docker_create_new_app.py:160-211 | the directory part of add_new_app: the root is /home/boincadm/project/apps/<app>/1.0.0/, the only errors are download, member and open errors, an empty application name always fails (its script path is a directory), and on success every platform folder is complete for a slash-free application name not ending in ".zip" |

## Left out

- Running external programs is not modelled; only the wget and key generations are logged as actions. This covers `sh`, `subprocess.call` and `check_output`, the daemons stop/start, bin/xadd and bin/update_versions, and wget's command-line flags. The difference in exit-status handling (`call` ignores it, `check_output` raises) is modelled only for wget, as a failed download.
- The network is a parameter: a map from URL to archive member names.
- Zip decoding and file contents are not modelled. The host records which paths exist, not what they hold; the unzip is a logged action.
- Ownership (`pwd`, uid/gid) and permission modes (`chmod`, `fchmod`) are not modelled. Only the order of the chown calls is.
- Python's `print` output is not modelled.
- The serialisation of the descriptors is not modelled: `minidom` pretty-printing, `ET.tostring`, `dedent`/`fmt` whitespace, and the first script's text templates, which are modelled as the same element trees.
- `create_template_in`/`create_template_out` and the command-line handling are not part of this model.
- The mixed tab/space indentation of the first script's add_new_app (lines 246-247) is not modelled. Python 3 rejects such inconsistent indentation; the model reads the function as its authors laid it out.
- Concurrency and the order of other processes touching the project directory are not modelled.
- Common.CreateDirectories: `os.makedirs` also creates missing parent directories; the model adds only the directory itself. An application name holding '/' therefore leaves the intermediate directory under apps/ out of the recorded directories. The folder's files still fail with a missing parent, as the source's do, because the script and job paths name a subdirectory of the platform folder that nothing creates.
- Paths are compared as spelled. The operating system treats `a//b` as `a/b` and `d/` as `d`; the model does not normalise, so the host must list every path in the spelling the scripts use. For example, a key_dir ending in '/' makes the key files `…//upload_private`, which the model does not find under `…/upload_private`, and an empty application name gives an approot ending in `apps//` that the model treats as a new directory.
- Layout.CreateAppRoot: for an application name holding '/', `os.makedirs` also creates the intermediate directories under apps/ (for "a/b", apps/a/); the model records only the three accumulated roots, so "no directory outside those three" holds for the model, not for the host.
- Common.WriteFailure: `NotADirectoryError` (a parent that is a regular file) is merged into the missing-parent case; permission errors are not modelled.
- Wrapper.Download: the shell is not modelled. A URL or target that is empty, starts with '#' or '~', or holds whitespace or a shell metacharacter is treated as a failed download with the target left unwritten; what the shell would actually run in that case is not modelled.
- The scripts are read as Python 3 programs (text-mode reading, `print` as a function).
- SignKeys.GenerateKey: crypt_prog is assumed to write both key files when the key directory exists, and nothing otherwise.
- Registrar.RegisterFile: the file is a string parameter, so a missing project.xml (the open in `r+` mode) is not modelled. The registration takes the stanza text, and its callers pass `Stanza(appName)`.
- SignKeys.CreateSignKeys: the text of config.xml is a parameter, so a missing config.xml is not modelled.
- Registrar.StanzaReadsAsFourLines: stated only for names without '\n' or '\r'; other names split into more lines or have their '\r' translated, which Registrar.RegisterTwiceDuplicates covers at the text level.
- Wrapper.GetWrapper: the host after an error is returned, but the caller discards it, because the run aborts.
- Provision.ProvisionApp: only the directory part of add_new_app. The registration (Registrar), the key steps (SignKeys) and the download-directory ownership loop (Layout.OwnedDownloads) are separate members, in the source's order.
- Provision.ProvisionPlatforms: the folder invariant is proved only for slash-free names, wrapper ids that do not name windows, application names not ending in ".zip", and distinct platforms. The fixed platform list meets these (Provision.FixedPlatformsSane).
- Layout.OwnedDownloads: returns the paths handed over. Whether each exists in the download directory depends on bin/update_versions, which is not part of this model.
