/** Types shared by every part of the provisioning model: the two script variants, the error
    taxonomy of the Python exceptions that abort a run, and the abstract host the scripts act on. */
module Common {
  import opened Text

  /** The two near-duplicate provisioning scripts.
      DockerCreateApp is boinc_docker_create_app.py; CreateNewApp is
      bin/boinc2docker_create_new_app.py, which takes the plan class as an argument. */
  datatype Variant = DockerCreateApp | CreateNewApp(planClassName: string)

  /** Line offset from the end of project.xml at which the <app> stanza is inserted. */
  function InsertOffset(v: Variant): nat {
    match v
    case DockerCreateApp => 2
    case CreateNewApp(_) => 1
  }

  /** Plan-class suffix of every per-platform application folder. */
  function PlanClass(v: Variant): string {
    match v
    case DockerCreateApp => "vbox64_mt"
    case CreateNewApp(name) => name
  }

  /** The Python exceptions (and failing external calls) that end a run. */
  datatype Error =
    | KeyMissing(key: string)        // KeyError on the wrapper-id dictionary
    | DownloadFailed(url: string)    // wget exits non-zero, check_output raises
    | MemberMissing(name: string)    // KeyError on the archive's basename index
    | KeyDirMissing                  // no config line mentions key_dir: key_dir is unbound
    | KeyDirMalformed(line: nat)     // a key_dir line without '>': IndexError on split(">")[1]
    | BadKeyword                     // sh(cmd, shell=True) on a one-parameter sh: TypeError
    | FileNotFound(path: string)     // os.chown on a missing path, os.makedirs(""), open("")
    | IsADirectory(path: string)     // open(path, "w") on a directory or a path ending in '/'
    | ParentMissing(path: string)    // open(path, "w") whose folder part is not a directory

  datatype Result<T> = Ok(value: T) | Err(error: Error)

  datatype Option<T> = None | Some(value: T)

  /** External programs run and ownership changes made, in order. */
  datatype Action =
    | Wget(url: string, target: string)
    | Unzip(member: string, dest: string)
    | GenKey(privateKey: string, publicKey: string)
    | Chown(path: string)

  /** The host as the scripts see it: which paths are directories, which are regular files,
      and the log of external actions taken so far. */
  datatype Env = Env(dirs: set<string>, files: set<string>, log: seq<Action>)

  /** os.path.exists */
  predicate Exists(env: Env, path: string) {
    path in env.dirs || path in env.files
  }

  /** A prefix of a prefix is a prefix. */
  lemma PrefixTrans<T>(a: seq<T>, b: seq<T>, c: seq<T>)
    requires a <= b && b <= c
    ensures a <= c
  {
  }

  /** Adding three elements one at a time adds the three of them. */
  lemma AddThree<T>(s: set<T>, a: T, b: T, c: T)
    ensures s + {a} + {b} + {c} == s + {a, b, c}
  {
  }

  /** create_directories: os.makedirs(dir) unless something already exists at dir. Python's
      exists("") is false and os.makedirs("") raises FileNotFoundError. */
  function CreateDirectories(env: Env, dir: string): (r: Result<Env>)
    ensures r.Err? <==> dir == []
    ensures r.Err? ==> r.error == FileNotFound(dir)
    ensures r.Ok? ==> Exists(r.value, dir) && dir in r.value.dirs + env.files
    ensures r.Ok? ==> r.value.files == env.files && r.value.log == env.log &&
                      env.dirs <= r.value.dirs <= env.dirs + {dir}
    ensures r.Ok? && Exists(env, dir) ==> r.value == env
  {
    if dir == [] then Err(FileNotFound(dir))
    else if Exists(env, dir) then Ok(env)
    else Ok(env.(dirs := env.dirs + {dir}))
  }

  /** The folder a path names a file in is a directory: a bare name lives in the working
      directory and "/name" in the root, both of which exist. */
  predicate InDirectory(dirs: set<string>, path: string) {
    |Basename(path)| == |path| || DirPart(path) == [] || DirPart(path) in dirs
  }

  /** open(path, "w") can create or truncate a regular file at path. */
  predicate Writable(dirs: set<string>, path: string) {
    path != [] && Basename(path) != [] && path !in dirs && InDirectory(dirs, path)
  }

  /** The exception of a failing open(path, "w"). A folder part that is a regular file
      (NotADirectoryError) counts as a missing one. */
  function WriteFailure(dirs: set<string>, path: string): (e: Error)
    requires !Writable(dirs, path)
    ensures e.FileNotFound? || e.IsADirectory? || e.ParentMissing?
    ensures e.path == path
    ensures e.FileNotFound? <==> path == []
    ensures e.IsADirectory? <==> path != [] && (path in dirs || Basename(path) == [])
    ensures e.ParentMissing? ==> !InDirectory(dirs, path)
  {
    if path == [] then FileNotFound(path)
    else if path in dirs || Basename(path) == [] then IsADirectory(path)
    else ParentMissing(path)
  }

  /** open(path, "w"): afterwards path is a regular file, and nothing else changes; or the open
      fails and nothing changes at all. */
  function OpenWrite(env: Env, path: string): (r: Result<Env>)
    ensures r.Ok? <==> Writable(env.dirs, path)
    ensures r.Ok? ==> r.value == env.(files := env.files + {path})
    ensures r.Err? ==> r.error == WriteFailure(env.dirs, path)
  {
    if Writable(env.dirs, path) then Ok(env.(files := env.files + {path}))
    else Err(WriteFailure(env.dirs, path))
  }

  /** if os.path.isfile(path): os.remove(path) -- a directory at path stays. */
  function RemoveIfFile(env: Env, path: string): (r: Env)
    ensures r.files == env.files - {path} && r.dirs == env.dirs && r.log == env.log
  {
    env.(files := env.files - {path})
  }

  /** os.chown(path, uid, gid): fails when nothing exists at path. */
  function ChownPath(env: Env, path: string): (r: Result<Env>)
    ensures r.Ok? <==> Exists(env, path)
    ensures r.Ok? ==> r.value.log == env.log + [Chown(path)] && r.value.dirs == env.dirs && r.value.files == env.files
    ensures r.Err? ==> r.error == FileNotFound(path)
  {
    if Exists(env, path) then Ok(env.(log := env.log + [Chown(path)])) else Err(FileNotFound(path))
  }
}
