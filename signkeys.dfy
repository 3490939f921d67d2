/** create_sign_keys: find the key directory named in config.xml, generate the upload and
    code-signing key pairs that are missing, and hand the four key files to the project user. */
module SignKeys {
  import opened Common
  import opened Text
  import opened Lines

  /** The prefix of s before the first c, or all of s: s.split(c)[0]. */
  function TakeUntil(s: string, c: char): (p: string)
    ensures c !in p && p <= s
    ensures |p| == |s| || s[|p|] == c
  {
    if s == [] || s[0] == c then []
    else
      var p := [s[0]] + TakeUntil(s[1..], c);
      assert s == [s[0]] + s[1..];
      p
  }

  /** Position of the first c in s. */
  function FirstIndex(s: string, c: char): (k: nat)
    requires c in s
    ensures k < |s| && s[k] == c && c !in s[..k]
  {
    if s[0] == c then 0
    else
      assert c in s[1..];
      var k := 1 + FirstIndex(s[1..], c);
      assert s[..k] == [s[0]] + s[1..][..k - 1];
      k
  }

  /** The text after the first c: s.split(c)[1] is TakeUntil(AfterFirst(s, c), c). */
  function AfterFirst(s: string, c: char): string
    requires c in s
  {
    s[FirstIndex(s, c) + 1..]
  }

  /** line.split(">")[1].split("<")[0]; None where the split has no second part (IndexError). */
  function KeyDirValue(line: string): (r: Option<string>)
    ensures r.Some? <==> '>' in line
    ensures r.Some? ==>
      var rest := AfterFirst(line, '>');
      '<' !in r.value && '>' !in r.value && r.value <= rest &&
      (|r.value| == |rest| || rest[|r.value|] == '<' || rest[|r.value|] == '>')
  {
    if '>' !in line then None
    else
      var rest := AfterFirst(line, '>');
      var field := TakeUntil(rest, '>');
      var v := TakeUntil(field, '<');
      assert |v| < |field| ==> rest[|v|] == field[|v|];
      Some(v)
  }

  lemma {:induction false} TakeUntilBefore(a: string, c: char, b: string)
    requires c !in a
    ensures TakeUntil(a + [c] + b, c) == a
  {
    if a != [] {
      assert a[0] in a;
      assert (a + [c] + b)[1..] == a[1..] + [c] + b;
      TakeUntilBefore(a[1..], c, b);
      assert a == [a[0]] + a[1..];
    }
  }

  lemma {:induction false} AfterFirstAfter(a: string, c: char, b: string)
    requires c !in a
    ensures c in a + [c] + b && AfterFirst(a + [c] + b, c) == b
  {
    var s := a + [c] + b;
    assert s[|a|] == c;
    var k := FirstIndex(s, c);
    assert s[|a| + 1..] == b;
  }

  /** The value between the first '>' and the next '<' of  a>value<b>post. */
  lemma ValueBetween(a: string, value: string, b: string, post: string)
    requires '>' !in a && '<' !in value && '>' !in value && '>' !in b
    ensures KeyDirValue(a + ['>'] + (value + ['<'] + b + ['>'] + post)) == Some(value)
  {
    var rest := value + ['<'] + b + ['>'] + post;
    AfterFirstAfter(a, '>', rest);
    assert '>' !in value + ['<'] + b;
    TakeUntilBefore(value + ['<'] + b, '>', post);
    TakeUntilBefore(value, '<', b);
  }

  /** For a line  pre<key_dir>V</key_dir>post  whose pre has no '>' and whose V has neither '<'
      nor '>', the extracted key directory is V. */
  lemma KeyDirOfElement(pre: string, value: string, post: string)
    requires '>' !in pre && '<' !in value && '>' !in value
    ensures KeyDirValue(pre + "<key_dir>" + value + "</key_dir>" + post) == Some(value)
  {
    var openTag, closeTag := "<key_dir", "/key_dir";
    assert "<key_dir>" == openTag + ['>'] && "</key_dir>" == ['<'] + closeTag + ['>'];
    assert pre + "<key_dir>" + value + "</key_dir>" + post
        == (pre + openTag) + ['>'] + (value + ['<'] + closeTag + ['>'] + post);
    ValueBetween(pre + openTag, value, closeTag, post);
  }

  /** The scan's test: "key_dir" in line. */
  predicate MentionsKeyDir(line: string) {
    Contains(line, "key_dir")
  }

  /** A mentioning line on which the extraction raises IndexError. */
  predicate Malformed(line: string) {
    MentionsKeyDir(line) && '>' !in line
  }

  /** The last line that mentions key_dir. */
  function LastMention(lines: seq<string>): (r: Option<nat>)
    ensures r.None? <==> forall i :: 0 <= i < |lines| ==> !MentionsKeyDir(lines[i])
    ensures r.Some? ==>
      r.value < |lines| && MentionsKeyDir(lines[r.value]) &&
      forall j :: r.value < j < |lines| ==> !MentionsKeyDir(lines[j])
  {
    if lines == [] then None
    else if MentionsKeyDir(lines[|lines| - 1]) then Some(|lines| - 1)
    else
      var r := LastMention(lines[..|lines| - 1]);
      assert forall i :: 0 <= i < |lines| - 1 ==> lines[..|lines| - 1][i] == lines[i];
      r
  }

  /** The first malformed line. */
  function FirstMalformed(lines: seq<string>): (r: Option<nat>)
    ensures r.None? <==> forall i :: 0 <= i < |lines| ==> !Malformed(lines[i])
    ensures r.Some? ==>
      r.value < |lines| && Malformed(lines[r.value]) &&
      forall j :: 0 <= j < r.value ==> !Malformed(lines[j])
  {
    if lines == [] then None
    else if Malformed(lines[0]) then Some(0)
    else
      var r := FirstMalformed(lines[1..]);
      assert forall i :: 1 <= i < |lines| ==> lines[1..][i - 1] == lines[i];
      if r.None? then None else Some(r.value + 1)
  }

  /** The outcome of the scan: the first malformed mentioning line raises IndexError; with no
      mentioning line key_dir stays unbound; otherwise the value from the LAST mentioning line. */
  function KeyDir(lines: seq<string>): (r: Result<string>)
    ensures r == Err(KeyDirMissing) <==> forall i :: 0 <= i < |lines| ==> !MentionsKeyDir(lines[i])
    ensures (r.Err? && r.error.KeyDirMalformed?) <==> exists i :: 0 <= i < |lines| && Malformed(lines[i])
    ensures r.Err? && r.error.KeyDirMalformed? ==>
      r.error.line < |lines| && Malformed(lines[r.error.line]) &&
      forall j :: 0 <= j < r.error.line ==> !Malformed(lines[j])
    ensures r.Ok? ==>
      exists i :: 0 <= i < |lines| && MentionsKeyDir(lines[i]) && KeyDirValue(lines[i]) == Some(r.value) &&
        forall j :: i < j < |lines| ==> !MentionsKeyDir(lines[j])
    ensures r.Err? ==> r.error.KeyDirMissing? || r.error.KeyDirMalformed?
  {
    match FirstMalformed(lines)
    case Some(i) => Err(KeyDirMalformed(i))
    case None =>
      match LastMention(lines)
      case None => Err(KeyDirMissing)
      case Some(i) =>
        assert !Malformed(lines[i]);
        Ok(KeyDirValue(lines[i]).value)
  }

  /** The loop over the lines of config.xml: key_dir is reassigned on every mentioning line. */
  method ScanKeyDir(lines: seq<string>) returns (r: Result<string>)
    ensures r == KeyDir(lines)
  {
    var keyDir: Option<string> := None;
    for i := 0 to |lines|
      invariant forall j :: 0 <= j < i ==> !Malformed(lines[j])
      invariant keyDir == match LastMention(lines[..i])
                          case None => None
                          case Some(k) => KeyDirValue(lines[k])
    {
      LastMentionStep(lines, i);
      if MentionsKeyDir(lines[i]) {
        var v := KeyDirValue(lines[i]);
        if v.None? {
          FirstMalformedAt(lines, i);
          return Err(KeyDirMalformed(i));
        }
        keyDir := v;
      }
      NoMalformedExtend(lines, i);
    }
    assert lines[..|lines|] == lines;
    if keyDir.None? {
      return Err(KeyDirMissing);
    }
    return Ok(keyDir.value);
  }

  /** One more line moves the last mention to it exactly when it mentions key_dir. */
  lemma LastMentionStep(lines: seq<string>, i: nat)
    requires i < |lines|
    ensures LastMention(lines[..i + 1])
         == if MentionsKeyDir(lines[i]) then Some(i) else LastMention(lines[..i])
  {
    assert lines[..i + 1][..i] == lines[..i];
  }

  /** A well-formed line extends a prefix without malformed lines. */
  lemma NoMalformedExtend(lines: seq<string>, i: nat)
    requires i < |lines| && !Malformed(lines[i])
    requires forall j :: 0 <= j < i ==> !Malformed(lines[j])
    ensures forall j :: 0 <= j < i + 1 ==> !Malformed(lines[j])
  {
  }

  /** A malformed line with no malformed line before it is the first malformed line. */
  lemma FirstMalformedAt(lines: seq<string>, i: nat)
    requires i < |lines| && Malformed(lines[i])
    requires forall j :: 0 <= j < i ==> !Malformed(lines[j])
    ensures FirstMalformed(lines) == Some(i)
  {
  }

  /** The four key files, in the order their ownership is changed. */
  function KeyFiles(keyDir: string): seq<string> {
    [keyDir + "/code_sign_private", keyDir + "/code_sign_public",
     keyDir + "/upload_private", keyDir + "/upload_public"]
  }

  /** Ownership changes of the given paths, in order. */
  function Chowns(paths: seq<string>): (log: seq<Action>)
    ensures |log| == |paths| && forall i :: 0 <= i < |paths| ==> log[i] == Chown(paths[i])
  {
    seq(|paths|, i requires 0 <= i < |paths| => Chown(paths[i]))
  }

  /** The key generations the first script runs: the upload pair, then the code-signing pair,
      each only when its private key file is absent. The second script runs none. */
  function KeyGens(v: Variant, keyDir: string, files: set<string>): (g: seq<Action>)
    ensures v.CreateNewApp? ==> g == []
    ensures GenKey(keyDir + "/upload_private", keyDir + "/upload_public") in g
        <==> v.DockerCreateApp? && keyDir + "/upload_private" !in files
    ensures GenKey(keyDir + "/code_sign_private", keyDir + "/code_sign_public") in g
        <==> v.DockerCreateApp? && keyDir + "/code_sign_private" !in files
    ensures |g| == 2 ==>
      g == [GenKey(keyDir + "/upload_private", keyDir + "/upload_public"),
            GenKey(keyDir + "/code_sign_private", keyDir + "/code_sign_public")]
  {
    if v.CreateNewApp? then []
    else
      (if keyDir + "/upload_private" !in files
       then [GenKey(keyDir + "/upload_private", keyDir + "/upload_public")] else []) +
      (if keyDir + "/code_sign_private" !in files
       then [GenKey(keyDir + "/code_sign_private", keyDir + "/code_sign_public")] else [])
  }

  /** crypt_prog -genkey: writes both key files when their directory exists. */
  function GenerateKey(env: Env, keyDir: string, privateKey: string, publicKey: string): (r: Env)
    ensures r.log == env.log + [GenKey(privateKey, publicKey)] && r.dirs == env.dirs
    ensures r.files == if keyDir in env.dirs then env.files + {privateKey, publicKey} else env.files
  {
    env.(log := env.log + [GenKey(privateKey, publicKey)],
         files := if keyDir in env.dirs then env.files + {privateKey, publicKey} else env.files)
  }

  /** The loop `for i in keys: os.chown(key_dir + i, uid, gid)`: stops at the first missing file. */
  method ChownKeys(keyDir: string, env: Env) returns (r: Result<Env>)
    ensures r.Ok? <==> forall p :: p in KeyFiles(keyDir) ==> Exists(env, p)
    ensures r.Ok? ==> r.value == env.(log := env.log + Chowns(KeyFiles(keyDir)))
    ensures r.Err? ==>
      exists i :: 0 <= i < 4 && r.error == FileNotFound(KeyFiles(keyDir)[i]) &&
        !Exists(env, KeyFiles(keyDir)[i]) && forall j :: 0 <= j < i ==> Exists(env, KeyFiles(keyDir)[j])
  {
    var keys := ["/code_sign_private", "/code_sign_public", "/upload_private", "/upload_public"];
    var files := KeyFiles(keyDir);
    var e := env;
    for i := 0 to |keys|
      invariant e == env.(log := env.log + Chowns(files[..i]))
      invariant forall j :: 0 <= j < i ==> Exists(env, files[j])
    {
      assert keyDir + keys[i] == files[i];
      var c := ChownPath(e, keyDir + keys[i]);
      if c.Err? {
        assert !Exists(env, files[i]) && files[i] in files;
        return Err(c.error);
      }
      assert Chowns(files[..i + 1]) == Chowns(files[..i]) + [Chown(files[i])];
      e := c.value;
    }
    assert files[..4] == files;
    return Ok(e);
  }

  /** os.path.isdir: the empty path is never a directory. */
  predicate IsDir(env: Env, path: string) {
    path != [] && path in env.dirs
  }

  /** The steps of create_sign_keys between the scan and the ownership loop: the key directory is
      created when it is not a directory (the second script creates it once more beforehand,
      which changes nothing), then each missing pair is generated, upload pair first; in the
      second script a missing pair is the TypeError of sh(cmd, shell=True). An empty key_dir
      reaches os.makedirs("") in both scripts, which raises FileNotFoundError. */
  function PrepareKeys(v: Variant, keyDir: string, env: Env): (r: Result<Env>)
    ensures keyDir == [] ==> r == Err(FileNotFound(keyDir))
    ensures keyDir != [] ==> (r.Err? <==>
      v.CreateNewApp? && (keyDir + "/upload_private" !in env.files || keyDir + "/code_sign_private" !in env.files))
    ensures keyDir != [] && r.Err? ==> r.error == BadKeyword
    ensures r.Ok? ==>
      r.value.log == env.log + KeyGens(v, keyDir, env.files) &&
      r.value.dirs == (if Exists(env, keyDir) then env.dirs else env.dirs + {keyDir}) &&
      env.files <= r.value.files
    ensures r.Ok? && keyDir in r.value.dirs ==>
      keyDir + "/upload_private" in r.value.files && keyDir + "/code_sign_private" in r.value.files
  {
    var created := if v.CreateNewApp? then CreateDirectories(env, keyDir) else Ok(env);
    if created.Err? then Err(created.error)
    else
      var made := if !IsDir(created.value, keyDir) then CreateDirectories(created.value, keyDir) else Ok(created.value);
      if made.Err? then Err(made.error)
      else
        var e := made.value;
        var uploadPrivate, uploadPublic := keyDir + "/upload_private", keyDir + "/upload_public";
        var signPrivate, signPublic := keyDir + "/code_sign_private", keyDir + "/code_sign_public";
        if v.CreateNewApp? then
          if uploadPrivate !in e.files || signPrivate !in e.files then Err(BadKeyword) else Ok(e)
        else
          var e1 := if uploadPrivate !in e.files then GenerateKey(e, keyDir, uploadPrivate, uploadPublic) else e;
          var e2 := if signPrivate !in e1.files then GenerateKey(e1, keyDir, signPrivate, signPublic) else e1;
          Ok(e2)
  }

  /** create_sign_keys: read config.xml in text mode, scan its lines for the key directory,
      prepare the keys, then change the owner of the four key files in a fixed order. */
  method CreateSignKeys(v: Variant, config: string, env: Env) returns (r: Result<Env>)
    ensures KeyDir(ReadFile(config)).Err? ==> r == Err(KeyDir(ReadFile(config)).error)
    ensures KeyDir(ReadFile(config)) == Ok("") ==> r == Err(FileNotFound(""))
    ensures KeyDir(ReadFile(config)).Ok? ==>
      var keyDir := KeyDir(ReadFile(config)).value;
      (PrepareKeys(v, keyDir, env).Err? ==> r == Err(PrepareKeys(v, keyDir, env).error)) &&
      (PrepareKeys(v, keyDir, env).Ok? ==>
         var prepared := PrepareKeys(v, keyDir, env).value;
         (r.Ok? <==> forall p :: p in KeyFiles(keyDir) ==> Exists(prepared, p)) &&
         (r.Ok? ==> r.value.log == env.log + KeyGens(v, keyDir, env.files) + Chowns(KeyFiles(keyDir)) &&
                    r.value.dirs == prepared.dirs && r.value.files == prepared.files) &&
         (r.Err? ==> r.error.FileNotFound? && r.error.path in KeyFiles(keyDir)))
  {
    var scanned := ScanKeyDir(ReadFile(config));
    if scanned.Err? {
      return Err(scanned.error);
    }
    var keyDir := scanned.value;
    var prepared := PrepareKeys(v, keyDir, env);
    if prepared.Err? {
      return Err(prepared.error);
    }
    r := ChownKeys(keyDir, prepared.value);
  }

  /** When the key directory exists and no pair is missing, both scripts act alike: no key is
      generated and the four files change owner. */
  lemma KeysPresentAgree(lines: seq<string>, planClassName: string, env: Env)
    requires KeyDir(lines).Ok?
    requires forall p :: p in KeyFiles(KeyDir(lines).value) ==> p in env.files
    ensures KeyGens(DockerCreateApp, KeyDir(lines).value, env.files) == []
    ensures KeyGens(CreateNewApp(planClassName), KeyDir(lines).value, env.files) == []
  {
    var keyDir := KeyDir(lines).value;
    assert keyDir + "/upload_private" in KeyFiles(keyDir);
    assert keyDir + "/code_sign_private" in KeyFiles(keyDir);
  }
}
