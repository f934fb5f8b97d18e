/** Where the extension finds its API key: the Codex auth file, then the
    Claude settings file, then three environment variables. Reading a file
    and `JSON.parse` are replaced by their outcome (`None` when either
    fails); the process environment is a map from names to values. */
module Config {
  import opened Wrappers
  import opened JsValues

  const KeyPrefix: string := "88_"

  /** `is88Key`: a string that starts with "88_". */
  function Is88Key(key: Value): (r: bool)
    ensures r <==> key.Str? && |key.s| >= 3 && key.s[0] == '8' && key.s[1] == '8' && key.s[2] == '_'
  {
    key.Str? && KeyPrefix <= key.s
  }

  /** JavaScript truthiness of a `string | null | undefined`. */
  predicate Truthy(v: Option<string>)
    ensures Truthy(v) <==> v != None && v != Some("")
  {
    v.Some? && v.value != ""
  }

  /** The Codex auth file: its `OPENAI_API_KEY` when that is an 88 key. A
      failed read or parse, and the `TypeError` of indexing `null`, are
      caught and give nothing. */
  function CodexKey(file: Option<Value>): (r: Option<string>)
    ensures r.Some? ==> Is88Key(Str(r.value))
    ensures r.Some? ==>
      file.Some? && file.value.Obj? && "OPENAI_API_KEY" in file.value.fields
      && file.value.fields["OPENAI_API_KEY"] == Str(r.value)
  {
    match file
    case None => None
    case Some(config) =>
      match Member(config, "OPENAI_API_KEY")
      case None => None
      case Some(key) => if Is88Key(key) then Some(key.s) else None
  }

  /** The Claude settings file: its `env.ANTHROPIC_AUTH_TOKEN` when that is an
      88 key. A missing `env` object makes the second read throw, which is
      caught and gives nothing. */
  function ClaudeKey(file: Option<Value>): (r: Option<string>)
    ensures r.Some? ==> Is88Key(Str(r.value))
    ensures r.Some? ==>
      file.Some? && file.value.Obj? && "env" in file.value.fields
      && file.value.fields["env"].Obj?
      && "ANTHROPIC_AUTH_TOKEN" in file.value.fields["env"].fields
      && file.value.fields["env"].fields["ANTHROPIC_AUTH_TOKEN"] == Str(r.value)
  {
    match file
    case None => None
    case Some(settings) =>
      match Member(settings, "env")
      case None => None
      case Some(env) =>
        match Member(env, "ANTHROPIC_AUTH_TOKEN")
        case None => None
        case Some(key) => if Is88Key(key) then Some(key.s) else None
  }

  /** `getKeyFromConfigFiles`: the Codex key if there is one, else the Claude
      key. */
  function KeyFromConfigFiles(codex: Option<Value>, claude: Option<Value>): (r: Option<string>)
    ensures r.Some? ==> Is88Key(Str(r.value))
    ensures r.Some? ==> r == CodexKey(codex) || (CodexKey(codex).None? && r == ClaudeKey(claude))
  {
    var fromCodex := CodexKey(codex);
    if fromCodex.Some? then fromCodex else ClaudeKey(claude)
  }

  /** The process environment. */
  type Env = map<string, string>

  function EnvVar(env: Env, name: string): Option<string> {
    if name in env then Some(env[name]) else None
  }

  /** `getFromEnv`: the first truthy of `key88`, `ANTHROPIC_AUTH_TOKEN` and
      `OPENAI_API_KEY` (the last one's value when none is truthy), kept only
      when it is an 88 key. */
  function GetFromEnv(env: Env): (r: Option<string>)
    ensures r.Some? ==> Is88Key(Str(r.value))
  {
    var key88 := EnvVar(env, "key88");
    var anthropic := EnvVar(env, "ANTHROPIC_AUTH_TOKEN");
    var openai := EnvVar(env, "OPENAI_API_KEY");
    var key := if Truthy(key88) then key88 else if Truthy(anthropic) then anthropic else openai;
    if key.Some? && Is88Key(Str(key.value)) then
      (if key.value != "" then key else None)
    else None
  }

  /** `readApiKey`: a config-file key if one is found, otherwise the
      environment's; never an error, and never anything but an 88 key. */
  function ReadApiKey(codex: Option<Value>, claude: Option<Value>, env: Env): (r: Option<string>)
    ensures r.None? || Is88Key(Str(r.value))
  {
    var key := KeyFromConfigFiles(codex, claude);
    if Truthy(key) then key
    else
      var key' := GetFromEnv(env);
      if Truthy(key') then key' else None
  }

  // ---------------------------------------------------------------------------
  // Reference definitions
  // ---------------------------------------------------------------------------

  /** The first present, non-empty value of a list of variables. */
  function FirstNonEmpty(vals: seq<Option<string>>): (r: Option<string>)
    ensures r.Some? ==> r.value != "" && r in vals
    ensures r.Some? ==>
      exists i :: 0 <= i < |vals| && vals[i] == r && forall j :: 0 <= j < i ==> !Truthy(vals[j])
    ensures r.None? ==> forall i :: 0 <= i < |vals| ==> !Truthy(vals[i])
  {
    if |vals| == 0 then None
    else if Truthy(vals[0]) then vals[0]
    else FirstNonEmpty(vals[1..])
  }

  // ---------------------------------------------------------------------------
  // Lemmas
  // ---------------------------------------------------------------------------

  /** The Codex file yields `k` exactly when it parsed to an object whose
      `OPENAI_API_KEY` is the 88 key `k`. */
  lemma CodexKeyIff(file: Option<Value>, k: string)
    ensures CodexKey(file) == Some(k) <==>
      && file.Some? && file.value.Obj?
      && "OPENAI_API_KEY" in file.value.fields
      && file.value.fields["OPENAI_API_KEY"] == Str(k)
      && KeyPrefix <= k
  {
  }

  /** The Claude file yields `k` exactly when it parsed to an object with an
      `env` object whose `ANTHROPIC_AUTH_TOKEN` is the 88 key `k`. */
  lemma ClaudeKeyIff(file: Option<Value>, k: string)
    ensures ClaudeKey(file) == Some(k) <==>
      && file.Some? && file.value.Obj?
      && "env" in file.value.fields && file.value.fields["env"].Obj?
      && "ANTHROPIC_AUTH_TOKEN" in file.value.fields["env"].fields
      && file.value.fields["env"].fields["ANTHROPIC_AUTH_TOKEN"] == Str(k)
      && KeyPrefix <= k
  {
    if ClaudeKey(file) == Some(k) {
      var env := Member(file.value, "env");
      assert env.Some? && env.value != Null && env.value != Undefined;
      assert env.value.Obj?;
    }
  }

  /** When the Codex file yields a key, it wins over the Claude file and the
      environment. */
  lemma CodexWins(codex: Option<Value>, claude: Option<Value>, env: Env)
    requires CodexKey(codex).Some?
    ensures ReadApiKey(codex, claude, env) == CodexKey(codex)
  {
  }

  /** When the Codex file yields nothing, for any reason, the Claude file is
      consulted as if the Codex file were absent. */
  lemma CodexFallsThrough(codex: Option<Value>, claude: Option<Value>, env: Env)
    requires CodexKey(codex).None?
    ensures ReadApiKey(codex, claude, env) == ReadApiKey(None, claude, env)
    ensures KeyFromConfigFiles(codex, claude) == ClaudeKey(claude)
  {
  }

  /** The ways a Codex file yields nothing: unreadable or unparsable, `null`,
      no such property, or a value that is not an 88 key. */
  lemma CodexNothingCases(v: Value)
    requires !Is88Key(v)
    ensures CodexKey(None) == None
    ensures CodexKey(Some(Null)) == None
    ensures CodexKey(Some(Obj(map[]))) == None
    ensures CodexKey(Some(Obj(map["OPENAI_API_KEY" := v]))) == None
  {
  }

  /** The ways a Claude file yields nothing: unreadable or unparsable, no
      `env` object, or a token that is not an 88 key. */
  lemma ClaudeNothingCases(v: Value)
    requires !Is88Key(v)
    ensures ClaudeKey(None) == None
    ensures ClaudeKey(Some(Obj(map[]))) == None
    ensures ClaudeKey(Some(Obj(map["env" := Null]))) == None
    ensures ClaudeKey(Some(Obj(map["env" := Obj(map["ANTHROPIC_AUTH_TOKEN" := v])]))) == None
  {
  }

  /** A config-file key wins over any environment; the environment is used
      exactly when both files yield nothing. */
  lemma FilesBeforeEnv(codex: Option<Value>, claude: Option<Value>, env: Env, env': Env)
    ensures KeyFromConfigFiles(codex, claude).Some? ==>
      ReadApiKey(codex, claude, env) == KeyFromConfigFiles(codex, claude)
      && ReadApiKey(codex, claude, env) == ReadApiKey(codex, claude, env')
    ensures KeyFromConfigFiles(codex, claude).None? ==>
      ReadApiKey(codex, claude, env) == GetFromEnv(env)
  {
  }

  /** `getFromEnv` validates only the first non-empty variable, in the order
      `key88`, `ANTHROPIC_AUTH_TOKEN`, `OPENAI_API_KEY`. */
  lemma {:induction false} GetFromEnvFirstNonEmpty(env: Env)
    ensures
      var first := FirstNonEmpty([EnvVar(env, "key88"), EnvVar(env, "ANTHROPIC_AUTH_TOKEN"),
                                  EnvVar(env, "OPENAI_API_KEY")]);
      GetFromEnv(env) == if first.Some? && KeyPrefix <= first.value then first else None
  {
    var vals := [EnvVar(env, "key88"), EnvVar(env, "ANTHROPIC_AUTH_TOKEN"), EnvVar(env, "OPENAI_API_KEY")];
    assert vals[1..] == [vals[1], vals[2]];
    assert vals[1..][1..] == [vals[2]];
    assert vals[1..][1..][1..] == [];
    assert FirstNonEmpty(vals[1..][1..][1..]) == None;
  }

  /** A non-empty `key88` that is not an 88 key masks valid later variables. */
  lemma EnvMasking(env: Env)
    requires "key88" in env && env["key88"] != "" && !(KeyPrefix <= env["key88"])
    ensures GetFromEnv(env) == None
  {
  }

  /** An empty `key88` is skipped, so a valid `ANTHROPIC_AUTH_TOKEN` is used. */
  lemma EnvFallsThroughEmpty(token: string)
    requires KeyPrefix <= token
    ensures GetFromEnv(map["key88" := "", "ANTHROPIC_AUTH_TOKEN" := token]) == Some(token)
  {
  }
}
