/**
 * The two `/env` endpoints. The Python server keeps every variable and
 * replaces a sensitive value with "***REDACTED***"; the Node.js server drops
 * sensitive variables. They also disagree on what is sensitive: Python looks
 * for five upper-case words in the upper-cased name (CREDENTIALS among them),
 * Node.js for four lower-case words in the lower-cased name.
 *
 * The process environment is given as its raw list of (name, value) entries,
 * which may name a variable twice; both runtimes read the first entry for a
 * name, and list each name once, in the order of its first entry. Node.js copies the kept variables into a plain object by assignment, which
 * silently skips a variable named `__proto__`.
 */
module EnvSanitizers {
  import opened Wrappers
  import opened Strings

  type Entry = (string, string)

  const Redacted: string := "***REDACTED***"

  /** The names the entries give. */
  function Names(environ: seq<Entry>): set<string> {
    set i | 0 <= i < |environ| :: environ[i].0
  }

  /** Entry `i` is the first entry for its name. */
  predicate FirstEntry(environ: seq<Entry>, i: int) {
    0 <= i < |environ| && forall j :: 0 <= j < i ==> environ[j].0 != environ[i].0
  }

  /**
   * The environment as a mapping (`os.environ`, `process.env`): the given
   * names, each with the value of its first entry (`ToMapFirstEntry`).
   */
  function ToMap(environ: seq<Entry>): (m: map<string, string>)
    ensures m.Keys == Names(environ)
    decreases |environ|
  {
    if environ == [] then map[]
    else
      var init, last := environ[..|environ| - 1], environ[|environ| - 1];
      var m := ToMap(init);
      EntriesGrow(environ);
      if last.0 in m then m else m[last.0 := last.1]
  }

  /** One more entry adds its name, and is the first for its name exactly when the name is new. */
  lemma EntriesGrow(environ: seq<Entry>)
    requires environ != []
    ensures var init, last := environ[..|environ| - 1], environ[|environ| - 1];
            && Names(environ) == Names(init) + {last.0}
            && (FirstEntry(environ, |init|) <==> last.0 !in Names(init))
            && forall i :: FirstEntry(environ, i) && i < |init| ==> FirstEntry(init, i)
  {
    var init, last := environ[..|environ| - 1], environ[|environ| - 1];
    assert forall i :: 0 <= i < |init| ==> init[i] == environ[i];
    assert environ[|init|] == last;
  }

  /** A name's value in the mapping is the value of its first entry. */
  lemma {:induction false} ToMapFirstEntry(environ: seq<Entry>, i: int)
    requires FirstEntry(environ, i)
    ensures environ[i].0 in ToMap(environ) && ToMap(environ)[environ[i].0] == environ[i].1
    decreases |environ|
  {
    var init := environ[..|environ| - 1];
    EntriesGrow(environ);
    if i < |init| {
      assert init[i] == environ[i];
      ToMapFirstEntry(init, i);
    }
  }

  /** With a name given twice, the first value is the one read. */
  lemma FirstEntryWins()
    ensures ToMap([("DUPX", "first"), ("DUPX", "second")])["DUPX"] == "first"
  {
    ToMapFirstEntry([("DUPX", "first"), ("DUPX", "second")], 0);
  }

  /**
   * `os.environ.items()`, and the names of `Object.keys(process.env)`: the
   * first entry of each name, in order, so each name once.
   */
  function Items(environ: seq<Entry>): (items: seq<Entry>)
    ensures forall i, j :: 0 <= i < j < |items| ==> items[i].0 != items[j].0
    ensures ToMap(items) == ToMap(environ)
    decreases |environ|
  {
    if environ == [] then []
    else
      var init, last := environ[..|environ| - 1], environ[|environ| - 1];
      var items := Items(init);
      if last.0 in ToMap(init) then items
      else
        var r := items + [last];
        assert r[..|r| - 1] == items;
        r
  }

  /** The Python test: the upper-cased name contains one of five words. */
  predicate IsPythonSensitive(key: string) {
    var u := ToUpper(key);
    || Contains(u, "PASSWORD") || Contains(u, "SECRET") || Contains(u, "KEY")
    || Contains(u, "TOKEN") || Contains(u, "CREDENTIALS")
  }

  /** The Node.js test: the lower-cased name contains one of four words. */
  predicate IsNodeSensitive(key: string) {
    var l := ToLower(key);
    Contains(l, "secret") || Contains(l, "password") || Contains(l, "key") || Contains(l, "token")
  }

  /** Reference for the Python endpoint: same names, sensitive values redacted. */
  function PythonView(env: map<string, string>): (m: map<string, string>)
    ensures m.Keys == env.Keys
    ensures forall k :: k in m && IsPythonSensitive(k) ==> m[k] == Redacted
    ensures forall k :: k in m && !IsPythonSensitive(k) ==> m[k] == env[k]
  {
    map k | k in env :: if IsPythonSensitive(k) then Redacted else env[k]
  }

  /**
   * Reference for the Node.js endpoint: the non-sensitive variables, values
   * untouched, except `__proto__`, which a plain object cannot receive by assignment.
   */
  function NodeView(env: map<string, string>): (m: map<string, string>)
    ensures forall k :: k in m <==> k in env && !IsNodeSensitive(k) && k != ProtoKey
    ensures forall k :: k in m ==> m[k] == env[k]
  {
    map k | k in env && !IsNodeSensitive(k) && k != ProtoKey :: env[k]
  }

  lemma PythonViewUpdate(env: map<string, string>, k: string, v: string)
    ensures PythonView(env[k := v]) == PythonView(env)[k := if IsPythonSensitive(k) then Redacted else v]
  {
  }

  /**
   * `get_environment_variables`: the loop over `os.environ.items()`. The result
   * has exactly the environment's names; a value is redacted when its name is
   * sensitive and is the name's first value otherwise.
   */
  method GetEnvironmentVariables(environ: seq<Entry>) returns (envVars: map<string, string>)
    ensures envVars.Keys == ToMap(environ).Keys
    ensures forall k :: k in envVars && IsPythonSensitive(k) ==> envVars[k] == Redacted
    ensures forall k :: k in envVars && !IsPythonSensitive(k) ==> envVars[k] == ToMap(environ)[k]
    ensures forall i :: FirstEntry(environ, i) && !IsPythonSensitive(environ[i].0) ==> envVars[environ[i].0] == environ[i].1
    ensures envVars == PythonView(ToMap(environ))
  {
    var items := Items(environ);
    envVars := map[];
    var i := 0;
    while i < |items|
      invariant 0 <= i <= |items|
      invariant envVars == PythonView(ToMap(items[..i]))
    {
      var key := items[i].0;
      var value := items[i].1;
      if IsPythonSensitive(key) {
        envVars := envVars[key := Redacted];
      } else {
        envVars := envVars[key := value];
      }
      ItemsPrefixGrows(items, i);
      PythonViewUpdate(ToMap(items[..i]), key, value);
      i := i + 1;
    }
    assert items[..i] == items;
    forall j | FirstEntry(environ, j) {
      ToMapFirstEntry(environ, j);
    }
  }

  /** Among distinct names, reading one more item adds its name with its value. */
  lemma ItemsPrefixGrows(items: seq<Entry>, i: nat)
    requires i < |items|
    requires forall a, b :: 0 <= a < b < |items| ==> items[a].0 != items[b].0
    ensures ToMap(items[..i + 1]) == ToMap(items[..i])[items[i].0 := items[i].1]
  {
    assert items[..i + 1][..i] == items[..i];
    assert forall j :: 0 <= j < i ==> items[..i][j] == items[j];
    assert items[i].0 !in ToMap(items[..i]);
  }

  /** `Object.keys(process.env)`: each name once, in the order of its first entry. */
  function Keys(environ: seq<Entry>): (ks: seq<string>)
    ensures |ks| == |Items(environ)|
    ensures forall i :: 0 <= i < |ks| ==> ks[i] == Items(environ)[i].0
  {
    var items := Items(environ);
    seq(|items|, i requires 0 <= i < |items| => items[i].0)
  }

  /** The `.filter(...)` step: the names none of the four words occurs in, in order. */
  function FilterSafeKeys(keys: seq<string>): (r: seq<string>)
    ensures |r| <= |keys|
    ensures forall k :: k in r <==> k in keys && !IsNodeSensitive(k)
    decreases |keys|
  {
    if keys == [] then []
    else
      var init := keys[..|keys| - 1];
      var last := keys[|keys| - 1];
      assert keys == init + [last];
      if IsNodeSensitive(last) then FilterSafeKeys(init) else FilterSafeKeys(init) + [last]
  }

  /**
   * The `.reduce(...)` step: assign each listed name's value from the
   * environment to a property of a fresh `{}`; the assignment to `__proto__`
   * is lost.
   */
  function Collect(env: map<string, string>, keys: seq<string>): (obj: map<string, string>)
    requires forall i :: 0 <= i < |keys| ==> keys[i] in env
    ensures forall k :: k in obj <==> k in keys && k != ProtoKey
    ensures forall k :: k in obj ==> obj[k] == env[k]
    decreases |keys|
  {
    if keys == [] then map[]
    else
      var init := keys[..|keys| - 1];
      var last := keys[|keys| - 1];
      assert keys == init + [last];
      SetProperty(Collect(env, init), last, env[last])
  }

  lemma KeysAreNames(environ: seq<Entry>)
    ensures forall k :: k in Keys(environ) <==> k in ToMap(environ)
  {
    var items, ks := Items(environ), Keys(environ);
    forall k | k in ToMap(environ)
      ensures k in ks
    {
      assert k in ToMap(items);
      var i :| 0 <= i < |items| && items[i].0 == k;
      assert ks[i] == k;
    }
  }

  /**
   * The Node.js `/env` handler: a name other than `__proto__` is kept exactly
   * when none of the four words occurs in its lower-cased form, and a kept
   * name keeps its value.
   */
  function SafeEnv(environ: seq<Entry>): (r: map<string, string>)
    ensures forall k :: k in r <==> k in ToMap(environ) && !IsNodeSensitive(k) && k != ProtoKey
    ensures forall k :: k in r ==> r[k] == ToMap(environ)[k]
    ensures r == NodeView(ToMap(environ))
  {
    var env := ToMap(environ);
    var safe := FilterSafeKeys(Keys(environ));
    KeysAreNames(environ);
    Collect(env, safe)
  }

  /** A name the Node.js endpoint shows carries the value of its first entry. */
  lemma SafeEnvShowsFirstEntry(environ: seq<Entry>, i: int)
    requires FirstEntry(environ, i) && environ[i].0 in SafeEnv(environ)
    ensures SafeEnv(environ)[environ[i].0] == environ[i].1
  {
    ToMapFirstEntry(environ, i);
  }

  /** Every Node.js-sensitive name is also Python-sensitive (under ASCII case mapping). */
  lemma NodeSensitiveIsPythonSensitive(key: string)
    requires IsNodeSensitive(key)
    ensures IsPythonSensitive(key)
  {
    var l := ToLower(key);
    UpperOfLower(key);
    assert ToUpper("secret") == "SECRET";
    assert ToUpper("password") == "PASSWORD";
    assert ToUpper("key") == "KEY";
    assert ToUpper("token") == "TOKEN";
    if Contains(l, "secret") {
      ContainsUpper(l, "secret");
    } else if Contains(l, "password") {
      ContainsUpper(l, "password");
    } else if Contains(l, "key") {
      ContainsUpper(l, "key");
    } else {
      ContainsUpper(l, "token");
    }
  }

  /**
   * What Node.js drops, Python redacts, `__proto__` apart; where Python does
   * not redact a name other than `__proto__`, both endpoints show the same value.
   */
  lemma PoliciesAgreeOutsideRedaction(environ: seq<Entry>, k: string)
    requires k in ToMap(environ)
    ensures k !in SafeEnv(environ) ==> k == ProtoKey || PythonView(ToMap(environ))[k] == Redacted
    ensures !IsPythonSensitive(k) && k != ProtoKey ==>
              k in SafeEnv(environ) && SafeEnv(environ)[k] == PythonView(ToMap(environ))[k]
  {
    if IsNodeSensitive(k) {
      NodeSensitiveIsPythonSensitive(k);
    }
  }

  /** A name that only mentions credentials: Python redacts it, Node.js shows its value. */
  lemma CredentialsOnlyRedactedByPython(value: string)
    ensures var environ := [("CREDENTIALS", value)];
            && PythonView(ToMap(environ))["CREDENTIALS"] == Redacted
            && "CREDENTIALS" in SafeEnv(environ)
            && SafeEnv(environ)["CREDENTIALS"] == value
  {
    assert ToUpper("CREDENTIALS") == "CREDENTIALS";
    assert StartsWith("CREDENTIALS", "CREDENTIALS");
    CredentialsIsNotNodeSensitive();
  }

  /** A variable named `__proto__`: Python shows its value, Node.js leaves it out. */
  lemma ProtoOnlyShownByPython(value: string)
    ensures var environ := [(ProtoKey, value)];
            && ProtoKey in PythonView(ToMap(environ))
            && PythonView(ToMap(environ))[ProtoKey] == value
            && ProtoKey !in SafeEnv(environ)
  {
    ProtoIsNotPythonSensitive();
  }

  lemma ProtoIsNotPythonSensitive()
    ensures !IsPythonSensitive(ProtoKey)
  {
    var u := ToUpper(ProtoKey);
    assert u == "__PROTO__";
    assert 'S' !in u && 'K' !in u && 'C' !in u;
    CharMissing(u, "PASSWORD", 2);
    CharMissing(u, "SECRET", 0);
    CharMissing(u, "KEY", 0);
    CharMissing(u, "TOKEN", 2);
    CharMissing(u, "CREDENTIALS", 0);
  }

  lemma LowerCredentials()
    ensures ToLower("CREDENTIALS") == "credentials"
  {
  }

  lemma CredentialsIsNotNodeSensitive()
    ensures !IsNodeSensitive("CREDENTIALS")
  {
    LowerCredentials();
    NoNodeWordInCredentials();
  }

  lemma NoNodeWordInCredentials()
    ensures !Contains("credentials", "secret") && !Contains("credentials", "password")
    ensures !Contains("credentials", "key") && !Contains("credentials", "token")
  {
    NoSecretInCredentials();
    NoPasswordInCredentials();
    NoKeyInCredentials();
    NoTokenInCredentials();
  }

  lemma NoSecretInCredentials()
    ensures !Contains("credentials", "secret")
  {
    assert "credentials"[0..6] == "creden";
    WordAbsent("credentials", "secret", 0);
  }

  lemma NoPasswordInCredentials()
    ensures !Contains("credentials", "password")
  {
    assert "credentials"[0..4] == "cred";
    WordAbsent("credentials", "password", 0);
  }

  lemma NoKeyInCredentials()
    ensures !Contains("credentials", "key")
  {
    assert "credentials"[0..9] == "credentia";
    WordAbsent("credentials", "key", 0);
  }

  lemma NoTokenInCredentials()
    ensures !Contains("credentials", "token")
  {
    assert "credentials"[1..8] == "redenti";
    WordAbsent("credentials", "token", 1);
  }

  /**
   * A word whose `j`-th character never appears where it would have to
   * (between `j` and the last start position plus `j`) does not occur.
   */
  lemma WordAbsent(s: string, sub: string, j: nat)
    requires j < |sub| <= |s|
    requires sub[j] !in s[j..|s| - |sub| + j + 1]
    ensures !Contains(s, sub)
  {
    forall i: nat
      ensures !OccursAt(s, sub, i)
    {
      OccurrenceHasChar(s, sub, i, j);
    }
    ContainsIffOccurs(s, sub);
  }

  /** A word with a character that `s` does not hold does not occur in `s`. */
  lemma CharMissing(s: string, sub: string, j: nat)
    requires j < |sub| && sub[j] !in s
    ensures !Contains(s, sub)
  {
    forall i: nat
      ensures !OccursAt(s, sub, i)
    {
      if i + |sub| <= |s| {
        assert s[i..i + |sub|][j] == s[i + j];
      }
    }
    ContainsIffOccurs(s, sub);
  }

  lemma OccurrenceHasChar(s: string, sub: string, i: nat, j: nat)
    requires j < |sub| <= |s|
    ensures OccursAt(s, sub, i) ==> sub[j] in s[j..|s| - |sub| + j + 1]
  {
    if OccursAt(s, sub, i) {
      assert s[i..i + |sub|][j] == s[i + j];
      assert s[j..|s| - |sub| + j + 1][i] == s[i + j];
    }
  }
}
