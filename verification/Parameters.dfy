/**
 Resource parameters on their way into the agent's environment: message/message.go, ParametersToString, and
 the loop of rmanager/rman.go that splits the strings again and sets OCF_RESKEY_ variables.
 */
module Parameters {
  import opened Ints
  import opened Messages
  import opened Options

  type Environment = map<string, string>

  const OCF_ROOT := "OCF_ROOT"
  const OCF_ROOT_VALUE := "/usr/lib/ocf"
  const OCF_RESKEY := "OCF_RESKEY_"

  /** None is the index panic for a length beyond the list; a negative length gives no parameters. */
  method ParametersToString(len: int, p: seq<Parameter>) returns (r: Option<seq<string>>)
    ensures r == if len <= |p| then Some(Assignments(p[..Max(0, len)])) else None
  {
    var strings: seq<string> := [];
    var i := 0;
    while i < len
      invariant 0 <= i <= Max(0, len) && i <= |p|
      invariant strings == Assignments(p[..i])
    {
      if i >= |p| {
        return None;
      }
      assert p[..i + 1][..i] == p[..i];
      strings := strings + [p[i].name + "=" + p[i].value];
      i := i + 1;
    }
    r := Some(strings);
  }

  /** strings.Index(s, "="): the first position of the sign, or -1. */
  function IndexOf(s: string): (idx: int)
    ensures -1 <= idx < |s|
    ensures idx >= 0 ==> s[idx] == '='
    ensures forall i :: 0 <= i < (if idx < 0 then |s| else idx) ==> s[i] != '='
  {
    if s == "" then -1
    else if s[0] == '=' then 0
    else var rest := IndexOf(s[1..]); if rest < 0 then -1 else rest + 1
  }

  /** The name and value the loop takes from one string. */
  function Split(s: string): Option<(string, string)> {
    var idx := IndexOf(s);
    if idx > 0 then Some((s[..idx], s[idx + 1..])) else None
  }

  /** Splitting an assignment gives its name and value back exactly when the name is non-empty and has no "=". */
  lemma SplitInvertsAssignment(name: string, value: string)
    ensures Split(name + "=" + value) == Some((name, value)) <==> name != "" && '=' !in name
  {
    var s := name + "=" + value;
    var idx := IndexOf(s);
    assert s[|name|] == '=';
    if name != "" && '=' !in name {
      assert forall i :: 0 <= i < |name| ==> s[i] == name[i];
      assert idx == |name|;
      assert s[..idx] == name && s[idx + 1..] == value;
    } else if idx > 0 {
      assert '=' !in s[..idx];
    }
  }

  lemma RoundTrip(ps: seq<Parameter>, i: nat)
    requires i < |ps| && ps[i].name != "" && '=' !in ps[i].name
    ensures Split(Assignments(ps)[i]) == Some((ps[i].name, ps[i].value))
  {
    SplitInvertsAssignment(ps[i].name, ps[i].value);
  }

  // ---- the environment

  const NUL: char := '\0'

  /** os.Setenv; its error for a zero byte is ignored by the loop. */
  function SetEnv(env: Environment, key: string, value: string): Environment {
    if NUL in key || NUL in value then env else env[key := value]
  }

  function Lookup(env: Environment, key: string): Option<string> {
    if key in env then Some(env[key]) else None
  }

  /** String s makes the loop set the variable to the value. */
  predicate Sets(s: string, key: string, value: string) {
    var pair := Split(s);
    pair.Some? && key == OCF_RESKEY + pair.value.0 && value == pair.value.1 && NUL !in key && NUL !in value
  }

  /** String s makes the loop set the variable to some value. */
  predicate SetsAny(s: string, key: string) {
    var pair := Split(s);
    pair.Some? && Sets(s, key, pair.value.1)
  }

  function Given(strings: seq<string>, key: string): Option<string> {
    if strings == [] then None
    else
      var last := strings[|strings| - 1];
      if SetsAny(last, key) then Some(Split(last).value.1) else Given(strings[..|strings| - 1], key)
  }

  ghost predicate NoneAfter(strings: seq<string>, i: int, key: string) {
    forall j :: i < j < |strings| && j >= 0 ==> !SetsAny(strings[j], key)
  }

  ghost predicate LastAt(strings: seq<string>, i: int, key: string, value: string) {
    0 <= i < |strings| && Sets(strings[i], key, value) && NoneAfter(strings, i, key)
  }

  lemma NoneSnoc(init: seq<string>, last: string, i: int, key: string)
    requires NoneAfter(init, i, key) && !SetsAny(last, key)
    ensures NoneAfter(init + [last], i, key)
  {
  }

  lemma LastSnoc(init: seq<string>, last: string, i: int, key: string, value: string)
    requires LastAt(init, i, key, value) && !SetsAny(last, key)
    ensures LastAt(init + [last], i, key, value)
  {
    NoneSnoc(init, last, i, key);
    assert (init + [last])[i] == init[i];
  }

  lemma GivenSnoc(init: seq<string>, last: string, key: string)
    ensures Given(init + [last], key) == if SetsAny(last, key) then Some(Split(last).value.1) else Given(init, key)
  {
    assert (init + [last])[..|init|] == init;
  }

  /** What Given is to be: the last value any of the strings sets the variable to; i is where. */
  ghost predicate IsTheLast(strings: seq<string>, key: string, given: Option<string>, i: int) {
    match given
    case None => NoneAfter(strings, -1, key)
    case Some(value) => LastAt(strings, i, key, value)
  }

  lemma {:induction false} GivenIsTheLast(strings: seq<string>, key: string) returns (i: int)
    ensures IsTheLast(strings, key, Given(strings, key), i)
  {
    i := |strings| - 1;
    if strings != [] {
      var init, last := strings[..i], strings[i];
      assert strings == init + [last];
      GivenSnoc(init, last, key);
      if !SetsAny(last, key) {
        i := GivenIsTheLast(init, key);
        if Given(init, key).None? {
          NoneSnoc(init, last, -1, key);
        } else {
          LastSnoc(init, last, i, key, Given(init, key).value);
        }
      }
    }
  }

  /** A variable after the loop: its last given value, else OCF_ROOT's own, else what it was. */
  function Final(env: Environment, strings: seq<string>, key: string): Option<string> {
    var given := Given(strings, key);
    if given.Some? then given
    else if key == OCF_ROOT then Some(OCF_ROOT_VALUE)
    else Lookup(env, key)
  }

  lemma FinalSnoc(env: Environment, strings: seq<string>, s: string, key: string)
    ensures Final(env, strings + [s], key) ==
      if SetsAny(s, key) then Some(Split(s).value.1) else Final(env, strings, key)
  {
    assert (strings + [s])[..|strings|] == strings;
  }

  lemma SetEnvSets(env: Environment, s: string, key: string)
    requires Split(s).Some?
    ensures var pair := Split(s).value;
      Lookup(SetEnv(env, OCF_RESKEY + pair.0, pair.1), key) ==
        if Sets(s, key, pair.1) then Some(pair.1) else Lookup(env, key)
  {
  }

  /** Strings only set OCF_RESKEY_ variables; OCF_ROOT always has its own value, and any other keeps its old one. */
  lemma {:induction false} OthersAreKept(env: Environment, strings: seq<string>, key: string)
    requires !("OCF_RESKEY_" <= key)
    ensures Final(env, strings, key) == if key == "OCF_ROOT" then Some("/usr/lib/ocf") else Lookup(env, key)
  {
    if strings != [] {
      var init, last := strings[..|strings| - 1], strings[|strings| - 1];
      assert strings == init + [last];
      FinalSnoc(env, init, last, key);
      assert !SetsAny(last, key);
      OthersAreKept(env, init, key);
    }
  }

  /** No string puts a zero byte into the environment, neither in a name nor in a value. */
  lemma {:induction false} NoZeroByteIsSet(env: Environment, strings: seq<string>, key: string)
    requires Lookup(env, key).Some? ==> '\0' !in key && '\0' !in Lookup(env, key).value
    ensures Final(env, strings, key).Some? ==> '\0' !in key && '\0' !in Final(env, strings, key).value
  {
    if strings != [] {
      var init, last := strings[..|strings| - 1], strings[|strings| - 1];
      assert strings == init + [last];
      FinalSnoc(env, init, last, key);
      NoZeroByteIsSet(env, init, key);
    }
  }

  method SetResourceEnvironment(env: Environment, parameters: seq<string>) returns (env': Environment)
    ensures forall key :: Lookup(env', key) == Final(env, parameters, key)
  {
    env' := env[OCF_ROOT := OCF_ROOT_VALUE];
    for i := 0 to |parameters|
      invariant forall key :: Lookup(env', key) == Final(env, parameters[..i], key)
    {
      ghost var before := env';
      var idx := IndexOf(parameters[i]);
      if idx > 0 {
        env' := SetEnv(env', OCF_RESKEY + parameters[i][..idx], parameters[i][idx + 1..]);
      }
      assert parameters[..i + 1] == parameters[..i] + [parameters[i]];
      forall key ensures Lookup(env', key) == Final(env, parameters[..i + 1], key) {
        FinalSnoc(env, parameters[..i], parameters[i], key);
        if idx > 0 {
          SetEnvSets(before, parameters[i], key);
        }
      }
    }
    assert parameters[..|parameters|] == parameters;
  }

  lemma SameKey(a: string, b: string)
    requires OCF_RESKEY + a == OCF_RESKEY + b
    ensures a == b
  {
    assert a == (OCF_RESKEY + a)[|OCF_RESKEY|..] && b == (OCF_RESKEY + b)[|OCF_RESKEY|..];
  }

  /** The string gives the parameter this value; one with a zero byte in name or value gives none. */
  ghost predicate Gives(s: string, name: string, value: string) {
    Split(s) == Some((name, value)) && NUL !in name && NUL !in value
  }

  lemma NulInKey(name: string)
    ensures NUL in OCF_RESKEY + name <==> NUL in name
  {
    var key := OCF_RESKEY + name;
    assert NUL !in OCF_RESKEY;
    if NUL in name {
      var i :| 0 <= i < |name| && name[i] == NUL;
      assert key[|OCF_RESKEY| + i] == NUL;
    }
  }

  lemma GivesSets(s: string, name: string, value: string)
    ensures Gives(s, name, value) <==> Sets(s, OCF_RESKEY + name, value)
  {
    NulInKey(name);
    if Sets(s, OCF_RESKEY + name, value) {
      SameKey(Split(s).value.0, name);
    }
  }

  /** The parameter comes out of the split as it went in, and a variable can hold it. */
  predicate Survives(p: Parameter) {
    p.name != "" && '=' !in p.name && NUL !in p.name && NUL !in p.value
  }

  /** String k gives the parameter this value, and no later one gives it any. */
  ghost predicate GivesLast(strings: seq<string>, k: int, name: string, value: string) {
    0 <= k < |strings| && Gives(strings[k], name, value) &&
    forall j :: k < j < |strings| ==> !exists v :: Gives(strings[j], name, v)
  }

  /** The variable has the value after the loop exactly when the last string that gives it one gives it this. */
  lemma LastOneCounts(env: Environment, strings: seq<string>, name: string, value: string, k: int, v: string)
    requires 0 <= k < |strings| && Gives(strings[k], name, v)
    ensures Final(env, strings, OCF_RESKEY + name) == Some(value) <==>
      exists i :: k <= i && GivesLast(strings, i, name, value)
  {
    var key := OCF_RESKEY + name;
    forall j, w | 0 <= j < |strings| ensures Gives(strings[j], name, w) <==> Sets(strings[j], key, w) {
      GivesSets(strings[j], name, w);
    }
    var last := GivenIsTheLast(strings, key);
    assert SetsAny(strings[k], key);
    var given := Given(strings, key).value;
    assert Gives(strings[last], name, given) && k <= last;
    assert GivesLast(strings, last, name, given);
    forall i | k <= i && GivesLast(strings, i, name, value) ensures i == last && value == given {
      assert Sets(strings[i], key, value);
    }
  }

  /**
   Parameter i, with a name that survives splitting and no zero byte, reaches the agent with its value exactly
   when the last string from its own on that gives the variable a value - whatever that parameter's name -
   gives this one; in particular when no later one gives it any.
   */
  lemma ParameterReachesTheAgent(env: Environment, ps: seq<Parameter>, i: nat)
    requires i < |ps| && Survives(ps[i])
    ensures var strings, name, value := Assignments(ps), ps[i].name, ps[i].value;
      var final := Final(env, strings, OCF_RESKEY + name);
      (final == Some(value) <==> exists k :: i <= k && GivesLast(strings, k, name, value)) &&
      (GivesLast(strings, i, name, value) ==> final == Some(value))
  {
    RoundTrip(ps, i);
    LastOneCounts(env, Assignments(ps), ps[i].name, ps[i].value, i, ps[i].value);
  }
}
