/**
 * The process environment that `unset_env_var` edits, as an explicit map from
 * variable names to values.
 */
module Environ {
  import opened Wrappers

  /** The value of a variable, if it is set. */
  function Get(env: map<string, string>, name: string): (r: Option<string>)
    ensures r.Some? <==> name in env
    ensures r.Some? ==> r.value == env[name]
  {
    if name in env then Some(env[name]) else None
  }

  /**
   * The environment after `unset_env_var(name, previous)`: the variable is
   * set to `previous` when there is one and removed otherwise; no other
   * variable is touched.
   */
  function Unset(env: map<string, string>, name: string, previous: Option<string>): (r: map<string, string>)
    ensures Get(r, name) == previous
    ensures forall k :: k != name ==> Get(r, k) == Get(env, k)
  {
    var removed := if name in env then env - {name} else env;
    if previous.Some? then removed[name := previous.value] else removed
  }

  /**
   * Saving a variable, overriding it, and then unsetting it with the saved
   * value gives back the environment as it was.
   */
  lemma UnsetUndoesOverride(env: map<string, string>, name: string, v: string)
    ensures Unset(env[name := v], name, Get(env, name)) == env
  {
    var r := Unset(env[name := v], name, Get(env, name));
    assert forall k :: k in r <==> k in env by {
      forall k ensures k in r <==> k in env {
        assert Get(r, k).Some? == (k in r);
      }
    }
    forall k | k in r ensures r[k] == env[k] {
      assert Get(r, k) == Some(r[k]);
    }
  }

  /** Unsetting twice with the same saved value is the same as unsetting once. */
  lemma UnsetIdempotent(env: map<string, string>, name: string, previous: Option<string>)
    ensures Unset(Unset(env, name, previous), name, previous) == Unset(env, name, previous)
  {
    var once := Unset(env, name, previous);
    var twice := Unset(once, name, previous);
    forall k ensures Get(twice, k) == Get(once, k) { }
    assert forall k :: k in twice <==> k in once by {
      forall k ensures k in twice <==> k in once {
        assert Get(twice, k).Some? == (k in twice);
        assert Get(once, k).Some? == (k in once);
      }
    }
    forall k | k in twice ensures twice[k] == once[k] {
      assert Get(twice, k) == Some(twice[k]);
    }
  }

  /** The environment of the running process. */
  class Environment {
    var vars: map<string, string>

    constructor (initial: map<string, string>)
      ensures vars == initial
    {
      vars := initial;
    }

    /** Deletes `name` if it is set, then sets it to `previous` if there is one. */
    method UnsetEnvVar(name: string, previous: Option<string>)
      modifies this
      ensures vars == Unset(old(vars), name, previous)
    {
      if name in vars {
        vars := vars - {name};
      }
      if previous.Some? {
        vars := vars[name := previous.value];
      }
    }
  }
}
