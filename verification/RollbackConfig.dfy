/**
 The configuration a rollback restarts with (capture_previous_config, start_process and the
 capture block of both installers): the previous process's environment is parsed, checked,
 committed all at once or not at all, and rendered again for the restart.
 */
module RollbackConfig {
  import opened Options

  type Config = map<string, string>

  // The managed keys in the order of the script; the first `required` must be set and not empty.
  datatype Role = Role(keys: seq<string>, required: nat)

  const SERVICE := Role(
    ["TUNNEL_SERVER_URL", "TUNNEL_USERNAME", "TUNNEL_PASSWORD", "TCP_TUNNEL_HOST",
     "TCP_CLIENT_ALLOWED_HOSTS", "TCP_CONNECT_TIMEOUT_MS", "TARGET_ORIGIN", "MAX_CONCURRENT_STREAMS",
     "STREAM_IDLE_TIMEOUT_MS", "DRAIN_TIMEOUT_MS", "WS_HIGH_WATER_BYTES", "MAX_FRAME_PAYLOAD_BYTES",
     "LOCAL_REQUEST_TIMEOUT_MS", "VERBOSE", "LOG_FORMAT"], 4)

  const APPLICATION := Role(
    ["TUNNEL_SERVER_URL", "AGENT_USERNAME", "AGENT_PASSWORD", "AGENT_PORTS", "AGENT_BIND_HOST",
     "WS_HIGH_WATER_BYTES", "AGENT_RECONNECT_DELAY_MS", "VERBOSE", "LOG_FORMAT"], 5)

  /** Keys are distinct, and none contains an equals sign. */
  predicate KeysOk(keys: seq<string>) {
    && (forall i, j :: 0 <= i < j < |keys| ==> keys[i] != keys[j])
    && (forall i :: 0 <= i < |keys| ==> '=' !in keys[i])
  }

  predicate RoleOk(role: Role) {
    KeysOk(role.keys) && role.required <= |role.keys|
  }

  // ---------------------------------------------------------------------------
  // Reading an environment
  // ---------------------------------------------------------------------------

  /** The pattern KEY=*. */
  predicate Assigns(entry: string, key: string) {
    |key| < |entry| && entry[..|key|] == key && entry[|key|] == '='
  }

  /** ${entry#KEY=} */
  function ValueOf(entry: string, key: string): string
    requires Assigns(entry, key)
  {
    entry[|key| + 1..]
  }

  /** The branch of the case statement that takes the entry. */
  function CaseOf(entry: string, keys: seq<string>): Option<string> {
    if keys == [] then None
    else if Assigns(entry, keys[0]) then Some(keys[0])
    else CaseOf(entry, keys[1..])
  }

  lemma {:induction false} CaseAssigns(entry: string, keys: seq<string>)
    ensures CaseOf(entry, keys).Some? ==> CaseOf(entry, keys).value in keys && Assigns(entry, CaseOf(entry, keys).value)
    ensures CaseOf(entry, keys).None? ==> forall k :: k in keys ==> !Assigns(entry, k)
  {
    if keys != [] {
      CaseAssigns(entry, keys[1..]);
      assert keys == [keys[0]] + keys[1..];
    }
  }

  function Take(c: Config, entry: string, keys: seq<string>): Config {
    var k := CaseOf(entry, keys);
    CaseAssigns(entry, keys);
    if k.Some? then c[k.value := ValueOf(entry, k.value)] else c
  }

  /** What the entries set among the managed keys; a later entry wins. */
  function Collect(entries: seq<string>, keys: seq<string>): Config {
    if entries == [] then map[] else Take(Collect(entries[..|entries| - 1], keys), entries[|entries| - 1], keys)
  }

  /** Every required key is there and not empty. */
  predicate Complete(c: Config, role: Role)
    requires role.required <= |role.keys|
  {
    forall i :: 0 <= i < role.required ==> role.keys[i] in c && c[role.keys[i]] != ""
  }

  // ---------------------------------------------------------------------------
  // Writing one
  // ---------------------------------------------------------------------------

  function Assignment(key: string, value: string): string {
    key + "=" + value
  }

  /** The env_args for the managed keys that are set, in order. */
  function Render(c: Config, keys: seq<string>): seq<string> {
    if keys == [] then []
    else
      var n := |keys| - 1;
      Render(c, keys[..n]) + if keys[n] in c then [Assignment(keys[n], c[keys[n]])] else []
  }

  // ---------------------------------------------------------------------------
  // Round trip
  // ---------------------------------------------------------------------------

  lemma AssignmentAssigns(key: string, value: string)
    ensures Assigns(Assignment(key, value), key) && ValueOf(Assignment(key, value), key) == value
  {
  }

  /** An entry assigns at most one key that contains no equals sign. */
  lemma AssignsOne(entry: string, a: string, b: string)
    requires Assigns(entry, a) && Assigns(entry, b) && '=' !in a && '=' !in b
    ensures a == b
  {
    if |a| < |b| {
      EqualsInside(entry, a, b);
    } else if |b| < |a| {
      EqualsInside(entry, b, a);
    }
  }

  lemma EqualsInside(entry: string, short: string, long: string)
    requires Assigns(entry, short) && Assigns(entry, long) && |short| < |long|
    ensures '=' in long
  {
    assert long[|short|] == entry[..|long|][|short|] == '=';
  }

  /** Taking one entry sets exactly the key it assigns. */
  lemma TakeSets(c: Config, entry: string, keys: seq<string>, k: string)
    requires KeysOk(keys) && k in keys
    ensures Assigns(entry, k) ==> Take(c, entry, keys) == c[k := ValueOf(entry, k)]
    ensures !Assigns(entry, k) ==>
      (k in Take(c, entry, keys) <==> k in c) && (k in c ==> Take(c, entry, keys)[k] == c[k])
  {
    CaseAssigns(entry, keys);
    if Assigns(entry, k) {
      AssignsOne(entry, k, CaseOf(entry, keys).value);
    }
  }

  /** The last entry that assigns k decides; without one k is absent. */
  lemma {:induction false} CollectIsLast(entries: seq<string>, keys: seq<string>, k: string)
    requires KeysOk(keys) && k in keys
    ensures k in Collect(entries, keys) <==> exists i :: 0 <= i < |entries| && Assigns(entries[i], k)
    ensures forall i :: 0 <= i < |entries| && Assigns(entries[i], k)
                        && (forall j :: i < j < |entries| ==> !Assigns(entries[j], k)) ==>
      k in Collect(entries, keys) && Collect(entries, keys)[k] == ValueOf(entries[i], k)
  {
    if entries != [] {
      var n := |entries| - 1;
      CollectIsLast(entries[..n], keys, k);
      TakeSets(Collect(entries[..n], keys), entries[n], keys, k);
    }
  }

  lemma {:induction false} CollectKeys(entries: seq<string>, keys: seq<string>)
    ensures forall k :: k in Collect(entries, keys) ==> k in keys
  {
    if entries != [] {
      CollectKeys(entries[..|entries| - 1], keys);
      CaseAssigns(entries[|entries| - 1], keys);
    }
  }

  /** Entries that assign no managed key change nothing. */
  lemma {:induction false} CollectForeign(entries: seq<string>, more: seq<string>, keys: seq<string>)
    requires forall i :: 0 <= i < |more| ==> CaseOf(more[i], keys).None?
    ensures Collect(entries + more, keys) == Collect(entries, keys)
  {
    if more == [] {
      assert entries + more == entries;
    } else {
      var n := |more| - 1;
      assert (entries + more)[..|entries + more| - 1] == entries + more[..n];
      CollectForeign(entries, more[..n], keys);
    }
  }

  /** What is rendered for the first n keys is read back as the configuration on those keys. */
  lemma {:induction false} RenderCollects(c: Config, keys: seq<string>, n: nat)
    requires KeysOk(keys) && n <= |keys|
    ensures Collect(Render(c, keys[..n]), keys) == Restrict(c, keys[..n])
  {
    if n == 0 {
      assert keys[..0] == [];
    } else {
      assert keys[..n][..n - 1] == keys[..n - 1];
      RenderCollects(c, keys, n - 1);
      RestrictLast(c, keys[..n]);
      if keys[n - 1] in c {
        RenderLast(c, keys, n);
      } else {
        assert Render(c, keys[..n]) == Render(c, keys[..n - 1]);
      }
    }
  }

  function Restrict(c: Config, keys: seq<string>): Config {
    map k | k in c && k in keys :: c[k]
  }

  lemma RestrictLast(c: Config, keys: seq<string>)
    requires keys != []
    ensures var k := keys[|keys| - 1];
            Restrict(c, keys) ==
            if k in c then Restrict(c, keys[..|keys| - 1])[k := c[k]] else Restrict(c, keys[..|keys| - 1])
  {
    assert keys == keys[..|keys| - 1] + [keys[|keys| - 1]];
  }

  lemma RenderLast(c: Config, keys: seq<string>, n: nat)
    requires KeysOk(keys) && 0 < n <= |keys| && keys[n - 1] in c
    ensures var k := keys[n - 1];
            Collect(Render(c, keys[..n]), keys) == Collect(Render(c, keys[..n - 1]), keys)[k := c[k]]
  {
    var k := keys[n - 1];
    var front := Render(c, keys[..n - 1]);
    assert keys[..n][..n - 1] == keys[..n - 1];
    assert Render(c, keys[..n]) == front + [Assignment(k, c[k])];
    assert (front + [Assignment(k, c[k])])[..|front|] == front;
    AssignmentAssigns(k, c[k]);
    TakeSets(Collect(front, keys), Assignment(k, c[k]), keys, k);
  }

  /**
   The round trip: whatever environment was captured, the environment of the restart equals
   it on the managed keys, absent optional keys included, whatever else is added to it.
   */
  lemma RestartEqualsCaptured(environ: seq<string>, role: Role, extras: seq<string>)
    requires RoleOk(role) && forall i :: 0 <= i < |extras| ==> CaseOf(extras[i], role.keys).None?
    ensures var c := Collect(environ, role.keys);
            Collect(Render(c, role.keys) + extras, role.keys) == c
  {
    var c := Collect(environ, role.keys);
    CollectForeign(Render(c, role.keys), extras, role.keys);
    RenderCollects(c, role.keys, |role.keys|);
    assert role.keys[..|role.keys|] == role.keys;
    CollectKeys(environ, role.keys);
  }

  // ---------------------------------------------------------------------------
  // The code
  // ---------------------------------------------------------------------------

  datatype Mode = Previous | Current

  // `environ`: the entries of /proc/<pid>/environ, if it can be read.
  class RollbackState {
    const role: Role
    var oldConfig: Config                  // OLD_* and OLD_*_SET
    var captured: bool                     // PREVIOUS_CONFIG_CAPTURED
    var mode: Option<Mode>                 // ROLLBACK_CONFIG_MODE

    ghost predicate Valid()
      reads this
    {
      RoleOk(role) && (mode == Some(Previous) ==> captured && Complete(oldConfig, role))
    }

    constructor (role: Role)
      requires RoleOk(role)
      ensures Valid() && this.role == role && oldConfig == map[] && !captured && mode == None
    {
      this.role := role;
      oldConfig, captured, mode := map[], false, None;
    }

    // reset_previous_config_state
    method Reset()
      requires RoleOk(role)
      modifies this
      ensures Valid() && oldConfig == map[] && !captured && mode == None
    {
      oldConfig, captured, mode := map[], false, None;
    }

    // The parsing loop of capture_previous_config
    method Parse(environ: seq<string>) returns (c: Config)
      ensures c == Collect(environ, role.keys)
    {
      c := map[];
      for n := 0 to |environ|
        invariant c == Collect(environ[..n], role.keys)
      {
        assert environ[..n + 1][..n] == environ[..n];
        c := Take(c, environ[n], role.keys);
      }
      assert environ[..|environ|] == environ;
    }

    // The checks for missing keys
    method IsComplete(c: Config) returns (complete: bool)
      requires RoleOk(role)
      ensures complete == Complete(c, role)
    {
      complete := true;
      for i := 0 to role.required
        invariant complete == forall j :: 0 <= j < i ==> role.keys[j] in c && c[role.keys[j]] != ""
      {
        if role.keys[i] !in c || c[role.keys[i]] == "" {
          complete := false;
        }
      }
    }

    // capture_previous_config: commits everything or changes nothing
    method Capture(pidKnown: bool, environ: Option<seq<string>>) returns (ok: bool)
      requires Valid()
      modifies this
      ensures Valid()
      ensures ok == (pidKnown ==> environ.Some? && Complete(Collect(environ.value, role.keys), role))
      ensures !ok || !pidKnown ==> oldConfig == old(oldConfig) && captured == old(captured) && mode == old(mode)
      ensures ok && pidKnown ==> oldConfig == Collect(environ.value, role.keys) && mode == Some(Previous)
    {
      if !pidKnown {
        return true;
      }
      if environ.None? {
        return false;
      }
      var c := Parse(environ.value);
      var complete := IsComplete(c);
      if !complete {
        return false;
      }
      Reset();
      oldConfig := c;
      captured := true;
      mode := Some(Previous);
      return true;
    }

    // The capture block of the main script; false when the installation dies there
    method Prepare(pidKnown: bool, environ: Option<seq<string>>, allowCodeOnly: bool) returns (goesOn: bool)
      requires RoleOk(role)
      modifies this
      ensures Valid()
      ensures var good := pidKnown && environ.Some? && Complete(Collect(environ.value, role.keys), role);
              && goesOn == (!pidKnown || good || allowCodeOnly)
              && (good ==> mode == Some(Previous) && oldConfig == Collect(environ.value, role.keys))
              && (!good ==> mode != Some(Previous) && oldConfig == map[])
    {
      mode := Some(Current);
      Reset();
      var ok := Capture(pidKnown, environ);
      if !ok {
        Reset();
        captured := false;
        mode := Some(Current);
        return allowCodeOnly;
      }
      return true;
    }

    // The env_args loop of start_process: OLD_* when restarting in mode previous, else current
    method RestartEnvironment(current: Config, extras: seq<string>) returns (env: seq<string>)
      requires Valid()
      ensures env == Render(if mode == Some(Previous) then oldConfig else current, role.keys) + extras
    {
      var source := if mode == Some(Previous) then oldConfig else current;
      env := [];
      for n := 0 to |role.keys|
        invariant env == Render(source, role.keys[..n])
      {
        var key := role.keys[n];
        assert role.keys[..n + 1][..n] == role.keys[..n];
        if key in source {
          env := env + [Assignment(key, source[key])];
        }
      }
      assert role.keys[..|role.keys|] == role.keys;
      env := env + extras;
    }
  }

  /**
   The rollback of a whole installation: with every required key captured, the restart has
   exactly the captured configuration; otherwise exactly the current one, never a mixture.
   */
  method Rollback(role: Role, pidKnown: bool, environ: Option<seq<string>>, allowCodeOnly: bool,
                  current: Config, extras: seq<string>)
    returns (env: Option<seq<string>>)
    requires RoleOk(role) && forall i :: 0 <= i < |extras| ==> CaseOf(extras[i], role.keys).None?
    requires forall k :: k in current <==> k in role.keys
    ensures var good := pidKnown && environ.Some? && Complete(Collect(environ.value, role.keys), role);
            && (env.None? <==> pidKnown && !good && !allowCodeOnly)
            && (env.Some? && good ==> Collect(env.value, role.keys) == Collect(environ.value, role.keys))
            && (env.Some? && !good ==> Collect(env.value, role.keys) == current)
  {
    hide Complete, Collect, CaseOf, Render;
    var state := new RollbackState(role);
    var goesOn := state.Prepare(pidKnown, environ, allowCodeOnly);
    if !goesOn {
      return None;
    }
    var args := state.RestartEnvironment(current, extras);
    if state.mode == Some(Previous) {
      RestartEqualsCaptured(environ.value, role, extras);
    } else {
      CollectForeign(Render(current, role.keys), extras, role.keys);
      RenderCollects(current, role.keys, |role.keys|);
      assert role.keys[..|role.keys|] == role.keys;
    }
    return Some(args);
  }

  // ---------------------------------------------------------------------------
  // The two roles
  // ---------------------------------------------------------------------------

  lemma PlainCredentials()
    ensures '=' !in "TUNNEL_SERVER_URL"
    ensures '=' !in "TUNNEL_USERNAME"
    ensures '=' !in "TUNNEL_PASSWORD"
    ensures '=' !in "TCP_TUNNEL_HOST"
    ensures '=' !in "AGENT_USERNAME"
    ensures '=' !in "AGENT_PASSWORD"
  {
  }

  lemma PlainTcpKeys()
    ensures '=' !in "TCP_CLIENT_ALLOWED_HOSTS"
    ensures '=' !in "TCP_CONNECT_TIMEOUT_MS"
    ensures '=' !in "TARGET_ORIGIN"
    ensures '=' !in "MAX_CONCURRENT_STREAMS"
    ensures '=' !in "STREAM_IDLE_TIMEOUT_MS"
  {
  }

  lemma PlainLimits()
    ensures '=' !in "DRAIN_TIMEOUT_MS"
    ensures '=' !in "WS_HIGH_WATER_BYTES"
    ensures '=' !in "MAX_FRAME_PAYLOAD_BYTES"
    ensures '=' !in "LOCAL_REQUEST_TIMEOUT_MS"
  {
  }

  lemma PlainAgentKeys()
    ensures '=' !in "AGENT_PORTS"
    ensures '=' !in "AGENT_BIND_HOST"
    ensures '=' !in "AGENT_RECONNECT_DELAY_MS"
    ensures '=' !in "VERBOSE"
    ensures '=' !in "LOG_FORMAT"
  {
  }

  lemma ApplicationDistinct()
    ensures forall i, j :: 0 <= i < j < |APPLICATION.keys| ==> APPLICATION.keys[i] != APPLICATION.keys[j]
  {
    assert APPLICATION.keys[1][6] == 'U' && APPLICATION.keys[2][6] == 'P';
  }

  lemma ServiceDistinct()
    ensures forall i, j :: 0 <= i < j < |SERVICE.keys| ==> SERVICE.keys[i] != SERVICE.keys[j]
  {
    var keys := SERVICE.keys;
    assert keys[1][7] == 'U' && keys[2][7] == 'P' && keys[3][1] == 'C' && keys[1][1] == keys[2][1] == 'U';
    assert keys[5][0] == 'T' && keys[7][0] == 'M' && keys[8][0] == 'S';
    assert keys[4][0] == 'T' && keys[12][0] == 'L';
  }

  predicate Set(c: Config, key: string) {
    key in c && c[key] != ""
  }

  /** The keys without which there is no previous configuration, by name. */
  lemma RequiredKeys(c: Config)
    ensures Complete(c, SERVICE) <==>
            Set(c, "TUNNEL_SERVER_URL") && Set(c, "TUNNEL_USERNAME") && Set(c, "TUNNEL_PASSWORD")
            && Set(c, "TCP_TUNNEL_HOST")
    ensures Complete(c, APPLICATION) <==>
            Set(c, "TUNNEL_SERVER_URL") && Set(c, "AGENT_USERNAME") && Set(c, "AGENT_PASSWORD")
            && Set(c, "AGENT_PORTS") && Set(c, "AGENT_BIND_HOST")
  {
    var s, a := SERVICE.keys, APPLICATION.keys;
    assert s[0] == "TUNNEL_SERVER_URL" && s[1] == "TUNNEL_USERNAME" && s[2] == "TUNNEL_PASSWORD";
    assert s[3] == "TCP_TUNNEL_HOST" && a[0] == "TUNNEL_SERVER_URL" && a[1] == "AGENT_USERNAME";
    assert a[2] == "AGENT_PASSWORD" && a[3] == "AGENT_PORTS" && a[4] == "AGENT_BIND_HOST";
  }

  /** Both installers' key lists are such roles. */
  lemma RolesOk()
    ensures RoleOk(SERVICE) && RoleOk(APPLICATION)
  {
    PlainCredentials();
    PlainTcpKeys();
    PlainLimits();
    PlainAgentKeys();
    ApplicationDistinct();
    ServiceDistinct();
  }
}
