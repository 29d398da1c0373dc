/**
 * The script environment table of pppd/main.c: add_script_env,
 * remove_script_env, ppp_script_setenv, ppp_script_unsetenv and
 * update_script_environment. `script_env` is a NULL-terminated, growable
 * array of "NAME=VALUE" strings, each preceded by a hidden byte saying
 * whether it is a database key; `s_env_nalloc` is its capacity in words.
 */
module ScriptEnv {
  import opened Common

  /** One script_env word: the hidden key byte and the "NAME=VALUE" text after it. */
  datatype EnvString = EnvString(isKey: bool, text: string)

  /** One userenv option: `set NAME VALUE` (isSet) or `unset NAME`. */
  datatype UserEnv = UserEnv(name: string, value: string, isSet: bool)

  /** Whether the malloc of the new string and the malloc/realloc of the table succeed. */
  datatype Alloc = Alloc(stringOk: bool, tableOk: bool)

  /** The text slprintf builds: "%s=%s". */
  function Setting(name: string, value: string): string {
    name + "=" + value
  }

  /** The match test `strncmp(p, name, strlen(name)) == 0 && p[strlen(name)] == '='`. */
  predicate Defines(text: string, name: string) {
    |name| < |text| && text[..|name|] == name && text[|name|] == '='
  }

  lemma SettingDefines(name: string, value: string)
    ensures Defines(Setting(name, value), name)
    ensures Setting(name, value)[|name| + 1..] == value
  {
    assert Setting(name, value)[..|name|] == name;
  }

  /** Where the scan over script_env stops: the first entry defining `name`, or the terminator. */
  function FindName(env: seq<EnvString>, name: string): (k: nat)
    ensures k <= |env|
    ensures forall j :: 0 <= j < k ==> !Defines(env[j].text, name)
    ensures k < |env| ==> Defines(env[k].text, name)
  {
    if env == [] || Defines(env[0].text, name) then 0 else 1 + FindName(env[1..], name)
  }

  /** FindName is the unique index with no definition before it and one at it (or none at all). */
  lemma FindNameIs(env: seq<EnvString>, name: string, k: nat)
    requires k <= |env|
    requires forall j :: 0 <= j < k ==> !Defines(env[j].text, name)
    requires k < |env| ==> Defines(env[k].text, name)
    ensures FindName(env, name) == k
  {
  }

  /** The value a script would read for `name`: the text after "NAME=" in the first defining entry. */
  function Lookup(env: seq<EnvString>, name: string): Option<string> {
    var k := FindName(env, name);
    if k < |env| then Some(env[k].text[|name| + 1..]) else None
  }

  /** The entries after setting `name` to the string `s`: replaced in place, else appended. */
  function SetSeq(env: seq<EnvString>, name: string, s: EnvString): seq<EnvString> {
    var k := FindName(env, name);
    if k < |env| then env[k := s] else env + [s]
  }

  /** The entries after removing the first one defining `name`. */
  function UnsetSeq(env: seq<EnvString>, name: string): seq<EnvString> {
    var k := FindName(env, name);
    if k < |env| then env[..k] + env[k + 1..] else env
  }

  /**
   * Setting a variable replaces its first definition at the same index and
   * touches no other entry, or appends when it was not defined; either way
   * the variable then reads back as the new value.
   */
  lemma SetProperties(env: seq<EnvString>, name: string, value: string, isKey: bool)
    ensures var s, k := EnvString(isKey, Setting(name, value)), FindName(env, name);
      && (k < |env| ==> SetSeq(env, name, s) == env[k := s])
      && (k == |env| ==> SetSeq(env, name, s) == env + [s])
      && Lookup(SetSeq(env, name, s), name) == Some(value)
  {
    var s, k := EnvString(isKey, Setting(name, value)), FindName(env, name);
    SettingDefines(name, value);
    var r := SetSeq(env, name, s);
    assert r[k] == s;
    assert forall j :: 0 <= j < k ==> r[j] == env[j];
    FindNameIs(r, name, k);
  }

  /**
   * Unsetting removes only the first definition and shifts the later
   * entries down in order; it leaves the entries alone when the name is
   * not defined.
   */
  lemma UnsetProperties(env: seq<EnvString>, name: string)
    ensures var k := FindName(env, name);
      && (k < |env| ==> |UnsetSeq(env, name)| == |env| - 1
                        && (forall j :: 0 <= j < k ==> UnsetSeq(env, name)[j] == env[j])
                        && (forall j :: k <= j < |env| - 1 ==> UnsetSeq(env, name)[j] == env[j + 1]))
      && (k == |env| ==> UnsetSeq(env, name) == env)
  {
    var k := FindName(env, name);
    if k < |env| {
      var r := UnsetSeq(env, name);
      assert r == env[..k] + env[k + 1..];
      forall j | k <= j < |env| - 1 ensures r[j] == env[j + 1] {
        assert r[j] == env[k + 1..][j - k];
      }
    }
  }

  /** Unsetting after setting is the same as unsetting: the set value leaves no trace. */
  lemma UnsetAfterSet(env: seq<EnvString>, name: string, value: string, isKey: bool)
    ensures UnsetSeq(SetSeq(env, name, EnvString(isKey, Setting(name, value))), name) == UnsetSeq(env, name)
  {
    var s, k := EnvString(isKey, Setting(name, value)), FindName(env, name);
    SettingDefines(name, value);
    var r := SetSeq(env, name, s);
    assert r[k] == s;
    assert forall j :: 0 <= j < k ==> r[j] == env[j];
    FindNameIs(r, name, k);
    if k < |env| {
      assert r[..k] == env[..k] && r[k + 1..] == env[k + 1..];
    } else {
      assert r[..k] == env;
    }
  }

  /** One step of update_script_environment on (entries, capacity). */
  function UpdateStep(env: seq<EnvString>, cap: int, ue: UserEnv, a: Alloc): (seq<EnvString>, int) {
    var k := FindName(env, ue.name);
    if ue.isSet then
      var s := EnvString(false, Setting(ue.name, ue.value));
      if !a.stringOk then (env, cap)
      else if k < |env| then (env[k := s], cap)
      else if |env| + 1 < cap then (env + [s], cap)
      else if a.tableOk then (env + [s], |env| + 17)
      else (env, cap)
    else (UnsetSeq(env, ue.name), cap)
  }

  /** update_script_environment: apply the userenv options in list order. */
  function UpdateAll(env: seq<EnvString>, cap: int, ues: seq<UserEnv>, allocs: seq<Alloc>): (seq<EnvString>, int)
    requires |allocs| == |ues|
    decreases |ues|
  {
    if ues == [] then (env, cap)
    else
      var next := UpdateStep(env, cap, ues[0], allocs[0]);
      UpdateAll(next.0, next.1, ues[1..], allocs[1..])
  }

  /**
   * Every option that was applied is visible afterwards: when the last
   * option for a name sets it and its string could be allocated and
   * stored, scripts see that value.
   */
  lemma UpdateStepSets(env: seq<EnvString>, cap: int, ue: UserEnv, a: Alloc)
    requires ue.isSet && a.stringOk && (FindName(env, ue.name) < |env| || |env| + 1 < cap || a.tableOk)
    ensures Lookup(UpdateStep(env, cap, ue, a).0, ue.name) == Some(ue.value)
    ensures UpdateStep(env, cap, ue, a).0 == SetSeq(env, ue.name, EnvString(false, Setting(ue.name, ue.value)))
  {
    SetProperties(env, ue.name, ue.value, false);
  }

  /** The script_env array, its capacity, and whether it has been allocated at all. */
  class ScriptEnvTable {
    /** script_env != NULL */
    var hasTable: bool
    /** The words of script_env; None is a NULL pointer. */
    var slots: array<Option<EnvString>>
    /** s_env_nalloc */
    var nalloc: int
    /** The strings before the NULL terminator. */
    ghost var Contents: seq<EnvString>

    /** The terminator is in place and the capacity exceeds the number of entries. */
    ghost predicate Valid()
      reads this, slots
    {
      if hasTable then
        && slots.Length == nalloc
        && |Contents| < nalloc
        && slots[|Contents|] == None
        && forall i :: 0 <= i < |Contents| ==> slots[i] == Some(Contents[i])
      else Contents == []
    }

    /** script_env starts out NULL. */
    constructor ()
      ensures Valid() && !hasTable && Contents == []
    {
      hasTable := false;
      slots := new Option<EnvString>[0];
      nalloc := 0;
      Contents := [];
    }

    /** The scan shared by the three callers: index of the first entry defining `name`, or of the NULL. */
    method IndexOf(name: string) returns (i: nat)
      requires Valid() && hasTable
      ensures i == FindName(Contents, name)
    {
      i := 0;
      while slots[i].Some? && !Defines(slots[i].value.text, name)
        invariant 0 <= i <= |Contents|
        invariant forall j :: 0 <= j < i ==> !Defines(Contents[j].text, name)
        decreases |Contents| - i
      {
        i := i + 1;
      }
    }

    /**
     * add_script_env(pos, s): store `s` in the terminator's slot, growing
     * the table to pos + 17 words first when fewer than two words remain;
     * a failed realloc leaves everything as it was.
     */
    method AddScriptEnv(pos: nat, s: EnvString, reallocOk: bool) returns (ok: bool)
      requires Valid() && hasTable && pos == |Contents|
      modifies this, slots
      ensures Valid() && hasTable
      ensures slots == old(slots) || fresh(slots)
      ensures ok <==> (pos + 1 < old(nalloc) || reallocOk)
      ensures Contents == if ok then old(Contents) + [s] else old(Contents)
      ensures nalloc == if pos + 1 < old(nalloc) || !ok then old(nalloc) else pos + 17
    {
      if pos + 1 >= nalloc {
        if !reallocOk {
          return false;
        }
        var na := new Option<EnvString>[pos + 17](_ => None);
        var j := 0;
        while j < slots.Length
          invariant 0 <= j <= slots.Length
          invariant forall m :: 0 <= m < j ==> na[m] == slots[m]
          modifies na
        {
          na[j] := slots[j];
          j := j + 1;
        }
        slots := na;
        nalloc := pos + 17;
      }
      slots[pos] := Some(s);
      slots[pos + 1] := None;
      Contents := Contents + [s];
      ok := true;
    }

    /** remove_script_env(pos): shift every later word, the NULL included, down by one. */
    method RemoveScriptEnv(pos: nat)
      requires Valid() && hasTable && pos < |Contents|
      modifies this`Contents, slots
      ensures Valid() && hasTable && slots == old(slots) && nalloc == old(nalloc)
      ensures Contents == old(Contents)[..pos] + old(Contents)[pos + 1..]
    {
      ShiftDown(pos, |Contents|);
      ghost var rest := Contents[..pos] + Contents[pos + 1..];
      forall m | 0 <= m < |rest|
        ensures slots[m] == Some(rest[m])
      {
        if m < pos {
          assert rest[m] == Contents[m];
        } else {
          assert rest[m] == Contents[m + 1];
        }
      }
      Contents := rest;
    }

    /** The copying loop of remove_script_env: move every word after `pos` down by one, up to and including the NULL at `n`. */
    method ShiftDown(pos: nat, ghost n: nat)
      requires pos < n < slots.Length && slots[n] == None
      requires forall j :: pos < j < n ==> slots[j].Some?
      modifies slots
      ensures forall m :: 0 <= m < pos ==> slots[m] == old(slots[m])
      ensures forall m :: pos <= m < n ==> slots[m] == old(slots[m + 1])
      ensures forall m :: n <= m < slots.Length ==> slots[m] == old(slots[m])
    {
      var i := pos;
      slots[i] := slots[i + 1];
      while slots[i].Some?
        invariant pos <= i < n
        invariant forall m :: 0 <= m < pos ==> slots[m] == old(slots[m])
        invariant forall m :: pos <= m <= i ==> slots[m] == old(slots[m + 1])
        invariant forall m :: i < m < slots.Length ==> slots[m] == old(slots[m])
        decreases n - i
      {
        i := i + 1;
        slots[i] := slots[i + 1];
      }
    }

    /**
     * ppp_script_setenv(name, value, isKey): replace the first NAME= entry
     * in place, or else append, allocating the first 16 words when there is
     * no table yet; `stringOk` and `tableOk` say whether the string and the
     * table allocation succeed, and any failure leaves the entries alone.
     */
    method Setenv(name: string, value: string, isKey: bool, stringOk: bool, tableOk: bool) returns (stored: bool)
      requires Valid()
      modifies this, slots
      ensures Valid()
      ensures stored <==> (stringOk &&
        if old(hasTable) then FindName(old(Contents), name) < |old(Contents)| || |old(Contents)| + 1 < old(nalloc) || tableOk
        else tableOk)
      ensures Contents == if stored then SetSeq(old(Contents), name, EnvString(isKey, Setting(name, value))) else old(Contents)
      ensures hasTable <==> old(hasTable) || (stringOk && tableOk)
      ensures !old(hasTable) && stored ==> nalloc == 16
      ensures old(hasTable) && stored && FindName(old(Contents), name) == |old(Contents)| && |old(Contents)| + 1 >= old(nalloc)
              ==> nalloc == |old(Contents)| + 17
      ensures old(hasTable) && (!stored || FindName(old(Contents), name) < |old(Contents)| || |old(Contents)| + 1 < old(nalloc))
              ==> nalloc == old(nalloc)
    {
      if !stringOk {
        return false;
      }
      var s := EnvString(isKey, Setting(name, value));
      var i := 0;
      if hasTable {
        i := IndexOf(name);
        if slots[i].Some? {
          slots[i] := Some(s);
          Contents := Contents[i := s];
          return true;
        }
      } else {
        if !tableOk {
          return false;
        }
        slots := new Option<EnvString>[16](_ => None);
        nalloc := 16;
        hasTable := true;
      }
      stored := AddScriptEnv(i, s, tableOk);
    }

    /** ppp_script_unsetenv(name): remove the first NAME= entry, if any. */
    method Unsetenv(name: string)
      requires Valid()
      modifies this, slots
      ensures Valid() && hasTable == old(hasTable) && nalloc == old(nalloc)
      ensures Contents == UnsetSeq(old(Contents), name)
    {
      if !hasTable {
        return;
      }
      var i := IndexOf(name);
      if slots[i].Some? {
        RemoveScriptEnv(i);
      }
    }

    /** The body of update_script_environment's loop for one userenv option. */
    method ApplyUserEnv(ue: UserEnv, a: Alloc)
      requires Valid() && hasTable
      modifies this, slots
      ensures Valid() && hasTable
      ensures slots == old(slots) || fresh(slots)
      ensures (Contents, nalloc) == UpdateStep(old(Contents), old(nalloc), ue, a)
    {
      var i := IndexOf(ue.name);
      if ue.isSet {
        if a.stringOk {
          var s := EnvString(false, Setting(ue.name, ue.value));
          if slots[i].Some? {
            slots[i] := Some(s);
            Contents := Contents[i := s];
          } else {
            var _ := AddScriptEnv(i, s, a.tableOk);
          }
        }
      } else if slots[i].Some? {
        RemoveScriptEnv(i);
      }
    }

    /**
     * update_script_environment: apply each userenv option in order, with
     * the hidden key byte cleared; `allocs` gives the outcome of each
     * option's allocations. The table must already exist.
     */
    method UpdateScriptEnvironment(userenv: seq<UserEnv>, allocs: seq<Alloc>)
      requires Valid() && hasTable && |allocs| == |userenv|
      modifies this, slots
      ensures Valid() && hasTable
      ensures (Contents, nalloc) == UpdateAll(old(Contents), old(nalloc), userenv, allocs)
    {
      var n := 0;
      while n < |userenv|
        invariant 0 <= n <= |userenv|
        invariant Valid() && hasTable
        invariant slots == old(slots) || fresh(slots)
        invariant UpdateAll(old(Contents), old(nalloc), userenv, allocs)
               == UpdateAll(Contents, nalloc, userenv[n..], allocs[n..])
      {
        assert userenv[n..][1..] == userenv[n + 1..] && allocs[n..][1..] == allocs[n + 1..];
        ApplyUserEnv(userenv[n], allocs[n]);
        n := n + 1;
      }
    }
  }
}
