/**
 * `useConfig(key, defaultValue)`: a local mirror of one host config entry.
 *
 * The state is `value`, `loading`, `error` and the tool id held in a ref
 * (empty until the resolving effect has run). The pure functions below give
 * the state each operation ends in; the class `ConfigHook` performs the
 * same operations step by step on its fields and is proved to end in
 * exactly those states. `defaultValue` is `Undefined` when the caller omits
 * it.
 */
module Config {
  import opened Js
  import opened Bridge
  import ToolIds

  datatype ConfigState = ConfigState(value: Value, loading: bool, error: Option<Error>, toolId: string)

  /** The state on first render: the default (or null), loading, no error, no id yet. */
  function Initial(defaultValue: Value): (s: ConfigState)
    ensures s.value == DefaultOrNull(defaultValue) && s.loading && s.error == None && s.toolId == ""
  {
    ConfigState(DefaultOrNull(defaultValue), true, None, "")
  }

  /** The id-resolving effect: only the ref changes, and it is never empty afterwards. */
  function Resolved(s: ConfigState, href: string, injected: Option<string>): (r: ConfigState)
    ensures r.toolId != ""
    ensures r.toolId == ToolIds.ConfigToolId(href, injected)
    ensures r.value == s.value && r.loading == s.loading && r.error == s.error
  {
    s.(toolId := ToolIds.ConfigToolId(href, injected))
  }

  /** `refresh()` against a host answer `fetched`. Skipped (nothing changes)
      while the id is empty. Otherwise it ends not loading; a value from the
      host is kept unless it is null or undefined, in which case (and when
      the bridge lacks the call) the default, or null, takes its place; a
      host failure is recorded and leaves the value as it was. It never
      throws. */
  function Refreshed(s: ConfigState, defaultValue: Value, fetched: Call<Value>): (r: ConfigState)
    ensures s.toolId == "" ==> r == s
    ensures s.toolId != "" ==> !r.loading && r.toolId == s.toolId
    ensures s.toolId != "" ==> (r.error.None? <==> !fetched.Err?)
    ensures s.toolId != "" && fetched.Err? ==> r.value == s.value && r.error == Some(fetched.error)
    ensures s.toolId != "" && fetched.Ok? && !Nullish(fetched.value) ==> r.value == fetched.value
    ensures s.toolId != "" && (fetched.Absent? || (fetched.Ok? && Nullish(fetched.value))) ==> r.value == DefaultOrNull(defaultValue)
  {
    if s.toolId == "" then s
    else
      match fetched
      case Absent => s.(value := Coalesce(Undefined, DefaultOrNull(defaultValue)), loading := false, error := None)
      case Ok(result) => s.(value := Coalesce(result, DefaultOrNull(defaultValue)), loading := false, error := None)
      case Err(e) => s.(loading := false, error := Some(e))
  }

  /** `setValue(newValue)`: skipped while the id is empty; on success the
      value becomes exactly `newValue`; on failure the error is recorded and
      the value kept. `loading` is never touched, and a success does not
      clear an earlier error. */
  function ValueSet(s: ConfigState, newValue: Value, outcome: Call<()>): (r: ConfigState)
    ensures r.loading == s.loading && r.toolId == s.toolId
    ensures s.toolId == "" ==> r == s
    ensures s.toolId != "" && !outcome.Err? ==> r.value == newValue && r.error == s.error
    ensures s.toolId != "" && outcome.Err? ==> r.value == s.value && r.error == Some(outcome.error)
  {
    if s.toolId == "" then s
    else if outcome.Err? then s.(error := Some(outcome.error))
    else s.(value := newValue)
  }

  /** `deleteValue()`: as `setValue`, but a success resets the value to the
      default, or null. */
  function ValueDeleted(s: ConfigState, defaultValue: Value, outcome: Call<()>): (r: ConfigState)
    ensures r.loading == s.loading && r.toolId == s.toolId
    ensures s.toolId == "" ==> r == s
    ensures s.toolId != "" && !outcome.Err? ==> r.value == DefaultOrNull(defaultValue) && r.error == s.error
    ensures s.toolId != "" && outcome.Err? ==> r.value == s.value && r.error == Some(outcome.error)
  {
    if s.toolId == "" then s
    else if outcome.Err? then s.(error := Some(outcome.error))
    else s.(value := DefaultOrNull(defaultValue))
  }

  /** How `setValue` and `deleteValue` end for their caller: a host failure
      is rethrown, anything else resolves. */
  function WriteCompletion(s: ConfigState, outcome: Call<()>): (c: Completion<()>)
    ensures c.Throws? <==> s.toolId != "" && outcome.Err?
    ensures c.Throws? ==> c.error == outcome.error
  {
    if s.toolId != "" && outcome.Err? then Throws(outcome.error) else Returns(())
  }

  /** The call a config operation addresses to the bridge: none while the id
      is empty, otherwise one scoped to the stored id and the hook's key. */
  function ConfigRequest(s: ConfigState, request: HostRequest): (r: Option<HostRequest>)
    ensures r.Some? <==> s.toolId != ""
    ensures r.Some? ==> r.value == request
  {
    if s.toolId == "" then None else Some(request)
  }

  /**
   * The hook instance. `value`, `loading` and `error` are its `useState`
   * slots; `toolId` is `toolIdRef.current`.
   */
  class ConfigHook {
    const key: string
    const defaultValue: Value
    var value: Value
    var loading: bool
    var error: Option<Error>
    var toolId: string

    function State(): ConfigState
      reads this
    {
      ConfigState(value, loading, error, toolId)
    }

    constructor (key: string, defaultValue: Value)
      ensures this.key == key && this.defaultValue == defaultValue
      ensures State() == Initial(defaultValue)
    {
      this.key := key;
      this.defaultValue := defaultValue;
      value := DefaultOrNull(defaultValue);
      loading := true;
      error := None;
      toolId := "";
    }

    /** The first effect: read the URL, else the injected global, else "unknown". */
    method ResolveToolId(href: string, injected: Option<string>)
      modifies this`toolId
      ensures State() == Resolved(old(State()), href, injected)
      ensures toolId != ""
    {
      var found := ToolIds.ScanToolId(href);
      if found.Some? {
        toolId := found.value;
      } else {
        toolId := ToolIds.InjectedOrUnknown(injected);
      }
    }

    method Refresh(fetched: Call<Value>) returns (request: Option<HostRequest>)
      modifies this`value, this`loading, this`error
      ensures State() == Refreshed(old(State()), defaultValue, fetched)
      ensures request == ConfigRequest(old(State()), GetToolConfig(toolId, key))
    {
      if toolId == "" {
        return None;
      }
      loading := true;
      error := None;
      request := Some(GetToolConfig(toolId, key));
      match fetched {
        case Absent =>
          value := Coalesce(Undefined, DefaultOrNull(defaultValue));
        case Ok(result) =>
          value := Coalesce(result, DefaultOrNull(defaultValue));
        case Err(e) =>
          error := Some(e);
      }
      loading := false;
    }

    /** Mounting: the id effect runs, then the effect that calls `refresh`,
        which is therefore never skipped. */
    method Mount(href: string, injected: Option<string>, fetched: Call<Value>) returns (request: HostRequest)
      modifies this
      ensures State() == Refreshed(Resolved(old(State()), href, injected), defaultValue, fetched)
      ensures toolId != "" && !loading
      ensures request == GetToolConfig(toolId, key)
    {
      ResolveToolId(href, injected);
      var issued := Refresh(fetched);
      request := issued.value;
    }

    method SetValue(newValue: Value, outcome: Call<()>) returns (request: Option<HostRequest>, completion: Completion<()>)
      modifies this`value, this`error
      ensures State() == ValueSet(old(State()), newValue, outcome)
      ensures request == ConfigRequest(old(State()), SetToolConfig(toolId, key, newValue))
      ensures completion == WriteCompletion(old(State()), outcome)
    {
      if toolId == "" {
        return None, Returns(());
      }
      request := Some(SetToolConfig(toolId, key, newValue));
      if outcome.Err? {
        error := Some(outcome.error);
        completion := Throws(outcome.error);
      } else {
        value := newValue;
        completion := Returns(());
      }
    }

    method DeleteValue(outcome: Call<()>) returns (request: Option<HostRequest>, completion: Completion<()>)
      modifies this`value, this`error
      ensures State() == ValueDeleted(old(State()), defaultValue, outcome)
      ensures request == ConfigRequest(old(State()), DeleteToolConfig(toolId, key))
      ensures completion == WriteCompletion(old(State()), outcome)
    {
      if toolId == "" {
        return None, Returns(());
      }
      request := Some(DeleteToolConfig(toolId, key));
      if outcome.Err? {
        error := Some(outcome.error);
        completion := Throws(outcome.error);
      } else {
        value := DefaultOrNull(defaultValue);
        completion := Returns(());
      }
    }
  }

  // ---------------------------------------------------------------------
  // Properties of sequences of operations
  // ---------------------------------------------------------------------

  /** The empty-id guards only skip calls made before the id effect: from
      the initial state every operation is a no-op, and after resolution
      (whatever the URL and the injected global) the id is set and each
      operation takes effect. */
  lemma GuardsSkipOnlyBeforeResolution(defaultValue: Value, href: string, injected: Option<string>, v: Value, fetched: Call<Value>, outcome: Call<()>)
    ensures Refreshed(Initial(defaultValue), defaultValue, fetched) == Initial(defaultValue)
    ensures ValueSet(Initial(defaultValue), v, outcome) == Initial(defaultValue)
    ensures ValueDeleted(Initial(defaultValue), defaultValue, outcome) == Initial(defaultValue)
    ensures var s := Resolved(Initial(defaultValue), href, injected);
      && s.toolId != ""
      && !Refreshed(s, defaultValue, fetched).loading
      && ValueSet(s, v, Ok(())).value == v
      && ValueDeleted(s, defaultValue, Ok(())).value == DefaultOrNull(defaultValue)
  {
  }

  /** Mounting with a default of 42 against a host that answers null
      settles at value 42, not loading, no error. */
  lemma DefaultReplacesNullAnswer(href: string, injected: Option<string>)
    ensures var s := Refreshed(Resolved(Initial(Num(42)), href, injected), Num(42), Ok(Null));
      s.value == Num(42) && !s.loading && s.error == None
  {
  }

  /** `??` rather than `||`: a host answer of false, 0 or "" is kept even
      when a default is supplied. */
  lemma FalsyAnswersAreKept(s: ConfigState, defaultValue: Value, answer: Value)
    requires s.toolId != ""
    requires answer == Bool(false) || answer == Num(0) || answer == Str("")
    ensures Refreshed(s, defaultValue, Ok(answer)).value == answer
  {
  }

  /** An in-memory host store, keyed by tool id and key. */
  function Lookup(store: map<(string, string), Value>, toolId: string, key: string): Value {
    if (toolId, key) in store then store[(toolId, key)] else Undefined
  }

  /** Write-then-read round trip against an in-memory store: after a
      successful `setValue(v)` a `refresh` settles at `v` exactly when `v`
      is not null/undefined or already equals the default-or-null; a
      nullish `v` otherwise comes back as the default. */
  lemma SetThenRefresh(s: ConfigState, key: string, defaultValue: Value, v: Value, store: map<(string, string), Value>)
    requires s.toolId != ""
    ensures var written := store[(s.toolId, key) := v];
      var after := Refreshed(ValueSet(s, v, Ok(())), defaultValue, Ok(Lookup(written, s.toolId, key)));
      && (after.value == v <==> !Nullish(v) || v == DefaultOrNull(defaultValue))
      && (Nullish(v) ==> after.value == DefaultOrNull(defaultValue))
      && !after.loading && after.error == None
  {
    var written := store[(s.toolId, key) := v];
    assert Lookup(written, s.toolId, key) == v;
  }

  /** After a successful `deleteValue` against an in-memory store, a
      `refresh` finds nothing and leaves the value at the default-or-null
      that the delete already put there. */
  lemma DeleteThenRefresh(s: ConfigState, key: string, defaultValue: Value, store: map<(string, string), Value>)
    requires s.toolId != ""
    ensures var erased := store - {(s.toolId, key)};
      var deleted := ValueDeleted(s, defaultValue, Ok(()));
      var after := Refreshed(deleted, defaultValue, Ok(Lookup(erased, s.toolId, key)));
      deleted.value == DefaultOrNull(defaultValue) && after.value == deleted.value
  {
    var erased := store - {(s.toolId, key)};
    assert (s.toolId, key) !in erased;
  }

  /** A failing operation of any kind never changes the value, and a
      failing write leaves `loading` alone (only `refresh` touches it). */
  lemma FailuresKeepTheValue(s: ConfigState, defaultValue: Value, v: Value, e: Error)
    ensures Refreshed(s, defaultValue, Err(e)).value == s.value
    ensures ValueSet(s, v, Err(e)).value == s.value
    ensures ValueDeleted(s, defaultValue, Err(e)).value == s.value
    ensures ValueSet(s, v, Err(e)).loading == s.loading && ValueDeleted(s, defaultValue, Err(e)).loading == s.loading
    ensures s.toolId != "" ==>
              && Refreshed(s, defaultValue, Err(e)).error == Some(e)
              && ValueSet(s, v, Err(e)).error == Some(e)
              && ValueDeleted(s, defaultValue, Err(e)).error == Some(e)
  {
  }
}
