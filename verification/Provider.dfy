/**
 * `ToolLifecycleProvider` and `useToolContext`
 * (src/components/ToolLifecycle.tsx).
 *
 * The provider holds the same mirrors as the hooks (theme, locale,
 * visibility, focus) and additionally reports every change to the
 * callbacks its caller supplied. The callbacks are modelled by which of
 * them were supplied and by the log `invoked` of the calls made to them.
 * Its actions (clipboard, notification, external link, config) change no
 * state and are methods that return the call they address to the bridge.
 */
module Provider {
  import opened Js
  import opened Types
  import opened Bridge
  import ToolIds

  /** Which of the optional callback props were supplied. */
  datatype Callbacks = Callbacks(
    onMount: bool, onUnmount: bool, onThemeChange: bool, onLanguageChange: bool, onVisibilityChange: bool)

  /** One call to a supplied callback, with its argument. */
  datatype CallbackCall =
    | MountCalled
    | UnmountCalled
    | ThemeCallback(theme: Theme)
    | LanguageCallback(locale: string)
    | VisibilityCallback(state: VisibilityState)

  /** `cb?.(x)`: the call recorded when the callback was supplied, nothing otherwise. */
  function IfSupplied(supplied: bool, call: CallbackCall): (calls: seq<CallbackCall>)
    ensures supplied ==> calls == [call]
    ensures !supplied ==> calls == []
  {
    if supplied then [call] else []
  }

  /** The data part of `ToolContextValue`; the bound actions are the
      read-only methods of `ToolLifecycleProvider`. */
  datatype ToolContextValue = ToolContextValue(
    toolId: string, theme: Theme, isDark: bool, locale: string, isVisible: bool, isFocused: bool)

  /** The context value built on each render: the state as it is, plus
      `isDark` derived from the theme. */
  function ContextValueOf(toolId: string, theme: Theme, locale: string, isVisible: bool, isFocused: bool): (c: ToolContextValue)
    ensures c.isDark <==> theme.mode == Dark
    ensures c.toolId == toolId && c.theme == theme && c.locale == locale
    ensures c.isVisible == isVisible && c.isFocused == isFocused
  {
    ToolContextValue(toolId, theme, IsDark(theme), locale, isVisible, isFocused)
  }

  const OutsideProviderMessage: string := "useToolContext must be used within a ToolLifecycleProvider"

  /** `useToolContext()`: `provided` is the nearest provider's value, if
      any. Without one it throws; with one it returns that value unchanged. */
  function UseToolContext(provided: Option<ToolContextValue>): (r: Completion<ToolContextValue>)
    ensures r.Throws? <==> provided.None?
    ensures r.Throws? ==> r.error == Error(OutsideProviderMessage)
    ensures r.Returns? ==> r.value == provided.value
  {
    match provided
    case None => Throws(Error(OutsideProviderMessage))
    case Some(value) => Returns(value)
  }

  /** The provider's mirrored state. */
  datatype MirrorState = MirrorState(theme: Theme, locale: string, isVisible: bool, isFocused: bool)

  /** What can happen to a mounted provider: an initial fetch answers, the
      host pushes a theme, a locale or a focus change, or the document
      reports a visibility change. */
  datatype ProviderEvent =
    | ThemeAnswer(themeAnswer: Call<Option<Theme>>)
    | LanguageAnswer(languageAnswer: Call<Option<string>>)
    | ThemePush(theme: Theme)
    | LanguagePush(locale: string)
    | VisibilityEvent(documentVisible: bool)
    | FocusPush(focused: bool)

  datatype Stepped = Stepped(mirror: MirrorState, calls: seq<CallbackCall>)

  /** The state after one event and the callback calls it makes: each
      event moves only the field it concerns, a fetch answer calls nothing,
      and a push calls at most the one callback of its kind. */
  function Step(callbacks: Callbacks, m: MirrorState, e: ProviderEvent): (r: Stepped)
    ensures |r.calls| <= 1
    ensures e.ThemeAnswer? || e.LanguageAnswer? ==> r.calls == []
    ensures !e.ThemeAnswer? && !e.ThemePush? ==> r.mirror.theme == m.theme
    ensures !e.LanguageAnswer? && !e.LanguagePush? ==> r.mirror.locale == m.locale
    ensures !e.VisibilityEvent? ==> r.mirror.isVisible == m.isVisible
    ensures !e.FocusPush? ==> r.mirror.isFocused == m.isFocused
    ensures e.ThemeAnswer? && AcceptedTheme(e.themeAnswer) ==> r.mirror.theme == e.themeAnswer.value.value
    ensures e.ThemeAnswer? && !AcceptedTheme(e.themeAnswer) ==> r.mirror == m
    ensures e.LanguageAnswer? && AcceptedLocale(e.languageAnswer) ==> r.mirror.locale == e.languageAnswer.value.value
    ensures e.LanguageAnswer? && !AcceptedLocale(e.languageAnswer) ==> r.mirror == m
    ensures e.ThemePush? ==> r.mirror.theme == e.theme
    ensures e.ThemePush? ==> r.calls == IfSupplied(callbacks.onThemeChange, ThemeCallback(e.theme))
    ensures e.LanguagePush? ==> r.mirror.locale == e.locale
    ensures e.LanguagePush? ==> r.calls == IfSupplied(callbacks.onLanguageChange, LanguageCallback(e.locale))
    ensures e.VisibilityEvent? ==> r.mirror.isVisible == e.documentVisible
    ensures e.VisibilityEvent? ==>
              r.calls == IfSupplied(callbacks.onVisibilityChange, VisibilityCallback(VisibilityState(e.documentVisible, m.isFocused)))
    ensures e.FocusPush? ==> r.mirror.isFocused == e.focused
    ensures e.FocusPush? ==>
              r.calls == IfSupplied(callbacks.onVisibilityChange, VisibilityCallback(VisibilityState(m.isVisible, e.focused)))
  {
    match e
    case ThemeAnswer(answer) =>
      Stepped(if AcceptedTheme(answer) then m.(theme := answer.value.value) else m, [])
    case LanguageAnswer(answer) =>
      Stepped(if AcceptedLocale(answer) then m.(locale := answer.value.value) else m, [])
    case ThemePush(t) =>
      Stepped(m.(theme := t), IfSupplied(callbacks.onThemeChange, ThemeCallback(t)))
    case LanguagePush(l) =>
      Stepped(m.(locale := l), IfSupplied(callbacks.onLanguageChange, LanguageCallback(l)))
    case VisibilityEvent(visible) =>
      Stepped(m.(isVisible := visible),
              IfSupplied(callbacks.onVisibilityChange, VisibilityCallback(VisibilityState(visible, m.isFocused))))
    case FocusPush(focused) =>
      Stepped(m.(isFocused := focused),
              IfSupplied(callbacks.onVisibilityChange, VisibilityCallback(VisibilityState(m.isVisible, focused))))
  }

  /** A sequence of events applied in order from `m`, with all the callback
      calls they make, oldest first. */
  function Replay(callbacks: Callbacks, m: MirrorState, events: seq<ProviderEvent>): (r: Stepped)
    ensures |r.calls| <= |events|
    ensures events == [] ==> r.mirror == m && r.calls == []
    ensures (forall i :: 0 <= i < |events| ==> events[i].ThemeAnswer? || events[i].LanguageAnswer?) ==> r.calls == []
    decreases |events|
  {
    if events == [] then Stepped(m, [])
    else
      var before := Replay(callbacks, m, events[..|events| - 1]);
      var last := Step(callbacks, before.mirror, events[|events| - 1]);
      Stepped(last.mirror, before.calls + last.calls)
  }

  /** No visibility event comes after position `i`. */
  predicate NoVisibilityAfter(events: seq<ProviderEvent>, i: int) {
    forall j :: 0 <= j < |events| && i < j ==> !events[j].VisibilityEvent?
  }

  /** No focus push comes after position `i`. */
  predicate NoFocusAfter(events: seq<ProviderEvent>, i: int) {
    forall j :: 0 <= j < |events| && i < j ==> !events[j].FocusPush?
  }

  /** The payload of the last visibility event, or `initial` when there is none. */
  function LastVisibility(events: seq<ProviderEvent>, initial: bool): (v: bool)
    ensures NoVisibilityAfter(events, -1) ==> v == initial
    ensures forall i :: 0 <= i < |events| && events[i].VisibilityEvent? && NoVisibilityAfter(events, i) ==>
                          v == events[i].documentVisible
    decreases |events|
  {
    if events == [] then initial
    else if events[|events| - 1].VisibilityEvent? then events[|events| - 1].documentVisible
    else
      var prefix := events[..|events| - 1];
      assert forall i :: -1 <= i < |prefix| && NoVisibilityAfter(events, i) ==> NoVisibilityAfter(prefix, i);
      LastVisibility(prefix, initial)
  }

  /** The payload of the last focus push, or `initial` when there is none. */
  function LastFocus(events: seq<ProviderEvent>, initial: bool): (f: bool)
    ensures NoFocusAfter(events, -1) ==> f == initial
    ensures forall i :: 0 <= i < |events| && events[i].FocusPush? && NoFocusAfter(events, i) ==>
                          f == events[i].focused
    decreases |events|
  {
    if events == [] then initial
    else if events[|events| - 1].FocusPush? then events[|events| - 1].focused
    else
      var prefix := events[..|events| - 1];
      assert forall i :: -1 <= i < |prefix| && NoFocusAfter(events, i) ==> NoFocusAfter(prefix, i);
      LastFocus(prefix, initial)
  }

  /** Visibility is set only by visibility events and focus only by focus
      pushes; for each, the last such event wins, whatever else happens in
      between. */
  lemma {:induction false} ReplayKeepsSourcesApart(callbacks: Callbacks, m: MirrorState, events: seq<ProviderEvent>)
    ensures Replay(callbacks, m, events).mirror.isVisible == LastVisibility(events, m.isVisible)
    ensures Replay(callbacks, m, events).mirror.isFocused == LastFocus(events, m.isFocused)
    decreases |events|
  {
    if events != [] {
      ReplayKeepsSourcesApart(callbacks, m, events[..|events| - 1]);
    }
  }

  /** The payloads of the theme pushes, in order. */
  function ThemePushes(events: seq<ProviderEvent>): seq<Theme>
    decreases |events|
  {
    if events == [] then []
    else ThemePushes(events[..|events| - 1]) + (if events[|events| - 1].ThemePush? then [events[|events| - 1].theme] else [])
  }

  /** The arguments `onThemeChange` was called with, in order. */
  function ThemeReports(calls: seq<CallbackCall>): seq<Theme>
    decreases |calls|
  {
    if calls == [] then []
    else ThemeReports(calls[..|calls| - 1]) + (if calls[|calls| - 1].ThemeCallback? then [calls[|calls| - 1].theme] else [])
  }

  lemma {:induction false} ThemeReportsAppend(a: seq<CallbackCall>, b: seq<CallbackCall>)
    ensures ThemeReports(a + b) == ThemeReports(a) + ThemeReports(b)
    decreases |b|
  {
    if b == [] {
      assert a + b == a;
    } else {
      var b' := b[..|b| - 1];
      assert (a + b)[..|a + b| - 1] == a + b';
      ThemeReportsAppend(a, b');
    }
  }

  lemma StepThemeReports(callbacks: Callbacks, m: MirrorState, e: ProviderEvent)
    ensures ThemeReports(Step(callbacks, m, e).calls) == if callbacks.onThemeChange && e.ThemePush? then [e.theme] else []
  {
    var calls := Step(callbacks, m, e).calls;
    if calls != [] {
      assert |calls| == 1 && calls[..0] == [];
    }
  }

  /** `onThemeChange`, when supplied, is called once per theme push with
      that push's payload, in order, and never for an initial fetch. */
  lemma {:induction false} ReplayReportsEachThemePush(callbacks: Callbacks, m: MirrorState, events: seq<ProviderEvent>)
    ensures ThemeReports(Replay(callbacks, m, events).calls) == if callbacks.onThemeChange then ThemePushes(events) else []
    decreases |events|
  {
    if events != [] {
      var prefix := events[..|events| - 1];
      var before := Replay(callbacks, m, prefix);
      var last := Step(callbacks, before.mirror, events[|events| - 1]);
      ReplayReportsEachThemePush(callbacks, m, prefix);
      ThemeReportsAppend(before.calls, last.calls);
      StepThemeReports(callbacks, before.mirror, events[|events| - 1]);
    }
  }

  /** No event calls `onMount` or `onUnmount`. */
  lemma {:induction false} ReplayNeverMountsOrUnmounts(callbacks: Callbacks, m: MirrorState, events: seq<ProviderEvent>)
    ensures MountCalled !in Replay(callbacks, m, events).calls
    ensures UnmountCalled !in Replay(callbacks, m, events).calls
    decreases |events|
  {
    if events != [] {
      ReplayNeverMountsOrUnmounts(callbacks, m, events[..|events| - 1]);
    }
  }

  /** All callback calls of one mount-to-unmount lifetime. */
  function LifetimeCalls(callbacks: Callbacks, m: MirrorState, events: seq<ProviderEvent>): seq<CallbackCall> {
    IfSupplied(callbacks.onMount, MountCalled) + Replay(callbacks, m, events).calls + IfSupplied(callbacks.onUnmount, UnmountCalled)
  }

  /** Over a lifetime, whatever happens in between, `onMount` is called
      first and once, and `onUnmount` last and once (each when supplied). */
  lemma MountAndUnmountOnce(callbacks: Callbacks, m: MirrorState, events: seq<ProviderEvent>)
    ensures multiset(LifetimeCalls(callbacks, m, events))[MountCalled] == if callbacks.onMount then 1 else 0
    ensures multiset(LifetimeCalls(callbacks, m, events))[UnmountCalled] == if callbacks.onUnmount then 1 else 0
    ensures callbacks.onMount ==> LifetimeCalls(callbacks, m, events)[0] == MountCalled
    ensures callbacks.onUnmount ==> LifetimeCalls(callbacks, m, events)[|LifetimeCalls(callbacks, m, events)| - 1] == UnmountCalled
  {
    ReplayNeverMountsOrUnmounts(callbacks, m, events);
    var first := IfSupplied(callbacks.onMount, MountCalled);
    var middle := Replay(callbacks, m, events).calls;
    var last := IfSupplied(callbacks.onUnmount, UnmountCalled);
    assert LifetimeCalls(callbacks, m, events) == first + middle + last;
    assert multiset(middle)[MountCalled] == 0 && multiset(middle)[UnmountCalled] == 0;
    assert multiset(first + middle + last) == multiset(first) + multiset(middle) + multiset(last);
  }

  class ToolLifecycleProvider {
    const toolId: string
    const callbacks: Callbacks
    const themeChannel: ListenerSlot
    const languageChannel: ListenerSlot
    const focusChannel: ListenerSlot
    const document: EventTarget
    var theme: Theme
    var locale: string
    var isVisible: bool
    var isFocused: bool
    /** The calls made to the supplied callbacks, oldest first. */
    var invoked: seq<CallbackCall>

    function Mirror(): MirrorState
      reads this
    {
      MirrorState(theme, locale, isVisible, isFocused)
    }

    /** The first render: the id from the prop, the injected global or
        "unknown"; the injected or the default theme; Chinese; visible and
        focused; no callback called yet. */
    constructor (propToolId: Option<string>, injectedToolId: Option<string>, injectedTheme: Option<Theme>,
                 callbacks: Callbacks, themeChannel: ListenerSlot, languageChannel: ListenerSlot,
                 focusChannel: ListenerSlot, document: EventTarget)
      ensures toolId == ToolIds.ProviderToolId(propToolId, injectedToolId) && toolId != ""
      ensures this.callbacks == callbacks
      ensures this.themeChannel == themeChannel && this.languageChannel == languageChannel
      ensures this.focusChannel == focusChannel && this.document == document
      ensures theme == InitialTheme(injectedTheme) && locale == "zh-CN"
      ensures isVisible && isFocused && invoked == []
    {
      toolId := ToolIds.ProviderToolId(propToolId, injectedToolId);
      this.callbacks := callbacks;
      this.themeChannel := themeChannel;
      this.languageChannel := languageChannel;
      this.focusChannel := focusChannel;
      this.document := document;
      theme := InitialTheme(injectedTheme);
      locale := DefaultLocale;
      isVisible := true;
      isFocused := true;
      invoked := [];
    }

    /** The four effects in order: ask for the theme and the locale and call
        `onMount`; register the theme handler; register the language
        handler; listen for `visibilitychange` and register the focus
        handler. The mirrored state is untouched until the answers arrive. */
    method Mount() returns (requests: seq<HostRequest>)
      modifies this`invoked, themeChannel, languageChannel, focusChannel, document
      ensures requests == [GetCurrentTheme, GetCurrentLanguage]
      ensures invoked == old(invoked) + IfSupplied(callbacks.onMount, MountCalled)
      ensures themeChannel.listener == if themeChannel.hasRegister then this else old(themeChannel.listener)
      ensures languageChannel.listener == if languageChannel.hasRegister then this else old(languageChannel.listener)
      ensures focusChannel.listener == if focusChannel.hasRegister then this else old(focusChannel.listener)
      ensures document.listeners == old(document.listeners) + {this}
    {
      requests := [GetCurrentTheme, GetCurrentLanguage];
      invoked := invoked + IfSupplied(callbacks.onMount, MountCalled);
      themeChannel.Register(this);
      languageChannel.Register(this);
      focusChannel.Register(this);
      document.AddEventListener(this);
    }

    /** The theme fetch's continuation: a truthy answer replaces the theme,
        without calling `onThemeChange`. */
    method ThemeFetched(answer: Call<Option<Theme>>)
      modifies this`theme
      ensures AcceptedTheme(answer) ==> theme == answer.value.value
      ensures !AcceptedTheme(answer) ==> theme == old(theme)
      ensures Mirror() == Step(callbacks, old(Mirror()), ThemeAnswer(answer)).mirror
      ensures invoked == old(invoked) + Step(callbacks, old(Mirror()), ThemeAnswer(answer)).calls
    {
      if AcceptedTheme(answer) {
        theme := answer.value.value;
      }
    }

    /** The locale fetch's continuation: a non-empty answer replaces the
        locale, without calling `onLanguageChange`. */
    method LanguageFetched(answer: Call<Option<string>>)
      modifies this`locale
      ensures AcceptedLocale(answer) ==> locale == answer.value.value
      ensures !AcceptedLocale(answer) ==> locale == old(locale)
      ensures Mirror() == Step(callbacks, old(Mirror()), LanguageAnswer(answer)).mirror
      ensures invoked == old(invoked) + Step(callbacks, old(Mirror()), LanguageAnswer(answer)).calls
    {
      if AcceptedLocale(answer) {
        locale := answer.value.value;
      }
    }

    /** A theme push: the theme becomes the payload and `onThemeChange` is
        called once with it. */
    method OnThemeChange(newTheme: Theme)
      modifies this`theme, this`invoked
      ensures theme == newTheme
      ensures invoked == old(invoked) + IfSupplied(callbacks.onThemeChange, ThemeCallback(newTheme))
      ensures Mirror() == Step(callbacks, old(Mirror()), ThemePush(newTheme)).mirror
      ensures invoked == old(invoked) + Step(callbacks, old(Mirror()), ThemePush(newTheme)).calls
    {
      theme := newTheme;
      invoked := invoked + IfSupplied(callbacks.onThemeChange, ThemeCallback(newTheme));
    }

    /** A language push: the locale becomes the payload and
        `onLanguageChange` is called once with it. */
    method OnLanguageChange(newLocale: string)
      modifies this`locale, this`invoked
      ensures locale == newLocale
      ensures invoked == old(invoked) + IfSupplied(callbacks.onLanguageChange, LanguageCallback(newLocale))
      ensures Mirror() == Step(callbacks, old(Mirror()), LanguagePush(newLocale)).mirror
      ensures invoked == old(invoked) + Step(callbacks, old(Mirror()), LanguagePush(newLocale)).calls
    {
      locale := newLocale;
      invoked := invoked + IfSupplied(callbacks.onLanguageChange, LanguageCallback(newLocale));
    }

    /** `visibilitychange`: only `isVisible` moves, and the report pairs the
        new visibility with the current focus. */
    method OnVisibilityChange(documentVisible: bool)
      modifies this`isVisible, this`invoked
      ensures isVisible == documentVisible && isFocused == old(isFocused)
      ensures invoked == old(invoked) + IfSupplied(callbacks.onVisibilityChange, VisibilityCallback(VisibilityState(documentVisible, old(isFocused))))
      ensures Mirror() == Step(callbacks, old(Mirror()), VisibilityEvent(documentVisible)).mirror
      ensures invoked == old(invoked) + Step(callbacks, old(Mirror()), VisibilityEvent(documentVisible)).calls
    {
      var visible := documentVisible;
      isVisible := visible;
      invoked := invoked + IfSupplied(callbacks.onVisibilityChange, VisibilityCallback(VisibilityState(visible, isFocused)));
    }

    /** A focus push: only `isFocused` moves, and the report pairs the
        current visibility with the new focus. */
    method OnFocusChange(focused: bool)
      modifies this`isFocused, this`invoked
      ensures isFocused == focused && isVisible == old(isVisible)
      ensures invoked == old(invoked) + IfSupplied(callbacks.onVisibilityChange, VisibilityCallback(VisibilityState(old(isVisible), focused)))
      ensures Mirror() == Step(callbacks, old(Mirror()), FocusPush(focused)).mirror
      ensures invoked == old(invoked) + Step(callbacks, old(Mirror()), FocusPush(focused)).calls
    {
      isFocused := focused;
      invoked := invoked + IfSupplied(callbacks.onVisibilityChange, VisibilityCallback(VisibilityState(isVisible, focused)));
    }

    /** The cleanups in order: call `onUnmount`, empty the theme, language
        and focus slots, stop listening for `visibilitychange`. */
    method Unmount()
      modifies this`invoked, themeChannel, languageChannel, focusChannel, document
      ensures invoked == old(invoked) + IfSupplied(callbacks.onUnmount, UnmountCalled)
      ensures themeChannel.listener == if themeChannel.hasRemove then null else old(themeChannel.listener)
      ensures languageChannel.listener == if languageChannel.hasRemove then null else old(languageChannel.listener)
      ensures focusChannel.listener == if focusChannel.hasRemove then null else old(focusChannel.listener)
      ensures document.listeners == old(document.listeners) - {this}
    {
      invoked := invoked + IfSupplied(callbacks.onUnmount, UnmountCalled);
      themeChannel.Remove();
      languageChannel.Remove();
      focusChannel.Remove();
      document.RemoveEventListener(this);
    }

    /** The value the provider passes down on the current render. */
    function Context(): (c: ToolContextValue)
      reads this
      ensures c.toolId == toolId && c.theme == theme && c.locale == locale
      ensures c.isDark <==> theme.mode == Dark
      ensures c.isVisible == isVisible && c.isFocused == isFocused
    {
      ContextValueOf(toolId, theme, locale, isVisible, isFocused)
    }

    /** `readClipboard()`: the content, or "" when the bridge is missing or
        answers with nothing or the empty string; a host failure propagates. */
    method ReadClipboard(outcome: Call<Option<string>>) returns (request: HostRequest, completion: Completion<string>)
      ensures request == HostRequest.ReadClipboard
      ensures outcome.Err? <==> completion.Throws?
      ensures outcome.Err? ==> completion.error == outcome.error
      ensures outcome.Absent? || outcome == Ok(None) ==> completion == Returns("")
      ensures outcome.Ok? && outcome.value.Some? ==> completion == Returns(outcome.value.value)
    {
      request := HostRequest.ReadClipboard;
      match outcome {
        case Err(e) => completion := Throws(e);
        case Absent => completion := Returns(ClipboardText(None));
        case Ok(content) => completion := Returns(ClipboardText(content));
      }
    }

    method WriteClipboard(text: string, outcome: Call<()>) returns (request: HostRequest, completion: Completion<()>)
      ensures request == HostRequest.WriteClipboard(text)
      ensures completion.Throws? <==> outcome.Err?
      ensures outcome.Err? ==> completion.error == outcome.error
    {
      request := HostRequest.WriteClipboard(text);
      completion := if outcome.Err? then Throws(outcome.error) else Returns(());
    }

    /** `showNotification(title, body)`: forwarded without options. */
    method ShowNotification(title: string, body: string, outcome: Call<()>) returns (request: HostRequest, completion: Completion<()>)
      ensures request == HostRequest.ShowNotification(title, body, None)
      ensures completion.Throws? <==> outcome.Err?
      ensures outcome.Err? ==> completion.error == outcome.error
    {
      request := HostRequest.ShowNotification(title, body, None);
      completion := if outcome.Err? then Throws(outcome.error) else Returns(());
    }

    /** `openExternal(url)`: a synchronous call, not awaited. `outcome` is
        how the host's call ends: `Err` is a synchronous throw, which reaches
        the caller unchanged; anything the host returns is discarded. */
    method OpenExternal(url: string, outcome: Call<()>) returns (request: HostRequest, completion: Completion<()>)
      ensures request == HostRequest.OpenExternal(url)
      ensures completion.Throws? <==> outcome.Err?
      ensures outcome.Err? ==> completion.error == outcome.error
    {
      request := HostRequest.OpenExternal(url);
      completion := if outcome.Err? then Throws(outcome.error) else Returns(());
    }

    /** `getConfig(key)`: asks under the provider's id and returns the host's
        answer as it is (undefined when the bridge is missing). */
    method GetConfig(key: string, outcome: Call<Value>) returns (request: HostRequest, completion: Completion<Value>)
      ensures request == GetToolConfig(toolId, key)
      ensures RequestToolId(request) == Some(toolId)
      ensures outcome.Err? <==> completion.Throws?
      ensures outcome.Err? ==> completion.error == outcome.error
      ensures outcome.Ok? ==> completion == Returns(outcome.value)
      ensures outcome.Absent? ==> completion == Returns(Undefined)
    {
      request := GetToolConfig(toolId, key);
      match outcome {
        case Err(e) => completion := Throws(e);
        case Absent => completion := Returns(Undefined);
        case Ok(v) => completion := Returns(v);
      }
    }

    /** `setConfig(key, value)`: writes under the provider's id. */
    method SetConfig(key: string, value: Value, outcome: Call<()>) returns (request: HostRequest, completion: Completion<()>)
      ensures request == SetToolConfig(toolId, key, value)
      ensures RequestToolId(request) == Some(toolId)
      ensures completion.Throws? <==> outcome.Err?
      ensures outcome.Err? ==> completion.error == outcome.error
    {
      request := SetToolConfig(toolId, key, value);
      completion := if outcome.Err? then Throws(outcome.error) else Returns(());
    }
  }
}
