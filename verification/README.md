# Omvian hub SDK: the React hooks and the tool lifecycle provider

This project models the React layer of the Omvian hub SDK in Dafny:

- the hooks in `src/hooks.ts`:
  - `useToolLifecycle`, `useTheme`, `useLanguage`
  - `useConfig`, including how it resolves the tool id from the URL
  - `useClipboard`, `useNotification`, `useFileSelect`, `useFileSave`
  - `useErrorReporter`, `useTracking`
- `ToolLifecycleProvider` and `useToolContext` in `src/components/ToolLifecycle.tsx`.

A tool runs inside the Omvian desktop host. It reaches the host through the `window.electronAPI` bridge.

**How the bridge is modelled.** Every awaited bridge call is an oracle, `Js.Call`, with three outcomes:

- `Absent`: the bridge or the method is missing, so the optional chain yields `undefined`.
- `Ok(answer)`: the host resolved.
- `Err(error)`: the host rejected.

An operation takes that outcome as a parameter. It returns the `Bridge.HostRequest` it addresses to the host, which carries the arguments. It also returns a `Js.Completion` that says whether its own promise resolves or rejects.

**Push channels.** Each of the bridge's push channels (theme, language, window focus) is modelled as a single listener slot, `Bridge.ListenerSlot`. The bridge's type declarations give only the method signatures, so how the host registers listeners is not in the SDK; the argument-less remove call suggests one slot per channel. In the model:

- registering a listener replaces whatever was there;
- the argument-less remove call empties the slot.

The document's `visibilitychange` listener list is `Bridge.EventTarget`.

**Hooks and the provider.** Each hook and the provider is a class whose fields are its `useState` slots and refs. The mapping to React is:

- the constructor is the first render;
- `Mount` runs the effects;
- `Unmount` runs their cleanups;
- the `On…` methods are the handlers the host or the document calls;
- the `…Fetched` methods are the continuations of the initial fetches.

**Config and provider as state machines.** `useConfig` and the provider also have pure step functions. `Config.Refreshed`, `Config.ValueSet` and `Config.ValueDeleted` give the config state after each operation. `Provider.Step` and `Provider.Replay` give the provider's mirrored state and the callbacks it calls. Each class method is proved to end in exactly the state the step function gives. The properties about sequences of operations are lemmas over those functions, for example:

- a write followed by a read;
- the last visibility event wins;
- `onThemeChange` is called once per theme push.

**The two tool-id chains differ.** `useConfig` takes the id from the URL parameter `toolId=` when there is one. After that it tries the injected `__TOOL_ID__`, then `"unknown"`. The provider takes its `toolId` prop, then `__TOOL_ID__`, then `"unknown"`. The provider, `useErrorReporter` and `useTracking` never read the URL. `ToolIds.UrlIdReachesOnlyConfig` proves, on a concrete URL, that the two chains can disagree.

**Requests.** A `HostRequest` returned by an operation is the call the SDK *addresses* to the bridge. It reaches the host only when the bridge has that method. When the method is missing, the outcome is `Absent`: the optional chain calls nothing and yields `undefined`.

## Model

| member | source | states |
|---|---|---|
| Js.DefaultOrNull | src/hooks.ts:158 | `defaultValue ?? null` is never undefined: it is null for a nullish default and the default itself otherwise |
| Js.CoalesceKeepsFalsy | src/hooks.ts:182 | a non-nullish falsy value (false, 0, "") survives `??`, and these three are the only such values |
| Js.ClipboardText | src/hooks.ts:233-236 | `content \|\| ''` is non-empty exactly when the host gave a non-empty string, and is then that string |
| Js.Coalesce | src/hooks.ts:182 | `a ?? b` replaces only null and undefined: it is `b` for a nullish `a` and `a` otherwise, so in particular any truthy `a` is kept |
| Types.IsDark | src/hooks.ts:100 | `theme.mode === 'dark'` holds exactly when the theme is not light |
| Types.AcceptedTheme | src/hooks.ts:80-84 | `if (currentTheme)` accepts exactly a resolved fetch that carries a theme; a missing bridge, a null answer or a rejection is never accepted |
| Types.AcceptedLocale | src/hooks.ts:116-120 | `if (currentLocale)` accepts exactly a resolved fetch with a non-empty string; a missing bridge, null, "" or a rejection is never accepted |
| Types.InitialTheme | src/hooks.ts:65-76 | the first theme is the injected `window.omvianTheme` if any, otherwise light, `#1677ff`, glass on, blur |
| Bridge.ListenerSlot.constructor | src/global.d.ts:41-46 | a push channel starts with no listener and records which of its register/remove methods exist |
| Bridge.ListenerSlot.Register | src/global.d.ts:41-46 | `onXxxChange?.(cb)` replaces the single listener when the method exists, otherwise changes nothing |
| Bridge.ListenerSlot.Remove | src/global.d.ts:41-46 | `removeXxxListener?.()` empties the slot whoever registered, when the method exists |
| Bridge.EventTarget.AddEventListener | src/hooks.ts:41 | adding a `visibilitychange` listener adds exactly that listener |
| Bridge.EventTarget.RemoveEventListener | src/hooks.ts:46 | removing a listener removes exactly that listener and leaves the others |
| ToolIds.RunEnd | src/hooks.ts:165 | the greedy `[^&]+` run ends at the first `&` or at the end of the string, with no `&` inside |
| ToolIds.Capture | src/hooks.ts:165-167 | capture group 1 of a match is non-empty, has no `&`, is the slice after `toolId=`, and is followed by `&` or the end |
| ToolIds.ScanFrom | src/hooks.ts:165 | the search finds nothing iff no position at or after `i` matches; otherwise it returns the capture at the first matching position |
| ToolIds.ScanToolId | src/hooks.ts:165-166 | `href.match(/toolId=([^&]+)/)` fails iff no position matches; otherwise it yields the capture at the leftmost match, non-empty and `&`-free |
| ToolIds.InjectedOrUnknown | src/hooks.ts:170 | `__TOOL_ID__ \|\| 'unknown'`: never empty, the injected id when it is a non-empty string, else "unknown" |
| ToolIds.ConfigToolId | src/hooks.ts:164-172 | `useConfig`'s id is never empty; it is the leftmost URL capture when the URL matches, else the injected-or-unknown id |
| ToolIds.ProviderToolId | src/components/ToolLifecycle.tsx:61-64 | the provider's id is never empty; it is the prop when truthy, else the injected-or-unknown id; the URL plays no part |
| ToolIds.ProviderAgreesWithConfigWithoutUrlId | src/components/ToolLifecycle.tsx:61-64 | with no prop and no `toolId=` match in the URL, the provider and `useConfig` pick the same id |
| ToolIds.UrlIdReachesOnlyConfig | src/hooks.ts:164-172 | for `?toolId=calc` with nothing injected, `useConfig` uses "calc" while the provider, the error reporter and the tracker use "unknown" |
| ToolIds.EmptyParameterIsSkipped | src/hooks.ts:165 | a `toolId=` followed directly by `&` is not a match; the next `toolId=ab` is, and it wins over the injected id |
| Config.Initial | src/hooks.ts:158-161 | first render: value is the default or null, loading, no error, id ref empty |
| Config.Resolved | src/hooks.ts:164-172 | the id effect sets only the ref, to a never-empty id chosen as `ConfigToolId` says |
| Config.Refreshed | src/hooks.ts:174-188 | `refresh` is a no-op while the id is empty; otherwise it ends not loading, with an error iff the host rejected; the value is kept on a rejection, is the answer when not nullish, and is the default-or-null when the answer is nullish or the bridge lacks the call |
| Config.ValueSet | src/hooks.ts:194-204 | `setValue` is a no-op while the id is empty; it never touches loading; success sets the value and keeps any earlier error; failure records the error and keeps the value |
| Config.ValueDeleted | src/hooks.ts:206-216 | like `setValue`, but success resets the value to the default-or-null |
| Config.WriteCompletion | src/hooks.ts:194-216 | `setValue`/`deleteValue` reject exactly when the id is set and the host rejected, with the host's error |
| Config.ConfigRequest | src/hooks.ts:175-181 | a config operation addresses a call to the bridge iff the id ref is non-empty (it reaches the host only when the bridge has the method) |
| Config.ConfigHook.constructor | src/hooks.ts:158-161 | the hook starts in `Initial(defaultValue)` |
| Config.ConfigHook.ResolveToolId | src/hooks.ts:164-172 | the id effect leaves the state `Resolved` says, with a non-empty id |
| Config.ConfigHook.Refresh | src/hooks.ts:174-188 | `refresh` ends in the `Refreshed` state and addresses `getToolConfig(id, key)` iff the id is set (reaching the host only when the bridge has the method) |
| Config.ConfigHook.Mount | src/hooks.ts:164-192 | mounting resolves the id and then refreshes, so the mount refresh is never skipped: the id is set, loading is off, `getToolConfig(id, key)` is addressed (reaching the host only when the bridge has the method) |
| Config.ConfigHook.SetValue | src/hooks.ts:194-204 | `setValue` ends in the `ValueSet` state, addresses `setToolConfig(id, key, v)` iff the id is set (reaching the host only when the bridge has the method), and rethrows a host failure |
| Config.ConfigHook.DeleteValue | src/hooks.ts:206-216 | `deleteValue` ends in the `ValueDeleted` state, addresses `deleteToolConfig(id, key)` iff the id is set (reaching the host only when the bridge has the method), and rethrows a host failure |
| Config.GuardsSkipOnlyBeforeResolution | src/hooks.ts:164-216 | before the id effect every operation is a no-op; after it, for any URL and injected id, the id is set, `refresh` ends not loading, a successful `setValue(v)` stores `v` and a successful `deleteValue` stores the default-or-null |
| Config.DefaultReplacesNullAnswer | src/hooks.ts:174-192 | with default 42 and a host answering null, mounting settles at 42, not loading, no error |
| Config.FalsyAnswersAreKept | src/hooks.ts:182 | a host answer of false, 0 or "" is kept even when a default is given |
| Config.SetThenRefresh | src/hooks.ts:174-204 | against an in-memory store, a successful `setValue(v)` then `refresh` reads back `v` iff `v` is not nullish or already equals the default-or-null; a nullish `v` comes back as the default-or-null |
| Config.DeleteThenRefresh | src/hooks.ts:174-216 | after a successful `deleteValue`, a `refresh` against the erased store keeps the default-or-null the delete put in place |
| Config.FailuresKeepTheValue | src/hooks.ts:174-216 | a rejected refresh, set or delete never changes the value, a rejected set or delete leaves `loading` as it was, and once the id is set each records the host's error |
| MirrorHooks.LifecycleHook.constructor | src/hooks.ts:24-26 | not mounted, visible, focused on the first render |
| MirrorHooks.LifecycleHook.Mount | src/hooks.ts:28-43 | the effect marks mounted, adds the `visibilitychange` listener and takes the focus slot when the bridge can register |
| MirrorHooks.LifecycleHook.OnFocusChange | src/hooks.ts:32-34 | a focus push sets `isFocused` to its payload and nothing else |
| MirrorHooks.LifecycleHook.OnVisibilityChange | src/hooks.ts:37-39 | `visibilitychange` sets `isVisible` to whether the document is visible and nothing else |
| MirrorHooks.LifecycleHook.Unmount | src/hooks.ts:44-48 | the cleanup marks unmounted, drops exactly its document listener and empties the focus slot when it can |
| MirrorHooks.LifecycleHook.Visibility | src/hooks.ts:55 | `visibilityState` pairs the current visibility and focus |
| MirrorHooks.ThemeViewOf | src/hooks.ts:98-102 | `isDark` holds exactly for dark mode; `primaryColor` is the theme's |
| MirrorHooks.StandaloneThemeView | src/hooks.ts:64-102 | with nothing injected and no bridge, `useTheme` reports the light `#1677ff` default, not dark |
| MirrorHooks.ThemeHook.constructor | src/hooks.ts:65-76 | the first theme is `InitialTheme` of the injected one |
| MirrorHooks.ThemeHook.Mount | src/hooks.ts:78-91 | the effect asks for the current theme and takes the theme slot when it can |
| MirrorHooks.ThemeHook.ThemeFetched | src/hooks.ts:80-84 | only a truthy fetch answer replaces the theme; a null answer, a missing bridge or a rejection leave it |
| MirrorHooks.ThemeHook.OnThemeChange | src/hooks.ts:87-91 | a push replaces the theme wholesale |
| MirrorHooks.ThemeHook.Unmount | src/hooks.ts:93-95 | the cleanup empties the theme slot when it can |
| MirrorHooks.LocaleViewOf | src/hooks.ts:134-138 | `isZhCN` iff the locale is "zh-CN", `isEnUS` iff it is "en-US" |
| MirrorHooks.LocaleFlagsExclusive | src/hooks.ts:111-138 | the two flags are never both set, and the initial locale is Chinese |
| MirrorHooks.LanguageHook.constructor | src/hooks.ts:112 | the locale starts as "zh-CN" |
| MirrorHooks.LanguageHook.Mount | src/hooks.ts:114-127 | the effect asks for the current language and takes the language slot when it can |
| MirrorHooks.LanguageHook.LanguageFetched | src/hooks.ts:116-120 | only a non-empty fetch answer replaces the locale |
| MirrorHooks.LanguageHook.OnLanguageChange | src/hooks.ts:123-127 | a push replaces the locale, even with the empty string |
| MirrorHooks.LanguageHook.Unmount | src/hooks.ts:129-131 | the cleanup empties the language slot when it can |
| ActionHooks.Rethrown | src/hooks.ts:237-240 | an action rejects iff the host rejected, with the host's error, and otherwise resolves with its value |
| ActionHooks.ClipboardHook.constructor | src/hooks.ts:228-229 | empty text, no error |
| ActionHooks.ClipboardHook.Read | src/hooks.ts:231-241 | `read` asks for the clipboard; on success text and result are the content or "", and the error is cleared; on failure the text is kept, the error recorded and rethrown |
| ActionHooks.ClipboardHook.Write | src/hooks.ts:243-252 | `write` addresses the content to the bridge; on success the text is exactly the content and the error is cleared; on failure the text is kept and the error recorded and rethrown |
| ActionHooks.ClipboardHook.Copy | src/hooks.ts:254-256 | `copy` behaves exactly as `write` |
| ActionHooks.NotificationHook.constructor | src/hooks.ts:267 | no error on the first render |
| ActionHooks.NotificationHook.Show | src/hooks.ts:269-281 | `show` forwards title, body and options; the error afterwards is the host's rejection or none, and a rejection propagates |
| ActionHooks.StoredResult | src/hooks.ts:302 | `res \|\| null`: the dialog result when the host gave one, null when the bridge is missing or answered nothing |
| ActionHooks.FileSelectHook.constructor | src/hooks.ts:292-294 | no result, not loading, no error |
| ActionHooks.FileSelectHook.BeginSelect | src/hooks.ts:296-298 | before the await, loading is raised and the error cleared |
| ActionHooks.FileSelectHook.FinishSelect | src/hooks.ts:300-309 | after the await, loading is lowered either way; success stores the result; failure keeps the old result and records and rethrows the error |
| ActionHooks.FileSelectHook.Select | src/hooks.ts:296-310 | `select` as a whole: addresses `selectFile(options)`, ends not loading, with the stored result and no error, or the old result and the host's error |
| ActionHooks.FileSaveHook.constructor | src/hooks.ts:319-321 | no result, not loading, no error |
| ActionHooks.FileSaveHook.BeginSave | src/hooks.ts:323-328 | before the await, loading is raised and the error cleared |
| ActionHooks.FileSaveHook.FinishSave | src/hooks.ts:330-339 | after the await, loading is lowered either way; success stores the result; failure keeps the old result and records and rethrows the error |
| ActionHooks.FileSaveHook.Save | src/hooks.ts:323-340 | `save` as a whole: addresses `saveFileDialog(content, options)`, ends not loading, with the stored result and no error, or the old result and the host's error |
| ActionHooks.ReportedMessage | src/hooks.ts:357 | a string is reported as itself, an `Error` by its message |
| ActionHooks.ErrorReporter.constructor | src/hooks.ts:351 | the reporter's id is the injected id or "unknown", never empty |
| ActionHooks.ErrorReporter.Report | src/hooks.ts:353-359 | `report` addresses the normalised message and context under the reporter's id, and a host failure propagates |
| ActionHooks.Tracker.constructor | src/hooks.ts:370 | the tracker's id is the injected id or "unknown", never empty |
| ActionHooks.Tracker.TrackEvent | src/hooks.ts:372-377 | `trackEvent` addresses name and properties under the tracker's id; a host failure propagates |
| ActionHooks.Tracker.TrackTiming | src/hooks.ts:379-384 | `trackTiming` addresses name and duration under the tracker's id; a host failure propagates |
| Provider.IfSupplied | src/components/ToolLifecycle.tsx:97 | `cb?.(x)` records one call when the callback was supplied and none otherwise |
| Provider.ContextValueOf | src/components/ToolLifecycle.tsx:178-191 | the context value carries the state as it is, with `isDark` iff the theme is dark |
| Provider.UseToolContext | src/components/ToolLifecycle.tsx:205-211 | outside a provider it throws the fixed message; inside it returns the provider's value unchanged |
| Provider.Step | src/components/ToolLifecycle.tsx:87-141 | one handler run: each event moves only the field it concerns; a fetch answer replaces its field only when accepted and calls nothing; a push sets its field to the payload and calls its own callback, when supplied, with exactly that payload; a visibility report pairs the new visibility with the current focus, a focus report the current visibility with the new focus |
| Provider.Replay | src/components/ToolLifecycle.tsx:85-150 | handlers run in order from a state: no events leave the state unchanged, each event adds at most one callback call, and fetch answers alone call nothing |
| Provider.LastVisibility | src/components/ToolLifecycle.tsx:132-136 | the payload of the last visibility event, or the initial value when there is none |
| Provider.LastFocus | src/components/ToolLifecycle.tsx:138-141 | the payload of the last focus push, or the initial value when there is none |
| Provider.ReplayKeepsSourcesApart | src/components/ToolLifecycle.tsx:131-150 | over any event sequence, visibility is set only by visibility events and focus only by focus pushes, and for each the last one wins |
| Provider.ReplayReportsEachThemePush | src/components/ToolLifecycle.tsx:105-115 | over any event sequence, a supplied `onThemeChange` sees exactly the theme pushes' payloads in order, and never an initial fetch |
| Provider.ReplayNeverMountsOrUnmounts | src/components/ToolLifecycle.tsx:85-150 | no theme, language, visibility or focus event calls `onMount` or `onUnmount` |
| Provider.MountAndUnmountOnce | src/components/ToolLifecycle.tsx:85-102 | over a lifetime, a supplied `onMount` is called exactly once and first, and a supplied `onUnmount` exactly once and last |
| Provider.ToolLifecycleProvider.constructor | src/components/ToolLifecycle.tsx:61-82 | first render: id from prop, injected global or "unknown"; injected or default theme; "zh-CN"; visible and focused; no callback called |
| Provider.ToolLifecycleProvider.Mount | src/components/ToolLifecycle.tsx:85-144 | the effects ask for theme then language, call `onMount` if supplied, take the theme, language and focus slots, and add the visibility listener |
| Provider.ToolLifecycleProvider.ThemeFetched | src/components/ToolLifecycle.tsx:87-89 | a truthy answer replaces the theme without calling `onThemeChange`; the step agrees with `Step` |
| Provider.ToolLifecycleProvider.LanguageFetched | src/components/ToolLifecycle.tsx:92-94 | a non-empty answer replaces the locale without calling `onLanguageChange`; the step agrees with `Step` |
| Provider.ToolLifecycleProvider.OnThemeChange | src/components/ToolLifecycle.tsx:106-109 | a push replaces the theme and calls `onThemeChange` once with it |
| Provider.ToolLifecycleProvider.OnLanguageChange | src/components/ToolLifecycle.tsx:119-122 | a push replaces the locale and calls `onLanguageChange` once with it |
| Provider.ToolLifecycleProvider.OnVisibilityChange | src/components/ToolLifecycle.tsx:132-136 | only visibility moves; `onVisibilityChange` gets the new visibility with the current focus |
| Provider.ToolLifecycleProvider.OnFocusChange | src/components/ToolLifecycle.tsx:138-141 | only focus moves; `onVisibilityChange` gets the current visibility with the new focus |
| Provider.ToolLifecycleProvider.Unmount | src/components/ToolLifecycle.tsx:99-148 | the cleanups call `onUnmount` if supplied, empty the three slots when they can, and drop exactly the visibility listener |
| Provider.ToolLifecycleProvider.Context | src/components/ToolLifecycle.tsx:178-191 | the context exposes the provider's id and current state, with `isDark` iff the theme is dark |
| Provider.ToolLifecycleProvider.ReadClipboard | src/components/ToolLifecycle.tsx:153-155 | `readClipboard` returns the content, or "" when the bridge is missing or gave nothing; a host failure propagates |
| Provider.ToolLifecycleProvider.WriteClipboard | src/components/ToolLifecycle.tsx:157-159 | `writeClipboard` addresses the text; it rejects iff the host rejected |
| Provider.ToolLifecycleProvider.ShowNotification | src/components/ToolLifecycle.tsx:161-163 | `showNotification` addresses title and body without options; it rejects iff the host rejected |
| Provider.ToolLifecycleProvider.OpenExternal | src/components/ToolLifecycle.tsx:165-167 | `openExternal` addresses the URL to the bridge synchronously; a throw from the host's call reaches the caller unchanged, and otherwise it returns nothing |
| Provider.ToolLifecycleProvider.GetConfig | src/components/ToolLifecycle.tsx:169-171 | `getConfig` asks under the provider's id and returns the host's answer as it is, undefined without a bridge; a failure propagates |
| Provider.ToolLifecycleProvider.SetConfig | src/components/ToolLifecycle.tsx:173-175 | `setConfig` writes under the provider's id; it rejects iff the host rejected |

## Left out

- React scheduling is not modelled. Effects run when `Mount` is called, and state updates are immediate field writes. Batching, re-renders and StrictMode double effects are absent.
- Dependency-array re-runs of the provider's effects are left out:
  - Inline `onMount`/`onUnmount` props change identity on every render. The real init effect then runs its cleanup and body again, calling `onUnmount`/`onMount` and refetching. The model runs the init effect once per mount, as for stable callbacks.
  - The visibility/focus effect re-subscribes on every `isVisible`/`isFocused` change, and its handlers read the values captured when it last ran. The model's handlers read the current fields directly. The two differ only between a state change and React's re-run of the effect. A focus push that arrives after a visibility event but before that re-run reports the stale `isVisible` held in the closure; the model reports the new one. The same holds for a visibility event that follows a focus push.
- Races between an initial fetch and a push, and continuations that arrive after unmount, are not modelled. Each continuation is a separate method the caller may invoke in any order, but nothing checks the component is still mounted.
- A host whose register call adds listeners instead of replacing them is not modelled. The SDK declares only the method signatures, and each channel is modelled as one slot.
- Sharing one bridge slot between several subscribers is modelled, not prevented. For example, `useTheme` and the provider both register on the theme channel, and either one's cleanup empties the slot for both. `Bridge.ListenerSlot` states this single-slot behaviour.
- Numbers are integers. Floating point, NaN and `durationMs` fractions are out of scope.
- `__TOOL_ID__` is modelled as a string or absent. A non-string truthy global, which the source would pass on unchanged, is not modelled.
- Provider.ReplayReportsEachThemePush: the once-per-push ordering lemma is stated for theme pushes only. Language and visibility callbacks are stated per call by `OnLanguageChange`, `OnVisibilityChange` and `OnFocusChange`.
- MirrorHooks.ThemeHook.View and MirrorHooks.LanguageHook.View carry no contract of their own. What they return is stated by `ThemeViewOf` and `LocaleViewOf`.
- The package entry `src/index.ts` only re-exports and forwards to the bridge. It is not part of this model.
- The record types in `src/types.ts` appear only as the datatypes in `Types`.
- The build scripts, the Go SDK under `src/go`, the `dist` copies, and the host application behind the bridge are not part of this model.
- Console logging is left out.
