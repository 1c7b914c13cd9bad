/**
 * The hooks that mirror host-owned state: `useToolLifecycle` (mounted,
 * visible, focused), `useTheme` and `useLanguage`. Each starts from a
 * default, takes an initial fetch only when its answer is truthy, is
 * replaced wholesale by push events, and on teardown empties the bridge
 * slot it registered in.
 *
 * React's effect scheduling is replaced by explicit calls: the constructor
 * is the first render, `Mount` the effect body, `Unmount` its cleanup, and
 * the `On...` methods the handlers the host or the document invokes.
 */
module MirrorHooks {
  import opened Js
  import opened Types
  import opened Bridge

  /** `useToolLifecycle()` */
  class LifecycleHook {
    const document: EventTarget
    const focusChannel: ListenerSlot
    var isMounted: bool
    var isVisible: bool
    var isFocused: bool

    constructor (document: EventTarget, focusChannel: ListenerSlot)
      ensures this.document == document && this.focusChannel == focusChannel
      ensures !isMounted && isVisible && isFocused
    {
      this.document := document;
      this.focusChannel := focusChannel;
      isMounted := false;
      isVisible := true;
      isFocused := true;
    }

    /** The effect: mark mounted, listen for `visibilitychange` and register
        the focus handler in the bridge's focus slot. */
    method Mount()
      modifies this`isMounted, document, focusChannel
      ensures isMounted && isVisible == old(isVisible) && isFocused == old(isFocused)
      ensures document.listeners == old(document.listeners) + {this}
      ensures focusChannel.listener == if focusChannel.hasRegister then this else old(focusChannel.listener)
    {
      isMounted := true;
      document.AddEventListener(this);
      focusChannel.Register(this);
    }

    /** The host reports a focus change: only `isFocused` moves. */
    method OnFocusChange(focused: bool)
      modifies this`isFocused
      ensures isFocused == focused
      ensures isMounted == old(isMounted) && isVisible == old(isVisible)
    {
      isFocused := focused;
    }

    /** `visibilitychange`: `documentVisible` is whether
        `document.visibilityState === 'visible'`; only `isVisible` moves. */
    method OnVisibilityChange(documentVisible: bool)
      modifies this`isVisible
      ensures isVisible == documentVisible
      ensures isMounted == old(isMounted) && isFocused == old(isFocused)
    {
      isVisible := documentVisible;
    }

    /** The cleanup: mark unmounted, drop the document listener and empty
        the focus slot. */
    method Unmount()
      modifies this`isMounted, document, focusChannel
      ensures !isMounted && isVisible == old(isVisible) && isFocused == old(isFocused)
      ensures document.listeners == old(document.listeners) - {this}
      ensures this !in document.listeners
      ensures focusChannel.listener == if focusChannel.hasRemove then null else old(focusChannel.listener)
    {
      isMounted := false;
      document.RemoveEventListener(this);
      focusChannel.Remove();
    }

    /** The combined `visibilityState` the hook returns. */
    function Visibility(): (v: VisibilityState)
      reads this
      ensures v.visible == isVisible && v.focused == isFocused
    {
      VisibilityState(isVisible, isFocused)
    }
  }

  /** What `useTheme()` returns. */
  datatype ThemeView = ThemeView(theme: Theme, isDark: bool, primaryColor: string)

  function ThemeViewOf(t: Theme): (v: ThemeView)
    ensures v.theme == t && v.primaryColor == t.primaryColor
    ensures v.isDark <==> t.mode == Dark
  {
    ThemeView(t, IsDark(t), t.primaryColor)
  }

  /** With no injected theme and no bridge, `useTheme()` reports the light
      default with `#1677ff`. */
  lemma StandaloneThemeView()
    ensures ThemeViewOf(InitialTheme(None)) == ThemeView(Theme(Light, "#1677ff", true, Blur), false, "#1677ff")
  {
  }

  /** `useTheme()` */
  class ThemeHook {
    const themeChannel: ListenerSlot
    var theme: Theme

    constructor (injected: Option<Theme>, themeChannel: ListenerSlot)
      ensures this.themeChannel == themeChannel
      ensures theme == InitialTheme(injected)
    {
      this.themeChannel := themeChannel;
      theme := InitialTheme(injected);
    }

    /** The effect: ask for the current theme and register the push handler. */
    method Mount() returns (request: HostRequest)
      modifies themeChannel
      ensures request == GetCurrentTheme
      ensures themeChannel.listener == if themeChannel.hasRegister then this else old(themeChannel.listener)
    {
      request := GetCurrentTheme;
      themeChannel.Register(this);
    }

    /** The fetch's continuation: only a truthy answer replaces the theme; a
        null answer, a missing bridge or a rejection leave it as it is. */
    method ThemeFetched(answer: Call<Option<Theme>>)
      modifies this`theme
      ensures AcceptedTheme(answer) ==> theme == answer.value.value
      ensures !(AcceptedTheme(answer)) ==> theme == old(theme)
    {
      if AcceptedTheme(answer) {
        theme := answer.value.value;
      }
    }

    /** A push replaces the theme wholesale. */
    method OnThemeChange(newTheme: Theme)
      modifies this`theme
      ensures theme == newTheme
    {
      theme := newTheme;
    }

    method Unmount()
      modifies themeChannel
      ensures themeChannel.listener == if themeChannel.hasRemove then null else old(themeChannel.listener)
    {
      themeChannel.Remove();
    }

    /** What the hook returns on the current render. */
    function View(): ThemeView
      reads this
    {
      ThemeViewOf(theme)
    }
  }

  /** What `useLanguage()` returns. */
  datatype LocaleView = LocaleView(locale: string, isZhCN: bool, isEnUS: bool)

  function LocaleViewOf(locale: string): (v: LocaleView)
    ensures v.locale == locale
    ensures v.isZhCN <==> locale == "zh-CN"
    ensures v.isEnUS <==> locale == "en-US"
  {
    LocaleView(locale, locale == "zh-CN", locale == "en-US")
  }

  /** The two locale flags are never both set, and the initial locale is Chinese. */
  lemma LocaleFlagsExclusive(locale: string)
    ensures !(LocaleViewOf(locale).isZhCN && LocaleViewOf(locale).isEnUS)
    ensures LocaleViewOf(DefaultLocale).isZhCN
  {
  }

  /** `useLanguage()` */
  class LanguageHook {
    const languageChannel: ListenerSlot
    var locale: string

    constructor (languageChannel: ListenerSlot)
      ensures this.languageChannel == languageChannel
      ensures locale == "zh-CN"
    {
      this.languageChannel := languageChannel;
      locale := DefaultLocale;
    }

    method Mount() returns (request: HostRequest)
      modifies languageChannel
      ensures request == GetCurrentLanguage
      ensures languageChannel.listener == if languageChannel.hasRegister then this else old(languageChannel.listener)
    {
      request := GetCurrentLanguage;
      languageChannel.Register(this);
    }

    /** Only a non-empty answer replaces the locale. */
    method LanguageFetched(answer: Call<Option<string>>)
      modifies this`locale
      ensures AcceptedLocale(answer) ==> locale == answer.value.value
      ensures !AcceptedLocale(answer) ==> locale == old(locale)
    {
      if AcceptedLocale(answer) {
        locale := answer.value.value;
      }
    }

    /** A push replaces the locale, even with the empty string. */
    method OnLanguageChange(newLocale: string)
      modifies this`locale
      ensures locale == newLocale
    {
      locale := newLocale;
    }

    method Unmount()
      modifies languageChannel
      ensures languageChannel.listener == if languageChannel.hasRemove then null else old(languageChannel.listener)
    {
      languageChannel.Remove();
    }

    /** What the hook returns on the current render. */
    function View(): LocaleView
      reads this
    {
      LocaleViewOf(locale)
    }
  }
}
