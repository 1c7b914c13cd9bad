/**
 * The record types the hooks and the provider exchange with the host
 * (src/types.ts): theme, visibility, notification and file-dialog shapes.
 */
module Types {
  import opened Js

  datatype ThemeMode = Light | Dark

  datatype GlassStyle = Blur | Acrylic | Mica

  /** `OmvianTheme` */
  datatype Theme = Theme(mode: ThemeMode, primaryColor: string, glassEnabled: bool, glassStyle: GlassStyle)

  /** The theme used when the host has injected none: light, `#1677ff`, glass on, blur. */
  const DefaultTheme: Theme := Theme(Light, "#1677ff", true, Blur)

  /** The first theme of `useTheme` and of the provider: the injected
      `window.omvianTheme` when there is one, otherwise the default. */
  function InitialTheme(injected: Option<Theme>): (t: Theme)
    ensures injected.Some? ==> t == injected.value
    ensures injected.None? ==> t.mode == Light && t.primaryColor == "#1677ff" && t.glassEnabled && t.glassStyle == Blur
  {
    if injected.Some? then injected.value else DefaultTheme
  }

  /** `theme.mode === 'dark'` */
  predicate IsDark(t: Theme)
    ensures IsDark(t) <==> t.mode != Light
  {
    t.mode == Dark
  }

  /** A theme fetch answer that `if (currentTheme)` accepts: the host
      answered with a theme (any object is truthy). This is `Js.Truthy` of
      the resolved value, with `None` standing for null or undefined. */
  predicate AcceptedTheme(answer: Call<Option<Theme>>)
    ensures answer.Absent? || answer.Err? || answer == Ok(None) ==> !AcceptedTheme(answer)
    ensures answer.Ok? && answer.value.Some? ==> AcceptedTheme(answer)
  {
    answer.Ok? && answer.value.Some?
  }

  /** A locale fetch answer that `if (currentLocale)` accepts: the host
      answered with a non-empty string: `Js.Truthy` of the resolved value. */
  predicate AcceptedLocale(answer: Call<Option<string>>)
    ensures answer.Absent? || answer.Err? || answer == Ok(None) || answer == Ok(Some("")) ==> !AcceptedLocale(answer)
    ensures AcceptedLocale(answer) ==> |answer.value.value| > 0
    ensures answer.Ok? && answer.value.Some? && |answer.value.value| > 0 ==> AcceptedLocale(answer)
  {
    answer.Ok? && answer.value.Some? && answer.value.value != ""
  }

  /** The locale every mirror starts from. */
  const DefaultLocale: string := "zh-CN"

  /** `VisibilityState`: page visibility and window focus, reported together. */
  datatype VisibilityState = VisibilityState(visible: bool, focused: bool)

  datatype Urgency = Normal | Critical | Low

  /** `NotificationOptions` */
  datatype NotificationOptions = NotificationOptions(
    icon: Option<string>, silent: Option<bool>, urgency: Option<Urgency>, timeoutMs: Option<int>)

  datatype FileFilter = FileFilter(name: string, extensions: seq<string>)

  /** `FileSelectOptions` */
  datatype FileSelectOptions = FileSelectOptions(
    title: Option<string>, defaultPath: Option<string>, filters: Option<seq<FileFilter>>, multiSelect: Option<bool>)

  /** `FileSaveOptions` */
  datatype FileSaveOptions = FileSaveOptions(
    title: Option<string>, defaultPath: Option<string>, filters: Option<seq<FileFilter>>)

  /** `FileSelectResult` */
  datatype FileSelectResult = FileSelectResult(canceled: bool, filePaths: seq<string>)

  /** `FileSaveResult` */
  datatype FileSaveResult = FileSaveResult(canceled: bool, filePath: Option<string>)

  /** What `saveFileDialog` writes: `string | Uint8Array`. */
  datatype FileContent = Text(text: string) | Bytes(bytes: seq<bv8>)
}
