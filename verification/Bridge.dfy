/**
 * The host side as the SDK sees it (src/global.d.ts): the calls it addresses
 * to `window.electronAPI`, the bridge's push channels, each of which holds a
 * single listener, and the document's `visibilitychange` listener list.
 */
module Bridge {
  import opened Js
  import opened Types

  /** A call the SDK addresses to the bridge, with its arguments. */
  datatype HostRequest =
    | GetCurrentTheme
    | GetCurrentLanguage
    | GetToolConfig(toolId: string, key: string)
    | SetToolConfig(toolId: string, key: string, value: Value)
    | DeleteToolConfig(toolId: string, key: string)
    | ReadClipboard
    | WriteClipboard(text: string)
    | ShowNotification(title: string, body: string, options: Option<NotificationOptions>)
    | OpenExternal(url: string)
    | SelectFile(selectOptions: Option<FileSelectOptions>)
    | SaveFileDialog(content: FileContent, saveOptions: Option<FileSaveOptions>)
    | ReportToolError(toolId: string, message: string, context: Value)
    | TrackToolEvent(toolId: string, eventName: string, properties: Value)
    | TrackToolTiming(toolId: string, eventName: string, durationMs: int)

  /** The tool id a request is scoped to, if it is scoped to one. */
  function RequestToolId(r: HostRequest): Option<string> {
    match r
    case GetToolConfig(id, _) => Some(id)
    case SetToolConfig(id, _, _) => Some(id)
    case DeleteToolConfig(id, _) => Some(id)
    case ReportToolError(id, _, _) => Some(id)
    case TrackToolEvent(id, _, _) => Some(id)
    case TrackToolTiming(id, _, _) => Some(id)
    case _ => None
  }

  /**
   * One push channel of the bridge (theme, language or window focus).
   * `onXxxChange(cb)` puts `cb` in the channel's single slot, replacing
   * whatever was there; the argument-less `removeXxxListener()` empties the
   * slot. Either method may be missing from the bridge, and then calling it
   * through `?.` does nothing. A listener is identified by the object that
   * registered it.
   */
  class ListenerSlot {
    const hasRegister: bool
    const hasRemove: bool
    var listener: object?

    constructor (hasRegister: bool, hasRemove: bool)
      ensures this.hasRegister == hasRegister && this.hasRemove == hasRemove
      ensures listener == null
    {
      this.hasRegister := hasRegister;
      this.hasRemove := hasRemove;
      listener := null;
    }

    /** `onXxxChange?.(cb)`: register and replace. */
    method Register(l: object)
      modifies this
      ensures listener == if hasRegister then l else old(listener)
    {
      if hasRegister {
        listener := l;
      }
    }

    /** `removeXxxListener?.()`: clear the slot, whoever holds it. */
    method Remove()
      modifies this
      ensures listener == if hasRemove then null else old(listener)
    {
      if hasRemove {
        listener := null;
      }
    }
  }

  /** The document as an event target for `visibilitychange`: adding a
      listener that is already there changes nothing, and removing one
      removes exactly that listener. */
  class EventTarget {
    var listeners: set<object>

    constructor ()
      ensures listeners == {}
    {
      listeners := {};
    }

    method AddEventListener(l: object)
      modifies this
      ensures listeners == old(listeners) + {l}
    {
      listeners := listeners + {l};
    }

    method RemoveEventListener(l: object)
      modifies this
      ensures listeners == old(listeners) - {l}
    {
      listeners := listeners - {l};
    }
  }
}
