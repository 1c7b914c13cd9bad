/**
 * The action hooks: `useClipboard`, `useNotification`, `useFileSelect`,
 * `useFileSave`, `useErrorReporter` and `useTracking`. Each action forwards
 * one call to the bridge; the host's answer is the parameter `outcome`. The
 * stateful ones follow one shape: on success store the result and clear
 * the error, on failure record the error, keep the previous result and
 * rethrow; the file hooks also raise `loading` for the duration of the
 * call and lower it after either outcome.
 */
module ActionHooks {
  import opened Js
  import opened Types
  import opened Bridge
  import ToolIds

  /** How an action that awaited `outcome` ends for its caller, when it
      returns `value` on success. */
  function Rethrown<T>(outcome: Call<T>, value: T): (c: Completion<T>)
    ensures c.Throws? <==> outcome.Err?
    ensures outcome.Err? ==> c.error == outcome.error
    ensures !outcome.Err? ==> c.value == value
  {
    if outcome.Err? then Throws(outcome.error) else Returns(value)
  }

  /** `useClipboard()` */
  class ClipboardHook {
    var text: string
    var error: Option<Error>

    constructor ()
      ensures text == "" && error == None
    {
      text := "";
      error := None;
    }

    /** `read()`: on success the text (and the returned value) is the
        clipboard content, or "" when there is none. */
    method Read(outcome: Call<Option<string>>) returns (request: HostRequest, completion: Completion<string>)
      modifies this
      ensures request == ReadClipboard
      ensures outcome.Err? ==> text == old(text) && error == Some(outcome.error) && completion == Throws(outcome.error)
      ensures !outcome.Err? ==>
                && text == ClipboardText(if outcome.Ok? then outcome.value else None)
                && error == None && completion == Returns(text)
    {
      request := ReadClipboard;
      match outcome {
        case Err(e) =>
          error := Some(e);
          completion := Throws(e);
        case Absent =>
          text := ClipboardText(None);
          error := None;
          completion := Returns(text);
        case Ok(content) =>
          text := ClipboardText(content);
          error := None;
          completion := Returns(text);
      }
    }

    /** `write(content)`: on success the text is exactly `content`. */
    method Write(content: string, outcome: Call<()>) returns (request: HostRequest, completion: Completion<()>)
      modifies this
      ensures request == WriteClipboard(content)
      ensures completion == Rethrown(outcome, ())
      ensures outcome.Err? ==> text == old(text) && error == Some(outcome.error)
      ensures !outcome.Err? ==> text == content && error == None
    {
      request := WriteClipboard(content);
      if outcome.Err? {
        error := Some(outcome.error);
        completion := Throws(outcome.error);
      } else {
        text := content;
        error := None;
        completion := Returns(());
      }
    }

    /** `copy(content)` is `write(content)`. */
    method Copy(content: string, outcome: Call<()>) returns (request: HostRequest, completion: Completion<()>)
      modifies this
      ensures request == WriteClipboard(content)
      ensures completion == Rethrown(outcome, ())
      ensures outcome.Err? ==> text == old(text) && error == Some(outcome.error)
      ensures !outcome.Err? ==> text == content && error == None
    {
      request, completion := Write(content, outcome);
    }
  }

  /** `useNotification()` */
  class NotificationHook {
    var error: Option<Error>

    constructor ()
      ensures error == None
    {
      error := None;
    }

    method Show(title: string, body: string, options: Option<NotificationOptions>, outcome: Call<()>)
      returns (request: HostRequest, completion: Completion<()>)
      modifies this
      ensures request == ShowNotification(title, body, options)
      ensures completion == Rethrown(outcome, ())
      ensures error == if outcome.Err? then Some(outcome.error) else None
    {
      request := ShowNotification(title, body, options);
      if outcome.Err? {
        error := Some(outcome.error);
        completion := Throws(outcome.error);
      } else {
        error := None;
        completion := Returns(());
      }
    }
  }

  /** `res || null` for a dialog answer: a missing bridge gives null. An
      answer object is always truthy (`Js.Truthy` of `Obj`), so only a
      missing answer falls back. */
  function StoredResult<T>(outcome: Call<Option<T>>): (r: Option<T>)
    requires !outcome.Err?
    ensures r.Some? <==> outcome.Ok? && outcome.value.Some?
    ensures r.Some? ==> r == outcome.value
  {
    if outcome.Ok? then outcome.value else None
  }

  /** `useFileSelect()` */
  class FileSelectHook {
    var result: Option<FileSelectResult>
    var loading: bool
    var error: Option<Error>

    constructor ()
      ensures result == None && !loading && error == None
    {
      result := None;
      loading := false;
      error := None;
    }

    /** The part of `select` before the `await`: loading raised, error cleared. */
    method BeginSelect(options: Option<FileSelectOptions>) returns (request: HostRequest)
      modifies this`loading, this`error
      ensures request == SelectFile(options)
      ensures loading && error == None
    {
      loading := true;
      error := None;
      request := SelectFile(options);
    }

    /** The part after the `await`: the answer is stored or the error
        recorded, and `loading` is lowered either way. */
    method FinishSelect(outcome: Call<Option<FileSelectResult>>) returns (completion: Completion<Option<FileSelectResult>>)
      modifies this`result, this`loading, this`error
      ensures !loading
      ensures outcome.Err? ==> result == old(result) && error == Some(outcome.error) && completion == Throws(outcome.error)
      ensures !outcome.Err? ==> result == StoredResult(outcome) && error == old(error) && completion == Returns(result)
    {
      if outcome.Err? {
        error := Some(outcome.error);
        completion := Throws(outcome.error);
      } else {
        result := StoredResult(outcome);
        completion := Returns(result);
      }
      loading := false;
    }

    /** `select(options)` as a whole. */
    method Select(options: Option<FileSelectOptions>, outcome: Call<Option<FileSelectResult>>)
      returns (request: HostRequest, completion: Completion<Option<FileSelectResult>>)
      modifies this
      ensures request == SelectFile(options) && !loading
      ensures outcome.Err? ==> result == old(result) && error == Some(outcome.error) && completion == Throws(outcome.error)
      ensures !outcome.Err? ==> result == StoredResult(outcome) && error == None && completion == Returns(result)
    {
      request := BeginSelect(options);
      completion := FinishSelect(outcome);
    }
  }

  /** `useFileSave()` */
  class FileSaveHook {
    var result: Option<FileSaveResult>
    var loading: bool
    var error: Option<Error>

    constructor ()
      ensures result == None && !loading && error == None
    {
      result := None;
      loading := false;
      error := None;
    }

    method BeginSave(content: FileContent, options: Option<FileSaveOptions>) returns (request: HostRequest)
      modifies this`loading, this`error
      ensures request == SaveFileDialog(content, options)
      ensures loading && error == None
    {
      loading := true;
      error := None;
      request := SaveFileDialog(content, options);
    }

    method FinishSave(outcome: Call<Option<FileSaveResult>>) returns (completion: Completion<Option<FileSaveResult>>)
      modifies this`result, this`loading, this`error
      ensures !loading
      ensures outcome.Err? ==> result == old(result) && error == Some(outcome.error) && completion == Throws(outcome.error)
      ensures !outcome.Err? ==> result == StoredResult(outcome) && error == old(error) && completion == Returns(result)
    {
      if outcome.Err? {
        error := Some(outcome.error);
        completion := Throws(outcome.error);
      } else {
        result := StoredResult(outcome);
        completion := Returns(result);
      }
      loading := false;
    }

    /** `save(content, options)` as a whole. */
    method Save(content: FileContent, options: Option<FileSaveOptions>, outcome: Call<Option<FileSaveResult>>)
      returns (request: HostRequest, completion: Completion<Option<FileSaveResult>>)
      modifies this
      ensures request == SaveFileDialog(content, options) && !loading
      ensures outcome.Err? ==> result == old(result) && error == Some(outcome.error) && completion == Throws(outcome.error)
      ensures !outcome.Err? ==> result == StoredResult(outcome) && error == None && completion == Returns(result)
    {
      request := BeginSave(content, options);
      completion := FinishSave(outcome);
    }
  }

  /** What `report` accepts: `Error | string`. */
  datatype Reported = Message(text: string) | Failure(error: Error)

  /** `typeof error === 'string' ? error : error.message` */
  function ReportedMessage(e: Reported): (message: string)
    ensures e.Message? ==> message == e.text
    ensures e.Failure? ==> message == e.error.message
  {
    match e
    case Message(text) => text
    case Failure(err) => err.message
  }

  /** `useErrorReporter()`: bound to the injected id, or "unknown". */
  class ErrorReporter {
    const toolId: string

    constructor (injected: Option<string>)
      ensures toolId == ToolIds.InjectedOrUnknown(injected) && toolId != ""
    {
      toolId := ToolIds.InjectedOrUnknown(injected);
    }

    /** `report(error, context)`: forwards the normalised message under the
        hook's id; a host failure propagates. */
    method Report(error: Reported, context: Value, outcome: Call<()>) returns (request: HostRequest, completion: Completion<()>)
      ensures request == ReportToolError(toolId, ReportedMessage(error), context)
      ensures RequestToolId(request) == Some(toolId)
      ensures completion == Rethrown(outcome, ())
    {
      request := ReportToolError(toolId, ReportedMessage(error), context);
      completion := Rethrown(outcome, ());
    }
  }

  /** `useTracking()`: bound to the injected id, or "unknown". */
  class Tracker {
    const toolId: string

    constructor (injected: Option<string>)
      ensures toolId == ToolIds.InjectedOrUnknown(injected) && toolId != ""
    {
      toolId := ToolIds.InjectedOrUnknown(injected);
    }

    method TrackEvent(eventName: string, properties: Value, outcome: Call<()>) returns (request: HostRequest, completion: Completion<()>)
      ensures request == TrackToolEvent(toolId, eventName, properties)
      ensures RequestToolId(request) == Some(toolId)
      ensures completion == Rethrown(outcome, ())
    {
      request := TrackToolEvent(toolId, eventName, properties);
      completion := Rethrown(outcome, ());
    }

    method TrackTiming(eventName: string, durationMs: int, outcome: Call<()>) returns (request: HostRequest, completion: Completion<()>)
      ensures request == TrackToolTiming(toolId, eventName, durationMs)
      ensures RequestToolId(request) == Some(toolId)
      ensures completion == Rethrown(outcome, ())
    {
      request := TrackToolTiming(toolId, eventName, durationMs);
      completion := Rethrown(outcome, ());
    }
  }
}
