/** The office viewer of src/provider/officeViewerProvider.ts: the choice of
    viewer from the file's extension, and the session whose "init" and
    "fileChange" listeners both send the "open" message. */
module OfficeViewer {
  import opened Protocol
  import opened NodePath
  import opened HostHandler

  /* ---------------- Case ---------------- */

  /** `toLowerCase` on one character; only ASCII letters are mapped, which
      is all the extensions compared below can contain. */
  function LowerChar(c: char): char
  {
    if 'A' <= c <= 'Z' then (c as int + 32) as char else c
  }

  function UpperChar(c: char): char
  {
    if 'a' <= c <= 'z' then (c as int - 32) as char else c
  }

  function ToLower(s: string): (r: string)
    ensures |r| == |s| && forall i :: 0 <= i < |s| ==> r[i] == LowerChar(s[i])
    ensures forall i :: 0 <= i < |r| ==> !('A' <= r[i] <= 'Z')
  {
    seq(|s|, i requires 0 <= i < |s| => LowerChar(s[i]))
  }

  function ToUpper(s: string): (r: string)
    ensures |r| == |s| && forall i :: 0 <= i < |s| ==> r[i] == UpperChar(s[i])
  {
    seq(|s|, i requires 0 <= i < |s| => UpperChar(s[i]))
  }

  /** Lower-casing what was upper-cased gives the lower-case form: the
      spellings ".XLSX", ".Xlsx" and ".xlsx" reach the switch alike. */
  lemma LowerOfUpper(s: string)
    ensures ToLower(ToUpper(s)) == ToLower(s)
  {
    forall i | 0 <= i < |s|
      ensures ToLower(ToUpper(s))[i] == ToLower(s)[i]
    {
      assert LowerChar(UpperChar(s[i])) == LowerChar(s[i]);
    }
  }

  /* ---------------- Routing ---------------- */

  /** The React views `ReactApp.view` is given as `route`. */
  datatype Route = Excel | Word | Font

  /** How the editor shows the file: the React view of a route, the HTML
      file itself rendered into the webview, or VS Code's default editor. */
  datatype Viewer = ReactView(route: Route) | InlineHtml | DefaultEditor

  const ExcelExtensions: seq<string> := [".xlsx", ".xlsm", ".xls", ".csv", ".ods"]
  const WordExtensions: seq<string> := [".docx", ".dotx"]
  const FontExtensions: seq<string> := [".ttf", ".woff", ".woff2", ".otf"]
  const HtmlExtensions: seq<string> := [".htm", ".html"]

  /** The `switch` over the lower-cased extension. The `default` branch's
      `if (route) break` never breaks, since no case before it sets a route. */
  function Classify(ext: string): (v: Viewer)
    ensures v == ReactView(Excel) <==> ext in ExcelExtensions
    ensures v == ReactView(Word) <==> ext in WordExtensions
    ensures v == ReactView(Font) <==> ext in FontExtensions
    ensures v == InlineHtml <==> ext in HtmlExtensions
    ensures v == DefaultEditor <==> ext !in ExcelExtensions + WordExtensions + FontExtensions + HtmlExtensions
  {
    match ext
    case ".xlsx" | ".xlsm" | ".xls" | ".csv" | ".ods" => ReactView(Excel)
    case ".docx" | ".dotx" => ReactView(Word)
    case ".ttf" | ".woff" | ".woff2" | ".otf" => ReactView(Font)
    case ".htm" | ".html" => InlineHtml
    case _ => DefaultEditor
  }

  /** What the `switch` compares: the lower-cased extension of `fsPath`. */
  function SwitchKey(fsPath: string): string
  {
    ToLower(Extname(fsPath))
  }

  /** The viewer of the document at `fsPath`. */
  function ViewerFor(fsPath: string): Viewer
  {
    Classify(SwitchKey(fsPath))
  }

  /** Upper-casing keeps what makes a string an extension. */
  lemma UpperIsExtension(name: string, ext: string)
    requires |ext| >= 1 && ext[0] == '.' && '.' !in ext[1..] && '/' !in ext
    requires name + ext != ".."
    ensures |ToUpper(ext)| >= 1 && ToUpper(ext)[0] == '.' && '.' !in ToUpper(ext)[1..] && '/' !in ToUpper(ext)
    ensures name + ToUpper(ext) != ".."
  {
    var upper := ToUpper(ext);
    forall i | 1 <= i < |upper| ensures upper[i] != '.' {
      assert ext[i] in ext[1..];
    }
    forall i | 0 <= i < |upper| ensures upper[i] != '/' {
      assert ext[i] in ext;
    }
  }

  /** The viewer depends on the file's extension only, in any case. */
  lemma ViewerOfFileName(dir: string, name: string, ext: string)
    requires |ext| >= 1 && ext[0] == '.' && '.' !in ext[1..] && '/' !in ext
    requires name != [] && '/' !in name && name + ext != ".."
    ensures ViewerFor(dir + "/" + name + ext) == Classify(ToLower(ext))
    ensures ViewerFor(dir + "/" + name + ToUpper(ext)) == ViewerFor(dir + "/" + name + ext)
  {
    var upper := ToUpper(ext);
    ExtnameOfFileName(dir, name, ext);
    UpperIsExtension(name, ext);
    ExtnameOfFileName(dir, name, upper);
    LowerOfUpper(ext);
    calc {
      ViewerFor(dir + "/" + name + upper);
      Classify(SwitchKey(dir + "/" + name + upper));
      Classify(ToLower(upper));
      Classify(ToLower(ext));
    }
  }

  /* ---------------- The session ---------------- */

  datatype Column = Active | Beside

  /** A call the provider makes into VS Code or onto the webview. */
  datatype OfficeAction =
    | OpenWithDefault(uri: Uri, column: Option<Column>)  // `vscode.openWith(uri, "default"[, column])`
    | ToggleDevTools
    | RenderHtml(uri: Uri)          // the HTML file rendered into the webview, again on every change
    | RenderReact(route: Route)     // `ReactApp.view(webview, { route })`

  const SendCallback := Callback("send")
  const EditCallback := Callback("editInVSCode")
  const DevToolCallback := Callback("developerTool")

  /** What resolving the editor shows first. */
  function InitialActions(uri: Uri): (r: seq<OfficeAction>)
    ensures SwitchKey(uri.fsPath) in ExcelExtensions ==> r == [RenderReact(Excel)]
    ensures SwitchKey(uri.fsPath) in WordExtensions ==> r == [RenderReact(Word)]
    ensures SwitchKey(uri.fsPath) in FontExtensions ==> r == [RenderReact(Font)]
    ensures SwitchKey(uri.fsPath) in HtmlExtensions ==> r == [RenderHtml(uri)]
    ensures SwitchKey(uri.fsPath) !in ExcelExtensions + WordExtensions + FontExtensions + HtmlExtensions ==>
      r == [OpenWithDefault(uri, None)]
  {
    match ViewerFor(uri.fsPath)
    case ReactView(route) => [RenderReact(route)]
    case InlineHtml => [RenderHtml(uri)]
    case DefaultEditor => [OpenWithDefault(uri, None)]
  }

  /** The "open" message: the extension as `extname` gives it, not
      lower-cased; the file's webview URI; the time as a nonce. */
  function OpenMessage(uri: Uri, webviewUri: string, now: int): (m: Message)
    ensures m.kind == "open" && m.content.OfficeOpen?
    ensures m.content.ext == Extname(uri.fsPath) && m.content.nonce == now
  {
    Message("open", OfficeOpen(Extname(uri.fsPath), webviewUri, now))
  }

  /** The four `on` calls of `resolveCustomEditor`, in order. */
  method RegisterOfficeListeners(h: Handler)
    requires h.listeners == map[]
    modifies h`listeners
    ensures h.Valid()
    ensures h.ListenersOf("init") == [Wrapped(SendCallback)]
    ensures h.ListenersOf("fileChange") == [Wrapped(SendCallback)]
    ensures h.ListenersOf("editInVSCode") == [Wrapped(EditCallback)]
    ensures h.ListenersOf("developerTool") == [Wrapped(DevToolCallback)]
  {
    var _ := h.On("editInVSCode", EditCallback);
    var _ := h.On("developerTool", DevToolCallback);
    assert h.ListenersOf("editInVSCode") == [Wrapped(EditCallback)];
    var _ := h.On("init", SendCallback);
    assert h.ListenersOf("init") == [Wrapped(SendCallback)];
    assert h.ListenersOf("editInVSCode") == [Wrapped(EditCallback)];
    assert h.ListenersOf("developerTool") == [Wrapped(DevToolCallback)];
    var _ := h.On("fileChange", SendCallback);
  }

  /** `resolveCustomEditor` for one document. `webviewUri` stands for
      `asWebviewUri(uri)`, which VS Code computes. */
  class OfficeSession {
    const uri: Uri
    const webviewUri: string
    const handler: Handler
    var actions: seq<OfficeAction>

    ghost predicate Valid()
      reads this, handler
    {
      && handler.Valid() && handler.watched == uri
      && handler.ListenersOf("init") == [Wrapped(SendCallback)]
      && handler.ListenersOf("fileChange") == [Wrapped(SendCallback)]
      && handler.ListenersOf("editInVSCode") == [Wrapped(EditCallback)]
      && handler.ListenersOf("developerTool") == [Wrapped(DevToolCallback)]
    }

    /** Binds the handler, registers the four listeners in source order and
        shows the file as its extension says. */
    constructor Resolve(uri: Uri, webviewUri: string)
      ensures Valid() && fresh(handler)
      ensures this.uri == uri && this.webviewUri == webviewUri
      ensures handler.outbox == [] && handler.notifications == [] && !handler.disposed
      ensures actions == InitialActions(uri)
    {
      var h := new Handler.Bind(uri);
      RegisterOfficeListeners(h);
      this.uri := uri;
      this.webviewUri := webviewUri;
      this.handler := h;
      actions := InitialActions(uri);
    }

    /** Runs a called listener. */
    method Run(call: Invocation, now: int)
      modifies this`actions, handler`outbox
      ensures call.callback == SendCallback ==>
        handler.outbox == old(handler.outbox) + handler.Posts(OpenMessage(uri, webviewUri, now)) && actions == old(actions)
      ensures call.callback != SendCallback ==> handler.outbox == old(handler.outbox)
      ensures call.callback == EditCallback && call.content.Flag? ==>
        actions == old(actions) + [OpenWithDefault(uri, Some(if call.content.flag then Active else Beside))]
      ensures call.callback == DevToolCallback ==> actions == old(actions) + [ToggleDevTools]
    {
      if call.callback == SendCallback {
        var _ := handler.Emit("open", OfficeOpen(Extname(uri.fsPath), webviewUri, now));
      } else if call.callback == EditCallback {
        if call.content.Flag? {
          actions := actions + [OpenWithDefault(uri, Some(if call.content.flag then Active else Beside))];
        }
      } else if call.callback == DevToolCallback {
        actions := actions + [ToggleDevTools];
      }
    }

    /** A message from the webview. */
    method Receive(m: Message, now: int)
      requires Valid()
      modifies this`actions, handler`outbox, handler`notifications
      ensures Valid()
      ensures m.kind == "init" ==> handler.outbox == old(handler.outbox) + handler.Posts(OpenMessage(uri, webviewUri, now))
      ensures m.kind !in handler.listeners ==> handler.outbox == old(handler.outbox) && actions == old(actions)
    {
      var calls := handler.ReceiveMessage(m, map[]);
      if calls != [] {
        Run(calls[0], now);
      }
    }

    /** The watcher reports a change: the same "open" is sent again, with the
        time of the change; nothing once the panel is disposed. */
    method FileChanged(now: int)
      requires Valid()
      modifies this`actions, handler`outbox, handler`notifications
      ensures Valid()
      ensures !handler.disposed ==> handler.outbox == old(handler.outbox) + [OpenMessage(uri, webviewUri, now)]
      ensures handler.disposed ==> handler.outbox == old(handler.outbox)
    {
      var calls := handler.FileChanged(uri, map[]);
      if calls != [] {
        Run(calls[0], now);
      }
    }
  }

  /** "init" and a file change at the same moment send the same message
      (`ExtnameOfFileName` says which extension it carries). */
  method InitAndChangeSendTheSameOpen(uri: Uri, webviewUri: string, now: int)
    returns (sent: seq<Message>)
    ensures sent == [OpenMessage(uri, webviewUri, now), OpenMessage(uri, webviewUri, now)]
  {
    var s := new OfficeSession.Resolve(uri, webviewUri);
    var open := OpenMessage(uri, webviewUri, now);
    s.Receive(Message("init", NoContent), now);
    assert s.handler.outbox == [open];
    assert !s.handler.disposed;
    s.FileChanged(now);
    sent := s.handler.outbox;
  }
}
