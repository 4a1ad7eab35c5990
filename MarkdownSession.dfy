/** One markdown editor session: `resolveCustomTextEditor` and the handlers
    `handleMarkdown` registers in src/provider/markdownEditorProvider.ts.

    The session binds a `Handler` to the webview panel of one document and keeps
    the two closure variables `content` and `lastManualSaveTime`; together with
    the document's text they are a `DocumentMirror.Mirror`, and every handler's
    effect on them is the corresponding transition of that module. */
module MarkdownSession {
  import opened Protocol
  import opened MarkdownText
  import opened NodePath
  import DocumentMirror
  import opened HostHandler

  /** A `vscode.TextDocument`. */
  class TextDocument {
    const uri: Uri
    var text: string

    constructor (uri: Uri, text: string)
      ensures this.uri == uri && this.text == text
    {
      this.uri := uri;
      this.text := text;
    }

    /** Another editor or process changes the document. */
    method ExternalEdit(newText: string)
      modifies this
      ensures text == newText
    {
      text := newText;
    }
  }

  /** What the provider owns across sessions: the global memento that stores
      scroll offsets, and the status-bar item showing the count. */
  class MarkdownEditorProvider {
    var state: map<string, int>
    var countStatus: CountStatus
    var countVisible: bool

    /** `stored` is what the global memento already holds: it outlives
        sessions and restarts of the editor. */
    constructor (stored: map<string, int>)
      ensures state == stored && !countVisible
    {
      state := stored;
      countStatus := CountStatus(1, 0);
      countVisible := false;
    }
  }

  /** A call the handlers make into VS Code. */
  datatype HostAction =
    | Execute(command: string)                  // `commands.executeCommand(command)`
    | OpenWithDefaultEditor(uri: Uri, active: bool)  // `vscode.openWith` in the active or the side column
    | OpenLinkTarget(action: LinkAction)        // the two ways `openLink` opens a URI
    | UpdateConfig(key: string, value: bool)    // `config.update(key, value, true)`

  /** The events `handleMarkdown` and `resolveCustomTextEditor` listen to all
      have listeners. */
  predicate ListensToMarkdownEvents(listeners: map<string, seq<Listener>>)
  {
    && "init" in listeners && "externalUpdate" in listeners && "command" in listeners
    && "openLink" in listeners && "scroll" in listeners && "img" in listeners
    && "quickOpen" in listeners && "editInVSCode" in listeners && "save" in listeners
    && "doSave" in listeners && "export" in listeners && "theme" in listeners
    && "saveOutline" in listeners && "developerTool" in listeners
  }

  const SaveCommand := "workbench.action.files.save"
  const QuickOpenCommand := "workbench.action.quickOpen"
  const DevToolsCommand := "workbench.action.toggleDevTools"

  /** The memento key of a document's scroll offset. */
  function ScrollKey(fsPath: string): string
  {
    "scrollTop_" + fsPath
  }

  /** `state.get(key, 0)`. */
  function StoredScrollTop(state: map<string, int>, fsPath: string): int
  {
    if ScrollKey(fsPath) in state then state[ScrollKey(fsPath)] else 0
  }

  /** The callback each event name ends up with once the editor is resolved:
      the closure `handleMarkdown` registered under that name, except for
      "developerTool", whose closure is replaced by the one
      `resolveCustomTextEditor` registers afterwards. */
  function CallbackFor(event: string): Callback
  {
    if event == "developerTool" then Callback("developerTool.resolve") else Callback(event)
  }

  /** Every listener list holds exactly the callback named for its event. */
  ghost predicate ResolvedListeners(listeners: map<string, seq<Listener>>)
  {
    forall e :: e in listeners ==> listeners[e] == [Wrapped(CallbackFor(e))]
  }

  /** `handler.on(event, ...)` for a closure named after its event. */
  method Listen(h: Handler, event: string)
    requires h.Valid() && ResolvedListeners(h.listeners)
    requires event != "developerTool" && event != InitEvent
    modifies h`listeners
    ensures h.Valid() && ResolvedListeners(h.listeners)
    ensures event in h.listeners && old(h.listeners.Keys) <= h.listeners.Keys
  {
    var _ := h.On(event, Callback(event));
  }

  /** The first half of the `handler.on` calls of `handleMarkdown`, in order. */
  method RegisterDocumentListeners(h: Handler)
    requires h.listeners == map[]
    modifies h`listeners
    ensures h.Valid() && ResolvedListeners(h.listeners)
    ensures && "init" in h.listeners && "externalUpdate" in h.listeners && "command" in h.listeners
            && "openLink" in h.listeners && "scroll" in h.listeners && "img" in h.listeners
            && "quickOpen" in h.listeners
  {
    var _ := h.On("init", Callback("init"));
    Listen(h, "externalUpdate");
    Listen(h, "command");
    Listen(h, "openLink");
    Listen(h, "scroll");
    Listen(h, "img");
    Listen(h, "quickOpen");
  }

  /** The rest of the `handler.on` calls of `handleMarkdown`, followed by the
      "developerTool" listener `resolveCustomTextEditor` adds. */
  method RegisterEditorListeners(h: Handler)
    requires h.Valid() && ResolvedListeners(h.listeners)
    modifies h`listeners
    ensures h.Valid() && ResolvedListeners(h.listeners)
    ensures old(h.listeners.Keys) <= h.listeners.Keys
    ensures && "editInVSCode" in h.listeners && "save" in h.listeners
            && "doSave" in h.listeners && "export" in h.listeners && "theme" in h.listeners
            && "saveOutline" in h.listeners && "developerTool" in h.listeners
  {
    Listen(h, "editInVSCode");
    Listen(h, "save");
    Listen(h, "doSave");
    Listen(h, "export");
    Listen(h, "theme");
    Listen(h, "saveOutline");
    ReplaceDeveloperTool(h);
  }

  /** `handleMarkdown`'s "developerTool" listener, then the one of
      `resolveCustomTextEditor`, which replaces it. */
  method ReplaceDeveloperTool(h: Handler)
    requires h.Valid() && ResolvedListeners(h.listeners)
    modifies h`listeners
    ensures h.Valid() && ResolvedListeners(h.listeners)
    ensures h.listeners == old(h.listeners)["developerTool" := [Wrapped(Callback("developerTool.resolve"))]]
  {
    var _ := h.On("developerTool", Callback("developerTool"));
    var _ := h.On("developerTool", Callback("developerTool.resolve"));
  }

  class MarkdownSession {
    const document: TextDocument
    const provider: MarkdownEditorProvider
    const handler: Handler
    /** The environment values sent with "open": the workspace configuration,
        VS Code's display language, and the webview URI of the editor's resources. */
    const config: EditorConfig
    const language: string
    const rootPath: string

    /** The snapshot of the document text last seen by or sent to the webview. */
    var content: string
    var lastManualSaveTime: Option<int>
    /** Calls made into VS Code, oldest first. */
    var actions: seq<HostAction>

    ghost predicate Valid()
      reads this, handler
    {
      && handler.Valid() && ResolvedListeners(handler.listeners)
      && ListensToMarkdownEvents(handler.listeners) && handler.watched == document.uri
    }

    function Mirror(): DocumentMirror.Mirror
      reads this, document
    {
      DocumentMirror.Mirror(content, lastManualSaveTime, document.text)
    }

    /** The "open" message "init" answers with. */
    function OpenMessage(): Message
      reads this, document, provider
    {
      Message("open", MarkdownOpen(Basename(document.uri.fsPath), config,
        StoredScrollTop(provider.state, document.uri.fsPath), language, rootPath, content))
    }

    /** `resolveCustomTextEditor`: binds a handler to the panel, seeds the
        snapshot with the document's text and registers the listeners. */
    constructor Resolve(document: TextDocument, provider: MarkdownEditorProvider,
                        config: EditorConfig, language: string, rootPath: string)
      ensures Valid() && fresh(handler)
      ensures this.document == document && this.provider == provider
      ensures this.config == config && this.language == language && this.rootPath == rootPath
      ensures Mirror() == DocumentMirror.Opened(document.text)
      ensures handler.outbox == [] && handler.notifications == [] && actions == []
      ensures !handler.disposed
    {
      var h := new Handler.Bind(document.uri);
      RegisterDocumentListeners(h);
      RegisterEditorListeners(h);
      this.document := document;
      this.provider := provider;
      this.handler := h;
      this.config := config;
      this.language := language;
      this.rootPath := rootPath;
      content := document.text;
      lastManualSaveTime := None;
      actions := [];
    }

    /** "init": sends the snapshot with the stored scroll offset (0 if none) and
        shows the count of the snapshot. */
    method Init()
      modifies handler`outbox, provider`countStatus, provider`countVisible
      ensures handler.outbox == old(handler.outbox) + handler.Posts(old(OpenMessage()))
      ensures provider.countStatus == CountOf(content) && provider.countVisible
      ensures provider.state == old(provider.state)
    {
      var open := OpenMessage();
      var _ := handler.Emit(open.kind, open.content);
      provider.countStatus := CountOf(content);
      provider.countVisible := true;
    }

    /** "externalUpdate", run after the document's text changed elsewhere. */
    method ExternalUpdate(now: int)
      modifies this`content, handler`outbox, provider`countStatus
      ensures Mirror() == DocumentMirror.ExternalUpdate(old(Mirror()), now).next
      ensures var r := DocumentMirror.ExternalUpdate(old(Mirror()), now);
        if r.update.Some? then
          handler.outbox == old(handler.outbox) + handler.Posts(Message("update", Text(r.update.value)))
          && provider.countStatus == CountOf(r.update.value)
        else
          handler.outbox == old(handler.outbox) && provider.countStatus == old(provider.countStatus)
    {
      if lastManualSaveTime.Some? && lastManualSaveTime.value != 0
        && now - lastManualSaveTime.value < DocumentMirror.SuppressionWindowMs {
        return;
      }
      var updatedText := StripCR(document.text);
      if content == updatedText {
        return;
      }
      content := updatedText;
      provider.countStatus := CountOf(content);
      var _ := handler.Emit("update", Text(updatedText));
    }

    /** "save": a full replace of the document and of the snapshot, unless inside
        the window after a "doSave". */
    method Save(newContent: string, now: int)
      modifies this`content, document, provider`countStatus
      ensures Mirror() == DocumentMirror.Save(old(Mirror()), newContent, now)
      ensures provider.countStatus ==
        if DocumentMirror.Suppressed(old(lastManualSaveTime), now) then old(provider.countStatus)
        else CountOf(newContent)
    {
      if lastManualSaveTime.Some? && lastManualSaveTime.value != 0
        && now - lastManualSaveTime.value < DocumentMirror.SuppressionWindowMs {
        return;
      }
      content := newContent;
      document.text := UpdateTextDocument(document.text, newContent);
      provider.countStatus := CountOf(content);
    }

    /** "doSave": records the time, replaces the document's text, counts the
        saved text and asks VS Code to write the file. The snapshot is untouched. */
    method DoSave(saved: string, now: int)
      modifies this`lastManualSaveTime, this`actions, document, provider`countStatus
      ensures Mirror() == DocumentMirror.DoSave(old(Mirror()), saved, now)
      ensures provider.countStatus == CountOf(saved)
      ensures actions == old(actions) + [Execute(SaveCommand)]
    {
      lastManualSaveTime := Some(now);
      document.text := UpdateTextDocument(document.text, saved);
      provider.countStatus := CountOf(saved);
      actions := actions + [Execute(SaveCommand)];
    }

    /** "scroll": stores the offset under the document's key. */
    method Scroll(scrollTop: int)
      modifies provider`state
      ensures provider.state == old(provider.state)[ScrollKey(document.uri.fsPath) := scrollTop]
    {
      provider.state := provider.state[ScrollKey(document.uri.fsPath) := scrollTop];
    }

    /** "openLink": opens the URI inside VS Code or externally. */
    method OpenLinkHandler(uri: string)
      modifies this`actions
      ensures actions == old(actions) + [OpenLinkTarget(OpenLink(uri))]
    {
      actions := actions + [OpenLinkTarget(OpenLink(uri))];
    }

    /** A callback the handler calls: runs the closure that registered it.
        Contents of an unexpected shape are ignored; "img", "export" and
        "theme" are not modelled and do nothing here. */
    method Run(call: Invocation, now: int)
      requires Valid()
      modifies this`content, this`lastManualSaveTime, this`actions, handler`outbox,
        document, provider
      ensures Valid()
      // the four listeners that share the mirror
      ensures call.callback == Callback("init") ==>
        handler.outbox == old(handler.outbox) + handler.Posts(old(OpenMessage())) && Mirror() == old(Mirror())
      ensures call.callback == Callback("externalUpdate") ==>
        var r := DocumentMirror.ExternalUpdate(old(Mirror()), now);
        Mirror() == r.next
        && handler.outbox == old(handler.outbox) + if r.update.Some? then handler.Posts(Message("update", Text(r.update.value))) else []
      ensures call == Invocation(Callback("save"), call.content) && call.content.Text? ==>
        Mirror() == DocumentMirror.Save(old(Mirror()), call.content.text, now)
      ensures call == Invocation(Callback("doSave"), call.content) && call.content.Text? ==>
        Mirror() == DocumentMirror.DoSave(old(Mirror()), call.content.text, now)
          && actions == old(actions) + [Execute(SaveCommand)]
      ensures call.callback.name !in {"init", "externalUpdate"} ==> handler.outbox == old(handler.outbox)
      // the listeners that store an offset or ask VS Code to do something
      ensures call.callback == Callback("scroll") && call.content.ScrollPosition? ==>
        provider.state == old(provider.state)[ScrollKey(document.uri.fsPath) := call.content.scrollTop]
      ensures call.callback != Callback("scroll") ==> provider.state == old(provider.state)
      ensures call.callback == Callback("openLink") && call.content.Text? ==>
        actions == old(actions) + [OpenLinkTarget(OpenLink(call.content.text))]
      ensures call.callback == Callback("quickOpen") ==> actions == old(actions) + [Execute(QuickOpenCommand)]
      ensures call.callback == Callback("developerTool.resolve") ==> actions == old(actions) + [Execute(DevToolsCommand)]
      ensures call.callback == Callback("command") && call.content.Text? ==>
        actions == old(actions) + [Execute(call.content.text)]
      ensures call.callback == Callback("editInVSCode") && call.content.Flag? ==>
        actions == old(actions) + [OpenWithDefaultEditor(document.uri, call.content.flag)]
      ensures call.callback == Callback("saveOutline") && call.content.Flag? ==>
        actions == old(actions) + [UpdateConfig("openOutline", call.content.flag)]
      ensures call.callback.name in {"init", "externalUpdate", "save", "scroll"} ==> actions == old(actions)
    {
      if call.callback.name in {"init", "externalUpdate", "save", "doSave"} {
        RunMirrored(call, now);
      } else {
        RunCommand(call);
      }
    }

    /** The listeners of "init", "externalUpdate", "save" and "doSave", which
        share the snapshot and the manual-save time. */
    method RunMirrored(call: Invocation, now: int)
      requires call.callback.name in {"init", "externalUpdate", "save", "doSave"}
      modifies this`content, this`lastManualSaveTime, this`actions, handler`outbox,
        document, provider`countStatus, provider`countVisible
      ensures call.callback == Callback("init") ==>
        handler.outbox == old(handler.outbox) + handler.Posts(old(OpenMessage())) && Mirror() == old(Mirror())
      ensures call.callback == Callback("externalUpdate") ==>
        var r := DocumentMirror.ExternalUpdate(old(Mirror()), now);
        Mirror() == r.next
        && handler.outbox == old(handler.outbox) + if r.update.Some? then handler.Posts(Message("update", Text(r.update.value))) else []
      ensures call == Invocation(Callback("save"), call.content) && call.content.Text? ==>
        Mirror() == DocumentMirror.Save(old(Mirror()), call.content.text, now)
      ensures call == Invocation(Callback("doSave"), call.content) && call.content.Text? ==>
        Mirror() == DocumentMirror.DoSave(old(Mirror()), call.content.text, now)
          && actions == old(actions) + [Execute(SaveCommand)]
      ensures call.callback.name in {"save", "doSave"} ==> handler.outbox == old(handler.outbox)
      ensures call.callback.name != "doSave" ==> actions == old(actions)
    {
      match call.callback.name {
        case "init" => Init();
        case "externalUpdate" => ExternalUpdate(now);
        case "save" =>
          if call.content.Text? { Save(call.content.text, now); }
        case "doSave" =>
          if call.content.Text? { DoSave(call.content.text, now); }
      }
    }

    /** The other listeners: they store a scroll offset or record a request to
        VS Code, and leave the document, the mirror and the outbox alone. */
    method RunCommand(call: Invocation)
      modifies this`actions, provider`state
      ensures call.callback == Callback("scroll") && call.content.ScrollPosition? ==>
        provider.state == old(provider.state)[ScrollKey(document.uri.fsPath) := call.content.scrollTop]
      ensures call.callback != Callback("scroll") ==> provider.state == old(provider.state)
      ensures call.callback == Callback("scroll") ==> actions == old(actions)
      ensures call.callback == Callback("openLink") && call.content.Text? ==>
        actions == old(actions) + [OpenLinkTarget(OpenLink(call.content.text))]
      ensures call.callback == Callback("quickOpen") ==> actions == old(actions) + [Execute(QuickOpenCommand)]
      ensures call.callback == Callback("developerTool.resolve") ==> actions == old(actions) + [Execute(DevToolsCommand)]
      ensures call.callback == Callback("command") && call.content.Text? ==>
        actions == old(actions) + [Execute(call.content.text)]
      ensures call.callback == Callback("editInVSCode") && call.content.Flag? ==>
        actions == old(actions) + [OpenWithDefaultEditor(document.uri, call.content.flag)]
      ensures call.callback == Callback("saveOutline") && call.content.Flag? ==>
        actions == old(actions) + [UpdateConfig("openOutline", call.content.flag)]
    {
      match call.callback.name {
        case "scroll" =>
          if call.content.ScrollPosition? { Scroll(call.content.scrollTop); }
        case "openLink" =>
          if call.content.Text? { OpenLinkHandler(call.content.text); }
        case "command" =>
          if call.content.Text? { actions := actions + [Execute(call.content.text)]; }
        case "quickOpen" => actions := actions + [Execute(QuickOpenCommand)];
        case "editInVSCode" =>
          if call.content.Flag? {
            actions := actions + [OpenWithDefaultEditor(document.uri, call.content.flag)];
          }
        case "saveOutline" =>
          if call.content.Flag? { actions := actions + [UpdateConfig("openOutline", call.content.flag)]; }
        case "developerTool.resolve" => actions := actions + [Execute(DevToolsCommand)];
        case _ =>
      }
    }

    /** A message from the webview: the handler dispatches it and the session
        runs the listener it names; a type nobody listens to changes nothing. */
    method Receive(m: Message, now: int)
      requires Valid()
      modifies this`content, this`lastManualSaveTime, this`actions, handler`outbox,
        handler`notifications, document, provider
      ensures Valid()
      ensures m.kind !in handler.listeners ==>
        unchanged(this, document, provider) && handler.outbox == old(handler.outbox)
        && handler.notifications == old(handler.notifications)
      ensures m.kind != "scroll" ==> provider.state == old(provider.state)
      ensures m.kind == "init" ==>
        handler.outbox == old(handler.outbox) + handler.Posts(old(OpenMessage())) && Mirror() == old(Mirror())
      ensures m.kind == "save" && m.content.Text? ==>
        Mirror() == DocumentMirror.Save(old(Mirror()), m.content.text, now)
      ensures m.kind == "doSave" && m.content.Text? ==>
        Mirror() == DocumentMirror.DoSave(old(Mirror()), m.content.text, now)
        && handler.outbox == old(handler.outbox)
    {
      var calls := handler.ReceiveMessage(m, map[]);
      if calls != [] {
        assert calls == [Invocation(CallbackFor(m.kind), m.content)];
        Run(calls[0], now);
      }
    }

    /** The document changed outside the webview and "externalUpdate" fires. */
    method ExternalChange(newText: string, now: int)
      requires Valid()
      modifies this`content, handler`outbox, provider`countStatus, document
      ensures Valid()
      ensures var r := DocumentMirror.Step(old(Mirror()), DocumentMirror.Timed(now, DocumentMirror.ExternalChange(newText)));
        Mirror() == r.next
        && handler.outbox == old(handler.outbox) + if r.update.Some? then handler.Posts(Message("update", Text(r.update.value))) else []
    {
      document.ExternalEdit(newText);
      ExternalUpdate(now);
    }
  }

  /** The round trip: a session opens with text `c`, the webview saves `c2`; a
      new panel on the same document is seeded with `c2`, not `c`. */
  method ReopenShowsSavedText(path: string, c: string, c2: string, config: EditorConfig)
    returns (first: seq<Message>, second: seq<Message>)
    ensures first == [Message("open", MarkdownOpen(Basename(path), config, 0, "en", "/res", c))]
    ensures second == [Message("open", MarkdownOpen(Basename(path), config, 0, "en", "/res", c2))]
  {
    var doc := new TextDocument(FileUri(path), c);
    var provider := new MarkdownEditorProvider(map[]);
    first := OpenThenSave(doc, provider, config, c2);
    second := OpenSays(doc, provider, config);
  }

  /** A new editor on `doc`: its page says "init" and is answered with the
      document's text and the stored offset. */
  method OpenSays(doc: TextDocument, provider: MarkdownEditorProvider, config: EditorConfig)
    returns (sent: seq<Message>)
    modifies doc, provider
    ensures sent == [Message("open", MarkdownOpen(Basename(doc.uri.fsPath), config,
      StoredScrollTop(old(provider.state), doc.uri.fsPath), "en", "/res", old(doc.text)))]
  {
    var s := new MarkdownSession.Resolve(doc, provider, config, "en", "/res");
    s.Receive(Message("init", NoContent), 3000);
    sent := s.handler.outbox;
  }

  /** The first editor of the round trip: its page says "init", then saves
      `c2`, which becomes the document's text; the stored offsets stay. */
  method OpenThenSave(doc: TextDocument, provider: MarkdownEditorProvider, config: EditorConfig, c2: string)
    returns (first: seq<Message>)
    modifies doc, provider
    ensures first == [Message("open", MarkdownOpen(Basename(doc.uri.fsPath), config,
      StoredScrollTop(old(provider.state), doc.uri.fsPath), "en", "/res", old(doc.text)))]
    ensures doc.text == c2 && provider.state == old(provider.state)
  {
    var s1 := new MarkdownSession.Resolve(doc, provider, config, "en", "/res");
    var open1 := s1.OpenMessage();
    s1.Receive(Message("init", NoContent), 1000);
    first := s1.handler.outbox;
    assert first == [open1];
    s1.Receive(Message("save", Text(c2)), 2000);
  }

  /** Echo suppression as the handlers implement it: after a "doSave" at
      t = 1000, an external change at t = 1500 sends no "update", even with a
      text the webview has never seen. */
  method ManualSaveSuppressesEcho(c: string, saved: string, other: string)
    returns (updates: seq<Message>, snapshot: string)
    ensures updates == [] && snapshot == c
  {
    var doc := new TextDocument(FileUri("/notes/a.md"), c);
    var provider := new MarkdownEditorProvider(map[]);
    var s := new MarkdownSession.Resolve(doc, provider, EditorConfig("en", false), "en", "/res");
    s.Receive(Message("doSave", Text(saved)), 1000);
    s.ExternalChange(other, 1500);
    updates := s.handler.outbox;
    snapshot := s.content;
  }
}
