/** Both ends of the markdown editor together: the extension host's session
    of src/provider/markdownEditorProvider.ts and the page of
    resource/vditor/index.js, connected by passing each posted message to the
    other side. */
module EditorRoundTrip {
  import opened Protocol
  import opened NodePath
  import MarkdownSession
  import WebviewPage

  /** The page, once loaded, has posted "init". */
  method PageSaysInit() returns (hello: Message)
    ensures hello == Message("init", NoContent)
  {
    var page := new WebviewPage.WebviewPage.Load(true);
    hello := page.table.posted[0];
  }

  /** The host answers "init" with the document's "open" message. */
  method HostAnswersInit(path: string, text: string, config: EditorConfig, hello: Message)
    returns (open: Message)
    requires hello.kind == "init"
    ensures open == Message("open", MarkdownOpen(Basename(path), config, 0, "en", "/res", text))
  {
    var doc := new MarkdownSession.TextDocument(FileUri(path), text);
    var provider := new MarkdownSession.MarkdownEditorProvider(map[]);
    var session := new MarkdownSession.MarkdownSession.Resolve(doc, provider, config, "en", "/res");
    assert session.OpenMessage() == Message("open", MarkdownOpen(Basename(path), config, 0, "en", "/res", text));
    session.Receive(hello, 1000);
    open := session.handler.outbox[0];
  }

  /** A page given "open" shows its content. */
  method PageShowsOpen(open: Message) returns (shown: string)
    requires open.kind == "open" && open.content.MarkdownOpen?
    ensures shown == open.content.content
  {
    var page := new WebviewPage.WebviewPage.Load(true);
    page.Deliver(Some(open));
    shown := page.value;
  }

  /** The page loads and says "init"; the host answers with "open", and the
      page's editor shows the document's text under the file's name. */
  method OpenShowsDocument(path: string, text: string, config: EditorConfig)
    returns (shown: string, title: string)
    ensures shown == text && title == Basename(path)
  {
    var hello := PageSaysInit();
    var open := HostAnswersInit(path, text, config, hello);
    shown := PageShowsOpen(open);
    title := open.content.title;
  }

  /** On an opened page the user's edit is posted as "save". */
  method PagePostsEdit(open: Payload, edited: string) returns (save: Message)
    requires open.MarkdownOpen?
    ensures save == Message("save", Text(edited))
  {
    var page := new WebviewPage.WebviewPage.Load(true);
    page.Deliver(Some(Message("open", open)));
    assert page.table.posted == [Message("init", NoContent)];
    page.Input(edited);
    save := page.table.posted[1];
  }

  /** The host makes a posted "save" the document's text. */
  method HostAppliesSave(path: string, text: string, edited: string, config: EditorConfig)
    returns (saved: string)
    ensures saved == edited
  {
    var doc := new MarkdownSession.TextDocument(FileUri(path), text);
    var provider := new MarkdownSession.MarkdownEditorProvider(map[]);
    var session := new MarkdownSession.MarkdownSession.Resolve(doc, provider, config, "en", "/res");
    session.Receive(Message("save", Text(edited)), 2000);
    saved := doc.text;
  }

  /** Both halves together: the user's edit on the page becomes the document's
      text on the host. */
  method EditReachesDocument(path: string, text: string, edited: string, open: Payload)
    returns (saved: string)
    requires open.MarkdownOpen?
    ensures saved == edited
  {
    var save := PagePostsEdit(open, edited);
    saved := HostAppliesSave(path, text, save.content.text, open.config);
  }
}
