# markdown-siyuaner: the editor's message channel, in Dafny

The VS Code extension opens markdown files in a webview that runs the Vditor
editor, and office files (spreadsheets, Word documents, fonts, HTML) in a
read-only viewer. The model covers the code that keeps the two sides in step.

- **The host's event channel** (`Handler`, `HostHandler` module, src/utils/handler.ts).
  It is bound to one panel and one file watcher. `on` replaces a listener,
  except for "init", which accumulates listeners. `emit` posts one message.
  Incoming messages and file changes are dispatched by name. A callback that
  throws becomes an error notification. Disposing the panel disposes the
  watcher and dispatches "dispose".
- **The markdown session** (`MarkdownSession`, `DocumentMirror` and
  `MarkdownText` modules, src/provider/markdownEditorProvider.ts).
  - The handlers "init", "externalUpdate", "save", "doSave", "scroll",
    "openLink", "command", "quickOpen", "editInVSCode", "saveOutline" and
    "developerTool".
  - The 800 ms suppression window that follows a "doSave".
  - The carriage-return-insensitive comparison that decides whether an
    external change is forwarded as "update".
  - The status-bar count, the full-document replace and the `openLink`
    regular expression.
  - The two closure variables (`content`, `lastManualSaveTime`) and the
    document's text form a `Mirror`. Each handler is a pure transition on it,
    and the `MarkdownSession` class is proved to perform exactly that
    transition.
- **The office viewer** (`OfficeViewer` module, src/provider/officeViewerProvider.ts).
  - The lower-cased extension picks the React route (excel, word, font), the
    inline HTML view or VS Code's default editor.
  - "init" and "fileChange" both send the same "open" message.
- **Node's `path.basename` and `path.extname`** on POSIX paths (`NodePath` module).
- **The drive-root loop** `getFolders` (`Common` module, src/utils/common.ts).
- **The webview scripts** (`WebviewEvents` and `WebviewPage` modules,
  resource/vditor/index.js and resource/vditor/vscode.js).
  - The `events` table: one handler per name, last registration wins. In
    index.js, `window.handler` and `window.vscodeEvent` are two objects over
    index.js's one table. vscode.js has its own table, its own
    `window.handler` and its own `acquireVsCodeApi` call.
  - The page object is index.js's page. vscode.js's click, toolbar and upload
    handlers (`WebviewPage.LinkClick`, `ToolbarClick`, `UploadFiles`) are
    placed on that same object, so that both scripts' decisions can be stated
    over one page.
  - `receive` and `postMessage`, the latter guarded by `acquireVsCodeApi`.
  - The "open" and "update" handlers and Vditor's `input`, which sends "save".
  - Ctrl+wheel zoom, F12, bracket and quote auto-pairing.
  - Link clicks (an image inside a link opens the link).
  - The toolbar's walk over at most three elements.
  - Both image-upload handlers.
- **Both ends together** (`EditorRoundTrip` module).
  - The page's "init" gets an "open" carrying the document.
  - An edit on the page becomes the document's text.

Time (`Date.now()`) is the parameter `now`. VS Code's display language, the
workspace configuration and the webview URIs are parameters too. Listener
closures are named `Callback`s; the session maps each name back to its
handler. Which callbacks throw, and with what message, is the parameter
`thrown`.

Behaviour of the code that the model keeps:

- Only "doSave" starts the suppression window. "save" does not start it, and
  is itself ignored inside it.
- "doSave" leaves the snapshot `content` unchanged, because its parameter
  shadows the variable. If the snapshot differed from the saved text, an
  external change handled after the window therefore forwards that text as an
  "update" (`DoSaveEchoReturnsAfterWindow`). In the usual run, the editor's
  `input` has already sent "save" with the same text outside the window; the
  snapshot then equals the saved text and nothing comes back
  (`SaveBeforeDoSaveSilencesEcho`).
- The host has no listener for "saveToolbarToConfig", which vscode.js posts
  for the outline button. It has none for "uploadOrPasteImage", which
  vscode.js posts for each uploaded file, either. Both messages are
  dispatched to nobody.
- `emit` after disposal posts nothing: the disposed panel has no webview to
  post to.
- The snapshot taken when the editor opens keeps carriage returns, while every
  later comparison strips them. For a document with CRLF line endings, the
  first external change handled outside the window is therefore forwarded as
  an "update" even when the text is unchanged
  (`CRLFDocumentFirstEchoUpdates`). Later ones are compared without carriage
  returns (`CRLFEchoIgnored`).

## Model

| member | source | states |
|---|---|---|
| HostHandler.Registered | src/utils/handler.ts:29-42 | after `on`, the new wrapped callback is last; "init" keeps every earlier listener; any other name with at most one listener is left with only the new one |
| HostHandler.InitKeepsEveryCallback | src/utils/handler.ts:30-36 | registering any number of "init" callbacks keeps all earlier ones and appends the new ones in registration order |
| HostHandler.LastRegistrationWins | src/utils/handler.ts:30-36 | for any other name, after any non-empty run of registrations exactly one listener is left: the last one's |
| HostHandler.Invocations | src/utils/handler.ts:22-24 | dispatch makes exactly one call per listener |
| HostHandler.InvocationsCallEveryListener | src/utils/handler.ts:22-24 | the i-th call goes to the i-th listener, with the dispatched content |
| HostHandler.SingleListenerCall | src/utils/handler.ts:36-42 | an event with one listener calls it once, and shows at most that call's failure |
| HostHandler.FailureOf | src/utils/handler.ts:37-41 | a call shows at most one notification |
| HostHandler.Failures | src/utils/handler.ts:36-42 | a dispatch shows no more notifications than it made calls |
| HostHandler.FailuresAppend | src/utils/handler.ts:36-42 | the notifications of two runs of calls are those of the first run followed by those of the second |
| HostHandler.EveryCallThrew | src/utils/handler.ts:37-41 | when every called callback throws, there is one notification per call, in call order, each the message of that call's error |
| HostHandler.SilentIffNoneThrew | src/utils/handler.ts:36-42 | no notification is shown if and only if no called callback throws |
| HostHandler.Handler.Bind | src/utils/handler.ts:8-26 | a bound channel has no listeners, has posted nothing, and its panel and watcher on the document are live |
| HostHandler.Handler.On | src/utils/handler.ts:29-44 | only the event's own list changes, as `Registered` says; an event other than "init" is left with exactly the new listener; at most one listener per non-"init" name is preserved; returns the handler itself |
| HostHandler.Handler.Emit | src/utils/handler.ts:47-50 | while the panel lives, posts exactly `{type, content}` after everything posted before; after disposal posts nothing; returns the handler itself |
| HostHandler.Handler.Dispatch | src/utils/handler.ts:36-42 | every listener of the event is called with the content; each thrown error adds one notification, in call order |
| HostHandler.Handler.ReceiveMessage | src/utils/handler.ts:21-24 | a webview message is dispatched under its type; a type without listeners calls nothing and shows nothing |
| HostHandler.Handler.FileChanged | src/utils/handler.ts:11-14 | a change reported by a live watcher is dispatched as "fileChange"; a disposed watcher dispatches nothing |
| HostHandler.Handler.PanelDisposed | src/utils/handler.ts:16-19 | disposal disposes the watcher, then dispatches "dispose" |
| HostHandler.SecondSaveHandlerWins | src/utils/handler.ts:30-36 | with two "save" registrations, one "save" message calls only the second, once |
| HostHandler.FailureIsolation | src/utils/handler.ts:36-42 | a callback that throws is reported once, and a later event still reaches its own listener |
| HostHandler.DisposeReleasesWatcher | src/utils/handler.ts:16-19 | after disposal, "dispose" has run, file changes dispatch nothing, and `emit` posts nothing |
| Common.GetFolders | src/utils/common.ts:4-10 | returns 26 roots; the k-th is the drive `X:/` whose letter has code 65 + k |
| Common.FoldersAscendAndAreDistinct | src/utils/common.ts:6-8 | the roots run from `A:/` to `Z:/` with strictly ascending letters, so none repeats |
| MarkdownText.StripCR | src/provider/markdownEditorProvider.ts:97 | the result has no carriage return and is no longer than the input |
| MarkdownText.StripCRKeepsOtherCharacters | src/provider/markdownEditorProvider.ts:97 | the result holds every other character of the input, in the same numbers: only carriage returns are removed |
| MarkdownText.StripCRAppend | src/provider/markdownEditorProvider.ts:97 | stripping distributes over concatenation |
| MarkdownText.StripCRFixedPoints | src/provider/markdownEditorProvider.ts:97 | a text is unchanged by stripping if and only if it has no carriage return |
| MarkdownText.StripCRIdempotent | src/provider/markdownEditorProvider.ts:97 | stripping twice is stripping once |
| MarkdownText.LineCount | src/provider/markdownEditorProvider.ts:189 | every text, the empty one included, has at least one line |
| MarkdownText.CountOf | src/provider/markdownEditorProvider.ts:188-190 | the count shows the text's length and at least one line |
| MarkdownText.SingleLineIffNoBreak | src/provider/markdownEditorProvider.ts:189 | a text has one line if and only if it contains neither "\r" nor "\n" |
| MarkdownText.CRLFIsOneBreak | src/provider/markdownEditorProvider.ts:189 | joining two texts with "\r\n" gives exactly the lines of both: the pair is one break, even after a lone "\r" |
| MarkdownText.LinesOfLFText | src/provider/markdownEditorProvider.ts:189 | a text without carriage returns has one line more than it has line feeds |
| MarkdownText.LongestEndAt | src/provider/markdownEditorProvider.ts:109-110 | finds the greedy end of a match of `/https:\/\/file.*\.net/i` from a given start, or shows that there is none |
| MarkdownText.FirstMatchFrom | src/provider/markdownEditorProvider.ts:109-110 | finds the leftmost start with its greedy end, or shows that no match starts at or after the given offset |
| MarkdownText.OpenLink | src/provider/markdownEditorProvider.ts:106-116 | the URI is opened inside VS Code if and only if the pattern matches; the path is then the URI without the leftmost-longest match; otherwise the URI is opened externally, unchanged |
| MarkdownText.NoFileHostOpensExternally | src/provider/markdownEditorProvider.ts:109-115 | a URI that contains "https://file" in no case is opened externally as it is |
| MarkdownText.LineStart | src/provider/markdownEditorProvider.ts:194 | a line's start offset lies within the text |
| MarkdownText.LineStartPastEnd | src/provider/markdownEditorProvider.ts:194 | position (`lineCount`, 0) is the end of the text |
| MarkdownText.LinesStartAfterBreaks | src/provider/markdownEditorProvider.ts:194 | every line but the first starts right after a line-break character |
| MarkdownText.UpdateTextDocument | src/provider/markdownEditorProvider.ts:192-196 | replacing (0, 0) to (`lineCount`, 0) leaves an LF document exactly equal to the new content |
| DocumentMirror.Opened | src/provider/markdownEditorProvider.ts:56 | the snapshot starts as the document's text, carriage returns kept, with no manual save recorded |
| DocumentMirror.ExternalUpdate | src/provider/markdownEditorProvider.ts:92-102 | an "update" is emitted if and only if the window is not active and the stripped text differs from the snapshot; it carries the stripped text, which becomes the snapshot; otherwise nothing changes |
| DocumentMirror.Save | src/provider/markdownEditorProvider.ts:134-138 | inside the window nothing changes; otherwise both the snapshot and the document become the new content |
| DocumentMirror.DoSave | src/provider/markdownEditorProvider.ts:139-143 | records the time and makes the document the saved text; the snapshot is left as it was |
| DocumentMirror.WindowSilencesEverything | src/provider/markdownEditorProvider.ts:92-140 | after a "doSave" at t, any run of "save" messages and external changes before t + 800 emits no "update" and keeps the snapshot and the save time |
| DocumentMirror.TimeIrrelevantBeforeManualSave | src/provider/markdownEditorProvider.ts:76-140 | before any "doSave", the same events at other times produce the same run |
| DocumentMirror.UpdatesHaveNoCR | src/provider/markdownEditorProvider.ts:97-102 | no "update" the host emits ever contains a carriage return |
| DocumentMirror.CRLFEchoIgnored | src/provider/markdownEditorProvider.ts:97-98 | against a snapshot without "\r", an external change whose text differs from it only by "\r" emits nothing, at any time |
| DocumentMirror.CRLFDocumentFirstEchoUpdates | src/provider/markdownEditorProvider.ts:56-101 | on a freshly opened document that contains "\r", the first external change emits an "update" carrying the text without "\r", even if nothing changed |
| DocumentMirror.ExternalUpdateIdempotent | src/provider/markdownEditorProvider.ts:97-99 | an external change handled outside the window emits nothing when handled again |
| DocumentMirror.SavedTextSeedsNextEditor | src/provider/markdownEditorProvider.ts:134-137 | after a "save" outside the window, the next editor opened on the document starts from the saved text |
| DocumentMirror.DoSaveEchoReturnsAfterWindow | src/provider/markdownEditorProvider.ts:139-141 | if the snapshot differed from the saved text, an external change handled after the window forwards that text as an "update" |
| DocumentMirror.SaveBeforeDoSaveSilencesEcho | src/provider/markdownEditorProvider.ts:134-141 | when a "save" of the same text outside the window came before the "doSave", the external change reporting that text emits nothing, at any later time |
| MarkdownSession.MarkdownEditorProvider.constructor | src/provider/markdownEditorProvider.ts:19-23 | a new provider reads its scroll offsets from the global memento as they were stored before, and its count is hidden |
| MarkdownSession.RegisterDocumentListeners | src/provider/markdownEditorProvider.ts:80-130 | the first seven `on` calls leave one listener per name, each the closure of that name |
| MarkdownSession.RegisterEditorListeners | src/provider/markdownEditorProvider.ts:131-171 | the remaining `on` calls keep every earlier name and add the rest, one listener each |
| MarkdownSession.ReplaceDeveloperTool | src/provider/markdownEditorProvider.ts:38-41 | the "developerTool" listener of `resolveCustomTextEditor` replaces the one of `handleMarkdown`; no other name changes |
| MarkdownSession.MarkdownSession.Resolve | src/provider/markdownEditorProvider.ts:25-42 | the session listens to every handled event with one listener each, has a live panel and watcher on the document, has posted nothing, and its mirror is `Opened` on the document's text |
| MarkdownSession.MarkdownSession.Init | src/provider/markdownEditorProvider.ts:80-91 | while the panel lives, posts "open" with the title, configuration, stored scroll offset (0 if none), language, resource root and snapshot; shows the snapshot's count |
| MarkdownSession.MarkdownSession.ExternalUpdate | src/provider/markdownEditorProvider.ts:92-102 | performs `DocumentMirror.ExternalUpdate`: posts "update" and recounts exactly when that transition emits one |
| MarkdownSession.MarkdownSession.Save | src/provider/markdownEditorProvider.ts:134-138 | performs `DocumentMirror.Save` and recounts unless inside the window |
| MarkdownSession.MarkdownSession.DoSave | src/provider/markdownEditorProvider.ts:139-143 | performs `DocumentMirror.DoSave`, counts the saved text and asks VS Code to save the file |
| MarkdownSession.MarkdownSession.Scroll | src/provider/markdownEditorProvider.ts:117-119 | stores the offset under `scrollTop_<path>` and changes no other key |
| MarkdownSession.MarkdownSession.OpenLinkHandler | src/provider/markdownEditorProvider.ts:106-116 | asks VS Code to open the link as `OpenLink` decides |
| MarkdownSession.MarkdownSession.Run | src/provider/markdownEditorProvider.ts:80-168 | each callback does what its handler does: "init" posts the open message; "externalUpdate", "save" and "doSave" perform their mirror transitions, and "externalUpdate" posts its "update" exactly when the transition emits one; "scroll" stores its offset under the document's key and is the only one to touch the stored offsets; "openLink" records the `OpenLink` decision; "command", "quickOpen", "editInVSCode", "saveOutline" and "developerTool" record their one VS Code call; only "init" and "externalUpdate" post, and "init", "externalUpdate", "save" and "scroll" record no action |
| MarkdownSession.MarkdownSession.RunCommand | src/provider/markdownEditorProvider.ts:103-168 | "scroll" stores its offset under the document's key and nothing else touches the stored offsets; "openLink" records the `OpenLink` decision; "command", "quickOpen", "editInVSCode", "saveOutline" and "developerTool" each record exactly their one VS Code call |
| MarkdownSession.MarkdownSession.Receive | src/utils/handler.ts:21-24 | a message nobody listens to changes nothing; "init", "save" and "doSave" messages have the effects of their handlers |
| MarkdownSession.MarkdownSession.ExternalChange | src/provider/markdownEditorProvider.ts:92-102 | an edit made elsewhere followed by "externalUpdate" is one `DocumentMirror.Step` |
| MarkdownSession.ReopenShowsSavedText | src/provider/markdownEditorProvider.ts:134-138 | an editor opened after a "save" is sent the saved text, not the original |
| MarkdownSession.OpenThenSave | src/provider/markdownEditorProvider.ts:80-138 | an editor's page says "init" and is sent the document's text; its "save" then makes the saved text the document's text and leaves the stored offsets alone |
| MarkdownSession.OpenSays | src/provider/markdownEditorProvider.ts:80-91 | a new editor on a document answers its page's "init" with the document's current text and stored offset |
| MarkdownSession.ManualSaveSuppressesEcho | src/provider/markdownEditorProvider.ts:94-95 | an external change 500 ms after a "doSave" posts no "update" and keeps the snapshot |
| NodePath.Basename | src/provider/markdownEditorProvider.ts:84 | the title contains no '/' |
| NodePath.BasenameOfFileName | src/provider/markdownEditorProvider.ts:84 | the base name of `dir/name` is `name`, whatever the directory, with or without a trailing '/' |
| NodePath.Extname | src/provider/officeViewerProvider.ts:31 | the extension is empty or starts with its only '.' and contains no '/'; it is a suffix of the base name |
| NodePath.ExtnameOfFileName | src/provider/officeViewerProvider.ts:47 | the extension of `dir/name.ext` is `.ext`, whatever the directory |
| OfficeViewer.ToLower | src/provider/officeViewerProvider.ts:47 | lower-cases each character in place and leaves no ASCII capital |
| OfficeViewer.LowerOfUpper | src/provider/officeViewerProvider.ts:47 | lower-casing an upper-cased extension gives its lower-case form |
| OfficeViewer.Classify | src/provider/officeViewerProvider.ts:48-76 | each route is chosen if and only if the extension is one of its case labels; anything else falls to VS Code's default editor |
| OfficeViewer.ViewerOfFileName | src/provider/officeViewerProvider.ts:47-76 | the viewer depends only on the file's extension, and not on its case |
| OfficeViewer.InitialActions | src/provider/officeViewerProvider.ts:46-77 | resolving does exactly one thing: the Excel, Word or Font React view for their extensions, the HTML file itself for ".htm" and ".html", and VS Code's default editor, in no particular column, for any other extension; extensions are compared lower-cased |
| OfficeViewer.OpenMessage | src/provider/officeViewerProvider.ts:29-34 | "open" carries the extension as `extname` gives it, not lower-cased, and the time as nonce |
| OfficeViewer.RegisterOfficeListeners | src/provider/officeViewerProvider.ts:37-44 | after the four `on` calls, "init" and "fileChange" both call `send`, and the other two names have their own listener |
| OfficeViewer.OfficeSession.Resolve | src/provider/officeViewerProvider.ts:19-77 | the session has these listeners, has posted nothing, and performs `InitialActions` |
| OfficeViewer.OfficeSession.Run | src/provider/officeViewerProvider.ts:29-42 | while the panel lives, `send` posts the open message; "editInVSCode" opens the default editor in the active column or beside it; "developerTool" toggles the tools |
| OfficeViewer.OfficeSession.Receive | src/provider/officeViewerProvider.ts:43 | "init" posts the open message while the panel lives; a message nobody listens to posts nothing |
| OfficeViewer.OfficeSession.FileChanged | src/provider/officeViewerProvider.ts:44 | a change posts the open message again while the watcher lives, and nothing after disposal |
| OfficeViewer.InitAndChangeSendTheSameOpen | src/provider/officeViewerProvider.ts:43-44 | "init" and a file change at the same moment post the same message |
| WebviewEvents.Receive | resource/vditor/index.js:9-14 | a handler is called if and only if there is a message and its type has a handler; it is called with the message's content |
| WebviewEvents.OnChangesOnlyItsName | resource/vditor/index.js:19-22 | registering one name changes nothing that another name receives |
| WebviewEvents.EventTable.constructor | resource/vditor/index.js:2-8 | the table starts empty, with nothing posted |
| WebviewEvents.EventTable.Post | resource/vditor/index.js:4 | a message is delivered if and only if the VS Code API was acquired |
| WebviewEvents.VscodeEvent.On | resource/vditor/index.js:19-22 | the name's single slot now holds the handler, whatever it held; returns the same object |
| WebviewEvents.VscodeEvent.Emit | resource/vditor/index.js:23-25 | posts `{type, content}` |
| WebviewEvents.HandlersShareOneTable | resource/vditor/index.js:28-30 | `window.handler` and `window.vscodeEvent` write one table: the last registration of a name wins, "init" included |
| WebviewEvents.WithoutApiNothingIsPosted | resource/vditor/index.js:2-4 | without the API nothing is posted, whatever is emitted |
| WebviewPage.Closer | resource/vditor/index.js:313 | a key has a closer if and only if it is one of the five pair keys |
| WebviewPage.AutoPair | resource/vditor/index.js:345-349 | only the five keys insert text: the selection followed by one closing character |
| WebviewPage.AutoPairClosesWhatWasOpened | resource/vditor/vscode.js:133-140 | brackets are closed by their mirror image, quotes by themselves; a bracket's closer is another character, one or two code points above it, whose own key pairs nothing, while a quote's closer pairs again |
| WebviewPage.NextZoom | resource/vditor/index.js:57-62 | wheel down zooms out by exactly the rate, anything else zooms in by exactly the rate, from the element's current zoom (100% if none) |
| WebviewPage.ZoomAfterCountsSteps | resource/vditor/index.js:52-65 | after any run of steps, the zoom is the start plus rate times the steps in minus the steps out |
| WebviewPage.ApplyWheel | resource/vditor/index.js:53-64 | with Ctrl held and Meta not held, every selected element takes one step; otherwise none changes |
| WebviewPage.WheelOutThenIn | resource/vditor/index.js:52-65 | one step out then one in restores every element's zoom; an element that had none holds 100% |
| WebviewPage.EditorLanguage | resource/vditor/index.js:110 | Chinese for display language "zh-cn", the configured language otherwise |
| WebviewPage.LinkTarget | resource/vditor/vscode.js:145-159 | a link opens its `href`; an image opens the `href` of a link it sits in, if that is not empty; nothing else opens anything |
| WebviewPage.ImageOpensEnclosingLink | resource/vditor/vscode.js:151-157 | clicking an image inside a link opens what clicking the link opens |
| WebviewPage.FoundIsNearestType | resource/vditor/vscode.js:164-168 | the walk finds a type if and only if it is the nearest `data-type` fewer than three levels up |
| WebviewPage.DeepTargetsNeverCrash | resource/vditor/vscode.js:165-168 | a target with a parent and a grandparent never makes the walk read a missing element |
| WebviewPage.FindToolbarType | resource/vditor/vscode.js:164-168 | the loop's result is the three-level walk's result |
| WebviewPage.WebviewPage.Load | resource/vditor/index.js:88-163 | the page registers "open" and posts "init" if the API is there |
| WebviewPage.WebviewPage.Open | resource/vditor/index.js:88-157 | the editor shows the received content with the chosen language and outline setting; "theme" and "update" are registered |
| WebviewPage.WebviewPage.Deliver | resource/vditor/index.js:9-14 | an unhandled message changes nothing; "open" opens the editor; once open, "update" replaces the editor's text |
| WebviewPage.WebviewPage.Input | resource/vditor/index.js:133-135 | the whole edited text is sent as "save" |
| WebviewPage.WebviewPage.FunctionKey | resource/vditor/index.js:67-68 | only F12 posts "developerTool" |
| WebviewPage.WebviewPage.LinkClick | resource/vditor/vscode.js:143-159 | posts "openLink" with `LinkTarget` exactly when there is one |
| WebviewPage.WebviewPage.ToolbarClick | resource/vditor/vscode.js:162-172 | posts the outline state under "showOutline" exactly when the walk finds "outline" |
| WebviewPage.WebviewPage.UploadFiles | resource/vditor/vscode.js:67-76 | one "uploadOrPasteImage" per file, in file order, after everything posted before |
| WebviewPage.WebviewPage.UploadFirstImage | resource/vditor/index.js:139-145 | only the first file is sent, as "img"; with no file nothing is sent |
| WebviewPage.UpdateThenEdit | resource/vditor/index.js:151-153 | an "update" replaces the editor's text, and the next edit sends the whole edited text back |
| EditorRoundTrip.PageSaysInit | resource/vditor/index.js:163 | a loaded page has posted "init" |
| EditorRoundTrip.HostAnswersInit | src/provider/markdownEditorProvider.ts:80-88 | the host answers "init" with the document's title and text, and scroll offset 0 |
| EditorRoundTrip.PageShowsOpen | resource/vditor/index.js:94-95 | the editor shows the content of "open" |
| EditorRoundTrip.OpenShowsDocument | src/provider/markdownEditorProvider.ts:80-88 | after the page loads, its editor shows the document's text under the file's base name |
| EditorRoundTrip.PagePostsEdit | resource/vditor/index.js:133-135 | the user's edit on an open page is posted as "save" |
| EditorRoundTrip.HostAppliesSave | src/provider/markdownEditorProvider.ts:134-137 | that "save" makes the edit the document's text |
| EditorRoundTrip.EditReachesDocument | resource/vditor/index.js:133-135 | an edit on the page becomes the document's text on the host |

## Left out

- Rendering: Vditor itself, the DOM, style sheets, themes, the context menu, hot keys and `index.html` with its template substitutions are not modelled. Neither is the React app. A page is its event table, the editor's value, language and outline flag, and what it posts.
- "img", "export" and "theme" on the host are registered but do nothing in the model. They write files, export documents and change the theme through VS Code; the file system and the configuration store are outside the model.
- `onDidChangeViewState` (showing or hiding the count, `Holder.activeDocument`) is not modelled. It reacts to panel visibility, which is UI state.
- The count is the pair of numbers `Line <n>    Count <m>` shows, not the formatted text.
- MarkdownText.CountOf: the model counts characters, while `length` counts UTF-16 code units, so a character outside the Basic Multilingual Plane counts once, not twice.
- `asWebviewUri`, `Uri.parse`, `Uri.joinPath` and the nonce query are VS Code's URI handling. The webview URI is a parameter, and `OpenLink` returns the path string it would parse.
- `NodePath.Basename` and `NodePath.Extname` model Node's POSIX algorithm only. Windows separators and drive letters are not modelled.
- `OfficeViewer.ToLower` maps ASCII letters only. No other character lower-cases onto one of the extensions the switch compares, so routing is unaffected.
- The HTML view's `Util.listen` re-render on change is not modelled; `Util` is not part of this model. The model records the first render only.
- `WebviewPage.CurrentZoom`: `parseInt` of a style that is not a number (NaN) is not modelled; a style holds an integer percentage or nothing.
- Async order is not modelled. Each `await`, `FileReader` callback and `applyEdit` completes before the next message, in posting order.
- The clipboard paste (Cmd+Shift+V), the `execCommand('delete')` deferral and the cursor move after auto-pairing are browser editing, outside the model.
- A message whose content has the wrong shape for its handler (say "save" without text) is ignored. JavaScript would run the handler on whatever it got.
- `HostHandler.Handler.Dispatch` models Node's `EventEmitter.emit`, which is library code, as its result: every listener is called once, in order. The special handling of an unhandled "error" event is not modelled, since no code here emits "error".
- HostHandler.Handler.Emit: after disposal VS Code's `webview` getter throws "Webview is disposed". The model posts nothing, but does not model that error reaching the caller, where a listener's wrapper would show it as a notification.
- MarkdownText.UpdateTextDocument: documents are modelled with LF line endings. VS Code converts inserted text to a CRLF document's end-of-line sequence, which the model does not do; `DocumentMirror.Save`, `DocumentMirror.DoSave` and the round trips inherit this.
- WebviewPage.ZoomAfterCountsSteps, WebviewPage.ApplyWheel, WebviewPage.WheelOutThenIn: a zoom below 0% is invalid CSS, which the browser ignores, so the element keeps its last valid zoom. The model keeps the arithmetic value, so these describe the page only while every intermediate zoom stays valid; an element at 5% or less zoomed out and back in is not restored in the page.
- resource/vditor/util.js (`openLink`, `onToolbarClick`, `autoSymbol` and the other helpers index.js imports) is not part of this model. The click handlers of resource/vditor/vscode.js are modelled instead.
- The duplicate `getFolders` in src/provider/markdownEditorProvider.ts:44-50 is the same loop as `Common.GetFolders`. `localResourceRoots` itself is a webview option and is not modelled.
