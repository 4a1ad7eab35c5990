/** The wire protocol shared by the extension host and the webview.

    Both directions use the same envelope `{type, content}`. The content is
    arbitrary JSON in the program; here it is a closed union with one
    constructor per payload shape the modelled handlers send or read. */
module Protocol {

  datatype Option<+T> = None | Some(value: T)

  /** `FileUri(p)` stands for `Uri.file(p)`, and `fsPath` is its argument `p`
      as given. VS Code's own `fsPath` would lower-case a drive letter
      ("a:/" for `Uri.file("A:/")`); nothing modelled reads one. */
  datatype Uri = FileUri(fsPath: string)

  /** A registered callback, identified by the name of the closure it stands for. */
  datatype Callback = Callback(name: string)

  /** The part of the `vscode-office` configuration that the webview reads. */
  datatype EditorConfig = EditorConfig(editorLanguage: string, openOutline: bool)

  datatype Payload =
    | NoContent                                   // `content` is undefined
    | Text(text: string)                          // full document text, a URI, a command id
    | Flag(flag: bool)
    | Bytes(bytes: seq<int>)                      // image data read by a FileReader
    | ScrollPosition(scrollTop: int)
    | MarkdownOpen(title: string, config: EditorConfig, scrollTop: int,
                   language: string, rootPath: string, content: string)
    | OfficeOpen(ext: string, path: string, nonce: int)
    | ToolbarSetting(key: string, value: bool)
    | FileEvent(uri: Uri)                         // the payload of a file-watcher change

  /** One message of either direction: `{type: kind, content: content}`. */
  datatype Message = Message(kind: string, content: Payload)

  /** A callback that was called, with the content it was called with. */
  datatype Invocation = Invocation(callback: Callback, content: Payload)
}
