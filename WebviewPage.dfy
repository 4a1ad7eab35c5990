/** The markdown editor page: what resource/vditor/index.js does with the
    messages it receives and the user's input, and the DOM handlers of
    resource/vditor/vscode.js (link clicks, the toolbar, image upload).
    Elements are read-only trees here; only the decisions and the messages
    they post are modelled, not the rendering. */
module WebviewPage {
  import opened Protocol
  import opened WebviewEvents

  /* ---------------- Bracket auto-pairing ---------------- */

  /** `keys`: the keys whose closer is inserted after the selection. */
  const PairKeys: seq<string> := ["{", "[", "(", "'", "\""]

  /** `keyMapping`. */
  function Closer(key: string): (c: Option<string>)
    ensures c.Some? <==> key in PairKeys
  {
    if key == "{" then Some("}")
    else if key == "[" then Some("]")
    else if key == "(" then Some(")")
    else if key == "'" then Some("'")
    else if key == "\"" then Some("\"")
    else None
  }

  /** The text the keydown listener inserts (the opening key itself is
      already typed): the selected text followed by the closer, for the five
      keys only. */
  function AutoPair(key: string, selection: string): (r: Option<string>)
    ensures r.Some? <==> key in PairKeys
    ensures r.Some? ==> |r.value| == |selection| + 1 && r.value[..|selection|] == selection
  {
    match Closer(key)
    case None => None
    case Some(c) => Some(selection + c)
  }

  /** The opening key, the inserted text and nothing else: brackets get their
      mirror image, quotes themselves. A bracket's closer is a different
      character, one or two code points above it in ASCII, and typing it
      inserts nothing more; a quote's closer is the quote, so typing it pairs
      again. */
  lemma AutoPairClosesWhatWasOpened(key: string, selection: string)
    requires key in PairKeys
    ensures AutoPair(key, selection) == Some(selection + [
      if key == "{" then '}' else if key == "[" then ']' else if key == "(" then ')' else key[0]])
    ensures var c := AutoPair(key, selection).value[|selection|];
      if key in ["'", "\""] then [c] == key && Closer([c]).Some?
      else [c] != key && Closer([c]) == None && c as int - key[0] as int in {1, 2}
  {
  }

  /* ---------------- Zoom ---------------- */

  /** `zoomElement(selector, rate = 5)`. */
  const DefaultZoomRate := 5

  /** The wheel listener returns at once unless Ctrl is held without Meta. */
  predicate ZoomApplies(ctrlKey: bool, metaKey: bool)
  {
    ctrlKey && !metaKey
  }

  /** The zoom of an element whose style holds `N%` (`Some(N)`), or 100 when
      its style has no zoom. */
  function CurrentZoom(style: Option<int>): int
  {
    if style.Some? then style.value else 100
  }

  /** One wheel step: scrolling down (`deltaY > 0`) zooms out by `rate`,
      anything else zooms in by `rate`. */
  function NextZoom(style: Option<int>, deltaY: int, rate: int): (z: int)
    ensures deltaY > 0 ==> (z < CurrentZoom(style) <==> rate > 0)
    ensures deltaY <= 0 ==> (z > CurrentZoom(style) <==> rate > 0)
    ensures z - CurrentZoom(style) == if deltaY > 0 then -rate else rate
  {
    if deltaY > 0 then CurrentZoom(style) - rate else CurrentZoom(style) + rate
  }

  /** The zoom after several applying wheel steps. */
  function ZoomAfter(style: Option<int>, deltas: seq<int>, rate: int): int
    decreases |deltas|
  {
    if deltas == [] then CurrentZoom(style)
    else ZoomAfter(Some(NextZoom(style, deltas[0], rate)), deltas[1..], rate)
  }

  /** Steps in minus steps out. */
  function NetSteps(deltas: seq<int>): (n: int)
    ensures -|deltas| <= n <= |deltas|
  {
    if deltas == [] then 0 else (if deltas[0] > 0 then -1 else 1) + NetSteps(deltas[1..])
  }

  /** Only the balance of the steps matters: every step in adds `rate`, every
      step out removes it, so equally many of each restore the zoom. */
  lemma {:induction false} ZoomAfterCountsSteps(style: Option<int>, deltas: seq<int>, rate: int)
    ensures ZoomAfter(style, deltas, rate) == CurrentZoom(style) + rate * NetSteps(deltas)
    decreases |deltas|
  {
    if deltas != [] {
      var rest := deltas[1..];
      ZoomAfterCountsSteps(Some(NextZoom(style, deltas[0], rate)), rest, rate);
      var n := NetSteps(rest);
      if deltas[0] > 0 {
        assert rate * (n - 1) == rate * n - rate;
      } else {
        assert rate * (n + 1) == rate * n + rate;
      }
    }
  }

  /** The wheel listener over the elements the selector found, given as the
      zoom each one's style holds. */
  method ApplyWheel(zooms: array<Option<int>>, ctrlKey: bool, metaKey: bool, deltaY: int, rate: int)
    modifies zooms
    ensures forall k :: 0 <= k < zooms.Length ==>
      zooms[k] == if ZoomApplies(ctrlKey, metaKey) then Some(NextZoom(old(zooms[k]), deltaY, rate)) else old(zooms[k])
  {
    if !ZoomApplies(ctrlKey, metaKey) {
      return;
    }
    for i := 0 to zooms.Length
      invariant forall k :: 0 <= k < i ==> zooms[k] == Some(NextZoom(old(zooms[k]), deltaY, rate))
      invariant forall k :: i <= k < zooms.Length ==> zooms[k] == old(zooms[k])
    {
      zooms[i] := Some(NextZoom(zooms[i], deltaY, rate));
    }
  }

  /** Ctrl+wheel down then Ctrl+wheel up brings every element back to its
      zoom; an element that had none now holds 100% explicitly. */
  method WheelOutThenIn(zooms: array<Option<int>>)
    modifies zooms
    ensures forall k :: 0 <= k < zooms.Length ==> zooms[k] == Some(CurrentZoom(old(zooms[k])))
  {
    ApplyWheel(zooms, true, false, 120, DefaultZoomRate);
    ApplyWheel(zooms, true, false, -120, DefaultZoomRate);
  }

  /* ---------------- Editor language ---------------- */

  /** The Vditor `lang` option: Chinese when VS Code's display language is
      "zh-cn", the configured editor language otherwise. */
  function EditorLanguage(language: string, config: EditorConfig): (lang: string)
    ensures language == "zh-cn" ==> lang == "zh_CN"
    ensures language != "zh-cn" ==> lang == config.editorLanguage
  {
    if language == "zh-cn" then "zh_CN" else config.editorLanguage
  }

  /* ---------------- Elements ---------------- */

  /** A DOM element as the click handlers read it: its tag name (upper case,
      as the DOM reports it), its `href` ("" when it has none), its
      `data-type` ("" when absent) and its parent element. */
  datatype Element = Element(tagName: string, href: string, dataType: string, parent: Option<Element>)

  /** The link a click in the wysiwyg area opens, if any: a link's own
      `href`; for an image, the `href` of the link it sits in, when that is
      not empty. */
  function LinkTarget(target: Element): (r: Option<string>)
    ensures target.tagName == "A" ==> r == Some(target.href)
    ensures target.tagName != "A" ==>
      (r.Some? <==> target.tagName == "IMG" && target.parent.Some?
                    && target.parent.value.tagName == "A" && target.parent.value.href != "")
    ensures target.tagName != "A" && r.Some? ==> r == Some(target.parent.value.href)
  {
    if target.tagName == "A" then Some(target.href)
    else if target.tagName == "IMG" then
      match target.parent
      case Some(p) => if p.tagName == "A" && p.href != "" then Some(p.href) else None
      case None => None
    else None
  }

  /** Clicking an image inside a link opens what clicking the link opens. */
  lemma ImageOpensEnclosingLink(img: Element, link: Element)
    requires img.tagName == "IMG" && img.parent == Some(link)
    requires link.tagName == "A" && link.href != ""
    ensures LinkTarget(img) == LinkTarget(link) == Some(link.href)
  {
  }

  /** What the toolbar's ancestor walk ends with: a `data-type`, none within
      reach, or a TypeError from reading `dataset` of a missing parent. */
  datatype TypeLookup = Found(dataType: string) | NotFound | Crashed

  /** The walk from `node`, with `n` steps left. */
  function DataTypeWithin(node: Option<Element>, n: nat): TypeLookup
    decreases n
  {
    if n == 0 then NotFound
    else match node
      case None => Crashed
      case Some(e) => if e.dataType != "" then Found(e.dataType) else DataTypeWithin(e.parent, n - 1)
  }

  /** The element `d` levels above `node` (`node` itself for 0). */
  function Ancestor(node: Option<Element>, d: nat): Option<Element>
    decreases d
  {
    if d == 0 || node.None? then (if d == 0 then node else None)
    else Ancestor(node.value.parent, d - 1)
  }

  /** The element `d` levels up exists, has `data-type` `t`, and every
      element below it on the way has none. */
  ghost predicate NearestTypedAt(node: Option<Element>, d: nat, t: string)
  {
    && Ancestor(node, d).Some? && Ancestor(node, d).value.dataType == t && t != ""
    && forall d' :: 0 <= d' < d ==> Ancestor(node, d').Some? && Ancestor(node, d').value.dataType == ""
  }

  /** The walk finds `t` exactly when `t` is the nearest `data-type` fewer
      than `n` levels up. */
  lemma {:induction false} FoundIsNearestType(node: Option<Element>, n: nat, t: string)
    ensures DataTypeWithin(node, n) == Found(t) <==> exists d :: 0 <= d < n && NearestTypedAt(node, d, t)
    decreases n
  {
    if n > 0 && node.Some? {
      var e := node.value;
      FoundIsNearestType(e.parent, n - 1, t);
      if DataTypeWithin(node, n) == Found(t) {
        if e.dataType != "" {
          assert NearestTypedAt(node, 0, t);
        } else {
          var d :| 0 <= d < n - 1 && NearestTypedAt(e.parent, d, t);
          forall d' | 0 <= d' < d + 1
            ensures Ancestor(node, d').Some? && Ancestor(node, d').value.dataType == ""
          {
            if d' > 0 {
              assert Ancestor(node, d') == Ancestor(e.parent, d' - 1);
            }
          }
          assert Ancestor(node, d + 1) == Ancestor(e.parent, d);
          assert NearestTypedAt(node, d + 1, t);
        }
      }
      if exists d :: 0 <= d < n && NearestTypedAt(node, d, t) {
        var d :| 0 <= d < n && NearestTypedAt(node, d, t);
        if d == 0 {
          assert DataTypeWithin(node, n) == Found(t);
        } else {
          assert Ancestor(node, 0) == node;
          forall d' | 0 <= d' < d - 1
            ensures Ancestor(e.parent, d').Some? && Ancestor(e.parent, d').value.dataType == ""
          {
            assert Ancestor(node, d' + 1) == Ancestor(e.parent, d');
          }
          assert Ancestor(node, d) == Ancestor(e.parent, d - 1);
          assert NearestTypedAt(e.parent, d - 1, t);
        }
      }
    } else if n > 0 {
      assert forall d :: 0 <= d < n && NearestTypedAt(node, d, t) ==> Ancestor(node, 0).None?;
    }
  }

  /** A target with a parent and a grandparent never makes the walk fail. */
  lemma DeepTargetsNeverCrash(target: Element)
    requires target.parent.Some? && target.parent.value.parent.Some?
    ensures DataTypeWithin(Some(target), 3) != Crashed
  {
  }

  /** `setToolbarClick`'s loop: look at the target, then at most two
      ancestors, stopping at the first `data-type`. */
  method FindToolbarType(target: Element) returns (r: TypeLookup)
    ensures r == DataTypeWithin(Some(target), 3)
  {
    var node: Option<Element> := Some(target);
    var i := 0;
    while i < 3
      invariant 0 <= i <= 3
      invariant DataTypeWithin(node, 3 - i) == DataTypeWithin(Some(target), 3)
    {
      if node.None? {
        return Crashed;
      }
      if node.value.dataType != "" {
        return Found(node.value.dataType);
      }
      node := node.value.parent;
      i := i + 1;
    }
    r := NotFound;
  }

  /* ---------------- The page ---------------- */

  const OpenCallback := Callback("open")
  const ThemeCallback := Callback("theme")
  const UpdateCallback := Callback("update")

  /** One load of the editor page: the table shared by `window.handler` and
      `window.vscodeEvent`, and the state of the Vditor editor once "open"
      has created it. */
  class WebviewPage {
    const table: EventTable
    const handler: VscodeEvent
    const vscodeEvent: VscodeEvent
    var isOpen: bool
    var value: string
    var lang: string
    var outline: bool

    /** Both objects write this page's table. */
    predicate Wired()
    {
      handler.table == table && vscodeEvent.table == table
    }

    ghost predicate Valid()
      reads this, table
    {
      && Wired()
      && OpenCallback.name in table.events && table.events[OpenCallback.name] == OpenCallback
      && (isOpen ==> UpdateCallback.name in table.events && table.events[UpdateCallback.name] == UpdateCallback)
    }

    /** The script runs: it creates the table and both objects, registers
        "open" and emits "init", the start of every session. */
    constructor Load(apiAvailable: bool)
      ensures Valid() && fresh(table) && table.apiAvailable == apiAvailable && !isOpen
      ensures table.events == map[OpenCallback.name := OpenCallback]
      ensures table.posted == if apiAvailable then [Message("init", NoContent)] else []
    {
      var t := new EventTable(apiAvailable);
      var h := new VscodeEvent(t);
      var v := new VscodeEvent(t);
      table := t;
      handler := h;
      vscodeEvent := v;
      isOpen := false;
      value := "";
      lang := "";
      outline := false;
      new;
      var self := h.On(OpenCallback.name, OpenCallback);
      self.Emit("init", NoContent);
    }

    /** The "open" handler: creates the editor on the received content with
        the chosen language and outline setting; registers "theme" and, once
        the editor is rendered, "update". */
    method Open(md: Payload)
      requires Valid() && md.MarkdownOpen?
      modifies this`isOpen, this`value, this`lang, this`outline, table`events
      ensures Valid() && isOpen
      ensures value == md.content && lang == EditorLanguage(md.language, md.config)
      ensures outline == md.config.openOutline
      ensures table.events == old(table.events)[ThemeCallback.name := ThemeCallback][UpdateCallback.name := UpdateCallback]
    {
      var _ := handler.On(ThemeCallback.name, ThemeCallback);
      lang := EditorLanguage(md.language, md.config);
      outline := md.config.openOutline;
      value := md.content;
      var _ := handler.On(UpdateCallback.name, UpdateCallback);
      isOpen := true;
    }

    /** A message from the extension reaches `receive`. "open" and "update"
        run as above; "theme" only loads a style sheet; a message nobody
        listens to, and a content of an unexpected shape, change nothing. */
    method Deliver(data: Option<Message>)
      requires Valid()
      modifies this`isOpen, this`value, this`lang, this`outline, table`events
      ensures Valid() && (old(isOpen) ==> isOpen)
      ensures Receive(old(table.events), data).None? ==>
        value == old(value) && isOpen == old(isOpen) && table.events == old(table.events)
      ensures data.Some? && data.value.kind == OpenCallback.name && data.value.content.MarkdownOpen? ==>
        isOpen && value == data.value.content.content
        && lang == EditorLanguage(data.value.content.language, data.value.content.config)
      ensures old(isOpen) && data.Some? && data.value.kind == UpdateCallback.name && data.value.content.Text? ==>
        value == data.value.content.text && table.events == old(table.events)
    {
      match Receive(table.events, data) {
        case None =>
        case Some(call) =>
          if call.callback == OpenCallback && call.content.MarkdownOpen? {
            Open(call.content);
          } else if call.callback == UpdateCallback && call.content.Text? {
            value := call.content.text;
          }
      }
    }

    /** Vditor's `input(content)`: the editor holds the typed text and the
        whole of it is sent as "save". */
    method Input(content: string)
      requires isOpen
      requires Wired()
      modifies this`value, table`posted
      ensures value == content
      ensures table.posted == old(table.posted) + if table.apiAvailable then [Message("save", Text(content))] else []
    {
      value := content;
      handler.Emit("save", Text(content));
    }

    /** F12 asks the extension for the developer tools. */
    method FunctionKey(code: string)
      requires Wired()
      modifies table`posted
      ensures table.posted == old(table.posted) +
        if code == "F12" && table.apiAvailable then [Message("developerTool", NoContent)] else []
    {
      if code == "F12" {
        vscodeEvent.Emit("developerTool", NoContent);
      }
    }

    /** A click in the wysiwyg area: "openLink" with the link's target, if any. */
    method LinkClick(target: Element)
      requires Wired()
      modifies table`posted
      ensures table.posted == old(table.posted) +
        if LinkTarget(target).Some? && table.apiAvailable then [Message("openLink", Text(LinkTarget(target).value))] else []
    {
      if target.tagName == "A" {
        handler.Emit("openLink", Text(target.href));
      } else if target.tagName == "IMG" {
        var parent := target.parent;
        if parent.Some? && parent.value.tagName == "A" && parent.value.href != "" {
          handler.Emit("openLink", Text(parent.value.href));
          return;
        }
      }
    }

    /** A click on the toolbar: only the outline button reports its new state,
        under the setting key "showOutline". */
    method ToolbarClick(target: Element, outlineEnabled: bool)
      requires Wired()
      modifies table`posted
      ensures table.posted == old(table.posted) +
        if DataTypeWithin(Some(target), 3) == Found("outline") && table.apiAvailable
        then [Message("saveToolbarToConfig", ToolbarSetting("showOutline", outlineEnabled))] else []
    {
      var t := FindToolbarType(target);
      if t == Found("outline") {
        handler.Emit("saveToolbarToConfig", ToolbarSetting("showOutline", outlineEnabled));
      }
    }

    /** The upload handler of resource/vditor/vscode.js: one read, and so
        one "uploadOrPasteImage" message, per file, in the files' order. */
    method UploadFiles(files: seq<seq<int>>)
      requires Wired()
      modifies table`posted
      ensures table.apiAvailable ==> |table.posted| == |old(table.posted)| + |files|
      ensures !table.apiAvailable ==> table.posted == old(table.posted)
      ensures table.posted[..|old(table.posted)|] == old(table.posted)
      ensures forall k :: |old(table.posted)| <= k < |table.posted| ==>
        table.posted[k] == Message("uploadOrPasteImage", Bytes(files[k - |old(table.posted)|]))
    {
      var i := 0;
      while i < |files|
        invariant 0 <= i <= |files|
        invariant table.apiAvailable ==> |table.posted| == |old(table.posted)| + i
        invariant !table.apiAvailable ==> table.posted == old(table.posted)
        invariant table.posted[..|old(table.posted)|] == old(table.posted)
        invariant forall k :: |old(table.posted)| <= k < |table.posted| ==>
          table.posted[k] == Message("uploadOrPasteImage", Bytes(files[k - |old(table.posted)|]))
      {
        handler.Emit("uploadOrPasteImage", Bytes(files[i]));
        i := i + 1;
      }
    }

    /** The upload handler of resource/vditor/index.js reads only the first
        file and sends it as "img"; with no file, reading `files[0]` fails
        and nothing is sent. */
    method UploadFirstImage(files: seq<seq<int>>)
      requires Wired()
      modifies table`posted
      ensures table.posted == old(table.posted) +
        if files != [] && table.apiAvailable then [Message("img", Bytes(files[0]))] else []
    {
      if files != [] {
        handler.Emit("img", Bytes(files[0]));
      }
    }
  }

  /** An "update" from the extension replaces the editor's text, and the
      user's next edit sends the whole edited text back as "save". */
  method UpdateThenEdit(md: Payload, pushed: string, edited: string) returns (posted: seq<Message>, shown: string)
    requires md.MarkdownOpen?
    ensures shown == pushed
    ensures posted == [Message("init", NoContent), Message("save", Text(edited))]
  {
    var page := new WebviewPage.Load(true);
    page.Deliver(Some(Message("open", md)));
    page.Deliver(Some(Message("update", Text(pushed))));
    shown := page.value;
    page.Input(edited);
    posted := page.table.posted;
  }
}
