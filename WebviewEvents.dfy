/** The webview side of the message protocol, as each editor script
    (resource/vditor/index.js, and resource/vditor/vscode.js with its own copy)
    defines it: one module-level `events` object with one handler per event
    name, the `receive` listener on window messages, and the `on`/`emit`
    objects `getVscodeEvent()` hands out, all writing that script's table. */
module WebviewEvents {
  import opened Protocol

  /** `receive({ data })`: a missing message and a type without a handler do
      nothing; otherwise the handler of that type is called once with the
      message's content. */
  function Receive(events: map<string, Callback>, data: Option<Message>): (r: Option<Invocation>)
    ensures r.Some? <==> data.Some? && data.value.kind in events
    ensures r.Some? ==> r.value == Invocation(events[data.value.kind], data.value.content)
  {
    match data
    case None => None
    case Some(m) => if m.kind in events then Some(Invocation(events[m.kind], m.content)) else None
  }

  /** Registering a handler for one name changes what no other name receives. */
  lemma OnChangesOnlyItsName(events: map<string, Callback>, event: string, cb: Callback, m: Message)
    requires m.kind != event
    ensures Receive(events[event := cb], Some(m)) == Receive(events, Some(m))
  {
  }

  /** The state shared by everything one script creates: whether
      `acquireVsCodeApi` existed when the script loaded, the `events` object,
      and the messages `postMessage` delivered to the extension, oldest first. */
  class EventTable {
    const apiAvailable: bool
    var events: map<string, Callback>
    var posted: seq<Message>

    constructor (apiAvailable: bool)
      ensures this.apiAvailable == apiAvailable && events == map[] && posted == []
    {
      this.apiAvailable := apiAvailable;
      events := map[];
      posted := [];
    }

    /** `postMessage(message)`: delivered only when the API was acquired. */
    method Post(m: Message)
      modifies this`posted
      ensures posted == old(posted) + if apiAvailable then [m] else []
    {
      if apiAvailable {
        posted := posted + [m];
      }
    }
  }

  /** An object returned by `getVscodeEvent()`. It has no state of its own:
      every such object reads and writes the one table. */
  class VscodeEvent {
    const table: EventTable

    constructor (table: EventTable)
      ensures this.table == table
    {
      this.table := table;
    }

    /** `on(event, data)`: the single slot of `event` now holds `cb`, whatever
        it held before ("init" included); returns the same object. */
    method On(event: string, cb: Callback) returns (self: VscodeEvent)
      modifies table`events
      ensures self == this
      ensures table.events == old(table.events)[event := cb]
    {
      table.events := table.events[event := cb];
      self := this;
    }

    /** `emit(event, data)`: posts `{type: event, content: data}`. */
    method Emit(event: string, content: Payload)
      modifies table`posted
      ensures table.posted == old(table.posted) + if table.apiAvailable then [Message(event, content)] else []
    {
      table.Post(Message(event, content));
    }
  }

  /** `window.handler` and `window.vscodeEvent` are two objects over one
      table: whichever registers a name last owns it, and unlike the host's
      handler "init" does not accumulate. */
  method HandlersShareOneTable(api: bool, first: Callback, second: Callback, content: Payload)
    returns (initCall: Option<Invocation>, openCall: Option<Invocation>)
    ensures initCall == Some(Invocation(second, content))
    ensures openCall == Some(Invocation(first, content))
  {
    var table := new EventTable(api);
    var handler := new VscodeEvent(table);
    var vscodeEvent := new VscodeEvent(table);
    var _ := handler.On("init", first);
    var _ := vscodeEvent.On("init", second);
    var _ := vscodeEvent.On("open", second);
    var _ := handler.On("open", first);
    initCall := Receive(table.events, Some(Message("init", content)));
    openCall := Receive(table.events, Some(Message("open", content)));
  }

  /** Without the VS Code API a script posts nothing, whatever it emits. */
  method WithoutApiNothingIsPosted(events: seq<string>) returns (posted: seq<Message>)
    ensures posted == []
  {
    var table := new EventTable(false);
    var handler := new VscodeEvent(table);
    for i := 0 to |events|
      invariant table.posted == []
    {
      handler.Emit(events[i], NoContent);
    }
    posted := table.posted;
  }
}
