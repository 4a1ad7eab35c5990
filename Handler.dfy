/** The host side of the event channel: `Handler` in src/utils/handler.ts.

    A `Handler` owns a Node event emitter (here the map `listeners` from an
    event name to its listener list), posts messages to the webview (here
    appended to `outbox`), and is bound to one file watcher, which panel
    disposal disposes. Listener functions are not values here: a listener is
    the try/catch wrapper `on` builds around a named callback, and what a
    callback does when called is the business of whoever registered it; the
    handler only reports which callbacks ran and turns a thrown error into a
    notification. */
module HostHandler {
  import opened Protocol

  /** The closure `on` registers: the callback inside a try/catch. */
  datatype Listener = Wrapped(callback: Callback)


  /** The one event name whose listeners accumulate instead of being replaced. */
  const InitEvent := "init"

  /** The listener list of an event after `on(event, cb)`, given the list `ls` before:
      for any name but "init" the first listener is removed (if there is one),
      then the wrapped callback is appended. */
  function Registered(ls: seq<Listener>, event: string, cb: Callback): (r: seq<Listener>)
    ensures |r| >= 1 && r[|r| - 1] == Wrapped(cb)
    ensures event == InitEvent ==> r[..|r| - 1] == ls
    ensures event != InitEvent && |ls| <= 1 ==> r == [Wrapped(cb)]
  {
    if event != InitEvent && |ls| >= 1 then ls[1..] + [Wrapped(cb)] else ls + [Wrapped(cb)]
  }

  /** The listener list after registering `cbs` for `event`, one `on` call each, in order. */
  function RegisterAll(ls: seq<Listener>, event: string, cbs: seq<Callback>): seq<Listener>
  {
    if cbs == [] then ls
    else Registered(RegisterAll(ls, event, cbs[..|cbs| - 1]), event, cbs[|cbs| - 1])
  }

  function CallbacksOf(ls: seq<Listener>): (r: seq<Callback>)
    ensures |r| == |ls| && forall i :: 0 <= i < |ls| ==> r[i] == ls[i].callback
  {
    seq(|ls|, i requires 0 <= i < |ls| => ls[i].callback)
  }

  /** The calls an emitter makes when `content` is dispatched to the listeners `ls`:
      every listener, in list order, each once. */
  function Invocations(ls: seq<Listener>, content: Payload): (r: seq<Invocation>)
    ensures |r| == |ls|
  {
    if ls == [] then []
    else Invocations(ls[..|ls| - 1], content) + [Invocation(ls[|ls| - 1].callback, content)]
  }

  /** The notification one call shows: the message of the error its callback
      throws, if it throws. `thrown` maps each callback that throws to its
      error's message; every other callback completes. */
  function FailureOf(call: Invocation, thrown: map<Callback, string>): (r: seq<string>)
    ensures |r| <= 1
  {
    if call.callback in thrown then [thrown[call.callback]] else []
  }

  /** The error notifications shown for `calls`: one per call that threw, in order. */
  function Failures(calls: seq<Invocation>, thrown: map<Callback, string>): (r: seq<string>)
    ensures |r| <= |calls|
  {
    if calls == [] then []
    else Failures(calls[..|calls| - 1], thrown) + FailureOf(calls[|calls| - 1], thrown)
  }

  lemma CallbacksOfAppend(ls: seq<Listener>, cb: Callback)
    ensures CallbacksOf(ls + [Wrapped(cb)]) == CallbacksOf(ls) + [cb]
  {
    assert forall i :: 0 <= i < |ls| ==> (ls + [Wrapped(cb)])[i] == ls[i];
  }

  /** Every listener is called, in list order, each once, with the content. */
  lemma {:induction false} InvocationsCallEveryListener(ls: seq<Listener>, content: Payload)
    ensures forall i :: 0 <= i < |ls| ==> Invocations(ls, content)[i] == Invocation(ls[i].callback, content)
  {
    if ls != [] {
      var front := ls[..|ls| - 1];
      InvocationsCallEveryListener(front, content);
      forall i | 0 <= i < |ls|
        ensures Invocations(ls, content)[i] == Invocation(ls[i].callback, content)
      {
        if i < |ls| - 1 {
          assert Invocations(ls, content)[i] == Invocations(front, content)[i];
          assert front[i] == ls[i];
        }
      }
    }
  }

  /** An event with one listener calls it once; it fails at most once. */
  lemma SingleListenerCall(cb: Callback, content: Payload, thrown: map<Callback, string>)
    ensures Invocations([Wrapped(cb)], content) == [Invocation(cb, content)]
    ensures Failures([Invocation(cb, content)], thrown) == FailureOf(Invocation(cb, content), thrown)
  {
    assert [Wrapped(cb)][..0] == [];
    assert [Invocation(cb, content)][..0] == [];
  }

  /** Registering "init" callbacks only appends: every one of them is kept, in
      registration order. */
  lemma {:induction false} InitKeepsEveryCallback(ls: seq<Listener>, cbs: seq<Callback>)
    ensures CallbacksOf(RegisterAll(ls, InitEvent, cbs)) == CallbacksOf(ls) + cbs
  {
    if cbs != [] {
      var front := cbs[..|cbs| - 1];
      InitKeepsEveryCallback(ls, front);
      var last := cbs[|cbs| - 1];
      var before := RegisterAll(ls, InitEvent, front);
      calc {
        CallbacksOf(RegisterAll(ls, InitEvent, cbs));
        CallbacksOf(Registered(before, InitEvent, last));
        CallbacksOf(before + [Wrapped(last)]);
        { CallbacksOfAppend(before, last); }
        CallbacksOf(before) + [last];
        CallbacksOf(ls) + front + [last];
        { assert cbs == front + [last]; }
        CallbacksOf(ls) + cbs;
      }
    }
  }

  /** For any other name the last registration wins: whatever was registered
      before, exactly one listener is left, the last callback's. */
  lemma {:induction false} LastRegistrationWins(ls: seq<Listener>, event: string, cbs: seq<Callback>)
    requires event != InitEvent && |ls| <= 1 && cbs != []
    ensures RegisterAll(ls, event, cbs) == [Wrapped(cbs[|cbs| - 1])]
  {
    var front := cbs[..|cbs| - 1];
    if front != [] {
      LastRegistrationWins(ls, event, front);
    }
  }

  /** No notification is shown exactly when none of the called callbacks throws. */
  lemma {:induction false} SilentIffNoneThrew(calls: seq<Invocation>, thrown: map<Callback, string>)
    ensures Failures(calls, thrown) == [] <==> forall i :: 0 <= i < |calls| ==> calls[i].callback !in thrown
  {
    if calls != [] {
      var front := calls[..|calls| - 1];
      SilentIffNoneThrew(front, thrown);
      assert forall i :: 0 <= i < |front| ==> front[i] == calls[i];
    }
  }

  /** The notifications of two runs of calls, one after the other, are those of
      the first followed by those of the second. */
  lemma {:induction false} FailuresAppend(a: seq<Invocation>, b: seq<Invocation>, thrown: map<Callback, string>)
    ensures Failures(a + b, thrown) == Failures(a, thrown) + Failures(b, thrown)
    decreases |b|
  {
    if b == [] {
      assert a + b == a;
    } else {
      var front := b[..|b| - 1];
      FailuresAppend(a, front, thrown);
      assert (a + b)[..|a + b| - 1] == a + front;
      assert (a + b)[|a + b| - 1] == b[|b| - 1];
    }
  }

  /** When every called callback throws, each call shows its own error's
      message, one notification per call, in call order. */
  lemma {:induction false} EveryCallThrew(calls: seq<Invocation>, thrown: map<Callback, string>)
    requires forall i :: 0 <= i < |calls| ==> calls[i].callback in thrown
    ensures |Failures(calls, thrown)| == |calls|
    ensures forall i :: 0 <= i < |calls| ==> Failures(calls, thrown)[i] == thrown[calls[i].callback]
  {
    if calls != [] {
      var front := calls[..|calls| - 1];
      assert forall i :: 0 <= i < |front| ==> front[i] == calls[i];
      EveryCallThrew(front, thrown);
    }
  }

  class Handler {
    /** The document whose file watcher this handler owns. */
    const watched: Uri
    var listeners: map<string, seq<Listener>>
    /** Messages posted to the webview, oldest first. */
    var outbox: seq<Message>
    /** The panel has been disposed, and with it the file watcher. */
    var disposed: bool
    /** Error notifications shown to the user, oldest first. */
    var notifications: seq<string>

    /** Every name other than "init" has at most one listener. */
    ghost predicate Valid()
      reads this`listeners
    {
      forall e :: e in listeners && e != InitEvent ==> |listeners[e]| <= 1
    }

    function ListenersOf(event: string): seq<Listener>
      reads this`listeners
    {
      if event in listeners then listeners[event] else []
    }

    /** What posting `m` adds to the outbox: the message while the panel
        lives; nothing once it is disposed, since a disposed panel has no
        webview to post to. */
    function Posts(m: Message): (r: seq<Message>)
      reads this`disposed
      ensures |r| <= 1 && (r != [] <==> !disposed)
    {
      if disposed then [] else [m]
    }

    /** `Handler.bind(panel, uri)`: a fresh emitter, a live watcher on `uri`,
        nothing posted yet. */
    constructor Bind(uri: Uri)
      ensures Valid()
      ensures watched == uri && listeners == map[] && outbox == []
      ensures !disposed && notifications == []
    {
      watched := uri;
      listeners := map[];
      outbox := [];
      disposed := false;
      notifications := [];
    }

    /** `on(event, callback)`: replaces the listener of `event` (for "init": adds
        one), leaves every other event's listeners as they were, returns this. */
    method On(event: string, cb: Callback) returns (self: Handler)
      requires Valid()
      modifies this`listeners
      ensures Valid() && self == this
      ensures listeners == old(listeners)[event := Registered(old(ListenersOf(event)), event, cb)]
      ensures event != InitEvent ==> ListenersOf(event) == [Wrapped(cb)]
    {
      if event != InitEvent {
        var listens := ListenersOf(event);
        if |listens| >= 1 {
          listeners := listeners[event := listens[1..]];
        }
      }
      listeners := listeners[event := ListenersOf(event) + [Wrapped(cb)]];
      self := this;
    }

    /** `emit(event, content)`: posts `{type: event, content}` and returns
        this; after disposal nothing is posted. */
    method Emit(event: string, content: Payload) returns (self: Handler)
      modifies this`outbox
      ensures self == this
      ensures !disposed ==> outbox == old(outbox) + [Message(event, content)]
      ensures disposed ==> outbox == old(outbox)
    {
      if !disposed {
        outbox := outbox + [Message(event, content)];
      }
      self := this;
    }

    /** The emitter's local dispatch (Node's `EventEmitter.emit`): calls every
        listener of `event` with `content`; a callback that throws adds a
        notification and nothing more. */
    method Dispatch(event: string, content: Payload, thrown: map<Callback, string>) returns (calls: seq<Invocation>)
      modifies this`notifications
      ensures calls == Invocations(ListenersOf(event), content)
      ensures notifications == old(notifications) + Failures(calls, thrown)
    {
      calls := Invocations(ListenersOf(event), content);
      notifications := notifications + Failures(calls, thrown);
    }

    /** A message from the webview is dispatched under its own type. */
    method ReceiveMessage(m: Message, thrown: map<Callback, string>) returns (calls: seq<Invocation>)
      modifies this`notifications
      ensures calls == Invocations(ListenersOf(m.kind), m.content)
      ensures m.kind !in listeners ==> calls == [] && notifications == old(notifications)
      ensures notifications == old(notifications) + Failures(calls, thrown)
    {
      calls := Dispatch(m.kind, m.content, thrown);
    }

    /** The watcher reports a change of the document: dispatched as "fileChange".
        A disposed watcher reports nothing. */
    method FileChanged(uri: Uri, thrown: map<Callback, string>) returns (calls: seq<Invocation>)
      modifies this`notifications
      ensures disposed ==> calls == [] && notifications == old(notifications)
      ensures !disposed ==> calls == Invocations(ListenersOf("fileChange"), FileEvent(uri))
      ensures notifications == old(notifications) + Failures(calls, thrown)
    {
      if disposed {
        calls := [];
      } else {
        calls := Dispatch("fileChange", FileEvent(uri), thrown);
      }
    }

    /** The panel is disposed: the watcher is disposed, then "dispose" is dispatched. */
    method PanelDisposed(thrown: map<Callback, string>) returns (calls: seq<Invocation>)
      modifies this`disposed, this`notifications
      ensures disposed
      ensures calls == Invocations(ListenersOf("dispose"), NoContent)
      ensures notifications == old(notifications) + Failures(calls, thrown)
    {
      disposed := true;
      calls := Dispatch("dispose", NoContent, thrown);
    }
  }

  /** Registering two callbacks for "save" and then receiving one "save" message
      calls the second exactly once and never the first. */
  method SecondSaveHandlerWins(h1: Callback, h2: Callback, text: string) returns (calls: seq<Invocation>)
    ensures calls == [Invocation(h2, Text(text))]
  {
    var handler := new Handler.Bind(FileUri("/doc.md"));
    var _ := handler.On("save", h1);
    var _ := handler.On("save", h2);
    calls := handler.ReceiveMessage(Message("save", Text(text)), map[]);
  }

  /** A callback that throws for event `x` is reported, and a later event `y`
      still reaches its own listener. */
  method FailureIsolation(x: string, y: string, cx: Callback, cy: Callback, err: string)
    returns (first: seq<Invocation>, second: seq<Invocation>, shown: seq<string>)
    requires x != y && cx != cy
    ensures first == [Invocation(cx, NoContent)] && second == [Invocation(cy, NoContent)]
    ensures shown == [err]
  {
    var handler := new Handler.Bind(FileUri("/doc.md"));
    var _ := handler.On(x, cx);
    var _ := handler.On(y, cy);
    assert handler.ListenersOf(x) == [Wrapped(cx)] && handler.ListenersOf(y) == [Wrapped(cy)];
    var thrown := map[cx := err];
    SingleListenerCall(cx, NoContent, thrown);
    SingleListenerCall(cy, NoContent, thrown);
    assert FailureOf(Invocation(cx, NoContent), thrown) == [err];
    assert FailureOf(Invocation(cy, NoContent), thrown) == [];
    assert handler.notifications == [];
    first := handler.ReceiveMessage(Message(x, NoContent), thrown);
    assert first == [Invocation(cx, NoContent)];
    assert handler.notifications == [] + [err];
    second := handler.ReceiveMessage(Message(y, NoContent), thrown);
    assert second == [Invocation(cy, NoContent)];
    assert handler.notifications == [err] + [];
    shown := handler.notifications;
  }

  /** After disposal the watcher is disposed, "dispose" has run once, later
      file changes dispatch nothing, and an emit reaches no webview. */
  method DisposeReleasesWatcher(onDispose: Callback, onChange: Callback)
    returns (disposed: bool, atDispose: seq<Invocation>, afterwards: seq<Invocation>, posted: seq<Message>)
    ensures disposed && atDispose == [Invocation(onDispose, NoContent)] && afterwards == []
    ensures posted == []
  {
    var handler := new Handler.Bind(FileUri("/doc.md"));
    var _ := handler.On("dispose", onDispose);
    var _ := handler.On("fileChange", onChange);
    assert handler.ListenersOf("dispose") == [Wrapped(onDispose)];
    atDispose := handler.PanelDisposed(map[]);
    afterwards := handler.FileChanged(FileUri("/doc.md"), map[]);
    var _ := handler.Emit("update", Text("x"));
    disposed := handler.disposed;
    posted := handler.outbox;
  }
}
