/** The document mirror kept by `handleMarkdown` in
    src/provider/markdownEditorProvider.ts, as pure transitions.

    Two closure variables are shared by the "init", "save", "doSave" and
    "externalUpdate" handlers: `content`, the snapshot of the text last seen by
    or sent to the webview, and `lastManualSaveTime`, set only by "doSave".
    A `Mirror` holds both together with the document's text. Time is the
    explicit argument `now` (milliseconds), where the program reads `Date.now()`. */
module DocumentMirror {
  import opened Protocol
  import opened MarkdownText

  /** Milliseconds after a "doSave" during which "save" and "externalUpdate" are ignored. */
  const SuppressionWindowMs := 800

  datatype Mirror = Mirror(content: string, lastManualSaveTime: Option<int>, text: string)

  /** `lastManualSaveTime && Date.now() - lastManualSaveTime < 800`. JavaScript's
      `&&` treats an unset time and a time of 0 alike: neither suppresses. */
  predicate Suppressed(last: Option<int>, now: int)
  {
    last.Some? && last.value != 0 && now - last.value < SuppressionWindowMs
  }

  /** The state when the editor is resolved: the snapshot is the document's text
      as `getText()` returns it (carriage returns kept), and no manual save yet. */
  function Opened(text: string): (m: Mirror)
    ensures m.content == text && m.text == text && m.lastManualSaveTime == None
  {
    Mirror(text, None, text)
  }

  /** A handler's effect on the mirror and the "update" text it emits, if any. */
  datatype Reaction = Reaction(next: Mirror, update: Option<string>)

  /** The "externalUpdate" handler, run after the document's text has become
      `m.text`: ignored inside the window; otherwise the text without carriage
      returns is compared with the snapshot, and only a different text becomes
      the snapshot and is emitted as "update". */
  function ExternalUpdate(m: Mirror, now: int): (r: Reaction)
    ensures r.next.text == m.text && r.next.lastManualSaveTime == m.lastManualSaveTime
    ensures r.update.Some? <==> !Suppressed(m.lastManualSaveTime, now) && StripCR(m.text) != m.content
    ensures r.update.Some? ==> r.next.content == r.update.value == StripCR(m.text)
    ensures r.update.None? ==> r.next == m
  {
    if Suppressed(m.lastManualSaveTime, now) then Reaction(m, None)
    else
      var updatedText := StripCR(m.text);
      if m.content == updatedText then Reaction(m, None)
      else Reaction(m.(content := updatedText), Some(updatedText))
  }

  /** The "save" handler: ignored inside the window; otherwise both the snapshot
      and the document's whole text become `newContent`. */
  function Save(m: Mirror, newContent: string, now: int): (r: Mirror)
    ensures Suppressed(m.lastManualSaveTime, now) ==> r == m
    ensures !Suppressed(m.lastManualSaveTime, now) ==>
      r == Mirror(newContent, m.lastManualSaveTime, newContent)
  {
    if Suppressed(m.lastManualSaveTime, now) then m
    else m.(content := newContent, text := UpdateTextDocument(m.text, newContent))
  }

  /** The "doSave" handler: records `now` and replaces the document's text. Its
      parameter is also called `content`, so the assignment-free body leaves the
      outer snapshot as it was. */
  function DoSave(m: Mirror, content: string, now: int): (r: Mirror)
    ensures r == Mirror(m.content, Some(now), content)
  {
    Mirror(m.content, Some(now), UpdateTextDocument(m.text, content))
  }

  /* ---------------- Runs of events ---------------- */

  datatype HostEvent =
    | ExternalChange(newText: string)  // the document changed elsewhere, then "externalUpdate" ran
    | WebviewSave(content: string)     // a "save" message
    | WebviewDoSave(content: string)   // a "doSave" message

  datatype Timed = Timed(now: int, event: HostEvent)

  function Step(m: Mirror, e: Timed): Reaction
  {
    match e.event
    case ExternalChange(t) => ExternalUpdate(m.(text := t), e.now)
    case WebviewSave(c) => Reaction(Save(m, c, e.now), None)
    case WebviewDoSave(c) => Reaction(DoSave(m, c, e.now), None)
  }

  datatype Run = Run(last: Mirror, updates: seq<string>)

  /** The events handled one after another: the final state and every "update"
      text emitted, in order. */
  function Replay(m: Mirror, events: seq<Timed>): Run
    decreases |events|
  {
    if events == [] then Run(m, [])
    else
      var r := Step(m, events[0]);
      var rest := Replay(r.next, events[1..]);
      Run(rest.last, (if r.update.Some? then [r.update.value] else []) + rest.updates)
  }

  /** Echo suppression: after a "doSave" at time `t`, any run of "save" messages
      and external changes arriving before `t + 800` emits no "update" and leaves
      the snapshot and the recorded save time as they were. */
  lemma {:induction false} WindowSilencesEverything(m: Mirror, t: int, events: seq<Timed>)
    requires m.lastManualSaveTime == Some(t) && t != 0
    requires forall k :: 0 <= k < |events| ==> !events[k].event.WebviewDoSave? && events[k].now - t < SuppressionWindowMs
    ensures Replay(m, events).updates == []
    ensures Replay(m, events).last.content == m.content
    ensures Replay(m, events).last.lastManualSaveTime == m.lastManualSaveTime
    decreases |events|
  {
    if events != [] {
      var next := Step(m, events[0]).next;
      WindowSilencesEverything(next, t, events[1..]);
    }
  }

  /** Before the first "doSave" nothing depends on time: the same events at any
      other times give the same run. */
  lemma {:induction false} TimeIrrelevantBeforeManualSave(m: Mirror, events: seq<Timed>, retimed: seq<Timed>)
    requires m.lastManualSaveTime == None
    requires |events| == |retimed|
    requires forall k :: 0 <= k < |events| ==> events[k].event == retimed[k].event && !events[k].event.WebviewDoSave?
    ensures Replay(m, events) == Replay(m, retimed)
    decreases |events|
  {
    if events != [] {
      var next := Step(m, events[0]).next;
      assert next == Step(m, retimed[0]).next;
      TimeIrrelevantBeforeManualSave(next, events[1..], retimed[1..]);
    }
  }

  /** Every "update" the host ever emits carries text without carriage returns. */
  lemma {:induction false} UpdatesHaveNoCR(m: Mirror, events: seq<Timed>)
    ensures forall k :: 0 <= k < |Replay(m, events).updates| ==> '\r' !in Replay(m, events).updates[k]
    decreases |events|
  {
    if events != [] {
      var r := Step(m, events[0]);
      UpdatesHaveNoCR(r.next, events[1..]);
      if r.update.Some? {
        assert '\r' !in r.update.value;
      }
    }
  }

  /** An external change whose text differs from a carriage-return-free snapshot
      only in carriage returns emits nothing, at any time ("foo\r\n" against a
      snapshot "foo\n"). */
  lemma CRLFEchoIgnored(m: Mirror, t: string, now: int)
    requires '\r' !in m.content && StripCR(t) == StripCR(m.content)
    ensures Step(m, Timed(now, ExternalChange(t))) == Reaction(m.(text := t), None)
  {
    StripCRFixedPoints(m.content);
  }

  /** The snapshot taken on opening keeps carriage returns, so for a document
      with CRLF line endings the first external change handled outside the
      window is forwarded even when the text did not change: the webview
      receives the same text without carriage returns. */
  lemma CRLFDocumentFirstEchoUpdates(text: string, now: int)
    requires '\r' in text
    ensures ExternalUpdate(Opened(text), now).update == Some(StripCR(text))
  {
  }

  /** Once an external change has been handled outside the window, handling it
      again, at any time, emits nothing. */
  lemma ExternalUpdateIdempotent(m: Mirror, now: int, later: int)
    requires !Suppressed(m.lastManualSaveTime, now)
    ensures ExternalUpdate(ExternalUpdate(m, now).next, later).update == None
  {
    StripCRIdempotent(m.text);
  }

  /** Round trip: a "save" outside the window becomes the document's text, so the
      editor resolved next for the same document opens with that text. */
  lemma SavedTextSeedsNextEditor(m: Mirror, newContent: string, now: int)
    requires !Suppressed(m.lastManualSaveTime, now)
    ensures Opened(Save(m, newContent, now).text).content == newContent
  {
  }

  /** Because "doSave" leaves the snapshot stale, the host's own write can come
      back: when the snapshot differed from the saved text, the external change
      that reports it, handled once the window has passed, is forwarded to the
      webview as an "update" carrying that same text. */
  lemma DoSaveEchoReturnsAfterWindow(m: Mirror, saved: string, t: int, now: int)
    requires '\r' !in saved && saved != m.content
    requires now - t >= SuppressionWindowMs
    ensures Step(DoSave(m, saved, t), Timed(now, ExternalChange(saved))).update == Some(saved)
  {
    StripCRFixedPoints(saved);
  }

  /** The usual run: the editor's input has already sent "save" with the text
      outside the window, so after the "doSave" the snapshot equals the saved
      text and the external change reporting it emits nothing, at any time. */
  lemma SaveBeforeDoSaveSilencesEcho(m: Mirror, saved: string, t0: int, t: int, now: int)
    requires '\r' !in saved && !Suppressed(m.lastManualSaveTime, t0)
    ensures Step(DoSave(Save(m, saved, t0), saved, t), Timed(now, ExternalChange(saved))).update == None
  {
    StripCRFixedPoints(saved);
  }
}
