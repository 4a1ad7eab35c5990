/** The text helpers of src/provider/markdownEditorProvider.ts: carriage-return
    stripping, the status-bar line and character count, the `openLink` routing
    decision, and the full-document replace `updateTextDocument` performs. */
module MarkdownText {
  import opened Protocol

  /* ---------------- Carriage returns ---------------- */

  /** `text.replace(/\r/g, '')`. */
  function StripCR(s: string): (r: string)
    ensures |r| <= |s|
    ensures forall i :: 0 <= i < |r| ==> r[i] != '\r'
  {
    if s == [] then []
    else if s[0] == '\r' then StripCR(s[1..])
    else [s[0]] + StripCR(s[1..])
  }

  lemma {:induction false} StripCRAppend(a: string, b: string)
    ensures StripCR(a + b) == StripCR(a) + StripCR(b)
  {
    if a == [] {
      assert a + b == b;
    } else {
      assert (a + b)[1..] == a[1..] + b;
      StripCRAppend(a[1..], b);
    }
  }

  /** A string is its own stripped form exactly when it has no carriage return. */
  lemma {:induction false} StripCRFixedPoints(s: string)
    ensures StripCR(s) == s <==> '\r' !in s
  {
    if s != [] {
      StripCRFixedPoints(s[1..]);
      if s[0] == '\r' {
        assert |StripCR(s)| < |s|;
      } else {
        assert s == [s[0]] + s[1..];
      }
    }
  }

  /** Stripping twice is stripping once. */
  lemma StripCRIdempotent(s: string)
    ensures StripCR(StripCR(s)) == StripCR(s)
  {
    StripCRFixedPoints(StripCR(s));
  }

  /** Stripping keeps every other character, in order: what remains is the input
      without its carriage returns, and nothing else is lost. */
  lemma {:induction false} StripCRKeepsOtherCharacters(s: string)
    ensures multiset(StripCR(s)) == multiset(s)['\r' := 0]
  {
    if s != [] {
      StripCRKeepsOtherCharacters(s[1..]);
      assert s == [s[0]] + s[1..];
    }
  }

  /* ---------------- Line and character count ---------------- */

  predicate IsBreak(c: char) { c == '\r' || c == '\n' }

  /** The number of matches of `/\r\n|\r|\n/` a left-to-right split finds:
      "\r\n" is tried first, so it is one break. */
  function BreakCount(s: string): nat
  {
    if s == [] then 0
    else if s[0] == '\r' && |s| >= 2 && s[1] == '\n' then 1 + BreakCount(s[2..])
    else if IsBreak(s[0]) then 1 + BreakCount(s[1..])
    else BreakCount(s[1..])
  }

  /** `content.split(/\r\n|\r|\n/).length`. */
  function LineCount(s: string): (n: nat)
    ensures n >= 1
  {
    1 + BreakCount(s)
  }

  /** What `updateCount` shows: `Line <lines>    Count <characters>`. */
  datatype CountStatus = CountStatus(lines: nat, chars: nat)

  function CountOf(content: string): (c: CountStatus)
    ensures c.chars == |content| && c.lines >= 1
  {
    CountStatus(LineCount(content), |content|)
  }

  /** Text with one line exactly when it has no line-break character. */
  lemma {:induction false} SingleLineIffNoBreak(s: string)
    ensures LineCount(s) == 1 <==> forall i :: 0 <= i < |s| ==> !IsBreak(s[i])
  {
    if s != [] {
      SingleLineIffNoBreak(s[1..]);
      if !IsBreak(s[0]) {
        forall i | 1 <= i < |s| ensures s[i] == s[1..][i - 1] { }
      }
    }
  }

  /** Joining two texts with CRLF adds exactly one line: the pair is one break,
      even after a text ending in a lone "\r". */
  lemma {:induction false} CRLFIsOneBreak(a: string, b: string)
    ensures LineCount(a + "\r\n" + b) == LineCount(a) + LineCount(b)
  {
    if a == [] {
      assert a + "\r\n" + b == "\r\n" + b;
      assert ("\r\n" + b)[2..] == b;
    } else {
      var s := a + "\r\n" + b;
      assert s[1..] == a[1..] + "\r\n" + b;
      if a[0] == '\r' && |a| >= 2 && a[1] == '\n' {
        assert s[2..] == a[2..] + "\r\n" + b;
        CRLFIsOneBreak(a[2..], b);
      } else if a[0] == '\r' && |a| == 1 {
        assert BreakCount(a) == 1 by { assert a[1..] == []; }
        assert s[1..] == "\r\n" + b;
        assert ("\r\n" + b)[2..] == b;
        assert BreakCount(s[1..]) == 1 + BreakCount(b);
        assert BreakCount(s) == 1 + BreakCount(s[1..]) by { assert s[1] == '\r'; }
      } else {
        CRLFIsOneBreak(a[1..], b);
      }
    }
  }

  /** For text without carriage returns the count is one more than the number of
      line feeds. */
  lemma {:induction false} LinesOfLFText(s: string)
    requires '\r' !in s
    ensures LineCount(s) == 1 + multiset(s)['\n']
  {
    if s != [] {
      assert s == [s[0]] + s[1..];
      LinesOfLFText(s[1..]);
    }
  }

  /* ---------------- openLink ---------------- */

  /** What the `openLink` handler asks VS Code to do. */
  datatype LinkAction =
    | OpenInternal(path: string)   // `vscode.open` on `Uri.parse(path)`
    | OpenExternal(uri: string)    // `env.openExternal` on `Uri.parse(uri)`

  /** The canonical form the regular expression's `i` flag compares: ASCII letters
      fold to lower case; no other character folds onto an ASCII one. */
  function FoldCase(c: char): char
  {
    if 'A' <= c <= 'Z' then (c as int + 32) as char else c
  }

  /** JavaScript's `.` matches anything but a line terminator. */
  predicate IsLineTerminator(c: char)
  {
    c == '\n' || c == '\r' || c == '\U{2028}' || c == '\U{2029}'
  }

  const FilePrefix := "https://file"
  const NetSuffix := ".net"

  /** `pat` (lower case) occurs at offset `i` of `s`, ignoring case. */
  predicate FoldedAt(s: string, i: int, pat: string)
  {
    0 <= i && i + |pat| <= |s| && forall k :: 0 <= k < |pat| ==> FoldCase(s[i + k]) == pat[k]
  }

  /** `s[i..j]` matches `/https:\/\/file.*\.net/i`. */
  predicate MatchAt(s: string, i: int, j: int)
  {
    0 <= i && i + |FilePrefix| + |NetSuffix| <= j <= |s|
    && FoldedAt(s, i, FilePrefix)
    && FoldedAt(s, j - |NetSuffix|, NetSuffix)
    && forall k :: i + |FilePrefix| <= k < j - |NetSuffix| ==> !IsLineTerminator(s[k])
  }

  /** `s[i..j]` is the match `String.match` reports and `String.replace` removes:
      it starts as early as any match does and, `.*` being greedy, ends as late
      as any match from that start. */
  ghost predicate LeftmostLongest(s: string, i: int, j: int)
  {
    && MatchAt(s, i, j)
    && (forall i', j' :: 0 <= i' < i ==> !MatchAt(s, i', j'))
    && (forall j' :: j < j' ==> !MatchAt(s, i, j'))
  }

  /** The longest match starting at `i` whose end is at most `j`. */
  function LongestEndAt(s: string, i: nat, j: int): (r: Option<int>)
    decreases j
    ensures r.Some? ==> MatchAt(s, i, r.value) && r.value <= j
    ensures r.Some? ==> forall j' :: r.value < j' <= j ==> !MatchAt(s, i, j')
    ensures r.None? ==> forall j' :: j' <= j ==> !MatchAt(s, i, j')
  {
    if j < i + |FilePrefix| + |NetSuffix| then None
    else if MatchAt(s, i, j) then Some(j)
    else LongestEndAt(s, i, j - 1)
  }

  /** The first match starting at or after `i`, scanning starts left to right. */
  function FirstMatchFrom(s: string, i: nat): (r: Option<(int, int)>)
    requires i <= |s|
    decreases |s| - i
    ensures r.Some? ==> i <= r.value.0 && MatchAt(s, r.value.0, r.value.1)
    ensures r.Some? ==> forall i', j' :: i <= i' < r.value.0 ==> !MatchAt(s, i', j')
    ensures r.Some? ==> forall j' :: r.value.1 < j' ==> !MatchAt(s, r.value.0, j')
    ensures r.None? ==> forall i', j' :: i <= i' ==> !MatchAt(s, i', j')
  {
    if i == |s| then None
    else match LongestEndAt(s, i, |s|)
      case Some(j) => Some((i, j))
      case None => FirstMatchFrom(s, i + 1)
  }

  /** The `openLink` handler's decision: a URI containing a match of
      `/https:\/\/file.*\.net/i` is opened inside VS Code with that match removed;
      any other URI is opened externally as it is. */
  function OpenLink(uri: string): (a: LinkAction)
    ensures a.OpenInternal? <==> exists i, j :: MatchAt(uri, i, j)
    ensures a.OpenInternal? ==> exists i, j :: LeftmostLongest(uri, i, j) && a.path == uri[..i] + uri[j..]
    ensures a.OpenExternal? ==> a.uri == uri
  {
    match FirstMatchFrom(uri, 0)
    case Some((i, j)) =>
      assert LeftmostLongest(uri, i, j);
      OpenInternal(uri[..i] + uri[j..])
    case None => OpenExternal(uri)
  }

  /** A URI in which no match can start is always opened externally, unchanged. */
  lemma NoFileHostOpensExternally(uri: string)
    requires forall i :: 0 <= i ==> !FoldedAt(uri, i, FilePrefix)
    ensures OpenLink(uri) == OpenExternal(uri)
  {
  }

  /* ---------------- updateTextDocument ---------------- */

  /** The offset of the start of line `line` (counted from 0, lines split as
      `LineCount` splits them); a line past the last is clamped to the end of the
      text, as VS Code clamps positions of an edit. */
  function LineStart(s: string, line: nat): (o: nat)
    ensures o <= |s|
  {
    if line == 0 || s == [] then 0
    else if s[0] == '\r' && |s| >= 2 && s[1] == '\n' then 2 + LineStart(s[2..], line - 1)
    else if IsBreak(s[0]) then 1 + LineStart(s[1..], line - 1)
    else 1 + LineStart(s[1..], line)
  }

  /** Every line from `LineCount(s)` on starts at the end of the text. */
  lemma {:induction false} LineStartPastEnd(s: string, line: nat)
    requires line >= LineCount(s)
    ensures LineStart(s, line) == |s|
  {
    if s != [] {
      if s[0] == '\r' && |s| >= 2 && s[1] == '\n' {
        LineStartPastEnd(s[2..], line - 1);
      } else if IsBreak(s[0]) {
        LineStartPastEnd(s[1..], line - 1);
      } else {
        LineStartPastEnd(s[1..], line);
      }
    }
  }

  /** Every line but the first starts right after a line-break character. */
  lemma {:induction false} LinesStartAfterBreaks(s: string, line: nat)
    requires 0 < line < LineCount(s)
    ensures 0 < LineStart(s, line) && IsBreak(s[LineStart(s, line) - 1])
  {
    if s[0] == '\r' && |s| >= 2 && s[1] == '\n' {
      if line - 1 > 0 {
        LinesStartAfterBreaks(s[2..], line - 1);
      }
    } else if IsBreak(s[0]) {
      if line - 1 > 0 {
        LinesStartAfterBreaks(s[1..], line - 1);
      }
    } else {
      LinesStartAfterBreaks(s[1..], line);
    }
  }

  /** `updateTextDocument(document, content)`: the edit replaces the range from
      (0, 0) to (lineCount, 0) with `content`; that range is the whole text, so
      the document becomes exactly `content`. */
  function UpdateTextDocument(text: string, content: string): (r: string)
    ensures r == content
  {
    LineStartPastEnd(text, LineCount(text));
    text[..LineStart(text, 0)] + content + text[LineStart(text, LineCount(text))..]
  }
}
