/**
 * The extension's command scanner (parseCommandsFromText): finds `mcp:server:tool(` headers
 * in free text, balances parentheses while skipping quoted strings, cuts out the argument
 * span, evaluates it, and resumes after the closing parenthesis.
 */
module CommandParser {
  import opened Wrappers
  import opened JsText
  import opened JsValue
  import opened Collections

  /** One command found in the text. `error` is set only when evaluation threw. */
  datatype ParsedCommand = ParsedCommand(
    original: string, server: string, tool: string, args: Value, isValid: bool, error: Option<string>)

  /** `new Function("return " + argsStr + ";")()`: the value, or the message it threw. */
  type Evaluator = string -> Result<Value, string>

  // ---------------------------------------------------------------------------
  // The header regular expression  /mcp:([a-zA-Z0-9_-]+):([a-zA-Z0-9_-]+)\s*\(/g

  predicate IsIdChar(c: char) {
    ('a' <= c <= 'z') || ('A' <= c <= 'Z') || ('0' <= c <= '9') || c == '_' || c == '-'
  }

  predicate IsId(s: string) {
    |s| > 0 && forall i :: 0 <= i < |s| ==> IsIdChar(s[i])
  }

  /** The end of the longest run of identifier characters that starts at i. */
  function IdRunEnd(text: string, i: nat): (j: nat)
    requires i <= |text|
    ensures i <= j <= |text|
    decreases |text| - i
  {
    if i < |text| && IsIdChar(text[i]) then IdRunEnd(text, i + 1) else i
  }

  /** The run is maximal: identifier characters up to its end, and none at its end. */
  lemma {:induction false} IdRunEndIsMaximal(text: string, i: nat)
    requires i <= |text|
    ensures forall k :: i <= k < IdRunEnd(text, i) ==> IsIdChar(text[k])
    ensures IdRunEnd(text, i) < |text| ==> !IsIdChar(text[IdRunEnd(text, i)])
    decreases |text| - i
  {
    if i < |text| && IsIdChar(text[i]) {
      IdRunEndIsMaximal(text, i + 1);
    }
  }

  /** The end of the longest run of whitespace that starts at i. */
  function SpaceRunEnd(text: string, i: nat): (j: nat)
    requires i <= |text|
    ensures i <= j <= |text|
    decreases |text| - i
  {
    if i < |text| && IsSpace(text[i]) then SpaceRunEnd(text, i + 1) else i
  }

  /** The run is maximal: whitespace up to its end, and none at its end. */
  lemma {:induction false} SpaceRunEndIsMaximal(text: string, i: nat)
    requires i <= |text|
    ensures forall k :: i <= k < SpaceRunEnd(text, i) ==> IsSpace(text[k])
    ensures SpaceRunEnd(text, i) < |text| ==> !IsSpace(text[SpaceRunEnd(text, i)])
    decreases |text| - i
  {
    if i < |text| && IsSpace(text[i]) {
      SpaceRunEndIsMaximal(text, i + 1);
    }
  }

  /** A header match: where it starts, its two identifiers, and the index after its `(`. */
  datatype Header = Header(start: nat, server: string, tool: string, argsStart: nat)

  /**
   * The text from h.start to h.argsStart reads `mcp:`, the server, `:`, the tool, blanks
   * and `(`, with both names identifiers.
   */
  predicate MatchesHeader(text: string, h: Header) {
    var a := h.start + 4 + |h.server|;
    var toolEnd := a + 1 + |h.tool|;
    && IsId(h.server) && IsId(h.tool)
    && toolEnd < h.argsStart <= |text|
    && text[h.start..h.start + 4] == "mcp:"
    && text[h.start + 4..a] == h.server
    && text[a] == ':'
    && text[a + 1..toolEnd] == h.tool
    && IsBlank(text[toolEnd..h.argsStart - 1])
    && text[h.argsStart - 1] == '('
  }

  /** The literal `mcp:` starts at p, tested character by character. */
  predicate McpAt(text: string, p: nat) {
    p + 4 <= |text| && text[p] == 'm' && text[p + 1] == 'c' && text[p + 2] == 'p' && text[p + 3] == ':'
  }

  lemma McpAtSlice(text: string, p: nat)
    ensures McpAt(text, p) <==> p + 4 <= |text| && text[p..p + 4] == "mcp:"
  {
    if p + 4 <= |text| && text[p..p + 4] == "mcp:" {
      assert text[p + 3] == text[p..p + 4][3];
    }
  }

  /** The match of the header expression that starts at p, if there is one. */
  function HeaderAt(text: string, p: nat): (r: Option<Header>)
    ensures r.Some? ==> r.value.start == p && p + 4 < r.value.argsStart <= |text|
    ensures r.Some? ==> 0 < |r.value.server| && 0 < |r.value.tool|
  {
    if !McpAt(text, p) then None
    else
      var a := IdRunEnd(text, p + 4);
      if a == p + 4 || a == |text| || text[a] != ':' then None
      else
        var b := IdRunEnd(text, a + 1);
        if b == a + 1 then None
        else
          var c := SpaceRunEnd(text, b);
          if c == |text| || text[c] != '(' then None
          else Some(Header(p, text[p + 4..a], text[a + 1..b], c + 1))
  }

  /** Every match has the header shape. */
  lemma HeaderAtSound(text: string, p: nat)
    requires HeaderAt(text, p).Some?
    ensures MatchesHeader(text, HeaderAt(text, p).value)
  {
    var a := IdRunEnd(text, p + 4);
    var b := IdRunEnd(text, a + 1);
    var c := SpaceRunEnd(text, b);
    assert HeaderAt(text, p) == Some(Header(p, text[p + 4..a], text[a + 1..b], c + 1));
    MatchedShape(text, p, a, b, c);
  }

  /** The pieces HeaderAt cuts out, once every test it makes has passed, have the header shape. */
  lemma MatchedShape(text: string, p: nat, a: nat, b: nat, c: nat)
    requires McpAt(text, p) && a == IdRunEnd(text, p + 4)
    requires a < |text| && p + 4 < a && text[a] == ':'
    requires b == IdRunEnd(text, a + 1) && b > a + 1
    requires c == SpaceRunEnd(text, b) && c < |text| && text[c] == '('
    ensures MatchesHeader(text, Header(p, text[p + 4..a], text[a + 1..b], c + 1))
  {
    McpAtSlice(text, p);
    IdRunIsId(text, p + 4);
    IdRunIsId(text, a + 1);
    SpaceRunIsBlank(text, b);
    var h := Header(p, text[p + 4..a], text[a + 1..b], c + 1);
    assert h.start + 4 + |h.server| == a && a + 1 + |h.tool| == b && h.argsStart - 1 == c;
  }

  /** A non-empty identifier run is an identifier. */
  lemma IdRunIsId(text: string, i: nat)
    requires i <= |text| && i < IdRunEnd(text, i)
    ensures IsId(text[i..IdRunEnd(text, i)])
  {
    IdRunEndIsMaximal(text, i);
    RunIsId(text, i, IdRunEnd(text, i));
  }

  /** A whitespace run is blank. */
  lemma SpaceRunIsBlank(text: string, i: nat)
    requires i <= |text|
    ensures IsBlank(text[i..SpaceRunEnd(text, i)])
  {
    SpaceRunEndIsMaximal(text, i);
    RunIsBlank(text, i, SpaceRunEnd(text, i));
  }

  lemma RunIsId(text: string, i: nat, j: nat)
    requires i < j <= |text| && forall k :: i <= k < j ==> IsIdChar(text[k])
    ensures IsId(text[i..j])
  {
    assert forall k :: 0 <= k < j - i ==> text[i..j][k] == text[i + k];
  }

  lemma RunIsBlank(text: string, i: nat, j: nat)
    requires i <= j <= |text| && forall k :: i <= k < j ==> IsSpace(text[k])
    ensures IsBlank(text[i..j])
  {
    assert forall k :: 0 <= k < j - i ==> text[i..j][k] == text[i + k];
  }

  /** The text of a header up to the end of its tool name, piece by piece. */
  lemma HeaderText(text: string, p: nat, a: nat, b: nat)
    requires p + 4 <= a < b <= |text| && text[p..p + 4] == "mcp:" && text[a] == ':'
    ensures text[p..b] == "mcp:" + text[p + 4..a] + ":" + text[a + 1..b]
  {
    assert text[p..b] == text[p..p + 4] + text[p + 4..a] + [text[a]] + text[a + 1..b];
  }

  /** The regular expression matches exactly the header shape: every such text is found. */
  lemma HeaderAtComplete(text: string, h: Header)
    requires MatchesHeader(text, h)
    ensures HeaderAt(text, h.start) == Some(h)
  {
    var a := h.start + 4 + |h.server|;
    var b := a + 1 + |h.tool|;
    HeaderRuns(text, h, a, b, h.argsStart - 1);
    HeaderAtOf(text, h, a, b, h.argsStart - 1);
  }

  /** On a text with the header shape, every test HeaderAt makes passes, at the header's own
   *  positions, and the pieces it cuts out are the header's. */
  lemma HeaderRuns(text: string, h: Header, a: nat, b: nat, c: nat)
    requires MatchesHeader(text, h)
    requires a == h.start + 4 + |h.server| && b == a + 1 + |h.tool| && c == h.argsStart - 1
    ensures McpAt(text, h.start) && a < |text| && h.start + 4 < a && text[a] == ':'
    ensures a == IdRunEnd(text, h.start + 4) && b == IdRunEnd(text, a + 1) && b > a + 1
    ensures c == SpaceRunEnd(text, b) && c < |text| && text[c] == '('
    ensures h == Header(h.start, text[h.start + 4..a], text[a + 1..b], c + 1)
  {
    ServerMatched(text, h);
    ToolMatched(text, a + 1, h.tool, c);
    BlanksMatched(text, h);
  }

  /** Once every test HeaderAt makes passes and h is made of the pieces it cuts out, it returns h. */
  lemma HeaderAtOf(text: string, h: Header, a: nat, b: nat, c: nat)
    requires McpAt(text, h.start) && a < |text| && h.start + 4 < a && text[a] == ':'
    requires a == IdRunEnd(text, h.start + 4) && b == IdRunEnd(text, a + 1) && b > a + 1
    requires c == SpaceRunEnd(text, b) && c < |text| && text[c] == '('
    requires h == Header(h.start, text[h.start + 4..a], text[a + 1..b], c + 1)
    ensures HeaderAt(text, h.start) == Some(h)
  {
  }

  /** On a text with the header shape, the `mcp:` test and the server run pass, ending at its `:`. */
  lemma ServerMatched(text: string, h: Header)
    requires MatchesHeader(text, h)
    ensures var a := h.start + 4 + |h.server|;
      && McpAt(text, h.start) && a < |text| && IdRunEnd(text, h.start + 4) == a && text[a] == ':'
  {
    McpAtSlice(text, h.start);
    IdRunOf(text, h.start + 4, h.server);
  }

  /** An identifier followed by blanks and `(`: the identifier run ends where the name does. */
  lemma ToolMatched(text: string, i: nat, tool: string, c: nat)
    requires i + |tool| <= c < |text| && text[i..i + |tool|] == tool && IsId(tool)
    requires IsBlank(text[i + |tool|..c]) && text[c] == '('
    ensures IdRunEnd(text, i) == i + |tool|
  {
    BlanksThenParen(text, i + |tool|, c);
    IdRunOf(text, i, tool);
  }

  /** On a text with the header shape, the blank run ends at the `(`. */
  lemma BlanksMatched(text: string, h: Header)
    requires MatchesHeader(text, h)
    ensures var b := h.start + 4 + |h.server| + 1 + |h.tool|;
      SpaceRunEnd(text, b) == h.argsStart - 1
  {
    BlankRunOf(text, h.start + 4 + |h.server| + 1 + |h.tool|, h.argsStart - 1);
  }

  /** Blanks and then `(`: the first of them is not an identifier character. */
  lemma BlanksThenParen(text: string, b: nat, c: nat)
    requires b <= c < |text| && IsBlank(text[b..c]) && text[c] == '('
    ensures !IsIdChar(text[b])
  {
    if b < c {
      assert IsSpace(text[b..c][0]);
      SpaceIsNotId(text[b]);
    }
  }

  /** An identifier in text followed by a non-identifier character is a maximal run. */
  lemma IdRunOf(text: string, i: nat, s: string)
    requires i + |s| < |text| && text[i..i + |s|] == s && IsId(s) && !IsIdChar(text[i + |s|])
    ensures IdRunEnd(text, i) == i + |s|
  {
    assert forall k :: i <= k < i + |s| ==> text[k] == s[k - i];
    IdRunEndStops(text, i, i + |s|);
  }

  /** Blanks in text followed by a non-blank character are a maximal run. */
  lemma BlankRunOf(text: string, i: nat, j: nat)
    requires i <= j < |text| && IsBlank(text[i..j]) && !IsSpace(text[j])
    ensures SpaceRunEnd(text, i) == j
  {
    BlankRun(text, i, j);
    SpaceRunEndStops(text, i, j);
  }

  lemma BlankRun(text: string, i: nat, j: nat)
    requires i <= j <= |text| && IsBlank(text[i..j])
    ensures forall k :: i <= k < j ==> IsSpace(text[k])
  {
    assert forall k :: i <= k < j ==> text[k] == text[i..j][k - i];
  }

  lemma SpaceIsNotId(c: char)
    requires IsSpace(c)
    ensures !IsIdChar(c)
  {
  }

  lemma {:induction false} IdRunEndStops(text: string, i: nat, j: nat)
    requires i <= j < |text| && !IsIdChar(text[j])
    requires forall k :: i <= k < j ==> IsIdChar(text[k])
    ensures IdRunEnd(text, i) == j
    decreases j - i
  {
    if i < j {
      IdRunEndStops(text, i + 1, j);
    }
  }

  lemma {:induction false} SpaceRunEndStops(text: string, i: nat, j: nat)
    requires i <= j < |text| && !IsSpace(text[j])
    requires forall k :: i <= k < j ==> IsSpace(text[k])
    ensures SpaceRunEnd(text, i) == j
    decreases j - i
  {
    if i < j {
      SpaceRunEndStops(text, i + 1, j);
    }
  }

  /**
   * A header matcher for text: what the header expression matches at each position. A match
   * at p starts at p and its `(` lies in text. The scan below is stated for any matcher, so
   * that its proofs never look inside the expression itself.
   */
  ghost predicate IsMatcher(text: string, at: nat -> Option<Header>) {
    forall p: nat :: at(p).Some? ==> at(p).value.start == p < at(p).value.argsStart <= |text|
  }

  /** The header expression of parseCommandsFromText as a matcher. */
  function Matcher(text: string): (at: nat -> Option<Header>)
    ensures IsMatcher(text, at)
    ensures forall p: nat :: at(p) == HeaderAt(text, p)
  {
    (p: nat) => HeaderAt(text, p)
  }

  /** RegExp.prototype.exec from lastIndex `from`: the leftmost match at or after it. */
  function NextMatch(text: string, from: nat, at: nat -> Option<Header>): (r: Option<Header>)
    requires IsMatcher(text, at)
    ensures r.Some? ==> from <= r.value.start < r.value.argsStart <= |text|
    decreases |text| - from
  {
    if from >= |text| then None
    else match at(from)
      case Some(h) => Some(h)
      case None => NextMatch(text, from + 1, at)
  }

  /** The search finds the leftmost match at or after `from`, and finds one if any exists. */
  lemma {:induction false} NextMatchIsLeftmost(text: string, from: nat, at: nat -> Option<Header>)
    requires IsMatcher(text, at)
    ensures var r := NextMatch(text, from, at);
      && (r.None? ==> forall p: nat :: from <= p ==> at(p).None?)
      && (r.Some? ==> at(r.value.start) == r)
      && (r.Some? ==> forall p: nat :: from <= p < r.value.start ==> at(p).None?)
    decreases |text| - from
  {
    if from < |text| && at(from).None? {
      NextMatchIsLeftmost(text, from + 1, at);
    }
  }

  /** The search with the header expression finds the leftmost header, if there is one. */
  lemma NextHeaderIsLeftmost(text: string, from: nat)
    ensures var r := NextMatch(text, from, Matcher(text));
      && (r.None? ==> forall p :: from <= p ==> HeaderAt(text, p).None?)
      && (r.Some? ==> HeaderAt(text, r.value.start) == r)
      && (r.Some? ==> forall p :: from <= p < r.value.start ==> HeaderAt(text, p).None?)
  {
    NextMatchIsLeftmost(text, from, Matcher(text));
  }

  // ---------------------------------------------------------------------------
  // The balance state machine

  /** The variables of the inner loop: balance, inString, stringChar and isEscaped. */
  datatype ScanState = ScanState(balance: int, inString: bool, stringChar: char, isEscaped: bool)

  /** The state right after a header's `(`; the source's empty stringChar is never read. */
  const Start: ScanState := ScanState(1, false, '\0', false)

  predicate IsQuote(c: char) { c == '"' || c == '\'' || c == '`' }

  /** The character c takes the balance from 1 to 0: the span ends here. */
  predicate Closes(st: ScanState, c: char) {
    !st.inString && c == ')' && st.balance == 1
  }

  /** One iteration of the inner loop on character c. */
  function Step(st: ScanState, c: char): (r: ScanState)
    ensures r.balance != st.balance ==> !st.inString && (c == '(' || c == ')')
    ensures r.balance == st.balance + 1 <==> !st.inString && c == '('
    ensures r.balance == st.balance - 1 <==> !st.inString && c == ')'
    ensures st.inString && st.isEscaped ==> r.inString && !r.isEscaped
    ensures st.inString && !st.isEscaped && c == '\\' ==> r.inString && r.isEscaped
    ensures !st.inString ==> (r.inString <==> IsQuote(c)) && !r.isEscaped == !st.isEscaped
    ensures st.inString && !r.inString ==> !st.isEscaped && c == st.stringChar
  {
    if st.inString then
      if st.isEscaped then st.(isEscaped := false)
      else if c == '\\' then st.(isEscaped := true)
      else if c == st.stringChar then st.(inString := false)
      else st
    else if IsQuote(c) then st.(inString := true, stringChar := c)
    else if c == '(' then st.(balance := st.balance + 1)
    else if c == ')' then st.(balance := st.balance - 1)
    else st
  }

  /** The state after running the machine from Start over text[a..j]. */
  function StateAt(text: string, a: nat, j: nat): ScanState
    requires a <= j <= |text|
    decreases j - a
  {
    if j == a then Start else Step(StateAt(text, a, j - 1), text[j - 1])
  }

  /** The inner loop from position i in state st: the index of the closing `)`, if any. */
  function CloseFrom(text: string, i: nat, st: ScanState): (r: Option<nat>)
    requires i <= |text|
    ensures r.Some? ==> i <= r.value < |text| && text[r.value] == ')'
    decreases |text| - i
  {
    if i == |text| then None
    else if Closes(st, text[i]) then Some(i)
    else CloseFrom(text, i + 1, Step(st, text[i]))
  }

  /** The closing parenthesis of the argument span that starts at a. */
  function ArgsEnd(text: string, a: nat): (r: Option<nat>)
    requires a <= |text|
    ensures r.Some? ==> a <= r.value < |text| && text[r.value] == ')'
  {
    CloseFrom(text, a, Start)
  }

  /**
   * The closing index is the first position where the balance, starting at 1, reaches 0;
   * when there is none, the balance stays positive to the end of the text.
   */
  lemma ArgsEndIsFirstZero(text: string, a: nat)
    requires a <= |text|
    ensures ArgsEnd(text, a).Some? ==>
      var k := ArgsEnd(text, a).value;
      && a <= k < |text| && StateAt(text, a, k + 1).balance == 0
      && forall j :: a <= j <= k ==> StateAt(text, a, j).balance >= 1
    ensures ArgsEnd(text, a).None? ==> forall j :: a <= j <= |text| ==> StateAt(text, a, j).balance >= 1
  {
    CloseFromIsFirstZero(text, a, a);
  }

  lemma {:induction false} CloseFromIsFirstZero(text: string, a: nat, i: nat)
    requires a <= i <= |text|
    requires forall j :: a <= j <= i ==> StateAt(text, a, j).balance >= 1
    ensures var r := CloseFrom(text, i, StateAt(text, a, i));
      && (r.Some? ==>
        && StateAt(text, a, r.value + 1).balance == 0
        && forall j :: a <= j <= r.value ==> StateAt(text, a, j).balance >= 1)
      && (r.None? ==> forall j :: a <= j <= |text| ==> StateAt(text, a, j).balance >= 1)
    decreases |text| - i
  {
    var st := StateAt(text, a, i);
    if i < |text| {
      var next := Step(st, text[i]);
      assert StateAt(text, a, i + 1) == next;
      if !Closes(st, text[i]) {
        assert next.balance >= 1;
        CloseFromIsFirstZero(text, a, i + 1);
      }
    }
  }

  // ---------------------------------------------------------------------------
  // The outer loop

  /** An emitted command: its header and the index of its closing parenthesis. */
  datatype Span = Span(header: Header, close: nat)

  /** The span's header, arguments and closing parenthesis lie in text, in that order. */
  predicate InText(text: string, sp: Span) {
    sp.header.start < sp.header.argsStart <= sp.close < |text|
  }

  /** The span is a match of `at` in text whose argument span closes at sp.close. */
  predicate IsMatchSpan(text: string, at: nat -> Option<Header>, sp: Span) {
    && InText(text, sp)
    && at(sp.header.start) == Some(sp.header)
    && ArgsEnd(text, sp.header.argsStart) == Some(sp.close)
  }

  /** The span is a header found in text whose argument span closes at sp.close. */
  predicate IsSpanOf(text: string, sp: Span) {
    && InText(text, sp)
    && HeaderAt(text, sp.header.start) == Some(sp.header)
    && ArgsEnd(text, sp.header.argsStart) == Some(sp.close)
  }

  /**
   * The spans the outer loop emits from lastIndex `from`: after an emitted command the
   * search resumes after its `)`; after a header whose `(` never closes it resumes right
   * after that `(`. Spans are left to right and never overlap.
   */
  function Scan(text: string, from: nat, at: nat -> Option<Header>): (spans: seq<Span>)
    requires from <= |text| && IsMatcher(text, at)
    decreases |text| - from
  {
    match NextMatch(text, from, at)
    case None => []
    case Some(h) =>
      match ArgsEnd(text, h.argsStart)
      case None => Scan(text, h.argsStart, at)
      case Some(k) => [Span(h, k)] + Scan(text, k + 1, at)
  }

  /** Each span of the list is a match found in text, closed where the machine says. */
  predicate AllFound(text: string, at: nat -> Option<Header>, spans: seq<Span>) {
    spans == [] || (IsMatchSpan(text, at, spans[0]) && AllFound(text, at, spans[1..]))
  }

  lemma {:induction false} AllFoundAt(text: string, at: nat -> Option<Header>, spans: seq<Span>, i: nat)
    requires AllFound(text, at, spans) && i < |spans|
    ensures IsMatchSpan(text, at, spans[i])
  {
    if i > 0 {
      AllFoundAt(text, at, spans[1..], i - 1);
    }
  }

  /** Each span of the list lies inside text. */
  predicate AllInText(text: string, spans: seq<Span>) {
    spans == [] || (InText(text, spans[0]) && AllInText(text, spans[1..]))
  }

  lemma {:induction false} ScanInText(text: string, from: nat, at: nat -> Option<Header>)
    requires from <= |text| && IsMatcher(text, at)
    ensures AllInText(text, Scan(text, from, at))
    decreases |text| - from
  {
    match NextMatch(text, from, at)
    case None =>
    case Some(h) =>
      match ArgsEnd(text, h.argsStart)
      case None =>
        ScanInText(text, h.argsStart, at);
      case Some(k) =>
        ScanInText(text, k + 1, at);
        var spans := Scan(text, from, at);
        assert spans == [Span(h, k)] + Scan(text, k + 1, at);
        assert spans[1..] == Scan(text, k + 1, at);
  }

  /** Every emitted span is a header found in the text, closed where the machine says. */
  lemma {:induction false} ScanSpansAreFound(text: string, from: nat, at: nat -> Option<Header>)
    requires from <= |text| && IsMatcher(text, at)
    ensures AllFound(text, at, Scan(text, from, at))
    decreases |text| - from
  {
    match NextMatch(text, from, at)
    case None =>
    case Some(h) =>
      match ArgsEnd(text, h.argsStart)
      case None =>
        ScanSpansAreFound(text, h.argsStart, at);
      case Some(k) =>
        ScanSpansAreFound(text, k + 1, at);
        NextMatchIsLeftmost(text, from, at);
        var spans := Scan(text, from, at);
        assert spans == [Span(h, k)] + Scan(text, k + 1, at);
        assert spans[1..] == Scan(text, k + 1, at);
  }

  /** A header whose argument span closes is emitted, and the search resumes after it. */
  lemma ScanEmits(text: string, from: nat, at: nat -> Option<Header>, h: Header, k: nat)
    requires from <= |text| && IsMatcher(text, at) && NextMatch(text, from, at) == Some(h)
    requires h.argsStart <= |text| && ArgsEnd(text, h.argsStart) == Some(k)
    ensures k + 1 <= |text| && Scan(text, from, at) == [Span(h, k)] + Scan(text, k + 1, at)
  {
  }

  /** A header whose argument span never closes is dropped; the search resumes after its `(`. */
  lemma ScanSkips(text: string, from: nat, at: nat -> Option<Header>, h: Header)
    requires from <= |text| && IsMatcher(text, at) && NextMatch(text, from, at) == Some(h)
    requires h.argsStart <= |text| && ArgsEnd(text, h.argsStart).None?
    ensures Scan(text, from, at) == Scan(text, h.argsStart, at)
    ensures AllInText(text, Scan(text, h.argsStart, at))
  {
    ScanInText(text, h.argsStart, at);
  }

  /** The record pushed for one span: the original text, the trimmed arguments evaluated. */
  function Build(text: string, sp: Span, evaluate: Evaluator): ParsedCommand
    requires InText(text, sp)
  {
    var argsStr := Trim(text[sp.header.argsStart..sp.close]);
    var original := text[sp.header.start..sp.close + 1];
    if argsStr == "" then ParsedCommand(original, sp.header.server, sp.header.tool, EmptyObject, true, None)
    else match evaluate(argsStr)
      case Ok(v) => ParsedCommand(original, sp.header.server, sp.header.tool, v, true, None)
      case Err(msg) => ParsedCommand(original, sp.header.server, sp.header.tool, EmptyObject, false, Some(msg))
  }

  function BuildAll(text: string, spans: seq<Span>, evaluate: Evaluator): (cs: seq<ParsedCommand>)
    requires AllInText(text, spans)
    ensures |cs| == |spans|
  {
    if spans == [] then [] else [Build(text, spans[0], evaluate)] + BuildAll(text, spans[1..], evaluate)
  }

  lemma BuildAllCons(text: string, sp: Span, rest: seq<Span>, evaluate: Evaluator)
    requires InText(text, sp) && AllInText(text, rest)
    ensures AllInText(text, [sp] + rest)
    ensures BuildAll(text, [sp] + rest, evaluate) == [Build(text, sp, evaluate)] + BuildAll(text, rest, evaluate)
  {
    assert ([sp] + rest)[1..] == rest;
  }

  /** The commands the outer loop pushes from lastIndex `from` on. */
  function Pending(text: string, from: nat, at: nat -> Option<Header>, evaluate: Evaluator): seq<ParsedCommand>
    requires from <= |text| && IsMatcher(text, at)
    decreases |text| - from
  {
    match NextMatch(text, from, at)
    case None => []
    case Some(h) =>
      match ArgsEnd(text, h.argsStart)
      case None => Pending(text, h.argsStart, at, evaluate)
      case Some(k) => [Build(text, Span(h, k), evaluate)] + Pending(text, k + 1, at, evaluate)
  }

  /** What parseCommandsFromText returns for text. */
  function Commands(text: string, evaluate: Evaluator): seq<ParsedCommand> {
    Pending(text, 0, Matcher(text), evaluate)
  }

  /** The commands are built one for one from the spans the scan emits. */
  lemma {:induction false} PendingBuildsScan(text: string, from: nat, at: nat -> Option<Header>, evaluate: Evaluator)
    requires from <= |text| && IsMatcher(text, at)
    ensures AllInText(text, Scan(text, from, at))
    ensures Pending(text, from, at, evaluate) == BuildAll(text, Scan(text, from, at), evaluate)
    decreases |text| - from
  {
    ScanInText(text, from, at);
    match NextMatch(text, from, at)
    case None =>
    case Some(h) =>
      match ArgsEnd(text, h.argsStart)
      case None =>
        PendingBuildsScan(text, h.argsStart, at, evaluate);
        ScanSkips(text, from, at, h);
        PendingSkips(text, from, at, evaluate, h);
      case Some(k) =>
        PendingBuildsScan(text, k + 1, at, evaluate);
        ScanEmits(text, from, at, h, k);
        BuildAllCons(text, Span(h, k), Scan(text, k + 1, at), evaluate);
        PendingEmits(text, from, at, evaluate, h, k);
  }

  /** A header whose argument span never closes contributes nothing; the search resumes after its `(`. */
  lemma PendingSkips(text: string, from: nat, at: nat -> Option<Header>, evaluate: Evaluator, h: Header)
    requires from <= |text| && IsMatcher(text, at) && NextMatch(text, from, at) == Some(h)
    requires h.argsStart <= |text| && ArgsEnd(text, h.argsStart).None?
    ensures Pending(text, from, at, evaluate) == Pending(text, h.argsStart, at, evaluate)
  {
  }

  /** A header whose argument span closes contributes its command, then the rest. */
  lemma PendingEmits(text: string, from: nat, at: nat -> Option<Header>, evaluate: Evaluator, h: Header, k: nat)
    requires from <= |text| && IsMatcher(text, at) && NextMatch(text, from, at) == Some(h)
    requires h.argsStart <= |text| && ArgsEnd(text, h.argsStart) == Some(k)
    ensures InText(text, Span(h, k))
    ensures Pending(text, from, at, evaluate) == [Build(text, Span(h, k), evaluate)] + Pending(text, k + 1, at, evaluate)
  {
    assert InText(text, Span(h, k));
    PendingStep(text, from, at, evaluate, h, k);
  }

  lemma PendingStep(text: string, from: nat, at: nat -> Option<Header>, evaluate: Evaluator, h: Header, k: nat)
    requires from <= |text| && IsMatcher(text, at) && NextMatch(text, from, at) == Some(h)
    requires InText(text, Span(h, k)) && ArgsEnd(text, h.argsStart) == Some(k)
    ensures Pending(text, from, at, evaluate) == [Build(text, Span(h, k), evaluate)] + Pending(text, k + 1, at, evaluate)
  {
    assert NextMatch(text, from, at).Some? && NextMatch(text, from, at).value == h;
    assert ArgsEnd(text, h.argsStart).Some? && ArgsEnd(text, h.argsStart).value == k;
  }

  /**
   * The inner loop of parseCommandsFromText: walks from the character after the header's
   * `(` and returns the index of the `)` that brings the balance to 0, or -1.
   */
  method FindArgsEnd(text: string, argsStartIndex: nat) returns (argsEndIndex: int)
    requires argsStartIndex <= |text|
    ensures argsEndIndex == -1 <==> ArgsEnd(text, argsStartIndex).None?
    ensures argsEndIndex != -1 ==> ArgsEnd(text, argsStartIndex).value == argsEndIndex
  {
    var balance := 1;
    var i := argsStartIndex;
    var inString := false;
    var stringChar := '\0';
    var isEscaped := false;
    argsEndIndex := -1;
    while i < |text|
      invariant argsStartIndex <= i <= |text|
      invariant argsEndIndex == -1
      invariant CloseFrom(text, i, ScanState(balance, inString, stringChar, isEscaped)) == ArgsEnd(text, argsStartIndex)
      decreases |text| - i
    {
      var ch := text[i];
      ghost var before := ScanState(balance, inString, stringChar, isEscaped);
      if inString {
        if isEscaped {
          isEscaped := false;
        } else if ch == '\\' {
          isEscaped := true;
        } else if ch == stringChar {
          inString := false;
        }
      } else if ch == '"' || ch == '\'' || ch == '`' {
        inString := true;
        stringChar := ch;
      } else if ch == '(' {
        balance := balance + 1;
      } else if ch == ')' {
        balance := balance - 1;
        if balance == 0 {
          assert Closes(before, ch);
          argsEndIndex := i;
          break;
        }
      }
      assert !Closes(before, ch) && ScanState(balance, inString, stringChar, isEscaped) == Step(before, ch);
      i := i + 1;
    }
  }

  /** The record the loop pushes for a span whose `)` was found. */
  method MakeCommand(text: string, span: Span, evaluate: Evaluator) returns (cmd: ParsedCommand)
    requires InText(text, span)
    ensures cmd == Build(text, span, evaluate)
  {
    var header := span.header;
    var argsStr := Trim(text[header.argsStart..span.close]);
    var original := text[header.start..span.close + 1];
    var args := EmptyObject;
    var isValid := false;
    var errorMsg := None;
    if argsStr == "" {
      args := EmptyObject;
      isValid := true;
    } else {
      match evaluate(argsStr)
      case Ok(v) =>
        args := v;
        isValid := true;
      case Err(msg) =>
        isValid := false;
        errorMsg := Some(msg);
    }
    cmd := ParsedCommand(original, header.server, header.tool, args, isValid, errorMsg);
  }

  /**
   * One pass of the loop body of parseCommandsFromText, for a header found at or after
   * lastIndex: the index the search resumes from, and the command pushed, if any.
   */
  method NextCommand(text: string, lastIndex: nat, at: nat -> Option<Header>, header: Header, evaluate: Evaluator)
    returns (next: nat, pushed: seq<ParsedCommand>)
    requires lastIndex <= |text| && IsMatcher(text, at) && NextMatch(text, lastIndex, at) == Some(header)
    ensures lastIndex < next <= |text|
    ensures |pushed| <= 1
    ensures Pending(text, lastIndex, at, evaluate) == pushed + Pending(text, next, at, evaluate)
  {
    var argsStartIndex := header.argsStart;
    next := argsStartIndex;
    var argsEndIndex := FindArgsEnd(text, argsStartIndex);
    if argsEndIndex == -1 {
      PendingSkips(text, lastIndex, at, evaluate, header);
      pushed := [];
      return;
    }
    var close: nat := argsEndIndex;
    next := close + 1;
    PendingEmits(text, lastIndex, at, evaluate, header, close);
    var cmd := MakeCommand(text, Span(header, close), evaluate);
    pushed := [cmd];
  }

  /** parseCommandsFromText: the regular-expression loop with the balance machine inside. */
  method ParseCommandsFromText(text: string, evaluate: Evaluator) returns (commands: seq<ParsedCommand>)
    ensures commands == Commands(text, evaluate)
  {
    var at := Matcher(text);
    commands := [];
    var lastIndex: nat := 0;
    while true
      invariant lastIndex <= |text|
      invariant commands + Pending(text, lastIndex, at, evaluate) == Commands(text, evaluate)
      decreases |text| - lastIndex
    {
      var m := NextMatch(text, lastIndex, at);
      if m.None? {
        break;
      }
      var next, pushed := NextCommand(text, lastIndex, at, m.value, evaluate);
      AppendAssoc(commands, pushed, Pending(text, next, at, evaluate));
      commands := commands + pushed;
      lastIndex := next;
    }
  }

  // ---------------------------------------------------------------------------
  // Properties of the scan

  lemma {:induction false} BuildAllAt(text: string, spans: seq<Span>, evaluate: Evaluator, i: nat)
    requires AllInText(text, spans) && i < |spans|
    ensures InText(text, spans[i])
    ensures BuildAll(text, spans, evaluate)[i] == Build(text, spans[i], evaluate)
  {
    if i > 0 {
      BuildAllAt(text, spans[1..], evaluate, i - 1);
    }
  }

  /** Each span starts at or after `from`, and each next one after the previous `)`. */
  predicate Ordered(spans: seq<Span>, from: nat) {
    spans == [] ||
    (from <= spans[0].header.start < spans[0].close && Ordered(spans[1..], spans[0].close + 1))
  }

  lemma {:induction false} OrderedWeaken(spans: seq<Span>, from: nat, earlier: nat)
    requires Ordered(spans, from) && earlier <= from
    ensures Ordered(spans, earlier)
  {
  }

  lemma {:induction false} ScanIsOrdered(text: string, from: nat, at: nat -> Option<Header>)
    requires from <= |text| && IsMatcher(text, at)
    ensures Ordered(Scan(text, from, at), from)
    decreases |text| - from
  {
    match NextMatch(text, from, at)
    case None =>
    case Some(h) =>
      match ArgsEnd(text, h.argsStart)
      case None =>
        ScanIsOrdered(text, h.argsStart, at);
        ScanSkips(text, from, at, h);
        OrderedWeaken(Scan(text, h.argsStart, at), h.argsStart, from);
      case Some(k) =>
        ScanIsOrdered(text, k + 1, at);
        ScanEmits(text, from, at, h, k);
        assert Scan(text, from, at)[1..] == Scan(text, k + 1, at);
  }

  lemma {:induction false} OrderedAt(spans: seq<Span>, from: nat)
    requires Ordered(spans, from)
    ensures forall i :: 0 <= i < |spans| ==> from <= spans[i].header.start < spans[i].close
    ensures forall i, j :: 0 <= i < j < |spans| ==> spans[i].close < spans[j].header.start
  {
    if spans != [] {
      var rest := spans[1..];
      OrderedAt(rest, spans[0].close + 1);
      assert forall i :: 1 <= i < |spans| ==> spans[i] == rest[i - 1];
    }
  }

  /**
   * Emitted spans lie at or after the starting point, left to right, and never overlap: each
   * one ends before the next one's header starts.
   */
  lemma ScanOrdered(text: string, from: nat, at: nat -> Option<Header>)
    requires from <= |text| && IsMatcher(text, at)
    ensures var spans := Scan(text, from, at);
      forall i :: 0 <= i < |spans| ==> from <= spans[i].header.start < spans[i].close
    ensures var spans := Scan(text, from, at);
      forall i, j :: 0 <= i < j < |spans| ==> spans[i].close < spans[j].header.start
  {
    ScanIsOrdered(text, from, at);
    OrderedAt(Scan(text, from, at), from);
  }

  /** The i-th command is built from the i-th span the scan emits. */
  lemma CommandFromSpan(text: string, evaluate: Evaluator, i: nat)
    requires i < |Commands(text, evaluate)|
    ensures var spans := Scan(text, 0, Matcher(text));
      i < |spans| && IsSpanOf(text, spans[i]) && Commands(text, evaluate)[i] == Build(text, spans[i], evaluate)
  {
    var at := Matcher(text);
    PendingBuildsScan(text, 0, at, evaluate);
    BuildAllAt(text, Scan(text, 0, at), evaluate, i);
    ScanSpansAreFound(text, 0, at);
    AllFoundAt(text, at, Scan(text, 0, at), i);
  }

  /** A text in which no position starts a header yields no commands. */
  lemma NoHeaderNoCommands(text: string, evaluate: Evaluator)
    requires forall p: nat :: HeaderAt(text, p).None?
    ensures Commands(text, evaluate) == []
  {
    if Commands(text, evaluate) != [] {
      CommandFromSpan(text, evaluate, 0);
    }
  }

  /**
   * A command built from a found span: its original text runs from its header to the `)`
   * that closes it and starts with `mcp:server:tool` for two identifiers.
   */
  lemma BuildText(text: string, sp: Span, evaluate: Evaluator)
    requires IsSpanOf(text, sp)
    ensures var c := Build(text, sp, evaluate);
      var n := 4 + |c.server| + 1 + |c.tool|;
      && c.original == text[sp.header.start..sp.close + 1]
      && c.server == sp.header.server && c.tool == sp.header.tool
      && IsId(c.server) && IsId(c.tool)
      && n < |c.original|
      && c.original[..n] == "mcp:" + c.server + ":" + c.tool
      && c.original[|c.original| - 1] == ')'
  {
    SpanText(text, sp);
  }

  lemma SpanText(text: string, sp: Span)
    requires IsSpanOf(text, sp)
    ensures var o := text[sp.header.start..sp.close + 1];
      var n := 4 + |sp.header.server| + 1 + |sp.header.tool|;
      && IsId(sp.header.server) && IsId(sp.header.tool)
      && n < |o| && o[..n] == "mcp:" + sp.header.server + ":" + sp.header.tool && o[|o| - 1] == ')'
  {
    HeaderAtSound(text, sp.header.start);
    HeaderPrefix(text, sp.header, sp.close + 1);
    SpanCloses(text, sp);
  }

  /** A span's text ends with its `)`. */
  lemma SpanCloses(text: string, sp: Span)
    requires IsSpanOf(text, sp)
    ensures sp.header.start <= sp.close < |text|
    ensures var o := text[sp.header.start..sp.close + 1]; o != [] && o[|o| - 1] == ')'
  {
    var h := sp.header;
    HeaderAtSound(text, h.start);
    assert text[h.start..sp.close + 1][sp.close - h.start] == text[sp.close];
  }

  /** The text of a header, cut anywhere after its `(`, starts with its words. */
  lemma HeaderPrefix(text: string, h: Header, e: nat)
    requires MatchesHeader(text, h) && h.argsStart <= e <= |text|
    ensures var n := 4 + |h.server| + 1 + |h.tool|;
      && IsId(h.server) && IsId(h.tool)
      && h.start + n < e && text[h.start..e][..n] == "mcp:" + h.server + ":" + h.tool
  {
    HeaderWords(text, h);
    PrefixOfSlice(text, h.start, e, 4 + |h.server| + 1 + |h.tool|);
  }

  /** A header's text up to the end of its tool name, as one string. */
  lemma HeaderWords(text: string, h: Header)
    requires MatchesHeader(text, h)
    ensures var n := 4 + |h.server| + 1 + |h.tool|;
      h.start + n < h.argsStart && text[h.start..h.start + n] == "mcp:" + h.server + ":" + h.tool
  {
    var a := h.start + 4 + |h.server|;
    HeaderText(text, h.start, a, a + 1 + |h.tool|);
  }

  lemma PrefixOfSlice<T>(s: seq<T>, p: nat, e: nat, n: nat)
    requires p + n <= e <= |s|
    ensures s[p..e][..n] == s[p..p + n]
  {
  }

  /**
   * A command is valid exactly when its trimmed argument text is empty (the empty object)
   * or evaluates (its value); an evaluation error is reported with the empty object.
   */
  lemma BuildValidity(text: string, sp: Span, evaluate: Evaluator)
    requires InText(text, sp)
    ensures var c := Build(text, sp, evaluate);
      var argsStr := Trim(text[sp.header.argsStart..sp.close]);
      && (c.isValid <==> argsStr == "" || evaluate(argsStr).Ok?)
      && (argsStr == "" ==> c.args == EmptyObject && c.error == None)
      && (argsStr != "" && evaluate(argsStr).Ok? ==> c.args == evaluate(argsStr).value && c.error == None)
      && (argsStr != "" && evaluate(argsStr).Err? ==> c.args == EmptyObject && c.error == Some(evaluate(argsStr).error))
  {
  }

  /** A text without `(` holds no command: a bare `mcp:server:tool` is not one. */
  lemma NoParenNoCommands(text: string, evaluate: Evaluator)
    requires forall i :: 0 <= i < |text| ==> text[i] != '('
    ensures Commands(text, evaluate) == []
  {
    NextHeaderIsLeftmost(text, 0);
    if NextMatch(text, 0, Matcher(text)).Some? {
      var h := NextMatch(text, 0, Matcher(text)).value;
      HeaderAtSound(text, h.start);
      assert false;
    }
  }
}
