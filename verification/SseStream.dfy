/**
 * The server-sent-event line: how the knowledge router prints an event
 * (backend/routers/knowledge.py) and how the browser reads it back from a byte
 * stream cut at arbitrary places (frontend/hooks/useKnowledge.ts, parseSSE).
 * Chunks are already decoded to characters; JSON is a parameter `decode`.
 */
module SseStream {
  import opened Wrappers

  datatype Source = Source(knowledgeId: string, title: string)

  /** What `JSON.parse` may give for one payload, as far as parseSSE looks at it. */
  datatype WireEvent =
    | TokenEvent(content: Option<string>)
    | DoneEvent(sources: Option<seq<Source>>)
    | ErrorEvent(message: Option<string>)
    | UnknownEvent

  datatype Callback =
    | OnToken(content: string)
    | OnDone(sources: seq<Source>)
    | OnError(message: string)

  /** How the reader ends once its chunks are used up. */
  datatype Ending = Closed | Broken(message: string)

  /** `None` when the text is not JSON or has no fields to read. */
  type Decoder = string -> Option<WireEvent>

  // ---- String.prototype.trim -------------------------------------------------

  predicate IsBlank(c: char) {
    || c == ' ' || '\t' <= c <= '\r'
    || c == '\U{00A0}' || c == '\U{1680}' || '\U{2000}' <= c <= '\U{200A}'
    || c == '\U{2028}' || c == '\U{2029}' || c == '\U{202F}' || c == '\U{205F}' || c == '\U{3000}'
    || c == '\U{FEFF}'
  }

  function TrimStart(s: string): string {
    if s != "" && IsBlank(s[0]) then TrimStart(s[1..]) else s
  }

  function TrimEnd(s: string): string {
    if s != "" && IsBlank(s[|s| - 1]) then TrimEnd(s[..|s| - 1]) else s
  }

  function Trim(s: string): string {
    TrimEnd(TrimStart(s))
  }

  predicate BareEdges(s: string) {
    s != "" ==> !IsBlank(s[0]) && !IsBlank(s[|s| - 1])
  }

  lemma {:induction false} TrimStartCuts(s: string) returns (i: nat)
    ensures i <= |s| && TrimStart(s) == s[i..]
    ensures forall k :: 0 <= k < i ==> IsBlank(s[k])
    ensures TrimStart(s) != "" ==> !IsBlank(TrimStart(s)[0])
  {
    i := 0;
    if s != "" && IsBlank(s[0]) {
      var j := TrimStartCuts(s[1..]);
      i := j + 1;
    }
  }

  lemma {:induction false} TrimEndCuts(s: string) returns (j: nat)
    ensures j <= |s| && TrimEnd(s) == s[..j]
    ensures forall k :: j <= k < |s| ==> IsBlank(s[k])
    ensures TrimEnd(s) != "" ==> !IsBlank(TrimEnd(s)[|TrimEnd(s)| - 1])
  {
    j := |s|;
    if s != "" && IsBlank(s[|s| - 1]) {
      var front := s[..|s| - 1];
      j := TrimEndCuts(front);
      assert front[..j] == s[..j];
      assert forall k :: j <= k < |front| ==> s[k] == front[k];
    } else {
      assert TrimEnd(s) == s;
    }
  }

  /** Trimming removes exactly the blanks at both edges: what is left is the window
      `s[i..j]`, everything outside it is blank, and its own edges are not. */
  lemma TrimIsWindow(s: string) returns (i: nat, j: nat)
    ensures i <= j <= |s| && Trim(s) == s[i..j]
    ensures forall k :: 0 <= k < i || j <= k < |s| ==> IsBlank(s[k])
    ensures BareEdges(Trim(s))
  {
    i := TrimStartCuts(s);
    var n := TrimEndCuts(s[i..]);
    j := i + n;
    assert s[i..][..n] == s[i..j];
    forall k | j <= k < |s| ensures IsBlank(s[k]) {
      assert s[k] == s[i..][k - i];
    }
  }

  // ---- split("\n") -----------------------------------------------------------

  function Split(text: string): (parts: seq<string>)
    ensures |parts| > 0
  {
    if text == "" then [""]
    else if text[0] == '\n' then [""] + Split(text[1..])
    else
      var rest := Split(text[1..]);
      [[text[0]] + rest[0]] + rest[1..]
  }

  function Join(parts: seq<string>): string
    requires |parts| > 0
  {
    if |parts| == 1 then parts[0] else parts[0] + "\n" + Join(parts[1..])
  }

  lemma {:induction false} SplitJoins(text: string)
    ensures Join(Split(text)) == text
    ensures forall p :: p in Split(text) ==> '\n' !in p
  {
    if text != "" {
      SplitJoins(text[1..]);
      var rest := Split(text[1..]);
      if text[0] == '\n' {
        assert Split(text)[1..] == rest;
      } else {
        assert Split(text)[1..] == rest[1..];
        assert rest[0] in rest;
      }
    }
  }

  lemma {:induction false} SplitLine(line: string, rest: string)
    requires '\n' !in line
    ensures Split(line + "\n" + rest) == [line] + Split(rest)
    ensures Split(line) == [line]
  {
    if line == "" {
      assert (line + "\n" + rest)[1..] == rest;
    } else {
      assert line[0] in line && line == [line[0]] + line[1..];
      SplitLine(line[1..], rest);
      assert (line + "\n" + rest)[1..] == line[1..] + "\n" + rest;
    }
  }

  /** Splitting is the one way to write a text as newline-free parts joined by newlines. */
  lemma {:induction false} SplitIsInverseOfJoin(parts: seq<string>)
    requires |parts| > 0 && forall p :: p in parts ==> '\n' !in p
    ensures Split(Join(parts)) == parts
  {
    if |parts| > 1 {
      SplitIsInverseOfJoin(parts[1..]);
      SplitLine(parts[0], Join(parts[1..]));
    } else {
      SplitLine(parts[0], "");
    }
  }

  function Partial(text: string): string {
    Split(text)[|Split(text)| - 1]
  }

  /** The newline-terminated lines of a text; what follows the last newline is not one. */
  function CompleteLines(text: string): seq<string> {
    Split(text)[..|Split(text)| - 1]
  }

  lemma SplitCons(c: char, text: string)
    ensures Split([c] + text) == OntoLines(c, Split(text))
  {
  }

  lemma SplitAppendStep(c: char, t: string, b: string)
    requires Split(t + b) == CompleteLines(t) + Split(Partial(t) + b)
    ensures Split([c] + (t + b)) == CompleteLines([c] + t) + Split(Partial([c] + t) + b)
  {
    var lines, last := Split(t), Split(Partial(t) + b);
    SplitCons(c, t);
    SplitCons(c, t + b);
    ConsOntoLines(c, lines, last);
    if |lines| == 1 && c != '\n' {
      SplitCons(c, Partial(t) + b);
      assert Partial([c] + t) + b == [c] + (Partial(t) + b);
      assert CompleteLines([c] + t) == [];
    } else {
      assert Partial([c] + t) == Partial(t);
    }
  }

  /** The heart of the incremental reader: only the unfinished last line has to be kept. */
  lemma {:induction false} SplitAppend(a: string, b: string)
    ensures Split(a + b) == CompleteLines(a) + Split(Partial(a) + b)
  {
    if a == "" {
      assert Split(a) == [""];
      assert a + b == b && Partial(a) + b == b;
    } else {
      var c, t := a[0], a[1..];
      assert a == [c] + t && a + b == [c] + (t + b);
      SplitAppend(t, b);
      SplitAppendStep(c, t, b);
    }
  }

  function OntoLines(c: char, lines: seq<string>): (r: seq<string>)
    requires |lines| > 0
    ensures |r| > 0
  {
    if c == '\n' then [""] + lines else [[c] + lines[0]] + lines[1..]
  }

  lemma OntoFirstOf(c: char, a: seq<string>, b: seq<string>)
    requires a != []
    ensures OntoLines(c, a + b) == OntoLines(c, a) + b
  {
    assert (a + b)[1..] == a[1..] + b;
  }

  /** Putting a character in front commutes with replacing the last line by other lines. */
  lemma ConsOntoLines(c: char, lines: seq<string>, last: seq<string>)
    requires |lines| > 0 && |last| > 0
    ensures var front := OntoLines(c, lines);
            OntoLines(c, lines[..|lines| - 1] + last)
            == if |lines| == 1 && c != '\n' then OntoLines(c, last)
               else front[..|front| - 1] + last
  {
    var n, front := |lines| - 1, OntoLines(c, lines);
    if c == '\n' {
      assert front[..|front| - 1] == [""] + lines[..n];
    } else if n == 0 {
      assert lines[..0] + last == last;
    } else {
      OntoFirstOf(c, lines[..n], last);
      assert front[..n] == OntoLines(c, lines[..n]);
    }
  }

  // ---- one line --------------------------------------------------------------

  function Payload(line: string): Option<string> {
    var trimmed := Trim(line);
    if !("data:" <= trimmed) then None
    else
      var payload := Trim(trimmed[5..]);
      if payload == "" then None else Some(payload)
  }

  function Dispatch(payload: string, decode: Decoder): seq<Callback> {
    match decode(payload)
    case Some(TokenEvent(Some(content))) => [OnToken(content)]
    case Some(DoneEvent(sources)) => [OnDone(if sources.Some? then sources.value else [])]
    case Some(ErrorEvent(message)) => [OnError(if message.Some? then message.value else "RAG generation failed")]
    case _ => []
  }

  predicate AreBlank(s: string) {
    forall i :: 0 <= i < |s| ==> IsBlank(s[i])
  }

  /** Space, tab, carriage return and line feed are blank, and no other character of printed ASCII is. */
  lemma AsciiBlanks(c: char)
    ensures IsBlank(' ') && IsBlank('\t') && IsBlank('\r') && IsBlank('\n')
    ensures '!' <= c <= '~' ==> !IsBlank(c)
  {
  }

  lemma {:induction false} TrimStartSkips(lead: string, core: string)
    requires AreBlank(lead) && (core == "" || !IsBlank(core[0]))
    ensures TrimStart(lead + core) == core
  {
    if lead == "" {
      assert lead + core == core;
    } else {
      assert (lead + core)[1..] == lead[1..] + core;
      TrimStartSkips(lead[1..], core);
    }
  }

  lemma {:induction false} TrimEndSkips(core: string, trail: string)
    requires AreBlank(trail) && (core == "" || !IsBlank(core[|core| - 1]))
    ensures TrimEnd(core + trail) == core
  {
    if trail == "" {
      assert core + trail == core;
    } else {
      var n := |trail| - 1;
      assert (core + trail)[..|core + trail| - 1] == core + trail[..n];
      TrimEndSkips(core, trail[..n]);
    }
  }

  lemma TrimOfBlankEdges(lead: string, core: string, trail: string)
    requires AreBlank(lead) && AreBlank(trail) && BareEdges(core)
    ensures Trim(lead + core + trail) == core
  {
    if core == "" {
      TrimStartSkips(lead + trail, "");
      assert lead + core + trail == lead + trail + "";
    } else {
      assert lead + core + trail == lead + (core + trail);
      TrimStartSkips(lead, core + trail);
      TrimEndSkips(core, trail);
    }
  }

  /** A line that begins with `data:`, blanks aside, carries what follows, blanks aside, if anything does; no space is
      needed after the colon. */
  lemma DataLineCarries(lead: string, gap: string, payload: string, trail: string)
    requires AreBlank(lead) && AreBlank(gap) && AreBlank(trail) && BareEdges(payload)
    ensures Payload(lead + "data:" + gap + payload + trail) == if payload == "" then None else Some(payload)
  {
    if payload == "" {
      assert lead + "data:" + gap + payload + trail == lead + "data:" + (gap + trail);
      TrimOfBlankEdges(lead, "data:", gap + trail);
      assert "data:"[5..] == "";
    } else {
      var core := "data:" + gap + payload;
      assert core[0] == 'd' && core[|core| - 1] == payload[|payload| - 1];
      assert lead + "data:" + gap + payload + trail == lead + core + trail;
      TrimOfBlankEdges(lead, core, trail);
      assert core[5..] == gap + payload + "";
      TrimOfBlankEdges(gap, payload, "");
    }
  }

  /** Any other line carries nothing. */
  lemma OtherLinesCarryNothing(lead: string, core: string, trail: string)
    requires AreBlank(lead) && AreBlank(trail) && BareEdges(core) && (|core| < 5 || core[..5] != "data:")
    ensures Payload(lead + core + trail) == None
  {
    TrimOfBlankEdges(lead, core, trail);
  }

  /** What each kind of event makes the callbacks see, with the defaults for absent fields; anything else is ignored. */
  lemma EventsAreHeard(payload: string, decode: Decoder)
    ensures match decode(payload)
            case Some(TokenEvent(Some(content))) => Dispatch(payload, decode) == [OnToken(content)]
            case Some(TokenEvent(None)) => Dispatch(payload, decode) == []
            case Some(DoneEvent(Some(sources))) => Dispatch(payload, decode) == [OnDone(sources)]
            case Some(DoneEvent(None)) => Dispatch(payload, decode) == [OnDone([])]
            case Some(ErrorEvent(Some(message))) => Dispatch(payload, decode) == [OnError(message)]
            case Some(ErrorEvent(None)) => Dispatch(payload, decode) == [OnError("RAG generation failed")]
            case Some(UnknownEvent) => Dispatch(payload, decode) == []
            case None => Dispatch(payload, decode) == []
  {
  }

  function Payloads(lines: seq<string>): seq<string> {
    if lines == [] then []
    else (match Payload(lines[0]) case Some(p) => [p] case None => []) + Payloads(lines[1..])
  }

  function DispatchAll(payloads: seq<string>, decode: Decoder): seq<Callback> {
    if payloads == [] then [] else Dispatch(payloads[0], decode) + DispatchAll(payloads[1..], decode)
  }

  function Concat(chunks: seq<string>): string {
    if chunks == [] then "" else chunks[0] + Concat(chunks[1..])
  }

  /** Everything an undisturbed reader owes its callbacks, as a function of the whole text. */
  function Answer(text: string, ending: Ending, decode: Decoder): seq<Callback> {
    Owed(text, decode)
    + match ending case Closed => [] case Broken(message) => [OnError(message)]
  }

  lemma {:induction false} PayloadsAppend(a: seq<string>, b: seq<string>)
    ensures Payloads(a + b) == Payloads(a) + Payloads(b)
  {
    if a == [] {
      assert a + b == b;
    } else {
      assert (a + b)[1..] == a[1..] + b;
      PayloadsAppend(a[1..], b);
    }
  }

  lemma {:induction false} DispatchAppend(a: seq<string>, b: seq<string>, decode: Decoder)
    ensures DispatchAll(a + b, decode) == DispatchAll(a, decode) + DispatchAll(b, decode)
  {
    if a == [] {
      assert a + b == b;
    } else {
      assert (a + b)[1..] == a[1..] + b;
      DispatchAppend(a[1..], b, decode);
    }
  }

  /** Callbacks owed for the lines of a text grow only at the end as lines arrive. */
  lemma HandledAppend(a: seq<string>, b: seq<string>, decode: Decoder)
    ensures DispatchAll(Payloads(a + b), decode) == DispatchAll(Payloads(a), decode) + DispatchAll(Payloads(b), decode)
  {
    PayloadsAppend(a, b);
    DispatchAppend(Payloads(a), Payloads(b), decode);
  }

  // ---- the reader ------------------------------------------------------------

  predicate Aborted(abortAt: Option<nat>, tick: nat) {
    abortAt.Some? && abortAt.value <= tick
  }

  /** What one line makes the callbacks see. */
  function OfLine(line: string, decode: Decoder): seq<Callback> {
    match Payload(line)
    case Some(payload) => Dispatch(payload, decode)
    case None => []
  }

  /** `heard` gives what lines make the callbacks see, line by line. */
  ghost predicate Hears(heard: seq<string> -> seq<Callback>, decode: Decoder) {
    && heard([]) == []
    && (forall a, b {:trigger heard(a + b)} :: heard(a + b) == heard(a) + heard(b))
    && (forall line {:trigger heard([line])} :: heard([line]) == OfLine(line, decode))
  }

  lemma Hearing(decode: Decoder) returns (heard: seq<string> -> seq<Callback>)
    ensures Hears(heard, decode)
    ensures forall lines :: heard(lines) == DispatchAll(Payloads(lines), decode)
  {
    heard := lines => DispatchAll(Payloads(lines), decode);
    forall a, b ensures heard(a + b) == heard(a) + heard(b) {
      HandledAppend(a, b, decode);
    }
    forall line ensures heard([line]) == OfLine(line, decode) {
      HeardOfLine(line, decode);
    }
  }

  lemma HeardOfLine(line: string, decode: Decoder)
    ensures DispatchAll(Payloads([line]), decode) == OfLine(line, decode)
  {
    assert [line][1..] == [];
    assert Payloads([line]) == match Payload(line) case Some(p) => [p] case None => [];
    assert forall p :: DispatchAll([p], decode) == Dispatch(p, decode) + [];
  }

  lemma {:induction false} SameHearing(f: seq<string> -> seq<Callback>, g: seq<string> -> seq<Callback>,
                                       decode: Decoder, lines: seq<string>)
    requires Hears(f, decode) && Hears(g, decode)
    ensures f(lines) == g(lines)
  {
    if lines != [] {
      SameHearing(f, g, decode, lines[1..]);
      assert lines == [lines[0]] + lines[1..];
      assert f([lines[0]]) == g([lines[0]]);
    }
  }

  lemma HearingMeans(heard: seq<string> -> seq<Callback>, decode: Decoder, lines: seq<string>)
    requires Hears(heard, decode)
    ensures heard(lines) == DispatchAll(Payloads(lines), decode)
  {
    var other := Hearing(decode);
    SameHearing(heard, other, decode, lines);
  }

  lemma HearsOneMore(heard: seq<string> -> seq<Callback>, decode: Decoder, lines: seq<string>, i: nat)
    requires Hears(heard, decode) && i < |lines|
    ensures heard(lines[..i + 1]) == heard(lines[..i]) + OfLine(lines[i], decode)
  {
    assert lines[..i + 1] == lines[..i] + [lines[i]];
  }

  /** One line of a chunk. */
  method HandleLine(line: string, decode: Decoder) returns (calls: seq<Callback>)
    ensures calls == OfLine(line, decode)
  {
    calls := [];
    var payload := Payload(line);
    if payload.Some? {
      calls := Dispatch(payload.value, decode);
    }
  }

  /** The inner `for` of parseSSE: one look at the signal before each line. */
  method HandleLines(lines: seq<string>, abortAt: Option<nat>, start: nat, decode: Decoder,
                     ghost heard: seq<string> -> seq<Callback>)
    returns (calls: seq<Callback>, handled: nat, tick: nat)
    requires Hears(heard, decode)
    ensures handled <= |lines| && tick == start + handled
    ensures calls == heard(lines[..handled])
    ensures handled > 0 ==> !Aborted(abortAt, tick - 1)
    ensures handled < |lines| ==> Aborted(abortAt, tick)
  {
    calls, handled, tick := [], 0, start;
    while handled < |lines| && !Aborted(abortAt, tick)
      invariant handled <= |lines| && tick == start + handled
      invariant handled > 0 ==> !Aborted(abortAt, tick - 1)
      invariant calls == heard(lines[..handled])
    {
      HearsOneMore(heard, decode, lines, handled);
      var more := HandleLine(lines[handled], decode);
      calls := calls + more;
      handled, tick := handled + 1, tick + 1;
    }
  }

  /** What the complete lines of a text make the callbacks see. */
  function Owed(text: string, decode: Decoder): seq<Callback> {
    DispatchAll(Payloads(CompleteLines(text)), decode)
  }

  /** The number of lines complete once `k` chunks have been read. */
  function LinesBy(chunks: seq<string>, k: nat): nat
    requires k <= |chunks|
  {
    |CompleteLines(Concat(chunks[..k]))|
  }

  function LineCount(chunks: seq<string>): nat {
    LinesBy(chunks, |chunks|)
  }

  /** How many chunks have been read when line `g` is complete. */
  function Arrival(chunks: seq<string>, g: nat): (k: nat)
    requires g < LineCount(chunks)
    ensures k <= |chunks|
  {
    if chunks != [] && g < LineCount(chunks[..|chunks| - 1]) then Arrival(chunks[..|chunks| - 1], g) else |chunks|
  }

  /** The number of the look at the signal just before line `g` is handled: one look comes before every read,
      and one before every line. */
  function LookAt(chunks: seq<string>, g: nat): nat
    requires g < LineCount(chunks)
  {
    Arrival(chunks, g) + g
  }

  /** `handled` lines come before the first look that sees the signal, and no others. */
  ghost predicate StopsAt(chunks: seq<string>, abortAt: Option<nat>, handled: nat) {
    && handled <= LineCount(chunks)
    && forall g: nat :: g < LineCount(chunks) ==> (g < handled <==> !Aborted(abortAt, LookAt(chunks, g)))
  }

  lemma {:induction false} ConcatAppend(a: seq<string>, b: seq<string>)
    ensures Concat(a + b) == Concat(a) + Concat(b)
  {
    if a == [] {
      assert a + b == b;
    } else {
      assert (a + b)[1..] == a[1..] + b;
      ConcatAppend(a[1..], b);
    }
  }

  /** Chunk `k` adds its lines to those already complete. */
  lemma LinesOfChunk(chunks: seq<string>, k: nat)
    requires k < |chunks|
    ensures var before := Concat(chunks[..k]);
            && Concat(chunks[..k + 1]) == before + chunks[k]
            && CompleteLines(before + chunks[k]) == CompleteLines(before) + CompleteLines(Partial(before) + chunks[k])
            && Partial(before + chunks[k]) == Partial(Partial(before) + chunks[k])
  {
    var before := Concat(chunks[..k]);
    assert chunks[..k + 1] == chunks[..k] + [chunks[k]];
    ConcatAppend(chunks[..k], [chunks[k]]);
    assert Concat([chunks[k]]) == chunks[k] + "";
    SplitAppend(before, chunks[k]);
  }

  /** Line numbers and arrivals rise together. */
  lemma {:induction false} ArrivalSplits(chunks: seq<string>, k: nat, g: nat)
    requires k <= |chunks| && g < LineCount(chunks)
    ensures g < LinesBy(chunks, k) <==> Arrival(chunks, g) <= k
    decreases |chunks|
  {
    var n := |chunks|;
    assert chunks[..n] == chunks;
    if k < n {
      var front := chunks[..n - 1];
      assert front[..n - 1] == front && front[..k] == chunks[..k];
      LinesByGrows(chunks, k, n - 1);
      if g < LineCount(front) {
        ArrivalSplits(front, k, g);
      }
    }
  }

  lemma LongerPrefix(a: seq<string>, b: seq<string>, more: seq<string>)
    requires a <= b
    ensures a <= b + more
  {
  }

  lemma {:induction false} LinesByGrows(chunks: seq<string>, j: nat, k: nat)
    requires j <= k <= |chunks|
    ensures CompleteLines(Concat(chunks[..j])) <= CompleteLines(Concat(chunks[..k]))
    decreases k
  {
    if j < k {
      LinesByGrows(chunks, j, k - 1);
      LinesOfChunk(chunks, k - 1);
      LongerPrefix(CompleteLines(Concat(chunks[..j])), CompleteLines(Concat(chunks[..k - 1])),
                   CompleteLines(Partial(Concat(chunks[..k - 1])) + chunks[k - 1]));
    }
  }

  /** Seen from a look `tick` at the head of read `k`: the lines that arrive with that read are looked at next,
      one after the other, and all later lines later. */
  lemma LooksOfChunk(chunks: seq<string>, k: nat, g: nat)
    requires k < |chunks| && LinesBy(chunks, k) <= g < LineCount(chunks)
    ensures g < LinesBy(chunks, k + 1) ==> LookAt(chunks, g) == g + k + 1
    ensures LookAt(chunks, g) >= g + k + 1
  {
    ArrivalSplits(chunks, k, g);
    ArrivalSplits(chunks, k + 1, g);
  }

  /** The reader has read `k` chunks and handled `handled` lines; `stopped` once it has seen the signal. */
  ghost predicate Reading(chunks: seq<string>, abortAt: Option<nat>, k: nat, handled: nat, stopped: bool) {
    && k <= |chunks| && handled <= LinesBy(chunks, k) <= LineCount(chunks)
    && (forall g: nat :: g < handled ==> !Aborted(abortAt, LookAt(chunks, g)))
    && (if stopped then forall g: nat :: handled <= g < LineCount(chunks) ==> Aborted(abortAt, LookAt(chunks, g))
        else handled == LinesBy(chunks, k))
  }

  lemma ReadingStarts(chunks: seq<string>, abortAt: Option<nat>)
    ensures Reading(chunks, abortAt, 0, 0, Aborted(abortAt, 0))
  {
    LinesByGrows(chunks, 0, |chunks|);
    assert chunks[..0] == [] && Split("") == [""];
  }

  /** One more chunk of which `more` lines were handled. */
  lemma ReadingStep(chunks: seq<string>, abortAt: Option<nat>, k: nat, handled: nat, more: nat)
    requires k < |chunks| && Reading(chunks, abortAt, k, handled, false) && !Aborted(abortAt, k + handled)
    requires handled + more <= LinesBy(chunks, k + 1)
    requires more > 0 ==> !Aborted(abortAt, k + handled + more)
    requires handled + more < LinesBy(chunks, k + 1) ==> Aborted(abortAt, k + 1 + handled + more)
    ensures Reading(chunks, abortAt, k + 1, handled + more, Aborted(abortAt, k + 1 + handled + more))
  {
    var now := handled + more;
    LinesByGrows(chunks, k + 1, |chunks|);
    forall g: nat | handled <= g < now ensures !Aborted(abortAt, LookAt(chunks, g)) {
      LooksOfChunk(chunks, k, g);
    }
    if Aborted(abortAt, k + 1 + now) {
      forall g: nat | now <= g < LineCount(chunks) ensures Aborted(abortAt, LookAt(chunks, g)) {
        LooksOfChunk(chunks, k, g);
      }
    }
  }

  lemma ReadingEnds(chunks: seq<string>, abortAt: Option<nat>, k: nat, handled: nat)
    requires Reading(chunks, abortAt, k, handled, Aborted(abortAt, k + handled))
    requires k == |chunks| || Aborted(abortAt, k + handled)
    ensures StopsAt(chunks, abortAt, handled)
    ensures !Aborted(abortAt, k + handled) ==> handled == LineCount(chunks)
    ensures k + handled <= |chunks| + LineCount(chunks)
  {
  }

  lemma MoreOfAPrefix(whole: seq<string>, front: seq<string>, back: seq<string>, more: nat)
    requires front + back <= whole && more <= |back|
    ensures |front| + more <= |whole|
    ensures whole[..|front| + more] == whole[..|front|] + back[..more]
  {
    assert whole[..|front + back|] == front + back;
    assert whole[..|front| + more] == (front + back)[..|front| + more];
  }

  /** The lines of the whole text, in the order in which they arrive. */
  lemma LinesInOrder(chunks: seq<string>, k: nat, more: nat)
    requires k < |chunks|
    requires more <= |CompleteLines(Partial(Concat(chunks[..k])) + chunks[k])|
    ensures var whole, now := CompleteLines(Concat(chunks)), LinesBy(chunks, k);
            && LinesBy(chunks, k + 1) == now + |CompleteLines(Partial(Concat(chunks[..k])) + chunks[k])|
            && now + more <= |whole| == LineCount(chunks)
            && whole[..now + more] == whole[..now] + CompleteLines(Partial(Concat(chunks[..k])) + chunks[k])[..more]
  {
    assert chunks[..|chunks|] == chunks;
    LinesOfChunk(chunks, k);
    LinesByGrows(chunks, k + 1, |chunks|);
    MoreOfAPrefix(CompleteLines(Concat(chunks)), CompleteLines(Concat(chunks[..k])),
                  CompleteLines(Partial(Concat(chunks[..k])) + chunks[k]), more);
  }

  /** What the callbacks see of a reading that handles that many lines. */
  function Heard(chunks: seq<string>, ending: Ending, abortAt: Option<nat>, handled: nat, decode: Decoder)
    : (calls: seq<Callback>)
    requires handled <= LineCount(chunks)
  {
    assert chunks[..|chunks|] == chunks;
    DispatchAll(Payloads(CompleteLines(Concat(chunks))[..handled]), decode)
    + if ending.Broken? && !Aborted(abortAt, |chunks| + LineCount(chunks) + 1) then [OnError(ending.message)] else []
  }

  /** The callbacks of the whole text, and an error at the end exactly when the stream breaks. */
  lemma AnswerIsAllLines(text: string, ending: Ending, decode: Decoder)
    ensures ending.Closed? ==> Answer(text, ending, decode) == DispatchAll(Payloads(CompleteLines(text)), decode)
    ensures ending.Broken? ==>
              Answer(text, ending, decode)
              == DispatchAll(Payloads(CompleteLines(text)), decode) + [OnError(ending.message)]
  {
  }

  /** That is a beginning of the answer to the whole text, and all of it if every line is handled and the end is
      reported. */
  lemma HeardIsBeginning(chunks: seq<string>, ending: Ending, abortAt: Option<nat>, handled: nat, decode: Decoder)
    requires StopsAt(chunks, abortAt, handled)
    ensures Heard(chunks, ending, abortAt, handled, decode) <= Answer(Concat(chunks), ending, decode)
    ensures abortAt.None? ==> Heard(chunks, ending, abortAt, handled, decode) == Answer(Concat(chunks), ending, decode)
  {
    assert chunks[..|chunks|] == chunks;
    var lines := CompleteLines(Concat(chunks));
    if handled < |lines| {
      assert Aborted(abortAt, LookAt(chunks, handled));
    } else {
      assert lines[..handled] == lines;
    }
    assert lines == lines[..handled] + lines[handled..];
    HandledAppend(lines[..handled], lines[handled..], decode);
  }

  /** Where `parseSSE` stands before a look at the signal at the head of its outer loop. */
  ghost predicate Progress(chunks: seq<string>, abortAt: Option<nat>, heard: seq<string> -> seq<Callback>, next: nat,
                           handled: nat, buffer: string, calls: seq<Callback>) {
    && Reading(chunks, abortAt, next, handled, Aborted(abortAt, next + handled))
    && handled <= |CompleteLines(Concat(chunks))|
    && calls == heard(CompleteLines(Concat(chunks))[..handled])
    && (!Aborted(abortAt, next + handled) ==> buffer == Partial(Concat(chunks[..next])))
  }

  lemma ProgressStarts(chunks: seq<string>, abortAt: Option<nat>, heard: seq<string> -> seq<Callback>, decode: Decoder)
    requires Hears(heard, decode)
    ensures Progress(chunks, abortAt, heard, 0, 0, "", [])
  {
    assert chunks[..0] == [] && Split("") == [""];
    ReadingStarts(chunks, abortAt);
  }

  /** The inner loop takes `n` of the lines that the next chunk completes. */
  lemma ProgressStep(chunks: seq<string>, abortAt: Option<nat>, heard: seq<string> -> seq<Callback>,
                     decode: Decoder, next: nat, handled: nat, buffer: string, calls: seq<Callback>, n: nat)
    requires Hears(heard, decode) && Progress(chunks, abortAt, heard, next, handled, buffer, calls)
    requires next < |chunks| && !Aborted(abortAt, next + handled)
    requires n <= |CompleteLines(buffer + chunks[next])|
    requires n > 0 ==> !Aborted(abortAt, next + handled + n)
    requires n < |CompleteLines(buffer + chunks[next])| ==> Aborted(abortAt, next + 1 + handled + n)
    ensures Progress(chunks, abortAt, heard, next + 1, handled + n, Partial(buffer + chunks[next]),
                     calls + heard(CompleteLines(buffer + chunks[next])[..n]))
  {
    LinesInOrder(chunks, next, n);
    ReadingStep(chunks, abortAt, next, handled, n);
    LinesOfChunk(chunks, next);
  }

  /** At the end of the loop it only remains to look at the signal once more and report a broken stream. */
  lemma ProgressEnds(chunks: seq<string>, ending: Ending, abortAt: Option<nat>, heard: seq<string> -> seq<Callback>,
                     decode: Decoder, next: nat, handled: nat, buffer: string, calls: seq<Callback>)
    requires Hears(heard, decode) && Progress(chunks, abortAt, heard, next, handled, buffer, calls)
    requires next == |chunks| || Aborted(abortAt, next + handled)
    ensures StopsAt(chunks, abortAt, handled)
    ensures Heard(chunks, ending, abortAt, handled, decode) == calls
              + if !Aborted(abortAt, next + handled + 1) && ending.Broken? then [OnError(ending.message)] else []
  {
    ReadingEnds(chunks, abortAt, next, handled);
    HearingMeans(heard, decode, CompleteLines(Concat(chunks))[..handled]);
  }

  /**
   * `parseSSE`. `abortAt` is the number of the first look at `signal.aborted` that sees the
   * signal set; the signal never goes back. The lines handled are exactly those whose look comes
   * earlier, and a broken stream is reported exactly when the signal is still not seen after it.
   * Without an abort the callbacks are `Answer` of the whole text; with one they are cut short and
   * never changed.
   */
  method ParseSse(chunks: seq<string>, ending: Ending, abortAt: Option<nat>, decode: Decoder)
    returns (calls: seq<Callback>, ghost handled: nat)
    ensures StopsAt(chunks, abortAt, handled)
    ensures calls == Heard(chunks, ending, abortAt, handled, decode)
    ensures abortAt.None? ==> calls == Answer(Concat(chunks), ending, decode)
    ensures calls <= Answer(Concat(chunks), ending, decode)
  {
    ghost var heard := Hearing(decode);
    ghost var next, buffer;
    var tick;
    calls, handled, tick, next, buffer := ReadAll(chunks, abortAt, decode, heard);
    ProgressEnds(chunks, ending, abortAt, heard, decode, next, handled, buffer, calls);
    if !Aborted(abortAt, tick + 1) && ending.Broken? {
      calls := calls + [OnError(ending.message)];
    }
    HeardIsBeginning(chunks, ending, abortAt, handled, decode);
  }

  /** The outer loop of `parseSSE`: one look at the signal before each read. */
  method ReadAll(chunks: seq<string>, abortAt: Option<nat>, decode: Decoder, ghost heard: seq<string> -> seq<Callback>)
    returns (calls: seq<Callback>, ghost handled: nat, tick: nat, ghost next: nat, ghost rest: string)
    requires Hears(heard, decode)
    ensures tick == next + handled && (next == |chunks| || Aborted(abortAt, tick))
    ensures Progress(chunks, abortAt, heard, next, handled, rest, calls)
  {
    calls, handled, tick := [], 0, 0;
    var buffer, read := "", 0;
    ProgressStarts(chunks, abortAt, heard, decode);
    while !Aborted(abortAt, tick) && read < |chunks|
      invariant 0 <= read <= |chunks| && tick == read + handled
      invariant Progress(chunks, abortAt, heard, read, handled, buffer, calls)
    {
      var text := buffer + chunks[read];
      var more, n;
      more, n, tick := HandleLines(CompleteLines(text), abortAt, tick + 1, decode, heard);
      ProgressStep(chunks, abortAt, heard, decode, read, handled, buffer, calls, n);
      buffer, calls := Partial(text), calls + more;
      handled, read := handled + n, read + 1;
    }
    next, rest := read, buffer;
  }

  /** How the network cuts the stream makes no difference to what the callbacks see. */
  method ParseTwoCuts(one: seq<string>, other: seq<string>, ending: Ending, decode: Decoder)
    returns (a: seq<Callback>, b: seq<Callback>)
    requires Concat(one) == Concat(other)
    ensures a == b == Answer(Concat(one), ending, decode)
  {
    ghost var m, n;
    a, m := ParseSse(one, ending, None, decode);
    b, n := ParseSse(other, ending, None, decode);
  }

  // ---- the printer -----------------------------------------------------------

  function Frame(payload: string): string {
    "data: " + payload + "\n\n"
  }

  function Print(payloads: seq<string>): string {
    if payloads == [] then "" else Frame(payloads[0]) + Print(payloads[1..])
  }

  /** A payload the framing can carry: something, on one line, with no blank at an edge. */
  predicate Carriable(payload: string) {
    payload != "" && '\n' !in payload && BareEdges(payload)
  }

  lemma TrimKeepsOneLine(s: string)
    requires '\n' !in s
    ensures '\n' !in Trim(s)
  {
    var i, j := TrimIsWindow(s);
    forall c | c in Trim(s) ensures c in s {
      assert c in s[i..j];
    }
  }

  lemma PayloadIsCarriable(line: string)
    requires '\n' !in line && Payload(line).Some?
    ensures Carriable(Payload(line).value)
  {
    TrimKeepsOneLine(line);
    TrimKeepsOneLine(Trim(line)[5..]);
    var i, j := TrimIsWindow(Trim(line)[5..]);
  }

  lemma {:induction false} PayloadsAreCarriable(lines: seq<string>)
    requires forall line :: line in lines ==> '\n' !in line
    ensures forall p :: p in Payloads(lines) ==> Carriable(p)
  {
    if lines != [] {
      PayloadsAreCarriable(lines[1..]);
      assert lines[0] in lines;
      if Payload(lines[0]).Some? {
        PayloadIsCarriable(lines[0]);
      }
    }
  }

  lemma BareIsItsOwnTrim(s: string)
    requires BareEdges(s)
    ensures Trim(s) == s
  {
  }

  lemma PayloadOfFrame(payload: string)
    requires Carriable(payload)
    ensures Payload("data: " + payload) == Some(payload)
  {
    var line := "data: " + payload;
    assert Trim(line) == line by {
      BareIsItsOwnTrim(line);
    }
    assert line[5..] == " " + payload;
    assert Trim(line[5..]) == payload by {
      assert (" " + payload)[1..] == payload;
      assert TrimStart(" " + payload) == TrimStart(payload);
      BareIsItsOwnTrim(payload);
    }
  }

  lemma LinesOfFrame(payload: string, rest: string)
    requires '\n' !in payload
    ensures CompleteLines(Frame(payload) + rest) == ["data: " + payload, ""] + CompleteLines(rest)
  {
    var line := "data: " + payload;
    assert Frame(payload) + rest == line + "\n" + ("" + "\n" + rest);
    SplitLine(line, "" + "\n" + rest);
    SplitLine("", rest);
  }

  lemma PayloadsOfFrameLines(payload: string)
    requires Carriable(payload)
    ensures Payloads(["data: " + payload, ""]) == [payload]
  {
    var lines := ["data: " + payload, ""];
    PayloadOfFrame(payload);
    assert lines[1..] == [""];
    assert Payload("") == None;
    assert Payloads([""]) == [];
  }

  lemma {:induction false} CarriableRoundTrip(payloads: seq<string>)
    requires forall p :: p in payloads ==> Carriable(p)
    ensures Payloads(CompleteLines(Print(payloads))) == payloads
  {
    if payloads == [] {
      assert Split("") == [""];
    } else {
      var p, rest := payloads[0], Print(payloads[1..]);
      assert p in payloads;
      CarriableRoundTrip(payloads[1..]);
      LinesOfFrame(p, rest);
      PayloadsOfFrameLines(p);
      PayloadsAppend(["data: " + p, ""], CompleteLines(rest));
    }
  }

  /** The payloads read off the printed frames of some payloads. */
  function ReadBack(payloads: seq<string>): seq<string> {
    Payloads(CompleteLines(Print(payloads)))
  }

  /** Printing payloads as frames and reading the text back returns them exactly when each
      one is on one line, not empty and not blank at an edge. */
  lemma FramingRoundTrip(payloads: seq<string>)
    ensures ReadBack(payloads) == payloads <==> forall p :: p in payloads ==> Carriable(p)
  {
    if forall p :: p in payloads ==> Carriable(p) {
      CarriableRoundTrip(payloads);
    }
    SplitJoins(Print(payloads));
    PayloadsAreCarriable(CompleteLines(Print(payloads)));
  }

  /** A payload with a line break is cut there. */
  lemma LineBreakCutsPayload(front: string, back: string)
    requires Carriable(front) && '\n' !in back && !("data:" <= Trim(back))
    ensures ReadBack([front + "\n" + back]) == [front]
  {
    var line := "data: " + front;
    var payload := front + "\n" + back;
    assert Print([payload]) == Frame(payload) + "";
    assert Frame(payload) + "" == line + "\n" + (back + "\n" + ("" + "\n" + ""));
    SplitLine(line, back + "\n" + ("" + "\n" + ""));
    SplitLine(back, "" + "\n" + "");
    SplitLine("", "");
    assert CompleteLines(Print([payload])) == [line, back, ""];
    PayloadOfFrame(front);
    PayloadsAppend([line], [back, ""]);
    PayloadsAppend([back], [""]);
    assert Payload("") == None && Payload(back) == None;
  }

  /** The round trip through the reader itself, whatever the chunks are: the callbacks are those of the payloads read
      back, and these are the payloads printed exactly when each can be carried. */
  method ReadPrinted(ghost payloads: seq<string>, chunks: seq<string>, decode: Decoder) returns (calls: seq<Callback>)
    requires Concat(chunks) == Print(payloads)
    ensures calls == DispatchAll(ReadBack(payloads), decode)
    ensures ReadBack(payloads) == payloads <==> forall p :: p in payloads ==> Carriable(p)
  {
    ghost var handled;
    calls, handled := ParseSse(chunks, Closed, None, decode);
    FramingRoundTrip(payloads);
  }
}
