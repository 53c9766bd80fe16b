/**
 * A streamed answer from the model to the browser: the generator turns the router's tokens
 * into events (backend/services/rag/generator.py, generate_stream), the endpoint prints them
 * as frames (backend/routers/knowledge.py, event_stream), and the browser reads the frames
 * back (SseStream).
 */
module AnswerStream {
  import opened Wrappers
  import opened SseStream
  import L = LlmRouter

  datatype Event = Token(content: string) | Error(message: string) | Done(sources: seq<Source>)

  /** Who the generator asks. Only a provider has a `name`. */
  datatype Backend = OverRouter(router: L.Router) | OverProvider(provider: L.Provider)

  /** The events yielded, and the exception that escapes, if one does. */
  datatype Answer = Answer(events: seq<Event>, escaped: Option<string>)

  function Tokens(texts: seq<string>): (events: seq<Event>)
    ensures |events| == |texts| && forall i :: 0 <= i < |texts| ==> events[i] == Token(texts[i])
  {
    seq(|texts|, i requires 0 <= i < |texts| => Token(texts[i]))
  }

  /** What the backend's stream yields for the generator's model. */
  function Incoming(backend: Backend, model: string, chainTask: string): L.Streamed {
    match backend
    case OverRouter(r) => L.Expected(r, "", model, chainTask)
    case OverProvider(p) => L.Streamed(p.stream(model).tokens, p.stream(model).failure)
  }

  /** `generate_stream`. */
  method GenerateStream(backend: Backend, model: string, chainTask: string, sources: seq<Source>)
    returns (answer: Answer)
    ensures answer == Told(backend, model, chainTask, sources)
  {
    var streamed: L.Streamed;
    match backend {
      case OverRouter(r) => streamed := L.Stream(r, "", model, chainTask);
      case OverProvider(p) => streamed := L.Streamed(p.stream(model).tokens, p.stream(model).failure);
    }
    var events: seq<Event> := [];
    for i := 0 to |streamed.tokens|
      invariant events == Tokens(streamed.tokens[..i])
    {
      events := events + [Token(streamed.tokens[i])];
    }
    assert streamed.tokens[..|streamed.tokens|] == streamed.tokens;
    match streamed.raised {
      case None =>
      case Some(NotImplemented) =>
        if backend.OverRouter? {
          return Answer(events, Some("'LLMRouter' object has no attribute 'name'"));
        }
        match backend.provider.chat(model) {
          case Replied(content) =>
            if content != "" {
              events := events + [Token(content)];
            }
          case ChatFailed(message) => events := events + [Error("Failed to generate answer: " + message)];
        }
      case Some(Failed(message)) => events := events + [Error("Failed to generate answer: " + message)];
    }
    answer := Answer(events + [Done(sources)], None);
  }

  function Told(backend: Backend, model: string, chainTask: string, sources: seq<Source>): Answer {
    var s := Incoming(backend, model, chainTask);
    var tokens := Tokens(s.tokens);
    match s.raised
    case None => Answer(tokens + [Done(sources)], None)
    case Some(Failed(message)) => Answer(tokens + [Error("Failed to generate answer: " + message), Done(sources)], None)
    case Some(NotImplemented) =>
      match backend
      case OverRouter(_) => Answer(tokens, Some("'LLMRouter' object has no attribute 'name'"))
      case OverProvider(p) =>
        match p.chat(model)
        case Replied(content) =>
          Answer(tokens + (if content != "" then [Token(content)] else []) + [Done(sources)], None)
        case ChatFailed(message) =>
          Answer(tokens + [Error("Failed to generate answer: " + message), Done(sources)], None)
  }

  // ---- the shape and the text of an answer -----------------------------------

  /** Tokens, at most one error, then exactly one `done`, and no exception. */
  ghost predicate WellShaped(a: Answer) {
    && a.escaped.None? && a.events != []
    && a.events[|a.events| - 1].Done?
    && (forall i :: 0 <= i < |a.events| - 1 ==> !a.events[i].Done?)
    && (forall i :: 0 <= i < |a.events| - 2 ==> a.events[i].Token?)
  }

  /** The routed provider breaks off with NotImplementedError after its first token. */
  predicate BreaksOffUnimplemented(r: L.Router, model: string) {
    var route := L.ResolveRoute(r, "", model);
    route.provider in r.providers
    && r.providers[route.provider].stream(route.model).tokens != []
    && r.providers[route.provider].stream(route.model).failure == Some(L.NotImplemented)
  }

  /** Over the router the answer has its shape exactly when the routed provider does not
      break off with NotImplementedError in mid-stream; over a provider it always has. */
  lemma AnswerShape(backend: Backend, model: string, chainTask: string, sources: seq<Source>)
    ensures var a := Told(backend, model, chainTask, sources);
            WellShaped(a) <==> (backend.OverRouter? ==> !BreaksOffUnimplemented(backend.router, model))
  {
  }

  /** A router with one provider, whose stream gives one token and then breaks off unimplemented. */
  function BrokenRouter(token: string): L.Router {
    var stream := (model: string) => L.TokenStream([token], Some(L.NotImplemented));
    var chat := (model: string) => L.Replied(token);
    L.Router(map["p" := L.Provider("p", stream, chat)], map[], "p", "m")
  }

  /** Its answer is the token alone, and ends without `done`. */
  lemma BrokenAnswerHasNoDone(token: string, sources: seq<Source>)
    ensures var a := Told(OverRouter(BrokenRouter(token)), "", "", sources);
            a.events == [Token(token)] && a.escaped.Some? && !WellShaped(a)
  {
  }

  /** Tokens, an error and the end. */
  ghost predicate IsError(events: seq<Event>, texts: seq<string>, sources: seq<Source>) {
    exists message :: events == Tokens(texts) + [Error(message), Done(sources)]
  }

  /** The text of an answer over a single provider: its whole stream; or what it streamed before failing and the error;
      or, when it breaks off unimplemented, what it streamed and then its whole reply, or the error of that. */
  lemma AnswerTextOfProvider(p: L.Provider, model: string, chainTask: string, sources: seq<Source>)
    ensures var a, s := Told(OverProvider(p), model, chainTask, sources), p.stream(model);
            && a.escaped == None
            && match s.failure
               case None => a.events == Tokens(s.tokens) + [Done(sources)]
               case Some(Failed(message)) =>
                 a.events == Tokens(s.tokens) + [Error("Failed to generate answer: " + message), Done(sources)]
               case Some(NotImplemented) =>
                 match p.chat(model)
                 case Replied(content) =>
                   a.events == Tokens(if content == "" then s.tokens else s.tokens + [content]) + [Done(sources)]
                 case ChatFailed(message) =>
                   a.events == Tokens(s.tokens) + [Error("Failed to generate answer: " + message), Done(sources)]
  {
    var tokens := p.stream(model).tokens;
    forall content ensures Tokens(tokens + [content]) == Tokens(tokens) + [Token(content)] {
    }
  }

  /** The text of an answer over the router: the provider's whole stream; or what it streamed
      before failing, followed by an error, or by nothing if it breaks off unimplemented; or,
      only when nothing was streamed, the reply of the first provider that answers, primary
      first, then the chain in order. */
  lemma AnswerText(r: L.Router, model: string, chainTask: string, sources: seq<Source>)
    ensures var route := L.ResolveRoute(r, "", model);
            var events := Told(OverRouter(r), model, chainTask, sources).events;
            if route.provider !in r.providers then IsError(events, [], sources)
            else
              var provider := r.providers[route.provider];
              var s := provider.stream(route.model);
              var chats := L.Candidates(r, provider, route.model, chainTask);
              if s.failure.None? then events == Tokens(s.tokens) + [Done(sources)]
              else if BreaksOffUnimplemented(r, model) then events == Tokens(s.tokens)
              else if s.tokens != [] then
                events == Tokens(s.tokens)
                          + [Error("Failed to generate answer: " + s.failure.value.message), Done(sources)]
              else if forall i :: 0 <= i < |chats| ==> chats[i].ChatFailed? then IsError(events, [], sources)
              else exists i :: 0 <= i < |chats| && chats[i].Replied?
                     && (forall j :: 0 <= j < i ==> chats[j].ChatFailed?)
                     && events == (if chats[i].content == "" then [] else [Token(chats[i].content)]) + [Done(sources)]
  {
    var route := L.ResolveRoute(r, "", model);
    if route.provider in r.providers {
      var provider := r.providers[route.provider];
      var s := provider.stream(route.model);
      var chats := L.Candidates(r, provider, route.model, chainTask);
      L.FirstAnswerIsFirst(chats);
      var events := Told(OverRouter(r), model, chainTask, sources).events;
      if s.failure.Some? && s.tokens != [] {
        assert events[..|s.tokens|] == Tokens(s.tokens);
      }
      if s.failure.Some? && s.tokens == [] && L.FirstAnswer(chats).Some? {
        var content := L.FirstAnswer(chats).value;
        assert Tokens([content]) == [Token(content)];
        assert Tokens([]) == [];
      }
    }
  }

  // ---- the endpoint and the browser ------------------------------------------

  /** The events the endpoint prints: an escaping exception becomes one more error event. */
  function Printed(a: Answer): seq<Event> {
    a.events + match a.escaped case Some(message) => [Error(message)] case None => []
  }

  type Encoder = Event -> string

  function Wire(e: Event): WireEvent {
    match e
    case Token(content) => TokenEvent(Some(content))
    case Error(message) => ErrorEvent(Some(message))
    case Done(sources) => DoneEvent(Some(sources))
  }

  /** JSON printing keeps to one line with no blank at an edge, and parsing inverts it. */
  ghost predicate Faithful(encode: Encoder, decode: Decoder) {
    forall e :: Carriable(encode(e)) && decode(encode(e)) == Some(Wire(e))
  }

  function Encoded(events: seq<Event>, encode: Encoder): (payloads: seq<string>)
    ensures |payloads| == |events|
  {
    seq(|events|, i requires 0 <= i < |events| => encode(events[i]))
  }

  function CallbackFor(e: Event): Callback {
    match e
    case Token(content) => OnToken(content)
    case Error(message) => OnError(message)
    case Done(sources) => OnDone(sources)
  }

  function CallbacksFor(events: seq<Event>): (calls: seq<Callback>)
    ensures |calls| == |events|
  {
    seq(|events|, i requires 0 <= i < |events| => CallbackFor(events[i]))
  }

  lemma {:induction false} DispatchEncoded(events: seq<Event>, encode: Encoder, decode: Decoder)
    requires Faithful(encode, decode)
    ensures DispatchAll(Encoded(events, encode), decode) == CallbacksFor(events)
  {
    if events != [] {
      DispatchEncoded(events[1..], encode, decode);
      assert Encoded(events, encode)[1..] == Encoded(events[1..], encode);
      assert CallbacksFor(events) == [CallbackFor(events[0])] + CallbacksFor(events[1..]);
    }
  }

  /** Tokens, at most one error, and exactly one `onDone`, last; or, when the routed provider breaks off with
      NotImplementedError in mid-stream, tokens, one error, and no `onDone`. */
  ghost predicate ProperCallbacks(calls: seq<Callback>, breaksOff: bool, sources: seq<Source>) {
    && |calls| >= (if breaksOff then 2 else 1)
    && (if breaksOff then calls[|calls| - 1].OnError? else calls[|calls| - 1] == OnDone(sources))
    && (forall i :: 0 <= i < |calls| - 1 ==> !calls[i].OnDone?)
    && (forall i :: 0 <= i < |calls| - (if breaksOff then 1 else 2) ==> calls[i].OnToken?)
  }

  lemma CallbacksAreProper(backend: Backend, model: string, chainTask: string, sources: seq<Source>)
    ensures ProperCallbacks(CallbacksFor(Printed(Told(backend, model, chainTask, sources))),
                            backend.OverRouter? && BreaksOffUnimplemented(backend.router, model), sources)
  {
    AnswerShape(backend, model, chainTask, sources);
  }

  /**
   * From the model to the callbacks, however the network cuts the stream: the browser sees one
   * callback for each event, in order, with `onDone` once and last unless the router's provider
   * breaks off unimplemented.
   */
  method AskAndRead(backend: Backend, model: string, chainTask: string, sources: seq<Source>,
                    encode: Encoder, decode: Decoder, chunks: seq<string>)
    returns (calls: seq<Callback>)
    requires Faithful(encode, decode)
    requires Concat(chunks) == Print(Encoded(Printed(Told(backend, model, chainTask, sources)), encode))
    ensures calls == CallbacksFor(Printed(Told(backend, model, chainTask, sources)))
    ensures ProperCallbacks(calls, backend.OverRouter? && BreaksOffUnimplemented(backend.router, model), sources)
  {
    ghost var events := Printed(Told(backend, model, chainTask, sources));
    EncodedIsCarriable(events, encode, decode);
    calls := ReadPrinted(Encoded(events, encode), chunks, decode);
    DispatchEncoded(events, encode, decode);
    CallbacksAreProper(backend, model, chainTask, sources);
  }

  lemma EncodedIsCarriable(events: seq<Event>, encode: Encoder, decode: Decoder)
    requires Faithful(encode, decode)
    ensures forall p :: p in Encoded(events, encode) ==> Carriable(p)
  {
  }
}
