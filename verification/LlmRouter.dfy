/**
 * Provider selection, streaming and fallback (backend/services/llm/router.py). What a provider
 * does with a request is given by its tables: a token stream that may break off, and a chat
 * reply that may fail.
 */
module LlmRouter {
  import opened Wrappers

  datatype Failure = NotImplemented | Failed(message: string)

  datatype TokenStream = TokenStream(tokens: seq<string>, failure: Option<Failure>)

  datatype Chat = Replied(content: string) | ChatFailed(message: string)

  datatype Provider = Provider(name: string, stream: string -> TokenStream, chat: string -> Chat)

  /** A provider name and a model name. */
  datatype Route = Route(provider: string, model: string)

  datatype Router = Router(
    providers: map<string, Provider>, rules: map<string, seq<Route>>,
    defaultProvider: string, defaultModel: string)

  // ---- route resolution ------------------------------------------------------

  function Slash(model: string): (i: nat)
    ensures i <= |model| && '/' !in model[..i] && (i < |model| ==> model[i] == '/')
  {
    if model == "" || model[0] == '/' then 0
    else
      var i := Slash(model[1..]);
      assert model[..i + 1] == [model[0]] + model[1..][..i];
      i + 1
  }

  function FirstRegistered(r: Router, routes: seq<Route>): Option<Route> {
    if routes == [] then None
    else if routes[0].provider in r.providers then Some(routes[0])
    else FirstRegistered(r, routes[1..])
  }

  /** `_resolve_route`; an empty model or task counts as none. */
  function ResolveRoute(r: Router, task: string, model: string): Route {
    if model != "" then
      var i := Slash(model);
      if i < |model| && model[..i] in r.providers then Route(model[..i], model[i + 1..])
      else Route(r.defaultProvider, model)
    else if task != "" && task in r.rules && FirstRegistered(r, r.rules[task]).Some? then
      FirstRegistered(r, r.rules[task]).value
    else Route(r.defaultProvider, r.defaultModel)
  }

  lemma {:induction false} FirstRegisteredIsFirst(r: Router, routes: seq<Route>)
    ensures match FirstRegistered(r, routes)
            case None => forall i :: 0 <= i < |routes| ==> routes[i].provider !in r.providers
            case Some(route) =>
              exists i :: 0 <= i < |routes| && routes[i] == route && route.provider in r.providers
                && forall j :: 0 <= j < i ==> routes[j].provider !in r.providers
  {
    if routes != [] && routes[0].provider !in r.providers {
      FirstRegisteredIsFirst(r, routes[1..]);
      if FirstRegistered(r, routes).Some? {
        var i :| 0 <= i < |routes[1..]| && routes[1..][i] == FirstRegistered(r, routes).value
                 && forall j :: 0 <= j < i ==> routes[1..][j].provider !in r.providers;
        assert routes[i + 1] == FirstRegistered(r, routes).value;
        forall j | 0 <= j < i + 1 ensures routes[j].provider !in r.providers {
          assert j > 0 ==> routes[j] == routes[1..][j - 1];
        }
      }
    }
  }

  /** The only route that can lead to an unregistered provider is the default one. */
  lemma RouteIsRegisteredOrDefault(r: Router, task: string, model: string)
    ensures var route := ResolveRoute(r, task, model);
            && (route.provider in r.providers || route.provider == r.defaultProvider)
            && (model != "" ==> route.model == model || model == route.provider + "/" + route.model)
  {
    FirstRegisteredIsFirst(r, if task in r.rules then r.rules[task] else []);
    var i := Slash(model);
    assert i < |model| ==> model == model[..i] + "/" + model[i + 1..];
  }

  lemma {:induction false} SlashSplits(provider: string, name: string)
    requires '/' !in provider
    ensures Slash(provider + "/" + name) == |provider|
  {
    var model := provider + "/" + name;
    if provider != "" {
      assert model[1..] == provider[1..] + "/" + name;
      SlashSplits(provider[1..], name);
    }
  }

  lemma {:induction false} FirstOfRegistered(r: Router, routes: seq<Route>, i: nat)
    requires i < |routes| && routes[i].provider in r.providers
    requires forall j :: 0 <= j < i ==> routes[j].provider !in r.providers
    ensures FirstRegistered(r, routes) == Some(routes[i])
  {
    if i > 0 {
      FirstOfRegistered(r, routes[1..], i - 1);
    }
  }

  /** A model with the name of a registered provider in front goes to that provider, without the name. */
  lemma NamedProviderIsUsed(r: Router, task: string, provider: string, name: string)
    requires '/' !in provider && provider in r.providers
    ensures ResolveRoute(r, task, provider + "/" + name) == Route(provider, name)
  {
    var model := provider + "/" + name;
    SlashSplits(provider, name);
    assert model[..|provider|] == provider && model[|provider| + 1..] == name;
  }

  /** Any other model goes to the default provider as it is. */
  lemma OtherModelsGoToTheDefault(r: Router, task: string, model: string)
    requires model != ""
    requires forall provider, name :: '/' !in provider && model == provider + "/" + name ==> provider !in r.providers
    ensures ResolveRoute(r, task, model) == Route(r.defaultProvider, model)
  {
    var i := Slash(model);
    assert i < |model| ==> model == model[..i] + "/" + model[i + 1..];
  }

  /** Without a model, a task goes to the first of its routes with a registered provider, model included. */
  lemma TaskRouteIsUsed(r: Router, task: string, i: nat)
    requires task != "" && task in r.rules && i < |r.rules[task]| && r.rules[task][i].provider in r.providers
    requires forall j :: 0 <= j < i ==> r.rules[task][j].provider !in r.providers
    ensures ResolveRoute(r, task, "") == r.rules[task][i]
  {
    FirstOfRegistered(r, r.rules[task], i);
  }

  /** And to the default provider and model where there is none. */
  lemma DefaultRouteIsUsed(r: Router, task: string)
    requires task != "" && task in r.rules ==>
               forall j :: 0 <= j < |r.rules[task]| ==> r.rules[task][j].provider !in r.providers
    ensures ResolveRoute(r, task, "") == Route(r.defaultProvider, r.defaultModel)
  {
    FirstRegisteredIsFirst(r, if task in r.rules then r.rules[task] else []);
  }

  // ---- fallback --------------------------------------------------------------

  /** What the candidates of a request answer, in the order they are asked: the primary,
      then the registered providers of the task's chain other than the primary. */
  function Chain(r: Router, primary: string, routes: seq<Route>): seq<Chat> {
    if routes == [] then []
    else
      var front, last := routes[..|routes| - 1], routes[|routes| - 1];
      Chain(r, primary, front) + Link(r, primary, last)
  }

  function Link(r: Router, primary: string, route: Route): seq<Chat> {
    if route.provider != primary && route.provider in r.providers
    then [r.providers[route.provider].chat(route.model)] else []
  }

  function FallbackRoutes(r: Router, task: string): seq<Route> {
    if task != "" && task in r.rules then r.rules[task] else []
  }

  function Candidates(r: Router, primary: Provider, model: string, task: string): seq<Chat> {
    [primary.chat(model)] + Chain(r, primary.name, FallbackRoutes(r, task))
  }

  lemma {:induction false} ChainOfBoth(r: Router, primary: string, a: seq<Route>, b: seq<Route>)
    ensures Chain(r, primary, a + b) == Chain(r, primary, a) + Chain(r, primary, b)
  {
    if b == [] {
      assert a + b == a;
    } else {
      assert (a + b)[..|a + b| - 1] == a + b[..|b| - 1];
      ChainOfBoth(r, primary, a, b[..|b| - 1]);
    }
  }

  /** The candidates are the primary, and then, route by route, the registered providers other than the primary, each
      asked for the model of its route. */
  lemma CandidatesRouteByRoute(r: Router, primary: Provider, model: string, task: string, i: nat)
    requires task != "" && task in r.rules && i < |r.rules[task]|
    ensures var routes := r.rules[task];
            var route := routes[i];
            && Candidates(r, primary, model, "") == [primary.chat(model)]
            && Candidates(r, primary, model, task) == [primary.chat(model)] + Chain(r, primary.name, routes)
            && Chain(r, primary.name, []) == []
            && Chain(r, primary.name, routes[..i + 1]) == Chain(r, primary.name, routes[..i])
               + if route.provider == primary.name || route.provider !in r.providers then []
                 else [r.providers[route.provider].chat(route.model)]
  {
    var routes := r.rules[task];
    assert routes[..i + 1] == routes[..i] + [routes[i]];
    ChainOfBoth(r, primary.name, routes[..i], [routes[i]]);
  }

  /** The reply of the first candidate that answers. */
  function FirstAnswer(chats: seq<Chat>): Option<string> {
    if chats == [] then None
    else match chats[0] case Replied(content) => Some(content) case ChatFailed(_) => FirstAnswer(chats[1..])
  }

  lemma {:induction false} FirstAnswerAppend(a: seq<Chat>, b: seq<Chat>)
    ensures FirstAnswer(a + b) == if FirstAnswer(a).Some? then FirstAnswer(a) else FirstAnswer(b)
  {
    if a == [] {
      assert a + b == b;
    } else {
      assert (a + b)[1..] == a[1..] + b;
      FirstAnswerAppend(a[1..], b);
    }
  }

  lemma {:induction false} FirstAnswerIsFirst(chats: seq<Chat>)
    ensures match FirstAnswer(chats)
            case None => forall i :: 0 <= i < |chats| ==> chats[i].ChatFailed?
            case Some(content) =>
              exists i :: 0 <= i < |chats| && chats[i] == Replied(content)
                && forall j :: 0 <= j < i ==> chats[j].ChatFailed?
  {
    if chats != [] && chats[0].ChatFailed? {
      FirstAnswerIsFirst(chats[1..]);
      if FirstAnswer(chats).Some? {
        var i :| 0 <= i < |chats[1..]| && chats[1..][i] == Replied(FirstAnswer(chats).value)
                 && forall j :: 0 <= j < i ==> chats[1..][j].ChatFailed?;
        assert chats[i + 1] == Replied(FirstAnswer(chats).value);
        forall j | 0 <= j < i + 1 ensures chats[j].ChatFailed? {
          assert j > 0 ==> chats[j] == chats[1..][j - 1];
        }
      }
    }
  }

  /** `_execute_with_fallback`; `None` where all providers failed. */
  method ExecuteWithFallback(r: Router, primary: Provider, model: string, task: string)
    returns (response: Option<string>)
    ensures response == FirstAnswer(Candidates(r, primary, model, task))
  {
    var routes := FallbackRoutes(r, task);
    response := None;
    match primary.chat(model) {
      case Replied(content) => response := Some(content);
      case ChatFailed(_) =>
    }
    ghost var first := [primary.chat(model)];
    assert FirstAnswer(first) == response;
    if response.None? {
      var i := 0;
      while i < |routes| && response.None?
        invariant 0 <= i <= |routes|
        invariant response == FirstAnswer(Chain(r, primary.name, routes[..i]))
      {
        assert routes[..i + 1][..i] == routes[..i];
        FirstAnswerAppend(Chain(r, primary.name, routes[..i]), Link(r, primary.name, routes[i]));
        var route := routes[i];
        if route.provider != primary.name && route.provider in r.providers {
          var chat := r.providers[route.provider].chat(route.model);
          if chat.Replied? {
            response := Some(chat.content);
          }
        }
        i := i + 1;
      }
      ChainAnswersOnce(r, primary.name, routes, i);
    }
    FirstAnswerAppend(first, Chain(r, primary.name, routes));
  }

  /** An answer from the first part of the chain is the answer of the whole chain. */
  lemma {:induction false} ChainAnswersOnce(r: Router, primary: string, routes: seq<Route>, i: nat)
    requires i <= |routes|
    requires i < |routes| ==> FirstAnswer(Chain(r, primary, routes[..i])).Some?
    ensures FirstAnswer(Chain(r, primary, routes)) == FirstAnswer(Chain(r, primary, routes[..i]))
    decreases |routes|
  {
    if i == |routes| {
      assert routes[..i] == routes;
    } else {
      var front := routes[..|routes| - 1];
      assert front[..i] == routes[..i];
      if i < |front| {
        ChainAnswersOnce(r, primary, front, i);
      } else {
        assert front == routes[..i];
      }
      FirstAnswerAppend(Chain(r, primary, front), Link(r, primary, routes[|routes| - 1]));
    }
  }

  // ---- streaming -------------------------------------------------------------

  /** What a consumer of a token stream sees: tokens, and how the stream ends. */
  datatype Streamed = Streamed(tokens: seq<string>, raised: Option<Failure>)

  function Fallback(answer: Option<string>): Streamed {
    match answer
    case Some(content) => Streamed(if content == "" then [] else [content], None)
    case None => Streamed([], Some(Failed("All providers failed")))
  }

  /** The provider's stream as it is, unless it fails before its first token. */
  function Expected(r: Router, task: string, model: string, chainTask: string): Streamed {
    var route := ResolveRoute(r, task, model);
    if route.provider !in r.providers then Streamed([], Some(Failed("Provider not registered")))
    else
      var provider := r.providers[route.provider];
      var s := provider.stream(route.model);
      if s.failure.None? || s.tokens != [] then Streamed(s.tokens, s.failure)
      else Fallback(FirstAnswer(Candidates(r, provider, route.model, chainTask)))
  }

  /** `LLMRouter.stream`; `chainTask` is the `_task` keyword that names the fallback chain. */
  method Stream(r: Router, task: string, model: string, chainTask: string) returns (out: Streamed)
    ensures out == Expected(r, task, model, chainTask)
  {
    var route := ResolveRoute(r, task, model);
    if route.provider !in r.providers {
      return Streamed([], Some(Failed("Provider not registered")));
    }
    var provider := r.providers[route.provider];
    var stream := provider.stream(route.model);
    var emitted: seq<string> := [];
    var tokensYielded := false;
    for i := 0 to |stream.tokens|
      invariant emitted == stream.tokens[..i] && (tokensYielded <==> i > 0)
    {
      tokensYielded := true;
      emitted := emitted + [stream.tokens[i]];
    }
    if stream.failure.None? || tokensYielded {
      return Streamed(emitted, stream.failure);
    }
    var response := ExecuteWithFallback(r, provider, route.model, chainTask);
    if response.None? {
      return Streamed(emitted, Some(Failed("All providers failed")));
    }
    if response.value != "" {
      emitted := emitted + [response.value];
    }
    out := Streamed(emitted, None);
  }
}
