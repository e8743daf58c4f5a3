/** Which providers a chat may go to, in which order, and with what. */
module Routing {
  import opened Results
  import opened Redaction
  import opened Privacy

  datatype Policy = LocalOnly | LocalPreferred | RemotePreferred | AskBeforeRemote
  datatype Sensitivity = Public | Internal | Sensitive | Restricted
  datatype Reason = PrivacyDenied | UnsupportedCapability
  datatype RouteError = ProviderUnavailable | PolicyDenied

  datatype Request = Request(
    policy: Policy, sensitivity: Sensitivity, question: string, context: seq<Item>, provider: Option<string>,
    consent: Option<ConsentToken>)

  datatype Settings = Settings(preferred: Option<string>, categories: set<Category>)

  /** A provider to try: the local one, which gets the request as it is, or a remote one. */
  datatype Candidate = Local | Remote(name: string, payload: Payload)
  datatype Plan = Plan(candidates: seq<Candidate>, fallback: Option<Reason>)

  /** The registry: whether there is a local provider, and the names of the remote ones. */
  datatype Registry = Registry(local: bool, remotes: set<string>)

  function RemoteName(request: Request, settings: Settings, registry: Registry): Option<string> {
    var name := if request.provider.Some? then request.provider else settings.preferred;
    if name.Some? && name.value in registry.remotes then name else None
  }

  predicate KeptLocal(request: Request) {
    request.sensitivity == Sensitive || request.sensitivity == Restricted
  }

  function Locals(registry: Registry): seq<Candidate> {
    if registry.local then [Local] else []
  }

  /** A remote candidate that carries the sanitized request and nothing else of it. */
  ghost predicate CarriesSanitized(candidate: Candidate, request: Request, maxTokens: nat) {
    candidate.Remote? ==>
      candidate.payload == SafePayload(candidate.name, request.question, request.context, maxTokens)
  }

  /** Consent was given for this payload, is unexpired, and is used up by this request. */
  ghost predicate Consented(
    history: seq<Event>, request: Request, payload: Payload, digest: Payload -> string, now: nat)
  {
    request.consent.Some? && InForce(history, request.consent.value, payload.provider, digest(payload), now)
  }

  /** The attempt a chat makes on its consent, and what it finds: none unless the policy asks, there is a
      remote provider, the payload may leave, and there is a token. */
  ghost function AttemptOf(
    history: seq<Event>, request: Request, settings: Settings, registry: Registry, maxTokens: nat,
    digest: Payload -> string, now: nat): Option<bool>
  {
    var name := RemoteName(request, settings, registry);
    if request.policy == AskBeforeRemote && name.Some? && MayLeave(request.question, request.context, None)
      && request.consent.Some?
    then
      var payload := SafePayload(name.value, request.question, request.context, maxTokens);
      Some(Consented(history, request, payload, digest, now))
    else None
  }

  /** The consent history after a chat, which makes at most one attempt. */
  function AfterAttempt(history: seq<Event>, request: Request, attempt: Option<bool>): seq<Event> {
    if attempt.Some? && request.consent.Some? then history + [Attempted(request.consent.value.id, attempt.value)]
    else history
  }

  /** The plan is the one the policy allows. */
  ghost predicate Follows(
    r: Result<Plan, RouteError>, request: Request, settings: Settings, registry: Registry, consented: bool)
  {
    var name := RemoteName(request, settings, registry);
    var open :=
      name.Some? && !KeptLocal(request) && MayLeave(request.question, request.context, Some(settings.categories));
    match request.policy
    case LocalOnly => r == Ok(Plan(Locals(registry), None))
    case LocalPreferred =>
      && r.Ok? && r.value.fallback == (if name.Some? && KeptLocal(request) then Some(PrivacyDenied) else None)
      && (if open then
            exists c: Candidate :: c.Remote? && c.name == name.value && r.value.candidates == Locals(registry) + [c]
          else r.value.candidates == Locals(registry))
    case RemotePreferred =>
      && r.Ok?
      && r.value.fallback ==
        (if name.None? then Some(UnsupportedCapability) else if open then None else Some(PrivacyDenied))
      && (if open then
            exists c: Candidate :: c.Remote? && c.name == name.value && r.value.candidates == [c] + Locals(registry)
          else r.value.candidates == Locals(registry))
    case AskBeforeRemote =>
      if name.None? then r == Err(ProviderUnavailable)
      else if !MayLeave(request.question, request.context, None) || !consented then r == Err(PolicyDenied)
      else
        && r.Ok? && r.value.fallback == None
        && exists c: Candidate :: c.Remote? && c.name == name.value && r.value.candidates == [c] + Locals(registry)
  }

  /** build_route */
  method BuildRoute(
    request: Request, settings: Settings, registry: Registry, maxTokens: nat, store: ConsentStore,
    digest: Payload -> string, now: nat, ghost history: seq<Event>)
    returns (r: Result<Plan, RouteError>, attempt: Option<bool>)
    requires store.Holds(history)
    modifies store
    ensures store.Holds(AfterAttempt(history, request, attempt))
    ensures attempt == AttemptOf(history, request, settings, registry, maxTokens, digest, now)
    ensures Follows(r, request, settings, registry, attempt == Some(true))
    ensures r.Ok? ==> forall i :: 0 <= i < |r.value.candidates| ==>
      CarriesSanitized(r.value.candidates[i], request, maxTokens)
  {
    hide SafePayload, MayLeave, InForce, FirstRefused, Allows, ByteLen;
    attempt := None;
    var name := RemoteName(request, settings, registry);
    match request.policy {
      case LocalOnly =>
        r := Ok(Plan(Locals(registry), None));
      case LocalPreferred =>
        var route := Locals(registry);
        if name.Some? {
          if KeptLocal(request) { return Ok(Plan(route, Some(PrivacyDenied))), None; }
          var payload := Sanitize(name.value, request.question, request.context, maxTokens, Some(settings.categories));
          if payload.Ok? { route := route + [Remote(name.value, payload.value)]; }
        }
        r := Ok(Plan(route, None));
      case RemotePreferred =>
        var route, fallback := [], None;
        if name.Some? {
          if KeptLocal(request) {
            fallback := Some(PrivacyDenied);
          } else {
            var payload :=
              Sanitize(name.value, request.question, request.context, maxTokens, Some(settings.categories));
            if payload.Ok? {
              route := route + [Remote(name.value, payload.value)];
            } else {
              fallback := Some(PrivacyDenied);
            }
          }
        } else {
          fallback := Some(UnsupportedCapability);
        }
        r := Ok(Plan(route + Locals(registry), fallback));
        assert [] + Locals(registry) == Locals(registry);
      case AskBeforeRemote =>
        if name.None? { return Err(ProviderUnavailable), None; }
        var payload := Sanitize(name.value, request.question, request.context, maxTokens, None);
        if payload.Err? || request.consent.None? { return Err(PolicyDenied), None; }
        var ok := store.Consume(request.consent.value, payload.value.provider, digest(payload.value), now, history);
        attempt := Some(ok);
        if !ok { return Err(PolicyDenied), attempt; }
        var remote := Remote(name.value, payload.value);
        r := Ok(Plan([remote] + Locals(registry), None));
        assert r.value.candidates[0] == remote;
    }
  }

  /** Nothing leaves the machine for a local-only request, nor for sensitive data unless the user has
      just consented to the exact payload. */
  lemma StaysLocal(
    r: Result<Plan, RouteError>, request: Request, settings: Settings, registry: Registry, consented: bool)
    requires Follows(r, request, settings, registry, consented) && r.Ok?
    ensures forall c :: c in r.value.candidates && c.Remote? ==>
      && request.policy != LocalOnly
      && (KeptLocal(request) ==> request.policy == AskBeforeRemote && consented)
      && MayLeave(request.question, request.context,
                  if request.policy == AskBeforeRemote then None else Some(settings.categories))
      && RemoteName(request, settings, registry) == Some(c.name)
  {
    hide MayLeave;
  }

  /** A remote candidate that had to be asked for was asked for, and consent to exactly its payload was
      in force. */
  lemma AskedConsent(
    r: Result<Plan, RouteError>, request: Request, settings: Settings, registry: Registry, maxTokens: nat,
    digest: Payload -> string, now: nat, history: seq<Event>, c: Candidate)
    requires var attempt := AttemptOf(history, request, settings, registry, maxTokens, digest, now);
      Follows(r, request, settings, registry, attempt == Some(true)) && r.Ok? && request.policy == AskBeforeRemote
    requires c in r.value.candidates && c.Remote? && CarriesSanitized(c, request, maxTokens)
    ensures AttemptOf(history, request, settings, registry, maxTokens, digest, now) == Some(true)
    ensures Consented(history, request, c.payload, digest, now)
  {
    hide MayLeave, SafePayload, InForce;
  }

  /** A remote candidate may be tried. */
  predicate Open(request: Request, settings: Settings, registry: Registry, consented: bool) {
    && RemoteName(request, settings, registry).Some?
    && match request.policy
       case LocalOnly => false
       case AskBeforeRemote => consented && MayLeave(request.question, request.context, None)
       case _ => !KeptLocal(request) && MayLeave(request.question, request.context, Some(settings.categories))
  }

  /** Who is on a route, and in which order: the local provider if there is one, a remote one if it may be tried,
      and the remote one first unless the local one is preferred. */
  lemma RouteOrder(
    r: Result<Plan, RouteError>, request: Request, settings: Settings, registry: Registry, consented: bool)
    requires Follows(r, request, settings, registry, consented)
    ensures r.Err? <==> request.policy == AskBeforeRemote && !Open(request, settings, registry, consented)
    ensures r == Err(ProviderUnavailable) <==>
      request.policy == AskBeforeRemote && RemoteName(request, settings, registry).None?
    ensures r.Ok? ==>
      var candidates, open := r.value.candidates, Open(request, settings, registry, consented);
      && (registry.local <==> Local in candidates)
      && (open <==> exists i :: 0 <= i < |candidates| && candidates[i].Remote?)
      && |candidates| == (if registry.local then 1 else 0) + (if open then 1 else 0)
      && (|candidates| == 2 ==> (candidates[0].Local? <==> request.policy == LocalPreferred))
  {
    hide MayLeave;
    if r.Ok? {
      var candidates := r.value.candidates;
      if |candidates| >= 1 { assert candidates[0] in candidates; }
      if |candidates| >= 2 { assert candidates[1] in candidates; }
    }
  }

  /** And why the remote one is passed over, as the client is told. */
  lemma FallbackSays(
    r: Result<Plan, RouteError>, request: Request, settings: Settings, registry: Registry, consented: bool)
    requires Follows(r, request, settings, registry, consented) && r.Ok?
    ensures r.value.fallback == Some(UnsupportedCapability) <==>
      request.policy == RemotePreferred && RemoteName(request, settings, registry).None?
    ensures r.value.fallback == Some(PrivacyDenied) <==>
      && RemoteName(request, settings, registry).Some?
      && ((request.policy == RemotePreferred && !Open(request, settings, registry, consented))
          || (request.policy == LocalPreferred && KeptLocal(request)))
  {
    hide MayLeave;
  }

  /** At most one local and one remote candidate. */
  lemma OneOfEach(
    r: Result<Plan, RouteError>, request: Request, settings: Settings, registry: Registry, consented: bool)
    requires Follows(r, request, settings, registry, consented) && r.Ok?
    ensures var candidates := r.value.candidates;
      |candidates| <= 2 && (|candidates| == 2 ==> candidates[0].Local? != candidates[1].Local?)
  {
    hide MayLeave;
  }

  // ----- the messages a candidate is sent

  datatype Part = Instruction | ContextBlock(items: seq<Item>) | Question(text: string)

  /** build_messages */
  function BuildMessages(candidate: Candidate, request: Request): seq<Part> {
    var (question, context) :=
      match candidate
      case Local => (request.question, request.context)
      case Remote(_, payload) => (payload.question, payload.context);
    [Instruction] + (if context == [] then [] else [ContextBlock(context)]) + [Question(question)]
  }

  /** The instruction, one block with all items in order if there are any, and the question. */
  predicate Presents(parts: seq<Part>, question: string, context: seq<Item>) {
    if context == [] then parts == [Instruction, Question(question)]
    else parts == [Instruction, ContextBlock(context), Question(question)]
  }

  /** The local provider is given the request, a remote one its payload. */
  lemma MessagesPresent(candidate: Candidate, request: Request)
    ensures candidate.Local? ==> Presents(BuildMessages(candidate, request), request.question, request.context)
    ensures candidate.Remote? ==>
      Presents(BuildMessages(candidate, request), candidate.payload.question, candidate.payload.context)
  {
  }

  /** Nothing of it is lost: the question and the items can be read off the messages. */
  lemma NothingLost(parts: seq<Part>, question: string, context: seq<Item>, other: string, others: seq<Item>)
    requires Presents(parts, question, context) && Presents(parts, other, others)
    ensures question == other && context == others
  {
    assert parts[|parts| - 1] == Question(question) == Question(other);
    assert context != [] ==> parts[1] == ContextBlock(context);
    assert others != [] ==> parts[1] == ContextBlock(others);
  }

  /** Requests that differ only in what redaction takes out look the same to a remote provider. */
  lemma RemoteSeesOnlySanitized(a: Candidate, first: Request, b: Candidate, second: Request, maxTokens: nat)
    requires a.Remote? && b.Remote? && CarriesSanitized(a, first, maxTokens) && CarriesSanitized(b, second, maxTokens)
    requires RedactedText(first.question) == RedactedText(second.question)
    requires SafeItems(first.context) == SafeItems(second.context)
    ensures BuildMessages(a, first) == BuildMessages(b, second)
  {
    hide RedactedText, SafeItems;
  }
}
