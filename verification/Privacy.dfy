/** What may be sent to a remote provider, and the consents that allow it. */
module Privacy {
  import opened Results
  import opened Redaction

  const CONSENT_LIFETIME_MS := 5 * 60 * 1000
  const MAX_CONTEXT_ITEM_BYTES := 64 * 1024
  const MAX_TOTAL_CONTEXT_BYTES := 256 * 1024

  datatype Category = UserPrompt | OtherCategory(tag: nat)
  datatype Item = Item(category: Category, source: string, content: string)
  datatype Payload = Payload(
    provider: string, question: string, context: seq<Item>, maxTokens: nat, redactions: set<Label>)
  datatype PrivacyError = CategoryDenied | ForbiddenSource | TooLarge

  const FORBIDDEN: seq<string> := [
    "/.ssh/", "/.gnupg/", "/.aws/", "/.config/gcloud/", "/.config/gh/", "/.local/share/keyrings/", "/keyrings/",
    "/cookies", "/login data", "/shadow", "/etc/ssl/private/", "command_history", ".bash_history", ".zsh_history",
    "environment"]

  predicate Forbidden(source: string) {
    exists i :: 0 <= i < |FORBIDDEN| && Contains(Lower(source), FORBIDDEN[i])
  }

  function AfterLastSlash(source: string): string {
    if source == "" || source[|source| - 1] == '/' then ""
    else AfterLastSlash(source[..|source| - 1]) + [source[|source| - 1]]
  }

  function SafeSource(source: string): string {
    if source != "" && source[0] == '/' then
      if AfterLastSlash(source) == "" then "local-context" else AfterLastSlash(source)
    else if |source| <= 256 then source
    else source[..256]
  }

  lemma {:induction false} AfterSlash(source: string)
    ensures var name := AfterLastSlash(source);
      && |name| <= |source| && name == source[|source| - |name|..]
      && (forall i :: 0 <= i < |name| ==> name[i] != '/')
      && (|name| < |source| ==> source[|source| - |name| - 1] == '/')
  {
    if source != "" && source[|source| - 1] != '/' {
      var init := source[..|source| - 1];
      AfterSlash(init);
      var name := AfterLastSlash(init);
      assert source[|source| - |name| - 1..] == name + [source[|source| - 1]];
    }
  }

  /** No directory of an absolute path leaves: only what follows its last slash, or a fixed word. Another source
      leaves as it is, but for what is past 256 characters. */
  lemma NoDirectoryLeaves(source: string)
    ensures source != "" && source[0] == '/' ==>
      var safe := SafeSource(source);
      && safe != "" && (forall i :: 0 <= i < |safe| ==> safe[i] != '/')
      && (safe == "local-context" || (|safe| < |source| && source[|source| - |safe|..] == safe))
    ensures source == "" || source[0] != '/' ==>
      SafeSource(source) == (if |source| <= 256 then source else source[..256])
  {
    AfterSlash(source);
  }

  function SafeItem(item: Item): Item {
    Item(item.category, SafeSource(item.source), RedactedText(item.content))
  }

  function SafeItems(context: seq<Item>): seq<Item> {
    seq(|context|, i requires 0 <= i < |context| => SafeItem(context[i]))
  }

  predicate Allows(allowed: Option<set<Category>>, category: Category) {
    allowed.None? || category in allowed.value
  }

  predicate ItemAllowed(allowed: Option<set<Category>>, item: Item) {
    !Forbidden(item.source) && Allows(allowed, item.category) && ByteLen(item.content) <= MAX_CONTEXT_ITEM_BYTES
  }

  function TotalBytes(context: seq<Item>): nat {
    if context == [] then 0 else TotalBytes(context[..|context| - 1]) + ByteLen(context[|context| - 1].content)
  }

  /** Exactly what may cross the boundary. */
  predicate MayLeave(question: string, context: seq<Item>, allowed: Option<set<Category>>) {
    && ByteLen(question) <= MAX_CONTEXT_ITEM_BYTES && Allows(allowed, UserPrompt)
    && (forall i :: 0 <= i < |context| ==> ItemAllowed(allowed, context[i]))
    && (context != [] ==> ByteLen(RedactedText(question)) + TotalBytes(context) <= MAX_TOTAL_CONTEXT_BYTES)
  }

  function FaultOf(allowed: Option<set<Category>>, item: Item): PrivacyError {
    if Forbidden(item.source) then ForbiddenSource
    else if !Allows(allowed, item.category) then CategoryDenied
    else TooLarge
  }

  /** The text that leaves with the first `n` items, as it is counted. */
  function CountedBytes(question: string, context: seq<Item>, n: nat): nat
    requires n <= |context|
  {
    ByteLen(RedactedText(question)) + TotalBytes(context[..n])
  }

  predicate Fits(question: string, context: seq<Item>, allowed: Option<set<Category>>, k: nat)
    requires k < |context|
  {
    ItemAllowed(allowed, context[k]) && CountedBytes(question, context, k + 1) <= MAX_TOTAL_CONTEXT_BYTES
  }

  /** Item `i` is the first that may not leave, or with which there is too much. */
  ghost predicate FirstRefused(
    question: string, context: seq<Item>, allowed: Option<set<Category>>, i: nat, error: PrivacyError)
  {
    && i < |context| && (forall k :: 0 <= k < i ==> Fits(question, context, allowed, k))
    && !Fits(question, context, allowed, i)
    && error == if ItemAllowed(allowed, context[i]) then TooLarge else FaultOf(allowed, context[i])
  }

  lemma CountOne(question: string, context: seq<Item>, i: nat)
    requires i < |context|
    ensures CountedBytes(question, context, i + 1) == CountedBytes(question, context, i) + ByteLen(context[i].content)
  {
    assert context[..i + 1][..i] == context[..i];
  }

  lemma RefusedMayNotLeave(question: string, context: seq<Item>, allowed: Option<set<Category>>, i: nat)
    requires i < |context| && !Fits(question, context, allowed, i)
    ensures !MayLeave(question, context, allowed)
  {
    PrefixBytes(context, i + 1);
  }

  lemma AllFitMayLeave(question: string, context: seq<Item>, allowed: Option<set<Category>>)
    requires ByteLen(question) <= MAX_CONTEXT_ITEM_BYTES && Allows(allowed, UserPrompt)
    requires forall k :: 0 <= k < |context| ==> Fits(question, context, allowed, k)
    ensures MayLeave(question, context, allowed)
  {
    hide Forbidden, RedactedText, ByteLen, TotalBytes;
    forall k | 0 <= k < |context| ensures ItemAllowed(allowed, context[k]) {
      assert Fits(question, context, allowed, k);
    }
    if context != [] {
      var n := |context| - 1;
      assert Fits(question, context, allowed, n) && context[..n + 1] == context;
    }
  }

  lemma {:induction false} PrefixBytes(context: seq<Item>, n: nat)
    requires n <= |context|
    ensures TotalBytes(context[..n]) <= TotalBytes(context)
  {
    if n < |context| {
      var init := context[..|context| - 1];
      PrefixBytes(init, n);
      assert init[..n] == context[..n];
    } else {
      assert context[..n] == context;
    }
  }

  /** The labels of what redaction finds in a text. */
  function LabelsOf(text: string): set<Label> {
    if HoldsPrivateKey(text) then {PrivateKey} else set l | l in Found(Split(text), false)
  }

  function ContextLabels(context: seq<Item>): set<Label> {
    if context == [] then {} else ContextLabels(context[..|context| - 1]) + LabelsOf(context[|context| - 1].content)
  }

  method Redact(text: string) returns (out: string, labels: set<Label>)
    ensures out == RedactedText(text) && labels == LabelsOf(text)
  {
    hide RedactedText, Split, Found, HoldsPrivateKey;
    var found;
    out, found := RedactSecrets(text);
    labels := set l | l in found;
  }

  /** Every text redacted, every source made safe, every label found. */
  ghost function SafePayload(provider: string, question: string, context: seq<Item>, maxTokens: nat): Payload {
    var found := LabelsOf(question) + ContextLabels(context);
    Payload(provider, RedactedText(question), SafeItems(context), maxTokens, found)
  }

  /** sanitize: all or nothing, and redacted when it is all. */
  method Sanitize(
    provider: string, question: string, context: seq<Item>, maxTokens: nat, allowed: Option<set<Category>>)
    returns (r: Result<Payload, PrivacyError>)
    ensures r.Ok? <==> MayLeave(question, context, allowed)
    ensures r.Ok? ==> r.value == SafePayload(provider, question, context, maxTokens)
    ensures r.Err? ==>
      if ByteLen(question) > MAX_CONTEXT_ITEM_BYTES then r.error == TooLarge
      else if !Allows(allowed, UserPrompt) then r.error == CategoryDenied
      else exists i :: FirstRefused(question, context, allowed, i, r.error)
  {
    hide RedactedText, ByteLen, Forbidden, SafeSource, LabelsOf, TotalBytes, Fits, CountedBytes;
    if ByteLen(question) > MAX_CONTEXT_ITEM_BYTES { return Err(TooLarge); }
    if allowed.Some? && UserPrompt !in allowed.value { return Err(CategoryDenied); }
    var safe, found := Redact(question);
    var sanitized := [];
    var total := ByteLen(safe);
    NothingCounted(question, context);
    var i := 0;
    while i < |context|
      invariant 0 <= i <= |context| && total == CountedBytes(question, context, i)
      invariant forall k :: 0 <= k < i ==> Fits(question, context, allowed, k)
      invariant sanitized == SafeItems(context[..i]) && found == LabelsOf(question) + ContextLabels(context[..i])
    {
      var item := context[i];
      assert context[..i + 1][..i] == context[..i];
      var fault;
      fault, total := CheckItem(question, context, allowed, i, total);
      if fault.Some? {
        RefusedMayNotLeave(question, context, allowed, i);
        assert FirstRefused(question, context, allowed, i, fault.value);
        return Err(fault.value);
      }
      var content, more := Redact(item.content);
      found := found + more;
      sanitized := sanitized + [Item(item.category, SafeSource(item.source), content)];
      i := i + 1;
    }
    assert context[..i] == context;
    AllFitMayLeave(question, context, allowed);
    r := Ok(Payload(provider, safe, sanitized, maxTokens, found));
  }

  lemma NothingCounted(question: string, context: seq<Item>)
    ensures CountedBytes(question, context, 0) == ByteLen(RedactedText(question))
  {
    assert context[..0] == [];
  }

  /** The tests of the loop over context items. */
  method CheckItem(question: string, context: seq<Item>, allowed: Option<set<Category>>, i: nat, before: nat)
    returns (fault: Option<PrivacyError>, total: nat)
    requires i < |context| && before == CountedBytes(question, context, i)
    ensures fault.None? <==> Fits(question, context, allowed, i)
    ensures fault.None? ==> total == CountedBytes(question, context, i + 1)
    ensures fault.Some? ==>
      fault.value == if ItemAllowed(allowed, context[i]) then TooLarge else FaultOf(allowed, context[i])
  {
    hide RedactedText, ByteLen, Forbidden, TotalBytes, CountedBytes;
    CountOne(question, context, i);
    total := before;
    var item := context[i];
    if Forbidden(item.source) { return Some(ForbiddenSource), total; }
    if allowed.Some? && item.category !in allowed.value { return Some(CategoryDenied), total; }
    if ByteLen(item.content) > MAX_CONTEXT_ITEM_BYTES { return Some(TooLarge), total; }
    total := total + ByteLen(item.content);
    if total > MAX_TOTAL_CONTEXT_BYTES { return Some(TooLarge), total; }
    fault := None;
  }

  /** Nothing is dropped from a payload: every item leaves in its place, under its category. */
  lemma PayloadKeeps(provider: string, question: string, context: seq<Item>, maxTokens: nat)
    ensures var p := SafePayload(provider, question, context, maxTokens);
      && p.provider == provider && p.maxTokens == maxTokens && |p.context| == |context|
      && p.question == RedactedText(question)
      && forall i :: 0 <= i < |context| ==>
           && p.context[i].category == context[i].category
           && p.context[i].content == RedactedText(context[i].content)
           && p.context[i].source == SafeSource(context[i].source)
  {
    hide RedactedText, SafeSource, LabelsOf, ContextLabels;
  }

  /** No word of the text looks like a secret, but for a bare header name. */
  ghost predicate NoSecretIn(text: string) {
    forall i :: 0 <= i < |Split(text)| ==>
      var word := Split(text)[i].word;
      SecretLabel(word).Some? ==> Lower(word) == "authorization:"
  }

  /** No word of a redacted text still looks like a secret, but for a bare header name. */
  lemma RedactedHasNoSecret(s: string)
    ensures NoSecretIn(RedactedText(s))
  {
    hide SecretLabel, Lower, Split, Join, Redacted, HoldsPrivateKey, WellSplit;
    KeyTokens();
    JoinSplits(KEY_TOKENS);
    KeyWords();
    var tokens := Split(s);
    SplitJoins(s);
    KeepsLayout(tokens, false);
    JoinSplits(Redacted(tokens, false));
    LeavesNoSecret(tokens, false);
  }

  /** Nor any word of a payload. */
  ghost predicate NoSecretInPayload(p: Payload) {
    && NoSecretIn(p.question)
    && forall i :: 0 <= i < |p.context| ==> NoSecretIn(p.context[i].content) && NoSecretIn(p.context[i].source)
  }

  /** Sources are not redacted: no word of what leaves looks like a secret exactly when none does of the
      sources, as they are shortened. */
  lemma PayloadHasNoSecretIff(provider: string, question: string, context: seq<Item>, maxTokens: nat)
    ensures NoSecretInPayload(SafePayload(provider, question, context, maxTokens)) <==>
      forall i :: 0 <= i < |context| ==> NoSecretIn(SafeSource(context[i].source))
  {
    hide SecretLabel, Lower, Split, RedactedText, SafeSource, LabelsOf, ContextLabels;
    var p := SafePayload(provider, question, context, maxTokens);
    RedactedHasNoSecret(question);
    forall i | 0 <= i < |context| ensures NoSecretIn(p.context[i].content) {
      RedactedHasNoSecret(context[i].content);
    }
    assert forall i :: 0 <= i < |context| ==> p.context[i].source == SafeSource(context[i].source);
  }

  /** A source that looks like a secret may leave, and leaves as it is. */
  lemma SecretSourceLeaves(category: Category)
    ensures var context := [Item(category, "token=abc", "")];
      MayLeave("", context, None) && SafeItems(context)[0].source == "token=abc" && !NoSecretIn("token=abc")
  {
    var source := "token=abc";
    var context := [Item(category, source, "")];
    PlainSource();
    hide Forbidden;
    assert TotalBytes(context) == 0 by { assert context[..0] == []; }
    assert !HoldsPrivateKey("") && RedactedText("") == "" && ByteLen("") == 0;
    assert ItemAllowed(None, context[0]);
  }

  lemma PlainSource()
    ensures !Forbidden("token=abc") && !NoSecretIn("token=abc") && SafeSource("token=abc") == "token=abc"
  {
    hide Forbidden, SecretLabel, Split, Lower;
    var source := "token=abc";
    ShortSourceLeaves(source);
    SplitWord(source);
    LooksSecret();
    assert Split(source)[0].word == source;
  }

  lemma LooksSecret()
    ensures SecretLabel("token=abc").Some? && Lower("token=abc") == "token=abc"
  {
    var source := "token=abc";
    assert Lower(source) == source;
    assert source[..6] == "token=";
  }

  lemma ShortSourceLeaves(source: string)
    requires |source| <= 10 && forall i :: 0 <= i < |source| ==> source[i] != '/'
    ensures !Forbidden(source)
  {
    assert forall k :: 0 <= k < |FORBIDDEN| ==> FORBIDDEN[k][0] == '/' || |FORBIDDEN[k]| > 10;
    var lower := Lower(source);
    forall k, i | 0 <= k < |FORBIDDEN| && 0 <= i <= |lower| ensures !OccursAt(lower, FORBIDDEN[k], i) {
      if |FORBIDDEN[k]| <= 10 && i < |lower| { assert lower[i] == LowerChar(source[i]); }
    }
  }

  // ----- consent

  datatype ConsentToken = ConsentToken(id: string, sha256: string, provider: Option<string>, issued: nat, expires: nat)
  datatype Entry = Entry(provider: string, digest: string, expires: nat)

  datatype Event =
    | Previewed(id: string, entry: Entry, now: nat)
    | Attempted(id: string, ok: bool)

  /** The last thing that happened to a token. */
  function LastOn(history: seq<Event>, id: string): Option<Event> {
    if history == [] then None
    else if history[|history| - 1].id == id then Some(history[|history| - 1])
    else LastOn(history[..|history| - 1], id)
  }

  /** The latest time any preview carried since the token was last touched. */
  function LatestSince(history: seq<Event>, id: string): nat {
    if history == [] || history[|history| - 1].id == id then 0
    else
      var before, last := LatestSince(history[..|history| - 1], id), history[|history| - 1];
      if last.Previewed? && last.now > before then last.now else before
  }

  /** The token, the payload and the clock agree with what was previewed. */
  predicate Agrees(token: ConsentToken, entry: Entry, provider: string, digest: string, now: nat) {
    && now <= token.expires && token.expires == entry.expires && token.issued < token.expires
    && entry.provider == provider && entry.digest == digest && token.sha256 == entry.digest
    && token.provider == Some(entry.provider)
  }

  /** The consent in force for the token is for this payload and provider, and unexpired. */
  predicate InForce(history: seq<Event>, token: ConsentToken, provider: string, digest: string, now: nat) {
    var entry := Standing(history, token.id);
    entry.Some? && Agrees(token, entry.value, provider, digest, now)
  }

  lemma LastAppend(history: seq<Event>, event: Event)
    ensures forall id: string ::
      LastOn(history + [event], id) == if event.id == id then Some(event) else LastOn(history, id)
    ensures forall id: string ::
      var before := LatestSince(history, id);
      LatestSince(history + [event], id) ==
      if event.id == id then 0 else if event.Previewed? && event.now > before then event.now else before
  {
    assert (history + [event])[..|history|] == history;
  }

  /** The consent in force for a token: the last thing that happened to it is the preview, and no
      preview since then carried a time past its expiry and swept it away. */
  function Standing(history: seq<Event>, id: string): Option<Entry> {
    var last := LastOn(history, id);
    if last.Some? && last.value.Previewed? && last.value.entry.expires >= LatestSince(history, id) then
      Some(last.value.entry)
    else None
  }

  class ConsentStore {
    var entries: map<string, Entry>

    /** The store holds exactly the consents in force, whatever the clock has done. */
    ghost predicate Holds(history: seq<Event>)
      reads this
    {
      forall id: string :: (if id in entries then Some(entries[id]) else None) == Standing(history, id)
    }

    constructor ()
      ensures Holds([])
    {
      entries := map[];
    }

    /** preview; the token's identifier is whatever the keyed digest gives, fresh or not, and the time
        was read before the store was locked. */
    method Preview(provider: string, digest: string, id: string, now: nat, ghost history: seq<Event>)
      returns (token: ConsentToken)
      requires Holds(history)
      modifies this
      ensures token == ConsentToken(id, digest, Some(provider), now, now + CONSENT_LIFETIME_MS)
      ensures Holds(history + [Previewed(id, Entry(provider, digest, token.expires), now)])
    {
      var expires := now + CONSENT_LIFETIME_MS;
      LastAppend(history, Previewed(id, Entry(provider, digest, expires), now));
      ghost var was := entries;
      assert forall k: string :: (if k in was then Some(was[k]) else None) == Standing(history, k);
      entries := map k | k in entries && entries[k].expires >= now :: entries[k];
      entries := entries[id := Entry(provider, digest, expires)];
      token := ConsentToken(id, digest, Some(provider), now, expires);
    }

    /** consume_consent: succeeds exactly when the consent in force for the token is for this very
        payload and provider and has not expired; it is used up either way. */
    method Consume(token: ConsentToken, provider: string, digest: string, now: nat, ghost history: seq<Event>)
      returns (ok: bool)
      requires Holds(history)
      modifies this
      ensures Holds(history + [Attempted(token.id, ok)])
      ensures ok <==> InForce(history, token, provider, digest, now)
    {
      LastAppend(history, Attempted(token.id, true));
      LastAppend(history, Attempted(token.id, false));
      assert (if token.id in entries then Some(entries[token.id]) else None) == Standing(history, token.id);
      if token.id !in entries { return false; }
      var entry := entries[token.id];
      entries := entries - {token.id};
      if token.expires < now || token.expires != entry.expires || token.issued >= token.expires
        || entry.provider != provider || entry.digest != digest || token.sha256 != entry.digest
        || token.provider != Some(entry.provider)
      {
        return false;
      }
      ok := true;
    }
  }

  /** While no preview carried a time later than the attempt, an unexpired preview that nothing has
      happened to since is enough. */
  lemma UnsweptInOrder(history: seq<Event>, token: ConsentToken, provider: string, digest: string, now: nat)
    requires LatestSince(history, token.id) <= now
    ensures InForce(history, token, provider, digest, now) <==>
           (var last := LastOn(history, token.id);
            last.Some? && last.value.Previewed? && Agrees(token, last.value.entry, provider, digest, now))
  {
  }

  /** Without that it is not: a preview with a later time sweeps a consent that a clock set back, or
      read earlier, would still find unexpired. */
  method SweptEarly(provider: string, digest: string) returns (token: ConsentToken, ok: bool, history: seq<Event>)
    ensures LastOn(history, token.id) == Some(Previewed(token.id, Entry(provider, digest, token.expires), 0))
    ensures Agrees(token, Entry(provider, digest, token.expires), provider, digest, 1) && !ok
  {
    var store := new ConsentStore();
    token := store.Preview(provider, digest, "a", 0, []);
    var first := Previewed("a", Entry(provider, digest, token.expires), 0);
    var late := CONSENT_LIFETIME_MS + 1;
    LastAppend([], first);
    assert [] + [first] == [first];
    var other := store.Preview(provider, digest, "b", late, [first]);
    var second := Previewed("b", Entry(provider, digest, other.expires), late);
    LastAppend([first], second);
    history := [first] + [second];
    ok := store.Consume(token, provider, digest, 1, history);
  }

  function Uses(history: seq<Event>, id: string): nat {
    if history == [] then 0
    else Uses(history[..|history| - 1], id) + if history[|history| - 1] == Attempted(id, true) then 1 else 0
  }

  function Previews(history: seq<Event>, id: string): nat {
    if history == [] then 0
    else
      var last := history[|history| - 1];
      Previews(history[..|history| - 1], id) + if last.Previewed? && last.id == id then 1 else 0
  }

  /** Every successful attempt directly follows a preview, as far as its own token is concerned. */
  ghost predicate Lawful(history: seq<Event>) {
    forall i :: 0 <= i < |history| && history[i].Attempted? && history[i].ok ==>
      var last := LastOn(history[..i], history[i].id);
      last.Some? && last.value.Previewed?
  }

  /** No consent is used more often than it was given. */
  lemma {:induction false} UsesBounded(history: seq<Event>, id: string)
    requires Lawful(history)
    ensures var last := LastOn(history, id);
      Uses(history, id) + (if last.Some? && last.value.Previewed? then 1 else 0) <= Previews(history, id)
    decreases |history|
  {
    if history != [] {
      var n := |history| - 1;
      var init := history[..n];
      assert forall i :: 0 <= i < n ==> init[..i] == history[..i];
      UsesBounded(init, id);
    }
  }

  datatype Request =
    | PreviewOf(provider: string, digest: string, id: string)
    | ConsumeOf(token: ConsentToken, provider: string, digest: string)

  /** What a request adds to the history, given what happened before. */
  function EventOf(request: Request, now: nat, before: seq<Event>): Event {
    match request
    case PreviewOf(provider, digest, id) => Previewed(id, Entry(provider, digest, now + CONSENT_LIFETIME_MS), now)
    case ConsumeOf(token, provider, digest) => Attempted(token.id, InForce(before, token, provider, digest, now))
  }

  /** Any sequence of previews and attempts, at any times: each has its event, and an attempt succeeds
      exactly when the consent it needs is in force. */
  method Serve(requests: seq<Request>, clock: nat -> nat) returns (history: seq<Event>)
    ensures |history| == |requests| && Lawful(history)
    ensures forall i :: 0 <= i < |history| ==> history[i] == EventOf(requests[i], clock(i), history[..i])
    ensures forall id: string :: Uses(history, id) <= Previews(history, id)
  {
    var store := new ConsentStore();
    history := [];
    var i := 0;
    while i < |requests|
      invariant 0 <= i <= |requests| && |history| == i && fresh(store)
      invariant store.Holds(history) && Lawful(history)
      invariant forall k :: 0 <= k < i ==> history[k] == EventOf(requests[k], clock(k), history[..k])
    {
      hide InForce, Standing, Lawful;
      var before := history;
      match requests[i] {
        case PreviewOf(provider, digest, id) =>
          var token := store.Preview(provider, digest, id, clock(i), history);
          history := history + [Previewed(id, Entry(provider, digest, token.expires), clock(i))];
        case ConsumeOf(token, provider, digest) =>
          var ok := store.Consume(token, provider, digest, clock(i), history);
          history := history + [Attempted(token.id, ok)];
      }
      assert history == before + [history[i]];
      assert forall k :: 0 <= k <= i ==> history[..k] == before[..k];
      assert before[..i] == before;
      LawfulNext(requests[i], clock(i), before);
      i := i + 1;
    }
    forall id: string ensures Uses(history, id) <= Previews(history, id) { UsesBounded(history, id); }
  }

  lemma LawfulNext(request: Request, now: nat, before: seq<Event>)
    requires Lawful(before)
    ensures Lawful(before + [EventOf(request, now, before)])
  {
    hide Lawful;
    LawfulAppend(before, EventOf(request, now, before));
  }

  lemma LawfulAppend(history: seq<Event>, event: Event)
    requires Lawful(history)
    requires event == Attempted(event.id, true) ==> Standing(history, event.id).Some?
    ensures Lawful(history + [event])
  {
    var all := history + [event];
    assert all[..|history|] == history && forall k :: 0 <= k < |history| ==> all[..k] == history[..k];
  }
}
