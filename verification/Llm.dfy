/** `llm/do_inference.py`: reading a reply, and the retry loop around the upstream call. */
module Llm {
  import opened Prelude
  import opened Json

  /** One outcome of `httpx` posting the payload; the body is absent when it is not JSON. */
  datatype PostOutcome =
    | PostTimeout
    | TransportError(msg: string)
    | Reply(code: int, text: string, body: Option<Json>)

  /** What a caller of the client sees. `Raised` is any exception other than `LLMCallError`. */
  datatype ClientResult =
    | Response(content: string, raw: Json)
    | TimedOut(msg: string)
    | CallError(msg: string, code: Option<int>)
    | Raised

  // ---------- _to_chat_response ----------

  /** `x[key]` on a decoded value; nothing when Python raises KeyError or TypeError. */
  function Item(j: Json, key: string): Option<Json> {
    if j.Obj? then Lookup(j.fields, key) else None
  }

  /** `x[0]`; nothing when Python raises KeyError, IndexError or TypeError. A string yields its first character. */
  function First(j: Json): Option<Json> {
    match j
    case Arr(xs) => if xs == [] then None else Some(xs[0])
    case Str(s) => if s == "" then None else Some(Str(s[..1]))
    case _ => None
  }

  predicate StrOrMissing(v: Option<Json>) { v.None? || v.value.Str? }

  predicate StrOrNull(v: Option<Json>) { v.None? || v.value.Null? || v.value.Str? }

  /** A token count the response model accepts; `intLike` is its integer validation. */
  predicate CountOk(intLike: Json -> bool, v: Option<Json>) { v.None? || v.value.Null? || intLike(v.value) }

  predicate UsageOk(intLike: Json -> bool, body: Json)
    requires body.Obj?
  {
    var usage := GetOrNull(body, "usage");
    !Truthy(usage)
    || (&& usage.Obj?
        && CountOk(intLike, Lookup(usage.fields, "prompt_tokens"))
        && CountOk(intLike, Lookup(usage.fields, "completion_tokens"))
        && CountOk(intLike, Lookup(usage.fields, "total_tokens")))
  }

  /** `_to_chat_response`. */
  function ToChatResponse(intLike: Json -> bool, body: Json): ClientResult {
    var malformed := CallError("malformed DO inference response", None);
    var choices := Item(body, "choices");
    if choices.None? then malformed else
    var first := First(choices.value);
    if first.None? then malformed
    else if !first.value.Obj? then Raised
    else
      var m := Lookup(first.value.fields, "message");
      var messageFields := if m.None? then [] else if m.value.Obj? then m.value.fields else [];
      var content := Lookup(messageFields, "content");
      var said := if content.None? || !Truthy(content.value) then Str("") else content.value;
      if (m.Some? && !m.value.Obj?) || !said.Str? || !StrOrNull(Lookup(first.value.fields, "finish_reason"))
         || !UsageOk(intLike, body) || !StrOrMissing(Lookup(body.fields, "id"))
         || !StrOrMissing(Lookup(body.fields, "model"))
      then Raised
      else Response(said.text, body)
  }

  /** The error branches, and what a caller gets from the post that decides. */
  function Interpret(intLike: Json -> bool, o: PostOutcome): ClientResult {
    match o
    case PostTimeout => TimedOut("DO inference timed out")
    case TransportError(msg) => CallError("DO inference transport error: " + msg, None)
    case Reply(code, text, body) =>
      if code >= 400 then CallError("DO inference error: " + text[..Min(500, |text|)], Some(code))
      else match body case None => Raised case Some(b) => ToChatResponse(intLike, b)
  }

  // ---------- what a caller gets, from the post alone ----------

  /** `body["choices"][0]` is an object. */
  ghost predicate FirstChoice(body: Json, choice: seq<Field>) {
    body.Obj? && exists xs :: xs != [] && Lookup(body.fields, "choices") == Some(Arr(xs)) && xs[0] == Obj(choice)
  }

  /** `body["choices"][0]` cannot be taken. */
  ghost predicate NoChoice(body: Json) {
    !body.Obj? ||
    match Lookup(body.fields, "choices")
    case None => true
    case Some(v) => v in {Arr([]), Str("")} || !(v.Arr? || v.Str?)
  }

  /** The text at `message.content`; a missing or falsy part stands for the empty text. */
  ghost predicate Says(choice: seq<Field>, text: string) {
    || (Lookup(choice, "message") == None && text == "")
    || exists m ::
         && Lookup(choice, "message") == Some(Obj(m))
         && (Lookup(m, "content") == Some(Str(text))
             || (text == "" && (Lookup(m, "content") == None || !Truthy(Lookup(m, "content").value))))
  }

  ghost predicate OfKind(fields: seq<Field>, keys: set<string>, kind: Json -> bool) {
    forall k :: k in keys && Lookup(fields, k).Some? ==> kind(Lookup(fields, k).value)
  }

  /** The optional fields are of the types that the response model declares. */
  ghost predicate WellTyped(intLike: Json -> bool, body: Json, choice: seq<Field>)
    requires body.Obj?
  {
    && OfKind(choice, {"finish_reason"}, (v: Json) => v.Null? || v.Str?)
    && OfKind(body.fields, {"id", "model"}, (v: Json) => v.Str?)
    && OfKind(body.fields, {"usage"}, (u: Json) => Truthy(u) ==> u.Obj?)
    && forall u :: Lookup(body.fields, "usage") == Some(Obj(u)) ==>
         OfKind(u, {"prompt_tokens", "completion_tokens", "total_tokens"}, (v: Json) => v.Null? || intLike(v))
  }

  /** A body below status 400: the text of its first choice, an error where there is none, and otherwise a raise. */
  ghost predicate Understood(intLike: Json -> bool, body: Json, r: ClientResult) {
    && (NoChoice(body) ==> r == CallError("malformed DO inference response", None))
    && (!NoChoice(body) ==> r.Response? || r.Raised?)
    && (forall choice, text :: FirstChoice(body, choice) && Says(choice, text) && WellTyped(intLike, body, choice) ==>
          r == Response(text, body))
    && (r.Response? ==> exists choice ::
          FirstChoice(body, choice) && Says(choice, r.content) && WellTyped(intLike, body, choice))
  }

  /** What a caller gets from the post that decides. */
  ghost predicate Explains(intLike: Json -> bool, o: PostOutcome, r: ClientResult) {
    match o
    case PostTimeout => r == TimedOut("DO inference timed out")
    case TransportError(msg) => r == CallError("DO inference transport error: " + msg, None)
    case Reply(code, text, body) =>
      if code >= 400 then r == CallError("DO inference error: " + text[..Min(500, |text|)], Some(code))
      else if body.None? then r == Raised
      else Understood(intLike, body.value, r)
  }

  lemma TypesAgree(intLike: Json -> bool, body: Json, choice: seq<Field>)
    requires body.Obj?
    ensures WellTyped(intLike, body, choice)
      <==> StrOrNull(Lookup(choice, "finish_reason")) && UsageOk(intLike, body)
           && StrOrMissing(Lookup(body.fields, "id")) && StrOrMissing(Lookup(body.fields, "model"))
  {
  }

  /** A reply whose first choice is an object. */
  lemma ChoiceUnderstood(intLike: Json -> bool, body: Json, choice: seq<Field>)
    requires FirstChoice(body, choice)
    ensures var r := ToChatResponse(intLike, body);
      && !NoChoice(body) && (r.Response? || r.Raised?)
      && (forall text :: Says(choice, text) && WellTyped(intLike, body, choice) ==> r == Response(text, body))
      && (r.Response? ==> Says(choice, r.content) && WellTyped(intLike, body, choice))
  {
    TypesAgree(intLike, body, choice);
  }

  lemma ReplyUnderstood(intLike: Json -> bool, body: Json)
    ensures Understood(intLike, body, ToChatResponse(intLike, body))
  {
    forall choice | FirstChoice(body, choice)
      ensures forall text :: Says(choice, text) && WellTyped(intLike, body, choice) ==>
        ToChatResponse(intLike, body) == Response(text, body)
    {
      ChoiceUnderstood(intLike, body, choice);
    }
    if !NoChoice(body) && First(Lookup(body.fields, "choices").value).value.Obj? {
      var choice := First(Lookup(body.fields, "choices").value).value.fields;
      assert FirstChoice(body, choice);
      ChoiceUnderstood(intLike, body, choice);
    }
  }

  lemma InterpretExplains(intLike: Json -> bool, o: PostOutcome)
    ensures Explains(intLike, o, Interpret(intLike, o))
  {
    if o.Reply? && o.body.Some? { ReplyUnderstood(intLike, o.body.value); }
  }

  // ---------- reading an archived reply ----------

  /**
   * `_primary_content_from_raw` of `pipeline.py` on the archived primary response: missing parts read as
   * the empty text. Nothing stands for a value that is not a string, on which the evaluator raises.
   */
  function ContentOf(response: Option<Json>): Option<string> {
    if response.None? then Some("") else
    var choices := Item(response.value, "choices");
    if choices.None? then Some("") else
    var first := First(choices.value);
    if first.None? then Some("") else
    var message := Item(first.value, "message");
    if message.None? then Some("") else
    var content := Item(message.value, "content");
    if content.None? || !Truthy(content.value) then Some("")
    else if content.value.Str? then Some(content.value.text)
    else None
  }

  /** What the worker reads back from the archive is what the client returned to the request. */
  lemma ArchivedContentIsResponse(intLike: Json -> bool, body: Json)
    requires ToChatResponse(intLike, body).Response?
    ensures ContentOf(Some(body)) == Some(ToChatResponse(intLike, body).content)
    ensures ToChatResponse(intLike, body).raw == body
  {
  }

  /** What it reads: the text of the first choice; nothing archived and no choice read as the empty text. */
  lemma ContentMeaning(body: Json, choice: seq<Field>, text: string)
    ensures ContentOf(None) == Some("")
    ensures NoChoice(body) ==> ContentOf(Some(body)) == Some("")
    ensures FirstChoice(body, choice) && Says(choice, text) ==> ContentOf(Some(body)) == Some(text)
  {
  }

  // ---------- chat_completions ----------

  predicate Retryable(o: PostOutcome) {
    o.TransportError? || (o.Reply? && o.code >= 500)
  }

  function Pow2(n: nat): nat { if n == 0 then 1 else 2 * Pow2(n - 1) }

  function Max0(n: int): nat { if n < 0 then 0 else n }

  /**
   * The retry loop, against any stream of outcomes. The last post decides: it is the first one that is not
   * retryable, or the last one allowed. The time slept is 0.1 s * (2^k - 1) for k retries.
   */
  method ChatCompletions(intLike: Json -> bool, post: nat -> PostOutcome, maxRetries: int)
    returns (r: ClientResult, posts: nat, slept: real)
    ensures 1 <= posts && posts - 1 <= (if maxRetries < 0 then 0 else maxRetries)
    ensures forall i :: 0 <= i < posts - 1 ==> post(i).TransportError? || (post(i).Reply? && post(i).code >= 500)
    ensures posts - 1 == (if maxRetries < 0 then 0 else maxRetries) || post(posts - 1).PostTimeout?
            || (post(posts - 1).Reply? && post(posts - 1).code < 500)
    ensures Explains(intLike, post(posts - 1), r)
    ensures r == Interpret(intLike, post(posts - 1))
    ensures slept == 0.1 * (Pow2(posts - 1) - 1) as real
  {
    forall o ensures Explains(intLike, o, Interpret(intLike, o)) { InterpretExplains(intLike, o); }
    var attempts := Max0(maxRetries) + 1;
    slept := 0.0;
    posts := 0;
    for attempt := 0 to attempts
      invariant posts == attempt < attempts
      invariant forall i :: 0 <= i < attempt ==> Retryable(post(i))
      invariant slept == 0.1 * (Pow2(attempt) - 1) as real
    {
      var outcome := post(attempt);
      posts := posts + 1;
      if outcome.PostTimeout? {
        return Interpret(intLike, outcome), posts, slept;
      }
      if outcome.TransportError? {
        if attempt < attempts - 1 {
          slept := slept + 0.1 * Pow2(attempt) as real;
          continue;
        }
        return Interpret(intLike, outcome), posts, slept;
      }
      if outcome.code >= 500 && attempt < attempts - 1 {
        slept := slept + 0.1 * Pow2(attempt) as real;
        continue;
      }
      return Interpret(intLike, outcome), posts, slept;
    }
    assert false; // the statements after the loop in the original are never reached
  }

  /** The contract of the loop leaves no choice: streams that agree up to the deciding post give one result. */
  lemma RetryIsDetermined(post: nat -> PostOutcome, allowed: nat, p: nat, q: nat)
    requires 1 <= p <= allowed && 1 <= q <= allowed
    requires forall i :: 0 <= i < p - 1 ==> Retryable(post(i))
    requires forall i :: 0 <= i < q - 1 ==> Retryable(post(i))
    requires p == allowed || !Retryable(post(p - 1))
    requires q == allowed || !Retryable(post(q - 1))
    ensures p == q
  {
  }

  /** `payload.setdefault` over the extra fields: they never replace a field of the request itself. */
  method BuildPayload(base: map<string, Json>, extra: map<string, Json>) returns (payload: map<string, Json>)
    ensures payload == extra + base
  {
    payload := base;
    var todo := extra.Keys;
    while todo != {}
      invariant todo <= extra.Keys
      invariant payload.Keys == base.Keys + (extra.Keys - todo)
      invariant forall k :: k in payload ==> payload[k] == if k in base then base[k] else extra[k]
      decreases |todo|
    {
      var k :| k in todo;
      todo := todo - {k};
      if k !in payload { payload := payload[k := extra[k]]; }
    }
  }
}
