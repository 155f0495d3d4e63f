/** `evaluator/json_action.py` and `evaluator/base.py`: the deterministic verdict on two texts. */
module Evaluator {
  import opened Prelude
  import opened Json
  import opened Fence

  /** `NoVerdict` is the stored value "pending". */
  datatype Verdict = NoVerdict | Match | Mismatch | InvalidJson | CandidateError | PrimaryError

  datatype Loaded = Parsed(value: Json) | DecodeError(msg: string)

  /** Library calls the evaluator makes; nothing is assumed about them. */
  datatype PyLib = PyLib(loads: string -> Loaded, str: Json -> string, repr: Json -> string, lower: string -> string)

  datatype Settings = Settings(compareKey: string, requireJson: bool, lowercaseStrip: bool)

  datatype EvaluationResult = EvaluationResult(
    verdict: Verdict, reasons: seq<string>, primaryAction: Option<string>, candidateAction: Option<string>)

  /** `_parse`: the value, or the reason why there is none. */
  function Parse(lib: PyLib, text: string): Loaded {
    var stripped := StripCodeFence(text);
    if stripped == "" then DecodeError("empty_content")
    else match lib.loads(stripped)
      case Parsed(v) => Parsed(v)
      case DecodeError(msg) => DecodeError("json_decode_error:" + msg)
  }

  /** `_get_key` on a parsed value, with null read as absent. */
  function KeyOf(obj: Json, key: string): Option<Json> {
    if obj.Obj? && GetOrNull(obj, key) != Null then Some(GetOrNull(obj, key)) else None
  }

  /** The action a text names: absent when the text does not parse. */
  function Action(lib: PyLib, key: string, text: string): Option<Json> {
    match Parse(lib, text)
    case Parsed(v) => KeyOf(v, key)
    case DecodeError(_) => None
  }

  function Shown(lib: PyLib, action: Option<Json>): Option<string> {
    match action case None => None case Some(a) => Some(lib.str(a))
  }

  /** `_normalize_value`. */
  function Normalize(lib: PyLib, s: Settings, action: Json): string {
    if s.lowercaseStrip then lib.lower(Trim(lib.str(action))) else lib.str(action)
  }

  predicate Rejected(lib: PyLib, s: Settings, primary: string, candidate: string) {
    s.requireJson && (Parse(lib, primary).DecodeError? || Parse(lib, candidate).DecodeError?)
  }

  predicate Agree(lib: PyLib, s: Settings, p: Option<Json>, c: Option<Json>) {
    p.Some? && c.Some? && Normalize(lib, s, p.value) == Normalize(lib, s, c.value)
  }

  function PrimaryReason(l: Loaded): string {
    match l case Parsed(_) => "primary_json_ok" case DecodeError(msg) => "primary_json_invalid:" + msg
  }

  function CandidateReason(l: Loaded): string {
    match l case Parsed(_) => "candidate_json_ok" case DecodeError(msg) => "candidate_json_invalid:" + msg
  }

  function MismatchReason(lib: PyLib, p: Json, c: Json): string {
    "action_mismatch:" + lib.repr(p) + "!=" + lib.repr(c)
  }

  /** The verdict as the architecture document defines it (section 8), case by case. */
  function Evaluation(lib: PyLib, s: Settings, primary: string, candidate: string): EvaluationResult {
    var parsing := [PrimaryReason(Parse(lib, primary)), CandidateReason(Parse(lib, candidate))];
    if Rejected(lib, s, primary, candidate) then EvaluationResult(InvalidJson, parsing, None, None)
    else
      var p, c := Action(lib, s.compareKey, primary), Action(lib, s.compareKey, candidate);
      var last :=
        if p.None? || c.None? then "missing_action_key"
        else if Agree(lib, s, p, c) then "action_match"
        else MismatchReason(lib, p.value, c.value);
      EvaluationResult(if Agree(lib, s, p, c) then Match else Mismatch, parsing + [last], Shown(lib, p), Shown(lib, c))
  }

  // ---------- what a result says, from the texts and the library calls alone ----------

  /** The text is JSON once its fence is off. */
  predicate Decodes(lib: PyLib, text: string) {
    StripCodeFence(text) != "" && lib.loads(StripCodeFence(text)).Parsed?
  }

  /** It is a JSON object with this value, not null, under the key. */
  ghost predicate Names(lib: PyLib, key: string, text: string, v: Json) {
    && Decodes(lib, text) && !v.Null?
    && exists fields :: lib.loads(StripCodeFence(text)) == Parsed(Obj(fields)) && Lookup(fields, key) == Some(v)
  }

  /** Equal as strings, under `lowercase_strip` up to case and surrounding white space. */
  ghost predicate SameAction(lib: PyLib, s: Settings, v: Json, w: Json) {
    if s.lowercaseStrip then lib.lower(Trim(lib.str(v))) == lib.lower(Trim(lib.str(w))) else lib.str(v) == lib.str(w)
  }

  /** What is said about the parsing of one side. */
  ghost predicate TellsParse(lib: PyLib, side: string, text: string, reason: string) {
    reason ==
      if Decodes(lib, text) then side + "_json_ok"
      else if StripCodeFence(text) == "" then side + "_json_invalid:" + "empty_content"
      else side + "_json_invalid:" + ("json_decode_error:" + lib.loads(StripCodeFence(text)).msg)
  }

  /** The action a result reports for one side. */
  ghost predicate TellsAction(lib: PyLib, key: string, text: string, action: Option<string>) {
    && (forall v :: Names(lib, key, text, v) ==> action == Some(lib.str(v)))
    && (action.Some? ==> exists v :: Names(lib, key, text, v))
  }

  /** The last reason of a result that compares two actions. */
  ghost predicate TellsOutcome(lib: PyLib, s: Settings, primary: string, candidate: string, reason: string) {
    && (reason == "missing_action_key" || exists v, w ::
          Names(lib, s.compareKey, primary, v) && Names(lib, s.compareKey, candidate, w))
    && forall v, w :: Names(lib, s.compareKey, primary, v) && Names(lib, s.compareKey, candidate, w) ==>
         reason == if SameAction(lib, s, v, w) then "action_match"
                   else "action_mismatch:" + lib.repr(v) + "!=" + lib.repr(w)
  }

  /**
   * Both must name an action, and the same one, to match; JSON that is required and missing makes the pair invalid;
   * every other pair is a mismatch.
   */
  ghost predicate Judges(lib: PyLib, s: Settings, primary: string, candidate: string, r: EvaluationResult) {
    && (r.verdict == Match <==> exists v, w ::
          Names(lib, s.compareKey, primary, v) && Names(lib, s.compareKey, candidate, w) && SameAction(lib, s, v, w))
    && (r.verdict == InvalidJson <==> s.requireJson && !(Decodes(lib, primary) && Decodes(lib, candidate)))
    && r.verdict in {Match, Mismatch, InvalidJson}
    && |r.reasons| == (if r.verdict == InvalidJson then 2 else 3)
    && TellsParse(lib, "primary", primary, r.reasons[0]) && TellsParse(lib, "candidate", candidate, r.reasons[1])
    && if r.verdict == InvalidJson then r.primaryAction == None && r.candidateAction == None
       else
         && TellsOutcome(lib, s, primary, candidate, r.reasons[2])
         && TellsAction(lib, s.compareKey, primary, r.primaryAction)
         && TellsAction(lib, s.compareKey, candidate, r.candidateAction)
  }

  lemma NamesIsAction(lib: PyLib, key: string, text: string)
    ensures Decodes(lib, text) <==> Parse(lib, text).Parsed?
    ensures forall v :: Names(lib, key, text, v) <==> Action(lib, key, text) == Some(v)
  {
    forall v ensures Names(lib, key, text, v) <==> Action(lib, key, text) == Some(v) {
      if Action(lib, key, text) == Some(v) {
        var fields := lib.loads(StripCodeFence(text)).value.fields;
        assert lib.loads(StripCodeFence(text)) == Parsed(Obj(fields)) && Lookup(fields, key) == Some(v);
      }
    }
  }

  lemma VerdictMeaning(lib: PyLib, s: Settings, primary: string, candidate: string)
    ensures var r := Evaluation(lib, s, primary, candidate);
      && (r.verdict == Match <==> exists v, w ::
            Names(lib, s.compareKey, primary, v) && Names(lib, s.compareKey, candidate, w) && SameAction(lib, s, v, w))
      && (r.verdict == InvalidJson <==> s.requireJson && !(Decodes(lib, primary) && Decodes(lib, candidate)))
      && r.verdict in {Match, Mismatch, InvalidJson}
  {
    NamesIsAction(lib, s.compareKey, primary);
    NamesIsAction(lib, s.compareKey, candidate);
    if Evaluation(lib, s, primary, candidate).verdict == Match {
      var v, w := Action(lib, s.compareKey, primary).value, Action(lib, s.compareKey, candidate).value;
      assert Names(lib, s.compareKey, primary, v) && Names(lib, s.compareKey, candidate, w);
    }
  }

  lemma ParsingReasons(lib: PyLib, text: string)
    ensures TellsParse(lib, "primary", text, PrimaryReason(Parse(lib, text)))
    ensures TellsParse(lib, "candidate", text, CandidateReason(Parse(lib, text)))
  {
    assert "primary" + "_json_ok" == "primary_json_ok" && "candidate" + "_json_ok" == "candidate_json_ok";
    assert "primary" + "_json_invalid:" == "primary_json_invalid:";
    assert "candidate" + "_json_invalid:" == "candidate_json_invalid:";
  }

  lemma ReasonsMeaning(lib: PyLib, s: Settings, primary: string, candidate: string)
    ensures var r := Evaluation(lib, s, primary, candidate);
      && |r.reasons| == (if r.verdict == InvalidJson then 2 else 3)
      && TellsParse(lib, "primary", primary, r.reasons[0]) && TellsParse(lib, "candidate", candidate, r.reasons[1])
      && (r.verdict != InvalidJson ==> TellsOutcome(lib, s, primary, candidate, r.reasons[2]))
  {
    NamesIsAction(lib, s.compareKey, primary);
    NamesIsAction(lib, s.compareKey, candidate);
    ParsingReasons(lib, primary);
    ParsingReasons(lib, candidate);
    var p, c := Action(lib, s.compareKey, primary), Action(lib, s.compareKey, candidate);
    if p.Some? && c.Some? {
      assert Names(lib, s.compareKey, primary, p.value) && Names(lib, s.compareKey, candidate, c.value);
    }
  }

  lemma ActionsMeaning(lib: PyLib, s: Settings, primary: string, candidate: string)
    ensures var r := Evaluation(lib, s, primary, candidate);
      if r.verdict == InvalidJson then r.primaryAction == None && r.candidateAction == None
      else TellsAction(lib, s.compareKey, primary, r.primaryAction)
           && TellsAction(lib, s.compareKey, candidate, r.candidateAction)
  {
    NamesIsAction(lib, s.compareKey, primary);
    NamesIsAction(lib, s.compareKey, candidate);
  }

  lemma EvaluationJudges(lib: PyLib, s: Settings, primary: string, candidate: string)
    ensures Judges(lib, s, primary, candidate, Evaluation(lib, s, primary, candidate))
  {
    VerdictMeaning(lib, s, primary, candidate);
    ReasonsMeaning(lib, s, primary, candidate);
    ActionsMeaning(lib, s, primary, candidate);
  }

  /** The clauses leave no choice. */
  lemma JudgedOnce(lib: PyLib, s: Settings, primary: string, candidate: string, r: EvaluationResult)
    requires Judges(lib, s, primary, candidate, r)
    ensures r == Evaluation(lib, s, primary, candidate)
  {
    EvaluationJudges(lib, s, primary, candidate);
    NamesIsAction(lib, s.compareKey, primary);
    NamesIsAction(lib, s.compareKey, candidate);
  }

  /** `JsonActionEvaluator.evaluate`, statement by statement. */
  method Evaluate(lib: PyLib, s: Settings, primary: string, candidate: string) returns (r: EvaluationResult)
    ensures r == Evaluation(lib, s, primary, candidate)
    ensures Judges(lib, s, primary, candidate, r)
  {
    var reasons: seq<string> := [];
    var p := Parse(lib, primary);
    reasons := reasons + [PrimaryReason(p)];
    var c := Parse(lib, candidate);
    reasons := reasons + [CandidateReason(c)];
    if s.requireJson && (p.DecodeError? || c.DecodeError?) {
      r := EvaluationResult(InvalidJson, reasons, None, None);
    } else {
      var pAction := if p.Parsed? then KeyOf(p.value, s.compareKey) else None;
      var cAction := if c.Parsed? then KeyOf(c.value, s.compareKey) else None;
      if pAction.None? || cAction.None? {
        reasons := reasons + ["missing_action_key"];
        r := EvaluationResult(Mismatch, reasons, Shown(lib, pAction), Shown(lib, cAction));
      } else if Normalize(lib, s, pAction.value) == Normalize(lib, s, cAction.value) {
        reasons := reasons + ["action_match"];
        r := EvaluationResult(Match, reasons, Some(lib.str(pAction.value)), Some(lib.str(cAction.value)));
      } else {
        reasons := reasons + [MismatchReason(lib, pAction.value, cAction.value)];
        r := EvaluationResult(Mismatch, reasons, Some(lib.str(pAction.value)), Some(lib.str(cAction.value)));
      }
    }
    assert r == Evaluation(lib, s, primary, candidate);
    EvaluationJudges(lib, s, primary, candidate);
  }

  function Judge(lib: PyLib, s: Settings, primary: string, candidate: string): Verdict {
    Evaluation(lib, s, primary, candidate).verdict
  }

  /** The verdict does not depend on which model is called primary. */
  lemma JudgeSymmetric(lib: PyLib, s: Settings, a: string, b: string)
    ensures Judge(lib, s, a, b) == Judge(lib, s, b, a)
  {
  }

  /** Texts that match one text match each other; a text matches itself exactly when it names an action. */
  lemma MatchIsEquivalence(lib: PyLib, s: Settings, a: string, b: string, c: string)
    ensures Judge(lib, s, a, b) == Match && Judge(lib, s, b, c) == Match ==> Judge(lib, s, a, c) == Match
    ensures Judge(lib, s, a, a) == Match <==> Action(lib, s.compareKey, a).Some?
  {
  }

  /** The empty text never parses. */
  lemma EmptyIsInvalid(lib: PyLib, s: Settings, other: string)
    ensures Parse(lib, "").DecodeError?
    ensures s.requireJson ==> Judge(lib, s, "", other) == InvalidJson
  {
  }

  lemma SameStripSameResult(lib: PyLib, s: Settings, a: string, b: string, other: string)
    requires StripCodeFence(a) == StripCodeFence(b)
    ensures Evaluation(lib, s, a, other) == Evaluation(lib, s, b, other)
    ensures Evaluation(lib, s, other, a) == Evaluation(lib, s, other, b)
  {
    assert Parse(lib, a) == Parse(lib, b);
  }

  /** Fencing what a side says, on both sides or on one, never changes the result. */
  lemma FencesDoNotMatter(lib: PyLib, s: Settings, a: string, b: string)
    ensures Evaluation(lib, s, Wrap(StripCodeFence(a)), b) == Evaluation(lib, s, a, b)
    ensures Evaluation(lib, s, a, Wrap(StripCodeFence(b))) == Evaluation(lib, s, a, b)
  {
    WrapAfterStrip(a);
    WrapAfterStrip(b);
    SameStripSameResult(lib, s, Wrap(StripCodeFence(a)), a, b);
    SameStripSameResult(lib, s, Wrap(StripCodeFence(b)), b, a);
  }

  /** For a trimmed text that is not fenced yet, the fence can be put around the text itself. */
  lemma WrappingKeepsResult(lib: PyLib, s: Settings, a: string, b: string)
    requires Trimmed(a) && !Fenced(a)
    ensures Evaluation(lib, s, Wrap(a), b) == Evaluation(lib, s, a, b)
    ensures Evaluation(lib, s, b, Wrap(a)) == Evaluation(lib, s, b, a)
  {
    WrapIsNeutralIff(a);
    SameStripSameResult(lib, s, Wrap(a), a, b);
  }

  /** A second fence spoils a text: its inner fence is then read as JSON, which no decoder accepts. */
  lemma DoubleFenceIsInvalid(lib: PyLib, s: Settings, a: string, b: string)
    requires Trimmed(a) && Fenced(a) && s.requireJson && lib.loads(a).DecodeError?
    ensures Judge(lib, s, Wrap(a), b) == InvalidJson && Judge(lib, s, b, Wrap(a)) == InvalidJson
  {
    StripInvertsWrap(a);
  }
}
