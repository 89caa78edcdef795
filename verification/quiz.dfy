/**
 * The quiz route of src/routes/quiz.js: the request defaults, and the
 * sanitising of the question the language model returns before it is sent.
 *
 * The model call, the id generator and `suggestDifficulty` are parameters:
 * `generated` is what the call produced, `uuid` the generated id and
 * `suggest` the difficulty suggested for an Elo rating.
 */
module Quiz {
  import opened Wrappers
  import opened Text
  import opened Js

  // ----- request defaults -----

  /** What the handler reads from the request body. */
  datatype Params = Params(elo: Value, streak: Value, countToday: Value)

  /** A destructuring default: it replaces `undefined` only, never `null` or other falsy values. */
  function Default(v: Value, d: real): (r: Value)
    ensures v.Undefined? ==> r == Num(Finite(d))
    ensures !v.Undefined? ==> r == v
  {
    if v.Undefined? then Num(Finite(d)) else v
  }

  /** `{ elo = 1200, streak = 0, countToday = 0 } = req.body || {}`. */
  function RequestParams(body: Value): (p: Params)
    ensures p.elo == Default(Get(body, "elo"), 1200.0)
    ensures p.streak == Default(Get(body, "streak"), 0.0)
    ensures p.countToday == Default(Get(body, "countToday"), 0.0)
  {
    var b := if Truthy(body) then body else Obj(map[]);
    Params(Default(Get(b, "elo"), 1200.0), Default(Get(b, "streak"), 0.0), Default(Get(b, "countToday"), 0.0))
  }

  /** A missing body, or one without the three fields, reads as Elo 1200, streak 0 and nothing answered today. */
  lemma RequestDefaults(body: Value)
    requires !body.Obj? || ("elo" !in body.fields && "streak" !in body.fields && "countToday" !in body.fields)
    ensures RequestParams(body) == Params(Num(Finite(1200.0)), Num(Finite(0.0)), Num(Finite(0.0)))
  {
  }

  /** An explicit `null` is kept: the defaults stand in for absent fields only. */
  lemma NullIsKept(body: Value)
    requires body.Obj? && "elo" in body.fields && body.fields["elo"].Null?
    ensures RequestParams(body).elo == Null
  {
  }

  // ----- the answer index -----

  /** `Math.min(a, b)` on doubles: NaN if either is NaN. */
  function Min(a: Number, b: Number): (r: Number)
    ensures (a.NaN? || b.NaN?) <==> r.NaN?
  {
    if a.NaN? || b.NaN? then NaN
    else if a.NegInf? || b.PosInf? then a
    else if b.NegInf? || a.PosInf? then b
    else if a.r <= b.r then a else b
  }

  /** `Math.max(a, b)` on doubles: NaN if either is NaN. */
  function Max(a: Number, b: Number): (r: Number)
    ensures (a.NaN? || b.NaN?) <==> r.NaN?
  {
    if a.NaN? || b.NaN? then NaN
    else if a.PosInf? || b.NegInf? then a
    else if b.PosInf? || a.NegInf? then b
    else if a.r >= b.r then a else b
  }

  /** `Math.max(0, Math.min(3, n))`, as written. */
  function ClampIndexAsWritten(n: Number): (r: Number)
    ensures !n.NaN? ==> r.Finite? && 0.0 <= r.r <= 3.0
    ensures n.NaN? ==> r.NaN?
  {
    Max(Finite(0.0), Min(Finite(3.0), n))
  }

  /** The clamp with NaN sent to 0, so that the index always lies in [0, 3]. */
  function ClampIndex(n: Number): (r: Number)
    ensures r.Finite? && 0.0 <= r.r <= 3.0
    ensures n.Finite? && 0.0 <= n.r <= 3.0 ==> r == n
    ensures n.NaN? ==> r == Finite(0.0)
  {
    if n.NaN? then Finite(0.0) else ClampIndexAsWritten(n)
  }

  /** The two clamps differ on NaN only. */
  lemma ClampIndexAgrees(n: Number)
    ensures !n.NaN? ==> ClampIndex(n) == ClampIndexAsWritten(n)
    ensures n.NaN? ==> ClampIndexAsWritten(n).NaN? && ClampIndex(n) == Finite(0.0)
  {
  }

  /** A numeric index is clamped to the nearest end of [0, 3]. */
  lemma ClampIndexEnds(x: real)
    ensures x <= 0.0 ==> ClampIndex(Finite(x)) == Finite(0.0)
    ensures x >= 3.0 ==> ClampIndex(Finite(x)) == Finite(3.0)
    ensures ClampIndex(NegInf) == Finite(0.0) && ClampIndex(PosInf) == Finite(3.0)
  {
  }

  // ----- sanitising -----

  /** The fields sent back to the client. */
  datatype Safe = Safe(id: Value, question: string, choices: seq<string>, correctIndex: Number, explanation: string, difficulty: Number)

  /** The `choices` field: the first four entries of an array, each converted to a string; `[]` for anything else. */
  function Choices(v: Value, numStr: Number -> string): (r: seq<string>)
    ensures |r| <= 4
    ensures !v.Arr? ==> r == []
    ensures v.Arr? ==> |r| == if |v.elems| < 4 then |v.elems| else 4
    ensures v.Arr? ==> forall i :: 0 <= i < |r| ==> r[i] == ToString(v.elems[i], numStr)
  {
    if v.Arr? then
      var kept := if |v.elems| < 4 then v.elems else v.elems[..4];
      seq(|kept|, i requires 0 <= i < |kept| => ToString(kept[i], numStr))
    else []
  }

  /** The index as the handler computes it before clamping: `Number(item.correctIndex || 0)`. */
  function RawIndex(item: Value, strNum: string -> Number): (n: Number)
    ensures !Truthy(Get(item, "correctIndex")) ==> n == Finite(0.0)
    ensures Get(item, "correctIndex").Num? && Truthy(Get(item, "correctIndex")) ==> n == Get(item, "correctIndex").n
  {
    var c := Get(item, "correctIndex");
    ToNumber(if Truthy(c) then c else Num(Finite(0.0)), strNum)
  }

  /** The `id` field: the item's own id when it has a truthy one, else `q-` and a generated id; never falsy. */
  function IdOf(item: Value, uuid: string): (id: Value)
    ensures Truthy(id)
    ensures Truthy(Get(item, "id")) ==> id == Get(item, "id")
    ensures !Truthy(Get(item, "id")) ==> id == Str("q-" + uuid)
  {
    OrChain([Get(item, "id"), Str("q-" + uuid)])
  }

  /** The `question` field: the question's text trimmed, `""` when the item has none. */
  function QuestionOf(item: Value, numStr: Number -> string): (q: string)
    ensures q == [] || (!IsSpace(q[0]) && !IsSpace(q[|q| - 1]))
    ensures !Truthy(Get(item, "question")) ==> q == ""
    ensures Get(item, "question").Str? ==> q == Trim(Get(item, "question").s)
  {
    var v := OrChain([Get(item, "question"), Str("")]);
    assert !Truthy(Get(item, "question")) ==> v == Str("");
    Trim(ToString(v, numStr))
  }

  /** The `explanation` field: the explanation as a string, `""` when the item has none. */
  function ExplanationOf(item: Value, numStr: Number -> string): (e: string)
    ensures !Truthy(Get(item, "explanation")) ==> e == ""
    ensures Get(item, "explanation").Str? ==> e == Get(item, "explanation").s
  {
    ToString(OrChain([Get(item, "explanation"), Str("")]), numStr)
  }

  /** The `difficulty` field: the item's difficulty as a number, the suggested difficulty when it has none. */
  function DifficultyOf(item: Value, difficulty: Number, strNum: string -> Number): (d: Number)
    ensures !Truthy(Get(item, "difficulty")) ==> d == difficulty
    ensures Truthy(Get(item, "difficulty")) ==> d == ToNumber(Get(item, "difficulty"), strNum)
    ensures Get(item, "difficulty").Num? && Truthy(Get(item, "difficulty")) ==> d == Get(item, "difficulty").n
  {
    ToNumber(OrChain([Get(item, "difficulty"), Num(difficulty)]), strNum)
  }

  /**
   * The `safe` object, as written: a truthy id, the trimmed question, at most
   * four string choices, the index clamped with `ClampIndexAsWritten` (NaN
   * when it does not convert to a number), the explanation and the difficulty.
   */
  function Sanitize(item: Value, uuid: string, difficulty: Number, strNum: string -> Number, numStr: Number -> string): (s: Safe)
    ensures Truthy(s.id)
    ensures |s.choices| <= 4
    ensures !RawIndex(item, strNum).NaN? ==> s.correctIndex.Finite? && 0.0 <= s.correctIndex.r <= 3.0
    ensures RawIndex(item, strNum).NaN? ==> s.correctIndex.NaN?
    ensures RawIndex(item, strNum).Finite? && 0.0 <= RawIndex(item, strNum).r <= 3.0 ==> s.correctIndex == RawIndex(item, strNum)
  {
    Safe(IdOf(item, uuid), QuestionOf(item, numStr), Choices(Get(item, "choices"), numStr),
         ClampIndexAsWritten(RawIndex(item, strNum)), ExplanationOf(item, numStr), DifficultyOf(item, difficulty, strNum))
  }

  /**
   * The corrected `safe` object: the same fields, with the index clamped by
   * `ClampIndex`, so that it always lies in [0, 3].
   */
  function SanitizeFixed(item: Value, uuid: string, difficulty: Number, strNum: string -> Number, numStr: Number -> string): (s: Safe)
    ensures s.correctIndex.Finite? && 0.0 <= s.correctIndex.r <= 3.0
    ensures var w := Sanitize(item, uuid, difficulty, strNum, numStr);
      s.(correctIndex := w.correctIndex) == w
    ensures !RawIndex(item, strNum).NaN? ==> s == Sanitize(item, uuid, difficulty, strNum, numStr)
  {
    ClampIndexAgrees(RawIndex(item, strNum));
    Sanitize(item, uuid, difficulty, strNum, numStr).(correctIndex := ClampIndex(RawIndex(item, strNum)))
  }

  /** The gate: a question with no text or with fewer than three choices is refused. */
  predicate Bad(s: Safe) {
    s.question == "" || |s.choices| < 3
  }

  // ----- the handler -----

  datatype Response =
    | Item(safe: Safe)
    | BadQuestion(raw: Value)
    | QuizFailed(detail: string)
  {
    function Status(): nat {
      if Item? then 200 else 500
    }
  }

  /**
   * `POST /quiz`: the model's item, sanitised, when it passes the gate; 500
   * `bad_question` with the raw item when it does not; 500 `quiz_failed` when
   * the model call fails, or when it yields `null` or `undefined` (reading
   * `item.id` throws).
   */
  function Handle(body: Value, generated: Result<Value, string>, uuid: string, suggest: Number -> Number,
                  strNum: string -> Number, numStr: Number -> string): (r: Response)
    ensures generated.Err? ==> r == QuizFailed(generated.error)
    ensures generated.Ok? && Nullish(generated.value) ==> r.QuizFailed?
    ensures r.Item? ==> (generated.Ok? && !Bad(r.safe)
      && r.safe == Sanitize(generated.value, uuid, suggest(ToNumber(RequestParams(body).elo, strNum)), strNum, numStr))
    ensures r.BadQuestion? ==> (generated.Ok? && r.raw == generated.value
      && Bad(Sanitize(generated.value, uuid, suggest(ToNumber(RequestParams(body).elo, strNum)), strNum, numStr)))
    ensures generated.Ok? && !Nullish(generated.value) ==> r.Item? || r.BadQuestion?
  {
    var difficulty := suggest(ToNumber(RequestParams(body).elo, strNum));
    match generated
    case Err(message) => QuizFailed(message)
    case Ok(item) =>
      if Nullish(item) then
        QuizFailed("Cannot read properties of " + (if item.Null? then "null" else "undefined") + " (reading 'id')")
      else
        var safe := Sanitize(item, uuid, difficulty, strNum, numStr);
        if Bad(safe) then BadQuestion(item) else Item(safe)
  }

  /**
   * Whatever the model returns, a question that is sent carries text and
   * three or four choices; its index lies in [0, 3] unless the item's index
   * does not convert to a number, in which case it is NaN.
   */
  lemma SentItemIsWellFormed(body: Value, generated: Result<Value, string>, uuid: string, suggest: Number -> Number,
                             strNum: string -> Number, numStr: Number -> string)
    ensures var r := Handle(body, generated, uuid, suggest, strNum, numStr);
      r.Item? ==> && r.safe.question != "" && 3 <= |r.safe.choices| <= 4
                  && (!RawIndex(generated.value, strNum).NaN? ==> r.safe.correctIndex.Finite? && 0.0 <= r.safe.correctIndex.r <= 3.0)
                  && (RawIndex(generated.value, strNum).NaN? ==> r.safe.correctIndex.NaN?)
  {
    var r := Handle(body, generated, uuid, suggest, strNum, numStr);
    if r.Item? {
      var s := r.safe;
      assert s == Sanitize(generated.value, uuid, suggest(ToNumber(RequestParams(body).elo, strNum)), strNum, numStr);
      assert !Bad(s);
    }
  }

  /**
   * The gate admits three choices while the clamp admits index 3: an item
   * with a question, three choices and index 3 is sent, its index naming no
   * choice.
   */
  lemma IndexPastThreeChoices(item: Value, uuid: string, difficulty: Number, strNum: string -> Number, numStr: Number -> string)
    requires item.Obj?
    requires "question" in item.fields && item.fields["question"].Str? && Trim(item.fields["question"].s) != ""
    requires "choices" in item.fields && item.fields["choices"].Arr? && |item.fields["choices"].elems| == 3
    requires "correctIndex" in item.fields && item.fields["correctIndex"] == Num(Finite(3.0))
    ensures var s := Sanitize(item, uuid, difficulty, strNum, numStr);
      !Bad(s) && |s.choices| == 3 && s.correctIndex == Finite(3.0)
  {
    assert Get(item, "question") == item.fields["question"];
    assert Get(item, "choices") == item.fields["choices"];
    assert RawIndex(item, strNum) == Finite(3.0);
  }

  /** A question with text and four or more choices passes the gate, whatever the item's other fields. */
  lemma FullItemPasses(item: Value, uuid: string, difficulty: Number, strNum: string -> Number, numStr: Number -> string)
    requires item.Obj?
    requires "question" in item.fields && item.fields["question"].Str?
    requires Trim(item.fields["question"].s) != ""
    requires "choices" in item.fields && item.fields["choices"].Arr? && |item.fields["choices"].elems| >= 4
    ensures var s := Sanitize(item, uuid, difficulty, strNum, numStr);
      !Bad(s) && |s.choices| == 4
  {
    assert Get(item, "question") == item.fields["question"];
    assert Get(item, "choices") == item.fields["choices"];
  }

  /**
   * As written, a well-formed question whose index is an object is sent with
   * a NaN index, which JSON prints as `null`; the corrected sanitiser sends
   * index 0.
   */
  lemma NaNIndexSent(fields: map<string, Value>, body: Value, uuid: string, suggest: Number -> Number,
                     strNum: string -> Number, numStr: Number -> string)
    requires "question" in fields && fields["question"].Str? && Trim(fields["question"].s) != ""
    requires "choices" in fields && fields["choices"].Arr? && |fields["choices"].elems| >= 4
    requires "correctIndex" in fields && fields["correctIndex"] == Obj(map[])
    ensures var r := Handle(body, Ok(Obj(fields)), uuid, suggest, strNum, numStr);
      r.Item? && r.safe.correctIndex.NaN?
    ensures SanitizeFixed(Obj(fields), uuid, suggest(ToNumber(RequestParams(body).elo, strNum)), strNum, numStr).correctIndex
      == Finite(0.0)
  {
    var item := Obj(fields);
    var difficulty := suggest(ToNumber(RequestParams(body).elo, strNum));
    FullItemPasses(item, uuid, difficulty, strNum, numStr);
    NaNIndexEscapes(fields, strNum);
    ClampIndexAgrees(RawIndex(item, strNum));
  }

  /**
   * As written, an index that does not convert to a number (here an object)
   * escapes the clamp: the sanitised index is NaN, which JSON sends as `null`.
   */
  lemma NaNIndexEscapes(fields: map<string, Value>, strNum: string -> Number)
    requires "correctIndex" in fields && fields["correctIndex"] == Obj(map[])
    ensures RawIndex(Obj(fields), strNum) == NaN
    ensures ClampIndexAsWritten(RawIndex(Obj(fields), strNum)).NaN?
    ensures ClampIndex(RawIndex(Obj(fields), strNum)) == Finite(0.0)
  {
  }
}
