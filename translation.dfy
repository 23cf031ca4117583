/**
 * The translation component: the reference pairs the page collects, the
 * cache key of a translation, the request body, and what `translateText`
 * does with the cache and the translation counter.
 *
 * The form on the page is a value (`Form`); the response of the call
 * through the request queue is a parameter. The 500 ms debounce is not
 * modelled: the delayed part of `translateText` runs right away.
 */
module Translation {

  import opened Json
  import opened Text
  import opened ApiCaching
  import Backend

  /** One reference row of the page: the raw text of its source box and of its target box. */
  datatype Row = Row(source: string, target: string)

  datatype ReferencePair = ReferencePair(source: string, target: string)

  // ---------------------------------------------------------------------
  // collectReferencePairs
  // ---------------------------------------------------------------------

  predicate IsValidRow(row: Row) {
    Trim(row.source) != "" && Trim(row.target) != ""
  }

  function TrimmedPair(row: Row): ReferencePair {
    ReferencePair(Trim(row.source), Trim(row.target))
  }

  /** The pairs kept from `rows`, in row order: both sides trimmed, both non-empty. */
  function ValidPairs(rows: seq<Row>): seq<ReferencePair>
    decreases |rows|
  {
    if rows == [] then []
    else
      var last := rows[|rows| - 1];
      ValidPairs(rows[..|rows| - 1]) + (if IsValidRow(last) then [TrimmedPair(last)] else [])
  }

  /** The index loop of `collectReferencePairs`, pushing each valid pair. */
  method CollectReferencePairs(rows: seq<Row>) returns (pairs: seq<ReferencePair>)
    ensures pairs == ValidPairs(rows)
  {
    pairs := [];
    for i := 0 to |rows|
      invariant pairs == ValidPairs(rows[..i])
    {
      assert rows[..i + 1][..i] == rows[..i];
      var source := Trim(rows[i].source);
      var target := Trim(rows[i].target);
      if source != "" && target != "" {
        pairs := pairs + [ReferencePair(source, target)];
      }
    }
    assert rows[..|rows|] == rows;
  }

  /** Each row is judged on its own: filtering a concatenation concatenates the filtered parts. */
  lemma {:induction false} ValidPairsAppend(a: seq<Row>, b: seq<Row>)
    ensures ValidPairs(a + b) == ValidPairs(a) + ValidPairs(b)
    decreases |b|
  {
    if b == [] {
      assert a + b == a;
    } else {
      var init := b[..|b| - 1];
      assert (a + b)[..|a + b| - 1] == a + init;
      assert (a + b)[|a + b| - 1] == b[|b| - 1];
      ValidPairsAppend(a, init);
    }
  }

  /** What the last row adds to the pairs of the rows before it. */
  function LastPair(rows: seq<Row>): seq<ReferencePair>
    requires rows != []
  {
    if IsValidRow(rows[|rows| - 1]) then [TrimmedPair(rows[|rows| - 1])] else []
  }

  lemma ValidPairsUnfold(rows: seq<Row>)
    requires rows != []
    ensures ValidPairs(rows) == ValidPairs(rows[..|rows| - 1]) + LastPair(rows)
  {
  }

  /** A trimmed side is non-empty only if its row is valid. */
  lemma TrimmedPairIsClean(row: Row)
    requires IsValidRow(row)
    ensures var p := TrimmedPair(row);
      p.source != "" && p.target != "" && IsTrimmed(p.source) && IsTrimmed(p.target)
  {
  }

  /** Every kept pair is trimmed and non-empty, and no more pairs are kept than there are rows. */
  lemma {:induction false} ValidPairsAreClean(rows: seq<Row>)
    ensures |ValidPairs(rows)| <= |rows|
    ensures forall k :: 0 <= k < |ValidPairs(rows)| ==>
      var p := ValidPairs(rows)[k];
      p.source != "" && p.target != "" && IsTrimmed(p.source) && IsTrimmed(p.target)
    decreases |rows|
  {
    if rows != [] {
      var init := rows[..|rows| - 1];
      ValidPairsAreClean(init);
      ValidPairsUnfold(rows);
      if IsValidRow(rows[|rows| - 1]) {
        TrimmedPairIsClean(rows[|rows| - 1]);
      }
    }
  }

  /**
   * A single row gives its trimmed pair exactly when both trimmed sides are
   * non-empty; with `ValidPairsAppend` this fixes the fate and the position
   * of every row.
   */
  lemma ValidPairsOfOne(row: Row)
    ensures ValidPairs([row]) == (if IsValidRow(row) then [TrimmedPair(row)] else [])
    ensures ValidPairs([row]) != [] <==> Trim(row.source) != "" && Trim(row.target) != ""
  {
    assert [row][..0] == [];
  }

  // ---------------------------------------------------------------------
  // The form and the request body
  // ---------------------------------------------------------------------

  /** The inputs `translateText` reads from the page. */
  datatype Form = Form(
    sourceLanguage: string,
    targetLanguage: string,
    sourceText: string,
    useIndex: bool,
    apiDomain: string,
    useReferences: bool,
    rows: seq<Row>)

  /** The text to translate, trimmed. */
  function SourceText(f: Form): string {
    Trim(f.sourceText)
  }

  /** The index the key names: the selected domain with the switch on, nothing otherwise. */
  function Domain(f: Form): string {
    if f.useIndex then f.apiDomain else ""
  }

  /** The pairs the request uses: the valid ones with the switch on, none otherwise. */
  function References(f: Form): seq<ReferencePair> {
    if f.useReferences then ValidPairs(f.rows) else []
  }

  function PairJson(p: ReferencePair): Json {
    JObj(map["Source" := JStr(p.source), "Target" := JStr(p.target)])
  }

  /**
   * The single target of the body. `JSON.stringify` drops an undefined
   * deployment name; the dataset id and the pairs are added only when set.
   */
  function TargetJson(target: string, domain: string, refs: seq<ReferencePair>, deployment: Option<Json>): Json {
    var base := map[
      "Language" := JStr(target), "Script" := JStr(""),
      "ProfanityAction" := JStr("NoAction"), "ProfanityMarker" := JStr("Asterisk"),
      "AllowFallback" := JBool(true), "Grade" := JStr("basic"),
      "Tone" := JStr("informal"), "Gender" := JStr("neutral")];
    var withDeployment := if deployment.Some? then base["DeploymentName" := deployment.value] else base;
    var withIndex := if domain != "" then withDeployment["AdaptiveDatasetId" := JStr(domain)] else withDeployment;
    var withPairs := if refs != [] then withIndex["ReferenceTextPairs" := JArr(seq(|refs|, i requires 0 <= i < |refs| => PairJson(refs[i])))] else withIndex;
    JObj(withPairs)
  }

  function BodyOf(source: string, target: string, text: string, domain: string, refs: seq<ReferencePair>, deployment: Option<Json>): Json {
    JArr([JObj(map[
      "Text" := JStr(text), "Script" := JStr(""), "Language" := JStr(source),
      "TextType" := JStr("Plain"),
      "Targets" := JArr([TargetJson(target, domain, refs, deployment)])])])
  }

  /** The body posted to `/api/translate`. */
  function Body(f: Form, deployment: Option<Json>): Json {
    BodyOf(f.sourceLanguage, f.targetLanguage, SourceText(f), Domain(f), References(f), deployment)
  }

  /** The optional fields of the target are there exactly when they are set. */
  lemma TargetOptionalFields(target: string, domain: string, refs: seq<ReferencePair>, deployment: Option<Json>)
    ensures var t := TargetJson(target, domain, refs, deployment).fields;
      && ("AdaptiveDatasetId" in t <==> domain != "")
      && (domain != "" ==> t["AdaptiveDatasetId"] == JStr(domain))
      && ("ReferenceTextPairs" in t <==> refs != [])
      && ("DeploymentName" in t <==> deployment.Some?)
      && t["Language"] == JStr(target)
  {
  }

  /** The target of the body carries a dataset id, and reference pairs, exactly when the form asks for them. */
  lemma BodyOptionalFields(f: Form, deployment: Option<Json>)
    ensures var t := Body(f, deployment).items[0].fields["Targets"].items[0].fields;
      && ("AdaptiveDatasetId" in t <==> f.useIndex && f.apiDomain != "")
      && (f.useIndex && f.apiDomain != "" ==> t["AdaptiveDatasetId"] == JStr(f.apiDomain))
      && ("ReferenceTextPairs" in t <==> f.useReferences && ValidPairs(f.rows) != [])
      && ("DeploymentName" in t <==> deployment.Some?)
  {
    TargetOptionalFields(f.targetLanguage, Domain(f), References(f), deployment);
  }

  // ---------------------------------------------------------------------
  // The cache key
  // ---------------------------------------------------------------------

  function PairTexts(pairs: seq<ReferencePair>): seq<string> {
    seq(|pairs|, i requires 0 <= i < |pairs| => pairs[i].source + ":" + pairs[i].target)
  }

  /**
   * The key as the page builds it:
   * `translate|source|target|text|domain|Source:Target|...`, with no
   * escaping of the parts.
   */
  function CacheKey(f: Form): (r: string)
    ensures r == "translate|" + Join([f.sourceLanguage, f.targetLanguage, SourceText(f), Domain(f),
                                      Join(PairTexts(References(f)), "|")], "|")
  {
    JoinOfFive(f.sourceLanguage, f.targetLanguage, SourceText(f), Domain(f), Join(PairTexts(References(f)), "|"), "|");
    "translate|" + f.sourceLanguage + "|" + f.targetLanguage + "|" + SourceText(f)
      + "|" + Domain(f) + "|" + Join(PairTexts(References(f)), "|")
  }

  /**
   * The domain is not part of the key while the index switch is off, nor the
   * rows while references are off; texts with the same trim give the same key.
   */
  lemma CacheKeyIgnoresUnusedInputs(f: Form, otherDomain: string, otherRows: seq<Row>, otherText: string)
    ensures !f.useIndex ==> CacheKey(f.(apiDomain := otherDomain)) == CacheKey(f)
    ensures !f.useReferences ==> CacheKey(f.(rows := otherRows)) == CacheKey(f)
    ensures Trim(f.sourceText) == Trim(otherText) ==> CacheKey(f.(sourceText := otherText)) == CacheKey(f)
  {
  }

  /** The pair part of the key lists the pairs in order, each as `source:target`, one '|' between two. */
  lemma PairPartAppend(ps: seq<ReferencePair>, p: ReferencePair)
    requires ps != []
    ensures Join(PairTexts(ps + [p]), "|") == Join(PairTexts(ps), "|") + "|" + p.source + ":" + p.target
  {
    assert PairTexts(ps + [p]) == PairTexts(ps) + [p.source + ":" + p.target];
    JoinAppend(PairTexts(ps), p.source + ":" + p.target, "|");
  }

  /** A form whose single reference row is valid uses exactly that row's trimmed pair. */
  lemma OneRowReferences(f: Form)
    requires f.useReferences && |f.rows| == 1 && IsValidRow(f.rows[0])
    ensures References(f) == [TrimmedPair(f.rows[0])]
  {
    ValidPairsOfOne(f.rows[0]);
    assert f.rows == [f.rows[0]];
  }

  /** Forms that differ only in a single pair whose joined text is the same share a key. */
  lemma SameJoinedPairSameKey(f: Form, g: Form, p: ReferencePair, q: ReferencePair)
    requires f.sourceLanguage == g.sourceLanguage && f.targetLanguage == g.targetLanguage
    requires SourceText(f) == SourceText(g) && Domain(f) == Domain(g)
    requires References(f) == [p] && References(g) == [q]
    requires p.source + ":" + p.target == q.source + ":" + q.target
    ensures CacheKey(f) == CacheKey(g)
  {
    assert PairTexts([p]) == [p.source + ":" + p.target];
    assert PairTexts([q]) == [q.source + ":" + q.target];
  }

  /** The body of a form that uses reference pairs lists them. */
  lemma BodyListsPairs(f: Form)
    requires References(f) != []
    ensures var refs := References(f);
      Body(f, None).items[0].fields["Targets"].items[0].fields["ReferenceTextPairs"]
        == JArr(seq(|refs|, i requires 0 <= i < |refs| => PairJson(refs[i])))
  {
  }

  const CollidingFirst: Form := Form("en", "de", "hi", false, "", true, [Row("a:b", "c")])
  const CollidingSecond: Form := Form("en", "de", "hi", false, "", true, [Row("a", "b:c")])

  lemma CollidingKeys()
    ensures CacheKey(CollidingFirst) == CacheKey(CollidingSecond)
  {
    TrimOfPlainWord("a:b");
    TrimOfPlainWord("c");
    TrimOfPlainWord("a");
    TrimOfPlainWord("b:c");
    OneRowReferences(CollidingFirst);
    OneRowReferences(CollidingSecond);
    assert "a:b" + ":" + "c" == "a" + ":" + "b:c";
    SameJoinedPairSameKey(CollidingFirst, CollidingSecond, ReferencePair("a:b", "c"), ReferencePair("a", "b:c"));
  }

  /** The one pair of a form is echoed as the first entry of the body's pair list. */
  lemma PairInBody(f: Form, p: ReferencePair)
    requires References(f) == [p]
    ensures Body(f, None).items[0].fields["Targets"].items[0].fields["ReferenceTextPairs"].items[0] == PairJson(p)
  {
    BodyListsPairs(f);
  }

  /** Forms whose single pairs have different sources send different bodies. */
  lemma DifferentPairsDifferentBodies(f: Form, g: Form, p: ReferencePair, q: ReferencePair)
    requires References(f) == [p] && References(g) == [q] && p.source != q.source
    ensures Body(f, None) != Body(g, None)
  {
    PairInBody(f, p);
    PairInBody(g, q);
    assert PairJson(p).fields["Source"] != PairJson(q).fields["Source"];
  }

  lemma CollidingBodies()
    ensures Body(CollidingFirst, None) != Body(CollidingSecond, None)
  {
    TrimOfPlainWord("a:b");
    TrimOfPlainWord("c");
    TrimOfPlainWord("a");
    TrimOfPlainWord("b:c");
    OneRowReferences(CollidingFirst);
    OneRowReferences(CollidingSecond);
    DifferentPairsDifferentBodies(CollidingFirst, CollidingSecond, ReferencePair("a:b", "c"), ReferencePair("a", "b:c"));
  }

  /**
   * Two forms that ask for different translations can share a key: the
   * pairs carry no escaping, so ("a:b", "c") and ("a", "b:c") both read
   * "a:b:c".
   */
  lemma CacheKeyCollides()
    ensures CacheKey(CollidingFirst) == CacheKey(CollidingSecond)
    ensures Body(CollidingFirst, None) != Body(CollidingSecond, None)
  {
    CollidingKeys();
    CollidingBodies();
  }

  /** A backslash before every '|' and every backslash. */
  function Escape(s: string): string
    decreases |s|
  {
    if s == [] then []
    else (if s[0] == '|' || s[0] == '\\' then ['\\', s[0]] else [s[0]]) + Escape(s[1..])
  }

  /** Reads one escaped field up to its unescaped '|': the field and what follows the '|'. */
  function ReadField(t: string): (r: Option<(string, string)>)
    ensures r.Some? ==> |r.value.1| < |t|
    decreases |t|
  {
    if t == [] then None
    else if t[0] == '|' then Some(([], t[1..]))
    else if t[0] == '\\' && |t| >= 2 then
      match ReadField(t[2..])
      case None => None
      case Some(p) => Some(([t[1]] + p.0, p.1))
    else
      match ReadField(t[1..])
      case None => None
      case Some(p) => Some(([t[0]] + p.0, p.1))
  }

  lemma {:induction false} ReadEscaped(s: string, rest: string)
    ensures ReadField(Escape(s) + "|" + rest) == Some((s, rest))
    decreases |s|
  {
    if s == [] {
      assert Escape(s) + "|" + rest == ['|'] + rest;
    } else {
      ReadEscaped(s[1..], rest);
      var tail := Escape(s[1..]) + "|" + rest;
      var head := if s[0] == '|' || s[0] == '\\' then ['\\', s[0]] else [s[0]];
      assert Escape(s) + "|" + rest == head + tail;
      assert (head + tail)[|head|..] == tail;
      assert [s[0]] + s[1..] == s;
    }
  }

  /** Each field escaped and terminated by '|'. */
  function EncodeFields(fields: seq<string>): string
    decreases |fields|
  {
    if fields == [] then "" else Escape(fields[0]) + "|" + EncodeFields(fields[1..])
  }

  function DecodeFields(t: string): seq<string>
    decreases |t|
  {
    if t == [] then []
    else
      match ReadField(t)
      case None => []
      case Some(p) => [p.0] + DecodeFields(p.1)
  }

  lemma {:induction false} DecodeEncode(fields: seq<string>)
    ensures DecodeFields(EncodeFields(fields)) == fields
    decreases |fields|
  {
    if fields != [] {
      ReadEscaped(fields[0], EncodeFields(fields[1..]));
      DecodeEncode(fields[1..]);
    }
  }

  function PairFields(pairs: seq<ReferencePair>): seq<string>
    decreases |pairs|
  {
    if pairs == [] then [] else [pairs[0].source, pairs[0].target] + PairFields(pairs[1..])
  }

  function FieldPairs(fields: seq<string>): seq<ReferencePair>
    decreases |fields|
  {
    if |fields| < 2 then [] else [ReferencePair(fields[0], fields[1])] + FieldPairs(fields[2..])
  }

  lemma {:induction false} FieldPairsOfPairFields(pairs: seq<ReferencePair>)
    ensures FieldPairs(PairFields(pairs)) == pairs
    decreases |pairs|
  {
    if pairs != [] {
      FieldPairsOfPairFields(pairs[1..]);
      assert PairFields(pairs)[2..] == PairFields(pairs[1..]);
    }
  }

  function SafeKeyOf(source: string, target: string, text: string, domain: string, refs: seq<ReferencePair>): string {
    "translate|" + EncodeFields([source, target, text, domain] + PairFields(refs))
  }

  /** The key with every part escaped, so that it can be read back. */
  function SafeCacheKey(f: Form): string {
    SafeKeyOf(f.sourceLanguage, f.targetLanguage, SourceText(f), Domain(f), References(f))
  }

  /** Reading a safe key back gives every part that went into it. */
  lemma {:induction false} SafeKeyReadsBack(source: string, target: string, text: string, domain: string, refs: seq<ReferencePair>)
    ensures var fields := DecodeFields(SafeKeyOf(source, target, text, domain, refs)[10..]);
      && |fields| >= 4
      && fields[..4] == [source, target, text, domain]
      && FieldPairs(fields[4..]) == refs
  {
    var fields := [source, target, text, domain] + PairFields(refs);
    assert SafeKeyOf(source, target, text, domain, refs)[10..] == EncodeFields(fields);
    DecodeEncode(fields);
    assert fields[4..] == PairFields(refs);
    FieldPairsOfPairFields(refs);
  }

  /** Forms that share a safe key send the same body: a cached answer always answers the request made. */
  lemma {:induction false} SafeKeyDeterminesBody(f1: Form, f2: Form, deployment: Option<Json>)
    requires SafeCacheKey(f1) == SafeCacheKey(f2)
    ensures Body(f1, deployment) == Body(f2, deployment)
  {
    SafeKeyReadsBack(f1.sourceLanguage, f1.targetLanguage, SourceText(f1), Domain(f1), References(f1));
    SafeKeyReadsBack(f2.sourceLanguage, f2.targetLanguage, SourceText(f2), Domain(f2), References(f2));
  }

  // ---------------------------------------------------------------------
  // The response
  // ---------------------------------------------------------------------

  /** What the call through the request queue yields: a response, or a rejection (network failure, abort). */
  datatype TranslateResponse =
    | Answered(ok: bool, status: int, text: string, json: Option<Json>)
    | Unreachable

  /** `v[0]` in JavaScript; None is `undefined`. */
  function JsFirst(v: Json): Option<Json> {
    match v
    case JArr(items) => if items != [] then Some(items[0]) else None
    case JObj(fields) => if "0" in fields then Some(fields["0"]) else None
    case JStr(s) => if s != "" then Some(JStr([s[0]])) else None
    case _ => None
  }

  /** `v.name` for a name that is no built-in property of arrays and strings. */
  function JsProp(v: Json, name: string): Option<Json> {
    if v.JObj? && name in v.fields then Some(v.fields[name]) else None
  }

  predicate Truthy(v: Option<Json>) {
    v.Some? && JsTruthy(v.value)
  }

  /**
   * `result[0].translations[0].text` when every step of the guard is
   * truthy; None when the code throws. An undefined `text` is kept as null:
   * both are falsy and a later cache read treats both as a miss.
   */
  function Translation(resp: TranslateResponse): (r: Option<Json>)
    ensures r.Some? ==> resp.Answered? && resp.ok && resp.json.Some?
    ensures r.Some? ==>
      var result := resp.json.value;
      && (result.JArr? || result.JObj?)
      && JsFirst(result).Some? && JsFirst(result).value.JObj?
      && "translations" in JsFirst(result).value.fields
      && var entry := JsFirst(JsFirst(result).value.fields["translations"]);
         && entry.Some? && JsTruthy(entry.value)
         && r.value == (if entry.value.JObj? && "text" in entry.value.fields then entry.value.fields["text"] else JNull)
  {
    if !resp.Answered? || !resp.ok || resp.json.None? then None
    else
      var result := resp.json.value;
      var first := JsFirst(result);
      if JsTruthy(result) && Truthy(first) && Truthy(JsProp(first.value, "translations"))
         && Truthy(JsFirst(JsProp(first.value, "translations").value))
      then
        var entry := JsFirst(JsProp(first.value, "translations").value).value;
        var text := JsProp(entry, "text");
        Some(if text.Some? then text.value else JNull)
      else None
  }

  /** The usual answer `[{translations: [{text: t}]}]` gives `t`. */
  lemma WellFormedAnswer(status: int, raw: string, t: string)
    ensures Translation(Answered(true, status, raw,
      Some(JArr([JObj(map["translations" := JArr([JObj(map["text" := JStr(t)])])])])))) == Some(JStr(t))
  {
  }

  /**
   * Any answer list whose first element is an object with a `translations`
   * list that starts with a truthy entry is accepted, whatever else the
   * list and the object hold; the result is that entry's `text`, or null.
   */
  lemma ListAnswerIsAccepted(status: int, raw: string, first: map<string, Json>, rest: seq<Json>,
                             entry: Json, more: seq<Json>)
    requires "translations" in first && first["translations"] == JArr([entry] + more)
    requires JsTruthy(entry)
    ensures Translation(Answered(true, status, raw, Some(JArr([JObj(first)] + rest))))
      == Some(if entry.JObj? && "text" in entry.fields then entry.fields["text"] else JNull)
  {
    assert ([JObj(first)] + rest)[0] == JObj(first);
    assert ([entry] + more)[0] == entry;
  }

  /** An error status, an empty list or a list without translations are all failures. */
  lemma MalformedAnswers(status: int, raw: string, v: Json)
    ensures Translation(Answered(false, status, raw, Some(v))) == None
    ensures Translation(Answered(true, status, raw, Some(JArr([])))) == None
    ensures Translation(Answered(true, status, raw, Some(JArr([JObj(map["translations" := JArr([])])])))) == None
    ensures Translation(Unreachable) == None
  {
  }

  // ---------------------------------------------------------------------
  // translateText
  // ---------------------------------------------------------------------

  datatype TranslateOutcome = NeedText | FromCache(text: Json) | Translated(text: Json) | Failed

  /** The outcome, the body sent (if any), the cache map afterwards and the translation count afterwards. */
  datatype TranslateResult = TranslateResult(outcome: TranslateOutcome, sent: Option<Json>, cache: map<string, Entry>, count: int)

  /**
   * `translateText` with the cache read and written under `key`. `now` is the
   * clock at the cache read and `savedAt` the clock at the cache write.
   */
  function TranslateUnder(
    key: string, data: map<string, Entry>, maxAge: int, count: int, f: Form,
    deployment: Option<Json>, now: int, savedAt: int, resp: TranslateResponse): TranslateResult
  {
    if SourceText(f) == "" then TranslateResult(NeedText, None, data, count)
    else
      var read := Lookup(data, key, now, maxAge);
      if read.result.Some? && JsTruthy(read.result.value) then
        TranslateResult(FromCache(read.result.value), None, read.remaining, count)
      else
        var sent := Some(Body(f, deployment));
        match Translation(resp)
        case Some(t) => TranslateResult(Translated(t), sent, Store(read.remaining, key, t, savedAt), count + 1)
        case None => TranslateResult(Failed, sent, read.remaining, count)
  }

  /** `translateText` as the page runs it, under the unescaped `CacheKey`. */
  function TranslateSpec(
    data: map<string, Entry>, maxAge: int, count: int, f: Form,
    deployment: Option<Json>, now: int, savedAt: int, resp: TranslateResponse): TranslateResult
  {
    TranslateUnder(CacheKey(f), data, maxAge, count, f, deployment, now, savedAt, resp)
  }

  /** `translateText` with the corrected, escaped key `SafeCacheKey`. */
  function SafeTranslateSpec(
    data: map<string, Entry>, maxAge: int, count: int, f: Form,
    deployment: Option<Json>, now: int, savedAt: int, resp: TranslateResponse): TranslateResult
  {
    TranslateUnder(SafeCacheKey(f), data, maxAge, count, f, deployment, now, savedAt, resp)
  }

  /** Whether `translateText` writes the cache, and with it local storage. */
  predicate Writes(r: TranslateResult) {
    r.outcome.Translated?
  }

  /** The part of `translateText` that reads the page: the trimmed text, the domain, the pairs and the key. */
  method ReadForm(f: Form) returns (text: string, domain: string, pairs: seq<ReferencePair>, key: string)
    ensures text == SourceText(f) && domain == Domain(f) && pairs == References(f)
    ensures key == CacheKey(f)
    ensures Body(f, None) == BodyOf(f.sourceLanguage, f.targetLanguage, text, domain, pairs, None)
  {
    pairs := [];
    if f.useReferences {
      pairs := CollectReferencePairs(f.rows);
    }
    var refPairs := Join(PairTexts(pairs), "|");
    text := Trim(f.sourceText);
    domain := if f.useIndex then f.apiDomain else "";
    key := "translate|" + f.sourceLanguage + "|" + f.targetLanguage + "|" + text + "|" + domain + "|" + refPairs;
  }

  class TranslationManager {
    var translationCount: int

    constructor ()
      ensures translationCount == 0
    {
      translationCount := 0;
    }

    method TranslateText(
      cache: ApiCache, f: Form, deployment: Option<Json>,
      now: int, savedAt: int, resp: TranslateResponse)
      returns (outcome: TranslateOutcome, sent: Option<Json>)
      modifies this`translationCount, cache`data, cache`mirror
      ensures var spec := TranslateSpec(old(cache.data), cache.maxAge, old(translationCount), f, deployment, now, savedAt, resp);
        && outcome == spec.outcome && sent == spec.sent
        && cache.data == spec.cache && translationCount == spec.count
        && cache.mirror == (if Writes(spec) then cache.data else old(cache.mirror))
    {
      var text, domain, pairs, key := ReadForm(f);
      if text == "" {
        return NeedText, None;
      }
      var cached := cache.Get(key, now);
      if cached.Some? && JsTruthy(cached.value) {
        return FromCache(cached.value), None;
      }
      sent := Some(BodyOf(f.sourceLanguage, f.targetLanguage, text, domain, pairs, deployment));
      var translation := Translation(resp);
      if translation.None? {
        return Failed, sent;
      }
      cache.Set(key, translation.value, savedAt);
      translationCount := translationCount + 1;
      outcome := Translated(translation.value);
    }
  }

  /** Blank text is refused before the cache is read or anything is sent. */
  lemma BlankTextSendsNothing(data: map<string, Entry>, maxAge: int, count: int, f: Form,
                              deployment: Option<Json>, now: int, savedAt: int, resp: TranslateResponse)
    requires forall i :: 0 <= i < |f.sourceText| ==> IsJsWhitespace(f.sourceText[i])
    ensures TranslateSpec(data, maxAge, count, f, deployment, now, savedAt, resp) == TranslateResult(NeedText, None, data, count)
  {
    TrimIsEmpty(f.sourceText);
  }

  /** A truthy cached answer is shown and nothing is sent; the count and the cache stay as they were. */
  lemma CacheHitSendsNothing(data: map<string, Entry>, maxAge: int, count: int, f: Form,
                             deployment: Option<Json>, now: int, savedAt: int, resp: TranslateResponse)
    requires SourceText(f) != ""
    requires CacheKey(f) in data && now - data[CacheKey(f)].timestamp <= maxAge
    requires JsTruthy(data[CacheKey(f)].value)
    ensures TranslateSpec(data, maxAge, count, f, deployment, now, savedAt, resp)
      == TranslateResult(FromCache(data[CacheKey(f)].value), None, data, count)
  {
  }

  /**
   * The count goes up by one exactly when a translation arrives, and then the
   * translation is stored under the key; otherwise the count is unchanged.
   */
  lemma CountFollowsSuccess(data: map<string, Entry>, maxAge: int, count: int, f: Form,
                            deployment: Option<Json>, now: int, savedAt: int, resp: TranslateResponse)
    ensures var r := TranslateSpec(data, maxAge, count, f, deployment, now, savedAt, resp);
      && (r.count == count + 1 <==> r.outcome.Translated?)
      && (r.count == count || r.count == count + 1)
      && (r.outcome.Translated? ==> r.cache[CacheKey(f)] == Entry(savedAt, r.outcome.text) && r.sent == Some(Body(f, deployment)))
      && (r.outcome.Failed? ==> r.cache.Keys <= data.Keys && r.sent.Some? && Translation(resp).None?)
  {
  }

  /**
   * After a form is translated, any form with the same key and a non-blank
   * text is answered from the cache within the window: the earlier text is
   * shown, nothing is sent and nothing is counted.
   */
  lemma SharedKeyServesEarlierAnswer(data: map<string, Entry>, maxAge: int, count: int, f: Form, g: Form,
                                     deployment: Option<Json>, now: int, savedAt: int, later: int,
                                     resp: TranslateResponse, resp2: TranslateResponse)
    requires TranslateSpec(data, maxAge, count, f, deployment, now, savedAt, resp).outcome.Translated?
    requires JsTruthy(TranslateSpec(data, maxAge, count, f, deployment, now, savedAt, resp).outcome.text)
    requires later - savedAt <= maxAge
    requires CacheKey(g) == CacheKey(f) && SourceText(g) != ""
    ensures var first := TranslateSpec(data, maxAge, count, f, deployment, now, savedAt, resp);
      var second := TranslateSpec(first.cache, maxAge, first.count, g, deployment, later, later, resp2);
      second == TranslateResult(FromCache(first.outcome.text), None, first.cache, count + 1)
  {
  }

  /** A translation repeated within the cache window is served from the cache and not counted again. */
  lemma RepeatIsServedFromCache(data: map<string, Entry>, maxAge: int, count: int, f: Form,
                                deployment: Option<Json>, now: int, savedAt: int, later: int,
                                resp: TranslateResponse, resp2: TranslateResponse)
    requires TranslateSpec(data, maxAge, count, f, deployment, now, savedAt, resp).outcome.Translated?
    requires JsTruthy(TranslateSpec(data, maxAge, count, f, deployment, now, savedAt, resp).outcome.text)
    requires later - savedAt <= maxAge
    ensures var first := TranslateSpec(data, maxAge, count, f, deployment, now, savedAt, resp);
      var second := TranslateSpec(first.cache, maxAge, first.count, f, deployment, later, later, resp2);
      second == TranslateResult(FromCache(first.outcome.text), None, first.cache, count + 1)
  {
    SharedKeyServesEarlierAnswer(data, maxAge, count, f, f, deployment, now, savedAt, later, resp, resp2);
  }

  /**
   * As written: once `CollidingFirst` is translated, `CollidingSecond` is
   * answered with the first translation from the cache, although its body
   * asks for a different one; nothing is sent and the count stays.
   */
  lemma CollidingFormGetsWrongAnswer(data: map<string, Entry>, maxAge: int, count: int,
                                     deployment: Option<Json>, now: int, savedAt: int, later: int,
                                     resp: TranslateResponse, resp2: TranslateResponse)
    requires TranslateSpec(data, maxAge, count, CollidingFirst, deployment, now, savedAt, resp).outcome.Translated?
    requires JsTruthy(TranslateSpec(data, maxAge, count, CollidingFirst, deployment, now, savedAt, resp).outcome.text)
    requires later - savedAt <= maxAge
    ensures Body(CollidingSecond, None) != Body(CollidingFirst, None)
    ensures var first := TranslateSpec(data, maxAge, count, CollidingFirst, deployment, now, savedAt, resp);
      var second := TranslateSpec(first.cache, maxAge, first.count, CollidingSecond, deployment, later, later, resp2);
      second == TranslateResult(FromCache(first.outcome.text), None, first.cache, count + 1)
  {
    CacheKeyCollides();
    assert SourceText(CollidingSecond) == SourceText(CollidingFirst);
    SharedKeyServesEarlierAnswer(data, maxAge, count, CollidingFirst, CollidingSecond, deployment, now, savedAt, later, resp, resp2);
  }

  /**
   * With the escaped key, an answer that a translation of `f` put in the
   * cache is served to a form `g` only when `g` sends the same body as `f`.
   */
  lemma SafeHitAnswersSameRequest(data: map<string, Entry>, maxAge: int, count: int, f: Form, g: Form,
                                  deployment: Option<Json>, now: int, savedAt: int, later: int,
                                  resp: TranslateResponse, resp2: TranslateResponse)
    requires SafeCacheKey(g) !in data
    ensures var first := SafeTranslateSpec(data, maxAge, count, f, deployment, now, savedAt, resp);
      var second := SafeTranslateSpec(first.cache, maxAge, first.count, g, deployment, later, later, resp2);
      second.outcome.FromCache? ==>
        && first.outcome.Translated? && second.outcome.text == first.outcome.text
        && Body(g, deployment) == Body(f, deployment)
  {
    var first := SafeTranslateSpec(data, maxAge, count, f, deployment, now, savedAt, resp);
    var second := SafeTranslateSpec(first.cache, maxAge, first.count, g, deployment, later, later, resp2);
    if second.outcome.FromCache? {
      assert SafeCacheKey(g) in first.cache;
      assert SafeCacheKey(g) == SafeCacheKey(f);
      SafeKeyDeterminesBody(f, g, deployment);
    }
  }

  /** With the escaped key the two colliding forms have different keys. */
  lemma CollidingFormsHaveDifferentSafeKeys()
    ensures SafeCacheKey(CollidingFirst) != SafeCacheKey(CollidingSecond)
  {
    CollidingBodies();
    if SafeCacheKey(CollidingFirst) == SafeCacheKey(CollidingSecond) {
      SafeKeyDeterminesBody(CollidingFirst, CollidingSecond, None);
    }
  }

  /** From an empty cache, a form whose escaped key differs from the one translated before is sent. */
  lemma SafeKeyMissSends(maxAge: int, count: int, f: Form, g: Form, deployment: Option<Json>,
                         now: int, savedAt: int, later: int, resp: TranslateResponse, resp2: TranslateResponse)
    requires SafeCacheKey(f) != SafeCacheKey(g) && SourceText(g) != ""
    ensures var first := SafeTranslateSpec(map[], maxAge, count, f, deployment, now, savedAt, resp);
      var second := SafeTranslateSpec(first.cache, maxAge, first.count, g, deployment, later, later, resp2);
      second.sent == Some(Body(g, deployment))
  {
    var first := SafeTranslateSpec(map[], maxAge, count, f, deployment, now, savedAt, resp);
    assert first.cache.Keys <= {SafeCacheKey(f)};
  }

  /**
   * Corrected: starting from an empty cache, translating `CollidingFirst`
   * does not answer `CollidingSecond`, whose own body is sent.
   */
  lemma SafeKeySendsCollidingForm(maxAge: int, count: int, deployment: Option<Json>,
                                  now: int, savedAt: int, later: int,
                                  resp: TranslateResponse, resp2: TranslateResponse)
    ensures var first := SafeTranslateSpec(map[], maxAge, count, CollidingFirst, deployment, now, savedAt, resp);
      var second := SafeTranslateSpec(first.cache, maxAge, first.count, CollidingSecond, deployment, later, later, resp2);
      second.sent == Some(Body(CollidingSecond, deployment))
  {
    CollidingFormsHaveDifferentSafeKeys();
    TrimOfPlainWord("hi");
    SafeKeyMissSends(maxAge, count, CollidingFirst, CollidingSecond, deployment, now, savedAt, later, resp, resp2);
  }

  /** The query the page sends overrides the backend's language defaults and never asks for `options`. */
  lemma QueryReachesBackend(f: Form)
    ensures var p := Backend.TranslateParams(map["from" := f.sourceLanguage, "to" := f.targetLanguage]);
      && Backend.Param(p, "from") == Some(f.sourceLanguage)
      && Backend.Param(p, "to") == Some(f.targetLanguage)
      && Backend.Param(p, "texttype") == Some("Plain")
      && Backend.Param(p, "options").None?
  {
    Backend.TranslateParamsMeaning(map["from" := f.sourceLanguage, "to" := f.targetLanguage]);
  }
}
