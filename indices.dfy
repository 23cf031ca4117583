/**
 * The index component: loading a workspace's indexes through the API
 * client (with its own cache write), reading the document id the user
 * types, and the checks and payload of index creation.
 */
module Indices {

  import opened Json
  import opened Text
  import opened ApiCaching
  import Client
  import Backend

  // ---------------------------------------------------------------------
  // loadIndices
  // ---------------------------------------------------------------------

  function IndexKey(workspaceId: string): string {
    "indices_" + workspaceId
  }

  function IndexUrl(workspaceId: string): string {
    "/api/index?workspaceId=" + workspaceId
  }

  /** The options `loadIndices` passes to the client; the rest are the client's defaults. */
  function LoadConfig(workspaceId: string, forceRefresh: bool): Client.Config {
    Client.DefaultConfig.(cacheKey := Some(IndexKey(workspaceId)), retries := 1, timeout := 15000, forceRefresh := forceRefresh)
  }

  /**
   * The shape normalisation: a list is kept, `{indexes: [...]}` gives its
   * list, any other object is a single entry, and any other truthy value
   * gives no entries. None when the data is falsy: the list is emptied and
   * nothing is cached.
   */
  function NormalizeIndexData(data: Json): (r: Option<seq<Json>>)
    ensures r.None? <==> !JsTruthy(data)
    ensures data.JArr? ==> r == Some(data.items)
    ensures data.JObj? && "indexes" in data.fields && data.fields["indexes"].JArr? ==> r == Some(data.fields["indexes"].items)
    ensures data.JObj? && !("indexes" in data.fields && data.fields["indexes"].JArr?) ==> r == Some([data])
    ensures JsTruthy(data) && !data.JArr? && !data.JObj? ==> r == Some([])
  {
    if !JsTruthy(data) then None
    else if data.JArr? then Some(data.items)
    else if data.JObj? && "indexes" in data.fields && data.fields["indexes"].JArr? then Some(data.fields["indexes"].items)
    else if data.JObj? then Some([data])
    else Some([])
  }

  /** The list `loadIndices` caches normalises back to itself. */
  lemma NormalizeCachedList(indices: seq<Json>)
    ensures NormalizeIndexData(JArr(indices)) == Some(indices)
  {
  }

  /** What the page's state and the cache are after `loadIndices`, with the client's effects. */
  datatype LoadResult = LoadResult(indices: seq<Json>, cache: map<string, Entry>, effects: seq<Client.Effect>)

  /**
   * `loadIndices(workspaceId, forceRefresh)`. `readAt` and `writeAt` are the
   * clock at the client's cache read and write, `savedAt` the clock at the
   * component's own write; `envs` are the conditions of the attempts.
   */
  function LoadSpec(
    data: map<string, Entry>, maxAge: int, indices: seq<Json>,
    workspaceId: Option<string>, forceRefresh: bool, online: bool,
    readAt: int, writeAt: int, savedAt: int, envs: seq<Client.AttemptEnv>): LoadResult
    requires |envs| >= 2
  {
    if workspaceId.None? || workspaceId.value == "" then LoadResult(indices, data, [])
    else
      var id := workspaceId.value;
      var r := Client.RequestSpec(data, maxAge, IndexUrl(id), LoadConfig(id, forceRefresh), online, readAt, writeAt, envs);
      if r.outcome.NeverSettles? then LoadResult(indices, r.cache, r.effects)
      else
        var value := if r.outcome.Resolved? then r.outcome.data else JArr([]);
        match NormalizeIndexData(value)
        case None => LoadResult([], r.cache, r.effects)
        case Some(list) => LoadResult(list, Store(r.cache, IndexKey(id), JArr(list), savedAt), r.effects)
  }

  /**
   * Whether `loadIndices` writes the cache, and with it local storage: the
   * client's own write on success, or the component's write of the list.
   */
  predicate LoadWrites(
    data: map<string, Entry>, maxAge: int, workspaceId: Option<string>, forceRefresh: bool, online: bool,
    readAt: int, writeAt: int, envs: seq<Client.AttemptEnv>)
    requires |envs| >= 2
  {
    && workspaceId.Some? && workspaceId.value != ""
    && var id := workspaceId.value;
       var c := LoadConfig(id, forceRefresh);
       var r := Client.RequestSpec(data, maxAge, IndexUrl(id), c, online, readAt, writeAt, envs);
       || Client.RequestWrites(data, maxAge, IndexUrl(id), c, online, readAt, envs)
       || (!r.outcome.NeverSettles? && NormalizeIndexData(if r.outcome.Resolved? then r.outcome.data else JArr([])).Some?)
  }

  /** `null`, `NaN` or a number: the values `documentIdForIndex` can hold. */
  datatype IdValue = Null | NaN | Num(n: int)

  predicate IdTruthy(v: IdValue) {
    v.Num? && v.n != 0
  }

  class IndexManager {
    var indices: seq<Json>
    var documentIdForIndex: IdValue

    constructor ()
      ensures indices == [] && documentIdForIndex == Null
    {
      indices := [];
      documentIdForIndex := Null;
    }

    method LoadIndices(
      cache: ApiCache, workspaceId: Option<string>, forceRefresh: bool, online: bool,
      readAt: int, writeAt: int, savedAt: int, envs: seq<Client.AttemptEnv>)
      returns (effects: seq<Client.Effect>)
      requires |envs| >= 2
      modifies this`indices, cache`data, cache`mirror
      ensures var spec := LoadSpec(old(cache.data), cache.maxAge, old(indices), workspaceId, forceRefresh,
                                   online, readAt, writeAt, savedAt, envs);
        indices == spec.indices && cache.data == spec.cache && effects == spec.effects
      ensures cache.mirror == (if LoadWrites(old(cache.data), cache.maxAge, workspaceId, forceRefresh, online, readAt, writeAt, envs)
                               then cache.data else old(cache.mirror))
    {
      if workspaceId.None? || workspaceId.value == "" {
        return [];
      }
      var id := workspaceId.value;
      var outcome;
      outcome, effects := Client.Request(cache, IndexUrl(id), LoadConfig(id, forceRefresh), online, readAt, writeAt, envs);
      if outcome.NeverSettles? {
        return;
      }
      // a rejection is caught and turned into an empty list
      var data := if outcome.Resolved? then outcome.data else JArr([]);
      var normalized := NormalizeIndexData(data);
      if normalized.None? {
        indices := [];
        return;
      }
      indices := normalized.value;
      cache.Set(IndexKey(id), JArr(indices), savedAt);
    }

    /** The input handler of the document-id field. */
    method OnDocumentIdInput(val: string)
      modifies this`documentIdForIndex
      ensures documentIdForIndex == DocumentIdFromInput(val)
    {
      documentIdForIndex := DocumentIdFromInput(val);
    }

    /** `createIndex` up to the request it sends. */
    method CreateIndex(workspace: Option<string>, name: string, source: string, target: string)
      returns (r: CreateOutcome)
      ensures r == CreateIndexRequest(workspace, name, source, target, documentIdForIndex)
    {
      if workspace.None? {
        return NeedWorkspace;
      }
      if name == "" {
        return NeedName;
      }
      if !IdTruthy(documentIdForIndex) {
        return NeedDocumentId;
      }
      return Submit(workspace.value, IndexDetails(documentIdForIndex.n, name, source, target));
    }
  }

  /** Without a workspace id nothing happens: no request, no change. */
  lemma NoWorkspaceNoChange(data: map<string, Entry>, maxAge: int, indices: seq<Json>, forceRefresh: bool,
                            online: bool, readAt: int, writeAt: int, savedAt: int, envs: seq<Client.AttemptEnv>)
    requires |envs| >= 2
    ensures LoadSpec(data, maxAge, indices, None, forceRefresh, online, readAt, writeAt, savedAt, envs) == LoadResult(indices, data, [])
    ensures LoadSpec(data, maxAge, indices, Some(""), forceRefresh, online, readAt, writeAt, savedAt, envs) == LoadResult(indices, data, [])
  {
  }

  /** A failed load still leaves a list: empty, and cached under the workspace's key. */
  lemma FailureCachesEmptyList(data: map<string, Entry>, maxAge: int, indices: seq<Json>, id: string, forceRefresh: bool,
                               online: bool, readAt: int, writeAt: int, savedAt: int, envs: seq<Client.AttemptEnv>)
    requires |envs| >= 2 && id != ""
    requires Client.RequestSpec(data, maxAge, IndexUrl(id), LoadConfig(id, forceRefresh), online, readAt, writeAt, envs).outcome.Rejected?
    ensures var r := LoadSpec(data, maxAge, indices, Some(id), forceRefresh, online, readAt, writeAt, savedAt, envs);
      r.indices == [] && r.cache[IndexKey(id)] == Entry(savedAt, JArr([]))
  {
  }

  /**
   * Whatever the client cached under the same key, the normalised list
   * replaces it; falsy data empties the list and writes nothing more.
   */
  lemma NormalizedListOverwrites(data: map<string, Entry>, maxAge: int, indices: seq<Json>, id: string, forceRefresh: bool,
                                 online: bool, readAt: int, writeAt: int, savedAt: int, envs: seq<Client.AttemptEnv>)
    requires |envs| >= 2 && id != ""
    ensures var c := Client.RequestSpec(data, maxAge, IndexUrl(id), LoadConfig(id, forceRefresh), online, readAt, writeAt, envs);
      var r := LoadSpec(data, maxAge, indices, Some(id), forceRefresh, online, readAt, writeAt, savedAt, envs);
      && (c.outcome.Resolved? && JsTruthy(c.outcome.data) ==>
            && NormalizeIndexData(c.outcome.data) == Some(r.indices)
            && r.cache == c.cache[IndexKey(id) := Entry(savedAt, JArr(r.indices))])
      && (c.outcome.Resolved? && !JsTruthy(c.outcome.data) ==> r.indices == [] && r.cache == c.cache)
  {
  }

  /**
   * A second load within the cache window, not forced and online, is served
   * by the client from the list the first load cached, and yields that list.
   */
  lemma ReloadFromCacheIsStable(data: map<string, Entry>, maxAge: int, indices: seq<Json>, id: string,
                                list: seq<Json>, savedAt: int, later: int, writeAt: int, savedAgain: int,
                                online: bool, envs: seq<Client.AttemptEnv>)
    requires |envs| >= 2 && id != ""
    requires IndexKey(id) in data && data[IndexKey(id)] == Entry(savedAt, JArr(list))
    requires later - savedAt <= maxAge
    ensures var r := LoadSpec(data, maxAge, indices, Some(id), false, true, later, writeAt, savedAgain, envs);
      r.indices == list && r.effects == [] && r.cache == data[IndexKey(id) := Entry(savedAgain, JArr(list))]
  {
    var c := LoadConfig(id, false);
    assert Client.HasCacheKey(c);
    var read := Client.CacheRead(data, maxAge, c, later);
    assert read.result == Some(JArr(list));
    assert Client.Serves(read);
  }

  // ---------------------------------------------------------------------
  // The document-id input
  // ---------------------------------------------------------------------

  predicate IsDigit(c: char) {
    '0' <= c <= '9'
  }

  /** The length of the run of decimal digits at the start of `s`. */
  function DigitRun(s: string): (k: nat)
    ensures k <= |s|
    ensures forall i :: 0 <= i < k ==> IsDigit(s[i])
    ensures k < |s| ==> !IsDigit(s[k])
    decreases |s|
  {
    if s != [] && IsDigit(s[0]) then 1 + DigitRun(s[1..]) else 0
  }

  predicate AllIn(s: string, chars: set<char>)
    decreases |s|
  {
    s == [] || (s[0] in chars && AllIn(s[1..], chars))
  }

  /** `ExponentPart` of a decimal literal: `e` or `E`, an optional sign, and digits. */
  predicate IsExponent(s: string) {
    && |s| >= 2 && (s[0] == 'e' || s[0] == 'E')
    && var digits := if s[1] == '+' || s[1] == '-' then s[2..] else s[1..];
       digits != [] && DigitRun(digits) == |digits|
  }

  /**
   * `StrUnsignedDecimalLiteral`: `Infinity`, or digits with an optional
   * fraction, or a fraction alone, each with an optional exponent.
   */
  predicate IsUnsignedDecimal(s: string) {
    || s == "Infinity"
    || var whole := DigitRun(s);
       var rest := s[whole..];
       var hasDot := rest != [] && rest[0] == '.';
       var fraction := if hasDot then DigitRun(rest[1..]) else 0;
       var tail := if hasDot then rest[1 + fraction..] else rest;
       && (whole > 0 || fraction > 0)
       && (tail == [] || IsExponent(tail))
  }

  /** `0x`, `0o` or `0b` followed by at least one digit of that base; no sign. */
  predicate IsNonDecimalInteger(s: string) {
    && |s| >= 3 && s[0] == '0'
    && (|| ((s[1] == 'x' || s[1] == 'X') && AllIn(s[2..], set c | c in "0123456789abcdefABCDEF"))
        || ((s[1] == 'o' || s[1] == 'O') && AllIn(s[2..], set c | c in "01234567"))
        || ((s[1] == 'b' || s[1] == 'B') && AllIn(s[2..], set c | c in "01")))
  }

  /** `Number(s)` is not NaN: after trimming, empty or a numeric literal. */
  predicate IsNumericString(s: string) {
    var t := Trim(s);
    || t == []
    || IsNonDecimalInteger(t)
    || IsUnsignedDecimal(t)
    || (t != [] && (t[0] == '+' || t[0] == '-') && IsUnsignedDecimal(t[1..]))
  }

  /** The value of a string of decimal digits. */
  function DecimalValue(digits: string): (n: int)
    requires forall i :: 0 <= i < |digits| ==> IsDigit(digits[i])
    ensures n >= 0
    decreases |digits|
  {
    if digits == [] then 0
    else
      var d := digits[|digits| - 1] as int - '0' as int;
      assert IsDigit(digits[|digits| - 1]);
      10 * DecimalValue(digits[..|digits| - 1]) + d
  }

  /** `parseInt(s, 10)`: leading whitespace, an optional sign, then the longest run of digits. */
  function ParseInt10(s: string): (r: IdValue)
    ensures r != Null
  {
    var t := TrimStart(s);
    var negative := t != [] && t[0] == '-';
    var u := if t != [] && (t[0] == '-' || t[0] == '+') then t[1..] else t;
    var k := DigitRun(u);
    if k == 0 then NaN
    else
      var n: int := DecimalValue(u[..k]);
      Num(if negative then -n else n)
  }

  /** `val && !isNaN(val) ? parseInt(val, 10) : null`. */
  function DocumentIdFromInput(val: string): (r: IdValue)
    ensures r == Null <==> val == "" || !IsNumericString(val)
    ensures r != Null ==> r == ParseInt10(val)
  {
    if val != "" && IsNumericString(val) then ParseInt10(val) else Null
  }

  /** A non-empty run of digits is read as its decimal value. */
  lemma {:induction false} DigitsAreParsed(digits: string)
    requires digits != [] && forall i :: 0 <= i < |digits| ==> IsDigit(digits[i])
    ensures DocumentIdFromInput(digits) == Num(DecimalValue(digits))
  {
    assert !IsJsWhitespace(digits[0]) && !IsJsWhitespace(digits[|digits| - 1]);
    assert TrimStart(digits) == digits;
    assert TrimEnd(digits) == digits;
    RunOfDigits(digits);
    assert digits[DigitRun(digits)..] == [];
    assert digits[..|digits|] == digits;
  }

  lemma {:induction false} RunOfDigits(digits: string)
    requires forall i :: 0 <= i < |digits| ==> IsDigit(digits[i])
    ensures DigitRun(digits) == |digits|
    decreases |digits|
  {
    if digits != [] {
      RunOfDigits(digits[1..]);
    }
  }

  /** Inputs that `Number` rejects are no id at all. */
  lemma NonNumericIsNull()
    ensures DocumentIdFromInput("") == Null
    ensures DocumentIdFromInput("abc") == Null
  {
    assert TrimStart("abc") == "abc";
    assert TrimEnd("abc") == "abc";
    assert DigitRun("abc") == 0;
  }

  /** "1e3" is a decimal literal with an exponent, so `Number` accepts it. */
  lemma OneEThreeIsNumeric()
    ensures IsNumericString("1e3")
  {
    TrimOfPlainWord("1e3");
    assert DigitRun("1e3") == 1;
    assert DigitRun("3") == 1;
    assert IsExponent("e3");
    assert IsUnsignedDecimal("1e3");
  }

  /** `parseInt` stops at the `e` of "1e3" and reads 1. */
  lemma OneEThreeParses()
    ensures ParseInt10("1e3") == Num(1)
  {
    assert TrimStart("1e3") == "1e3";
    assert DigitRun("1e3") == 1;
    assert "1e3"[..1] == "1";
    assert DecimalValue("1") == 1 by {
      assert "1"[..0] == "";
    }
  }

  /** `Number` reads "1e3" as one thousand, so it is accepted; `parseInt` stops at the `e` and gives 1. */
  lemma ExponentIsCutOff()
    ensures DocumentIdFromInput("1e3") == Num(1)
  {
    OneEThreeIsNumeric();
    OneEThreeParses();
  }

  /** `Number` reads a blank input as zero, so it is accepted; `parseInt` finds no digit and gives NaN. */
  lemma BlankIsNaN()
    ensures DocumentIdFromInput(" ") == NaN
  {
    TrimIsEmpty(" ");
    assert TrimStart(" ") == "";
  }

  // ---------------------------------------------------------------------
  // createIndex
  // ---------------------------------------------------------------------

  datatype CreateOutcome = NeedWorkspace | NeedName | NeedDocumentId | Submit(workspaceId: string, details: Json)

  /** The `IndexDetails` form field, before `JSON.stringify`. */
  function IndexDetails(documentId: int, name: string, source: string, target: string): Json {
    JObj(map[
      "documentIds" := JArr([JNum(documentId)]),
      "IndexName" := JStr(name),
      "SourceLanguage" := JStr(source),
      "TargetLanguage" := JStr(target)])
  }

  /** `createIndex`: a current workspace, then a name, then a document id, checked in that order. */
  function CreateIndexRequest(workspace: Option<string>, name: string, source: string, target: string, id: IdValue): CreateOutcome {
    if workspace.None? then NeedWorkspace
    else if name == "" then NeedName
    else if !IdTruthy(id) then NeedDocumentId
    else Submit(workspace.value, IndexDetails(id.n, name, source, target))
  }

  /** Each refusal names the first check that fails; a request is sent only when all pass. */
  lemma CreateGuardsInOrder(workspace: Option<string>, name: string, source: string, target: string, id: IdValue)
    ensures var r := CreateIndexRequest(workspace, name, source, target, id);
      && (r == NeedWorkspace <==> workspace.None?)
      && (r == NeedName <==> workspace.Some? && name == "")
      && (r == NeedDocumentId <==> workspace.Some? && name != "" && !IdTruthy(id))
      && (r.Submit? <==> workspace.Some? && name != "" && IdTruthy(id))
      && (r.Submit? ==> r.workspaceId == workspace.value && r.details.fields["documentIds"] == JArr([JNum(id.n)]))
  {
  }

  /**
   * The payload carries exactly the fields the backend's multipart branch
   * requires, so the backend forwards it unchanged.
   */
  lemma PayloadPassesBackend(workspace: Option<string>, name: string, source: string, target: string,
                             id: IdValue, serialized: string)
    requires CreateIndexRequest(workspace, name, source, target, id).Submit?
    requires serialized != ""
    ensures var details := CreateIndexRequest(workspace, name, source, target, id).details;
      && (forall f :: f in details.fields <==> f in Backend.DetailFields)
      && Backend.ValidateCreate(Backend.Multipart(Some(serialized), Some(details))) == Backend.Forward(details)
  {
    var details := CreateIndexRequest(workspace, name, source, target, id).details;
    var fs := Backend.DetailFields;
    assert fs[1..][1..][1..][1..] == [];
    assert Backend.FirstMissing(fs, details) == Ok(None);
  }
}
