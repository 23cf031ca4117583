/**
 * The Flask backend's data shaping: how each endpoint turns what the
 * translator service answered into its own reply, the normalisation of the
 * document and index lists, the required-field checks of `create_index`,
 * and the query of `translate_text`.
 *
 * The call to the service is not modelled; each endpoint is given the
 * response the service would send (its status, its body text, and what
 * `response.json()` makes of that text).
 */
module Backend {

  import opened Json

  /** A response from the service; `json` is None when `response.json()` raises. */
  datatype BackendResponse = BackendResponse(status: int, text: string, json: Option<Json>)

  /**
   * A reply of the Flask app: a JSON body with a status, a plain text body
   * with a status, or an uncaught exception (a 500 page).
   */
  datatype Reply = Reply(body: Json, status: int) | TextReply(text: string, status: int) | Crash

  const InvalidJsonMessage: string := "Invalid JSON response from backend"

  function ErrorBody(message: string): Json {
    JObj(map["error" := JStr(message)])
  }

  function InvalidJsonBody(raw: string): Json {
    JObj(map["error" := JStr(InvalidJsonMessage), "raw" := JStr(raw)])
  }

  /**
   * The shape every endpoint shares: a non-empty body is relayed as JSON
   * (or answered with the invalid-JSON error and the service's status); an
   * empty body gets the endpoint's own fallback.
   */
  function Relay(resp: BackendResponse, okStatus: int, whenEmpty: Reply): (r: Reply)
    ensures resp.text == "" ==> r == whenEmpty
    ensures resp.text != "" && resp.json.Some? ==> r == Reply(resp.json.value, okStatus)
    ensures resp.text != "" && resp.json.None? ==> r == Reply(InvalidJsonBody(resp.text), resp.status)
  {
    if resp.text == "" then whenEmpty
    else if resp.json.None? then Reply(InvalidJsonBody(resp.text), resp.status)
    else Reply(resp.json.value, okStatus)
  }

  /** `get_workspaces`: note that both the relayed list and the fallback carry status 200. */
  function GetWorkspaces(resp: BackendResponse): (r: Reply)
    ensures r.Reply?
    ensures resp.text == "" || resp.json.Some? ==> r.status == 200
    ensures resp.text != "" && resp.json.Some? ==> r.body == resp.json.value
  {
    Relay(resp, 200, Reply(JArr([]), 200))
  }

  /**
   * The reply of `get_workspace`, `delete_index` and `translate_text`, which
   * relay alike: the service status always, `{}` for an empty body.
   */
  function StatusRelay(resp: BackendResponse): (r: Reply)
    ensures r.Reply? && r.status == resp.status
    ensures resp.text == "" ==> r.body == JObj(map[])
    ensures resp.text != "" && resp.json.Some? ==> r.body == resp.json.value
    ensures resp.text != "" && resp.json.None? ==> r.body == InvalidJsonBody(resp.text)
  {
    Relay(resp, resp.status, Reply(JObj(map[]), resp.status))
  }

  const NoDataMessage: string := "No data returned from API"

  /**
   * What Flask makes of a value a view returns as it is: a dict or a list
   * becomes JSON, a string a text body, and anything else (None, a number,
   * a boolean) is refused with a TypeError.
   */
  function ViewValue(v: Json, status: int): (r: Reply)
    ensures r.Crash? <==> v.JNull? || v.JBool? || v.JNum?
    ensures v.JStr? ==> r == TextReply(v.s, status)
    ensures v.JObj? || v.JArr? ==> r == Reply(v, status)
  {
    match v
    case JObj(_) => Reply(v, status)
    case JArr(_) => Reply(v, status)
    case JStr(text) => TextReply(text, status)
    case _ => Crash
  }

  /**
   * `get_index` answers an empty body with a 404 error, and returns the
   * parsed value without `jsonify`.
   */
  function GetIndex(resp: BackendResponse): (r: Reply)
    ensures resp.text == "" ==> r == Reply(ErrorBody(NoDataMessage), 404)
    ensures r.Crash? <==> resp.text != "" && resp.json.Some? && (resp.json.value.JNull? || resp.json.value.JBool? || resp.json.value.JNum?)
    ensures r.TextReply? <==> resp.text != "" && resp.json.Some? && resp.json.value.JStr?
  {
    if resp.text == "" then Reply(ErrorBody(NoDataMessage), 404)
    else if resp.json.None? then Reply(InvalidJsonBody(resp.text), resp.status)
    else ViewValue(resp.json.value, resp.status)
  }

  /**
   * `get_index` replies as the `jsonify` endpoints do exactly when the body
   * is empty, does not parse, or holds a dict or a list.
   */
  lemma GetIndexRelaysOnlyContainers(resp: BackendResponse)
    ensures GetIndex(resp) == Relay(resp, resp.status, Reply(ErrorBody(NoDataMessage), 404))
      <==> resp.text == "" || resp.json.None? || resp.json.value.JObj? || resp.json.value.JArr?
  {
  }

  /** A service body of `null`, a number or a boolean makes `get_index` fail with a 500. */
  lemma ScalarIndexBodyCrashes(resp: BackendResponse)
    requires resp.text != "" && resp.json.Some?
    requires resp.json.value.JNull? || resp.json.value.JNum? || resp.json.value.JBool?
    ensures GetIndex(resp) == Crash
  {
  }

  const CreationMessage: string := "Index creation initiated - no content returned"

  /** The reply of `create_index` once the request has been forwarded. */
  function CreatedReply(resp: BackendResponse): (r: Reply)
    ensures r.Reply? && r.status == resp.status
    ensures resp.text == "" ==> r.body == JObj(map["message" := JStr(CreationMessage)])
    ensures resp.text != "" && resp.json.Some? ==> r.body == resp.json.value
  {
    Relay(resp, resp.status, Reply(JObj(map["message" := JStr(CreationMessage)]), resp.status))
  }

  // ---------------------------------------------------------------------
  // Python iteration over a JSON value
  // ---------------------------------------------------------------------

  /**
   * The items `for x in v` visits, for the loops below that keep only dict
   * items: a list's elements, a string's characters; a dict's keys are
   * strings and are all skipped, so none is listed. A number, a boolean or
   * None is not iterable and raises.
   */
  function Iterate(v: Json): (r: Py<seq<Json>>)
    ensures r.Raise? <==> v.JNull? || v.JBool? || v.JNum?
    ensures v.JArr? ==> r == Ok(v.items)
    ensures r.Ok? ==> forall i :: 0 <= i < |r.value| ==> r.value[i].JObj? ==> v.JArr?
  {
    match v
    case JArr(items) => Ok(items)
    case JStr(s) => Ok(seq(|s|, i requires 0 <= i < |s| => JStr([s[i]])))
    case JObj(_) => Ok([])
    case _ => Raise
  }

  /** `[data]` when the data is truthy, `[]` otherwise. */
  function WrapUnexpected(data: Json): Json {
    if PyTruthy(data) then JArr([data]) else JArr([])
  }

  // ---------------------------------------------------------------------
  // get_documents
  // ---------------------------------------------------------------------

  /**
   * `isinstance(data, dict) and 'documents' in data["paginatedDocuments"]`
   * then `data["paginatedDocuments"]['documents']`: a dict without
   * `paginatedDocuments` raises KeyError; `in` raises on a value that is not
   * a container, and the subscript raises unless the value is a dict.
   */
  function ChooseDocuments(data: Json): (r: Py<Json>)
    ensures data.JObj? && "paginatedDocuments" !in data.fields ==> r.Raise?
    ensures data.JObj? && "paginatedDocuments" in data.fields && data.fields["paginatedDocuments"].JObj?
            && "documents" in data.fields["paginatedDocuments"].fields
            ==> r == Ok(data.fields["paginatedDocuments"].fields["documents"])
    ensures !data.JObj? ==> r == Ok(WrapUnexpected(data))
    ensures data.JObj? && "paginatedDocuments" in data.fields && PyIn("documents", data.fields["paginatedDocuments"]) == Some(false)
            ==> r == Ok(JArr([data]))
    ensures r.Raise? <==>
      && data.JObj?
      && ("paginatedDocuments" in data.fields ==>
            var page := data.fields["paginatedDocuments"];
            PyIn("documents", page).None? || (PyIn("documents", page) == Some(true) && !page.JObj?))
  {
    if !data.JObj? then Ok(WrapUnexpected(data))
    else if "paginatedDocuments" !in data.fields then Raise
    else
      var page := data.fields["paginatedDocuments"];
      match PyIn("documents", page)
      case None => Raise
      case Some(found) =>
        if !found then Ok(WrapUnexpected(data))
        else if page.JObj? then Ok(page.fields["documents"])
        else Raise
  }

  /**
   * `lang_info[0]['languageCode'] + '-' + lang_info[1]['languageCode']`:
   * None when Python raises (fewer than two languages, a language that is not
   * a dict or has no code, a code that is not a string).
   */
  function LanguagePair(langs: Json): (r: Option<string>)
    ensures r.Some? <==> langs.JArr? && |langs.items| >= 2 && HasCode(langs.items[0]) && HasCode(langs.items[1])
    ensures r.Some? ==> r.value == langs.items[0].fields["languageCode"].s + "-" + langs.items[1].fields["languageCode"].s
    ensures langs.JArr? && |langs.items| < 2 ==> r.None?
  {
    if langs.JArr? && |langs.items| >= 2 then
      var first := langs.items[0];
      var second := langs.items[1];
      if && first.JObj? && "languageCode" in first.fields && first.fields["languageCode"].JStr?
         && second.JObj? && "languageCode" in second.fields && second.fields["languageCode"].JStr?
      then Some(first.fields["languageCode"].s + "-" + second.fields["languageCode"].s)
      else None
    else None
  }

  /** A language entry whose `languageCode` can be read and concatenated: a dict holding a string code. */
  predicate HasCode(lang: Json) {
    lang.JObj? && "languageCode" in lang.fields && lang.fields["languageCode"].JStr?
  }

  /** Where an entry's properties are read: its `documentInfo`, or the entry itself. */
  function DocumentInfo(doc: map<string, Json>): Json {
    PyGet(doc, "documentInfo", JObj(doc))
  }

  /** The entries the loop keeps: dicts whose document type, read through `documentInfo`, is 'Adaptive'. */
  predicate IsAdaptive(doc: Json) {
    && doc.JObj?
    && DocumentInfo(doc.fields).JObj?
    && PyGet(DocumentInfo(doc.fields).fields, "documentType", JStr("Unknown")) == JStr("Adaptive")
  }

  /** `'Available' if x.get('isAvailable', True) else 'Unavailable'`. */
  function Availability(fields: map<string, Json>): (r: Json)
    ensures r == JStr("Available") <==> "isAvailable" !in fields || PyTruthy(fields["isAvailable"])
    ensures r == JStr("Available") || r == JStr("Unavailable")
  {
    JStr(if PyTruthy(PyGet(fields, "isAvailable", JBool(true))) then "Available" else "Unavailable")
  }

  /** One pass of the document loop: skipped (None), normalised, or raising. */
  function NormalizeDocument(doc: Json): (r: Py<Option<Json>>)
    ensures r == Ok(None) <==> !IsAdaptive(doc) && (doc.JObj? ==> DocumentInfo(doc.fields).JObj?)
    ensures r.Raise? <==>
      && doc.JObj?
      && (!DocumentInfo(doc.fields).JObj?
          || (IsAdaptive(doc) && LanguagePair(PyGet(DocumentInfo(doc.fields).fields, "languages", JArr([]))).None?))
    ensures r.Ok? && r.value.Some? ==>
      && IsAdaptive(doc)
      && var info := DocumentInfo(doc.fields).fields;
         var out := r.value.value;
         && out.JObj? && out.fields.Keys == {"id", "name", "type", "createdDate", "status", "lp"}
         && out.fields["type"] == JStr("Adaptive")
         && out.fields["status"] == Availability(info)
         && out.fields["lp"].JStr?
         && LanguagePair(PyGet(info, "languages", JArr([]))) == Some(out.fields["lp"].s)
  {
    if !doc.JObj? then Ok(None)
    else
      var info := DocumentInfo(doc.fields);
      if !info.JObj? then Raise
      else
        var f := info.fields;
        var langs := PyGet(f, "languages", JArr([]));
        if PyGet(f, "documentType", JStr("Unknown")) != JStr("Adaptive") then Ok(None)
        else
          match LanguagePair(langs)
          case None => Raise
          case Some(lp) =>
            Ok(Some(JObj(map[
              "id" := PyGet(f, "id", JStr("unknown")),
              "name" := PyGet(f, "name", JStr("Unnamed Document")),
              "type" := PyGet(f, "documentType", JStr("Unknown")),
              "createdDate" := PyGet(f, "createdDate", JStr("")),
              "status" := Availability(f),
              "lp" := JStr(lp)])))
  }

  /** The defaults of a normalised document: each field the record lacks gets its placeholder. */
  lemma NormalizedDocumentDefaults(doc: Json)
    requires NormalizeDocument(doc).Ok? && NormalizeDocument(doc).value.Some?
    ensures var info := DocumentInfo(doc.fields).fields;
      var out := NormalizeDocument(doc).value.value.fields;
      && ("id" in info ==> out["id"] == info["id"])
      && ("id" !in info ==> out["id"] == JStr("unknown"))
      && ("name" in info ==> out["name"] == info["name"])
      && ("name" !in info ==> out["name"] == JStr("Unnamed Document"))
      && ("createdDate" in info ==> out["createdDate"] == info["createdDate"])
      && ("createdDate" !in info ==> out["createdDate"] == JStr(""))
  {
  }

  /** The list the loop builds over `docs`, in order; it raises as soon as one entry raises. */
  function NormalizedDocs(docs: seq<Json>): Py<seq<Json>>
    decreases |docs|
  {
    if docs == [] then Ok([])
    else
      match NormalizedDocs(docs[..|docs| - 1])
      case Raise => Raise
      case Ok(done) =>
        match NormalizeDocument(docs[|docs| - 1])
        case Raise => Raise
        case Ok(None) => Ok(done)
        case Ok(Some(x)) => Ok(done + [x])
  }

  /** The Adaptive entries of `docs`, in order. */
  function AdaptiveDocs(docs: seq<Json>): seq<Json>
    decreases |docs|
  {
    if docs == [] then []
    else AdaptiveDocs(docs[..|docs| - 1]) + (if IsAdaptive(docs[|docs| - 1]) then [docs[|docs| - 1]] else [])
  }

  /** The `for doc in documents` loop with its `append`. */
  method NormalizeDocuments(documents: seq<Json>) returns (r: Py<seq<Json>>)
    ensures r == NormalizedDocs(documents)
  {
    var normalized: seq<Json> := [];
    for i := 0 to |documents|
      invariant NormalizedDocs(documents[..i]) == Ok(normalized)
    {
      assert documents[..i + 1][..i] == documents[..i];
      match NormalizeDocument(documents[i])
      case Raise =>
        EarlyRaiseStaysRaised(documents, i + 1);
        return Raise;
      case Ok(None) =>
      case Ok(Some(x)) =>
        normalized := normalized + [x];
    }
    assert documents[..|documents|] == documents;
    return Ok(normalized);
  }

  /** Once a prefix raises, so does every longer prefix. */
  lemma {:induction false} EarlyRaiseStaysRaised(docs: seq<Json>, k: nat)
    requires k <= |docs| && NormalizedDocs(docs[..k]).Raise?
    ensures NormalizedDocs(docs).Raise?
    decreases |docs| - k
  {
    if k < |docs| {
      assert docs[..k + 1][..k] == docs[..k];
      EarlyRaiseStaysRaised(docs, k + 1);
    } else {
      assert docs[..k] == docs;
    }
  }

  /** One step of the loop raises exactly when the prefix or the new entry raises. */
  lemma RaiseStep(docs: seq<Json>)
    requires docs != []
    ensures NormalizedDocs(docs).Raise? <==>
      NormalizedDocs(docs[..|docs| - 1]).Raise? || NormalizeDocument(docs[|docs| - 1]).Raise?
  {
  }

  /** The list raises exactly when some entry raises. */
  lemma {:induction false} NormalizationRaises(docs: seq<Json>)
    ensures NormalizedDocs(docs).Raise? <==> exists i :: 0 <= i < |docs| && NormalizeDocument(docs[i]).Raise?
    decreases |docs|
  {
    if docs != [] {
      var init := docs[..|docs| - 1];
      NormalizationRaises(init);
      RaiseStep(docs);
      assert forall i :: 0 <= i < |init| ==> init[i] == docs[i];
    }
  }

  /** A list that does not raise is the Adaptive entries, each normalised, in input order. */
  lemma {:induction false} NormalizationKeepsOrder(docs: seq<Json>)
    ensures NormalizedDocs(docs).Ok? ==>
      var out := NormalizedDocs(docs).value;
      && |out| == |AdaptiveDocs(docs)|
      && forall i :: 0 <= i < |out| ==> NormalizeDocument(AdaptiveDocs(docs)[i]) == Ok(Some(out[i]))
    decreases |docs|
  {
    if docs != [] {
      NormalizationKeepsOrder(docs[..|docs| - 1]);
    }
  }

  /**
   * The normalised list holds exactly the Adaptive entries, in input order,
   * each normalised; it raises exactly when some entry raises.
   */
  lemma NormalizationKeepsAdaptiveInOrder(docs: seq<Json>)
    ensures NormalizedDocs(docs).Raise? <==> exists i :: 0 <= i < |docs| && NormalizeDocument(docs[i]).Raise?
    ensures NormalizedDocs(docs).Ok? ==>
      var out := NormalizedDocs(docs).value;
      && |out| == |AdaptiveDocs(docs)|
      && forall i :: 0 <= i < |out| ==> NormalizeDocument(AdaptiveDocs(docs)[i]) == Ok(Some(out[i]))
  {
    NormalizationRaises(docs);
    NormalizationKeepsOrder(docs);
  }

  /** `get_documents`, given the service's answer for the call it would make. */
  function DocumentsReply(workspaceId: Option<string>, resp: BackendResponse): Reply {
    if workspaceId.None? || workspaceId.value == "" then
      Reply(ErrorBody("workspaceId parameter is required"), 400)
    else if resp.text == "" then Reply(JArr([]), resp.status)
    else if resp.json.None? then Reply(InvalidJsonBody(resp.text), resp.status)
    else
      match ChooseDocuments(resp.json.value)
      case Raise => Reply(InvalidJsonBody(resp.text), resp.status)
      case Ok(documents) =>
        match Iterate(documents)
        case Raise => Reply(InvalidJsonBody(resp.text), resp.status)
        case Ok(items) =>
          match NormalizedDocs(items)
          case Raise => Reply(InvalidJsonBody(resp.text), resp.status)
          case Ok(out) => Reply(JArr(out), resp.status)
  }

  method GetDocuments(workspaceId: Option<string>, resp: BackendResponse) returns (r: Reply)
    ensures r == DocumentsReply(workspaceId, resp)
  {
    if workspaceId.None? || workspaceId.value == "" {
      return Reply(ErrorBody("workspaceId parameter is required"), 400);
    }
    if resp.text == "" {
      return Reply(JArr([]), resp.status);
    }
    if resp.json.None? {
      return Reply(InvalidJsonBody(resp.text), resp.status);
    }
    var chosen := ChooseDocuments(resp.json.value);
    if chosen.Raise? {
      return Reply(InvalidJsonBody(resp.text), resp.status);
    }
    var items := Iterate(chosen.value);
    if items.Raise? {
      return Reply(InvalidJsonBody(resp.text), resp.status);
    }
    var normalized := NormalizeDocuments(items.value);
    if normalized.Raise? {
      return Reply(InvalidJsonBody(resp.text), resp.status);
    }
    return Reply(JArr(normalized.value), resp.status);
  }

  /** Without a workspace id the answer is 400 and does not depend on the service at all. */
  lemma MissingWorkspaceIsRefused(workspaceId: Option<string>, resp1: BackendResponse, resp2: BackendResponse)
    requires workspaceId.None? || workspaceId == Some("")
    ensures DocumentsReply(workspaceId, resp1) == DocumentsReply(workspaceId, resp2)
    ensures DocumentsReply(workspaceId, resp1).Reply? && DocumentsReply(workspaceId, resp1).status == 400
  {
  }

  /** A document whose Adaptive record has fewer than two languages takes the whole reply to the error path. */
  lemma ShortLanguagesGiveErrorReply(workspace: string, resp: BackendResponse, info: map<string, Json>)
    requires workspace != "" && resp.text != ""
    requires PyGet(info, "documentType", JStr("Unknown")) == JStr("Adaptive")
    requires PyGet(info, "languages", JArr([])).JArr? && |PyGet(info, "languages", JArr([])).items| < 2
    requires resp.json == Some(JObj(map["paginatedDocuments" := JObj(map["documents" := JArr([JObj(map["documentInfo" := JObj(info)])])])]))
    ensures DocumentsReply(Some(workspace), resp) == Reply(InvalidJsonBody(resp.text), resp.status)
  {
    var doc := JObj(map["documentInfo" := JObj(info)]);
    assert NormalizeDocument(doc).Raise?;
    assert [doc][..0] == [];
  }

  // ---------------------------------------------------------------------
  // get_all_indices
  // ---------------------------------------------------------------------

  /** `data["indexes"]` for a dict that has it, otherwise `[data]` or `[]`. */
  function ChooseIndexes(data: Json): (r: Json)
    ensures data.JObj? && "indexes" in data.fields ==> r == data.fields["indexes"]
    ensures !(data.JObj? && "indexes" in data.fields) ==> r == WrapUnexpected(data)
  {
    if data.JObj? && "indexes" in data.fields then data.fields["indexes"] else WrapUnexpected(data)
  }

  /** One pass of the index loop: a dict gets the defaults, anything else is skipped. */
  function NormalizeIndex(index: Json): (r: Option<Json>)
    ensures r.Some? <==> index.JObj?
    ensures r.Some? ==>
      && r.value.JObj? && r.value.fields.Keys == {"id", "apiDomain", "createdDate", "name", "status"}
      && r.value.fields["status"] == Availability(index.fields)
      && ("name" in index.fields ==> r.value.fields["name"] == index.fields["name"])
      && ("name" !in index.fields ==> r.value.fields["name"] == JStr("Unnamed Index"))
      && ("id" in index.fields ==> r.value.fields["id"] == index.fields["id"])
      && ("id" !in index.fields ==> r.value.fields["id"] == JStr("unknown"))
      && ("apiDomain" in index.fields ==> r.value.fields["apiDomain"] == index.fields["apiDomain"])
      && ("apiDomain" !in index.fields ==> r.value.fields["apiDomain"] == JStr("unknown"))
      && ("createdDate" in index.fields ==> r.value.fields["createdDate"] == index.fields["createdDate"])
      && ("createdDate" !in index.fields ==> r.value.fields["createdDate"] == JStr(""))
  {
    if !index.JObj? then None
    else
      var f := index.fields;
      Some(JObj(map[
        "id" := PyGet(f, "id", JStr("unknown")),
        "apiDomain" := PyGet(f, "apiDomain", JStr("unknown")),
        "createdDate" := PyGet(f, "createdDate", JStr("")),
        "name" := PyGet(f, "name", JStr("Unnamed Index")),
        "status" := Availability(f)]))
  }

  function NormalizedIndexes(items: seq<Json>): seq<Json>
    decreases |items|
  {
    if items == [] then []
    else
      var last := NormalizeIndex(items[|items| - 1]);
      NormalizedIndexes(items[..|items| - 1]) + (if last.Some? then [last.value] else [])
  }

  /** The dict entries of `items`, in order. */
  function DictItems(items: seq<Json>): seq<Json>
    decreases |items|
  {
    if items == [] then []
    else DictItems(items[..|items| - 1]) + (if items[|items| - 1].JObj? then [items[|items| - 1]] else [])
  }

  /** The `for index in indexes` loop with its `append`. */
  method NormalizeIndexes(indexes: seq<Json>) returns (r: seq<Json>)
    ensures r == NormalizedIndexes(indexes)
  {
    r := [];
    for i := 0 to |indexes|
      invariant r == NormalizedIndexes(indexes[..i])
    {
      assert indexes[..i + 1][..i] == indexes[..i];
      var entry := NormalizeIndex(indexes[i]);
      if entry.Some? {
        r := r + [entry.value];
      }
    }
    assert indexes[..|indexes|] == indexes;
  }

  /** Non-dict entries are skipped; every dict entry is kept, in order, with its defaults. */
  lemma {:induction false} IndexNormalizationKeepsDicts(items: seq<Json>)
    ensures var out := NormalizedIndexes(items);
      && |out| == |DictItems(items)|
      && forall i :: 0 <= i < |out| ==> NormalizeIndex(DictItems(items)[i]) == Some(out[i])
    decreases |items|
  {
    if items != [] {
      IndexNormalizationKeepsDicts(items[..|items| - 1]);
    }
  }

  /** `get_all_indices`, given the service's answer. */
  function IndexesReply(resp: BackendResponse): Reply {
    if resp.text == "" then Reply(JArr([]), resp.status)
    else if resp.json.None? then Reply(InvalidJsonBody(resp.text), resp.status)
    else
      match Iterate(ChooseIndexes(resp.json.value))
      case Raise => Reply(InvalidJsonBody(resp.text), resp.status)
      case Ok(items) => Reply(JArr(NormalizedIndexes(items)), resp.status)
  }

  method GetAllIndices(resp: BackendResponse) returns (r: Reply)
    ensures r == IndexesReply(resp)
  {
    if resp.text == "" {
      return Reply(JArr([]), resp.status);
    }
    if resp.json.None? {
      return Reply(InvalidJsonBody(resp.text), resp.status);
    }
    var items := Iterate(ChooseIndexes(resp.json.value));
    if items.Raise? {
      return Reply(InvalidJsonBody(resp.text), resp.status);
    }
    var normalized := NormalizeIndexes(items.value);
    return Reply(JArr(normalized), resp.status);
  }

  /** `{indexes: [...]}` yields those entries; other truthy data is treated as a single entry. */
  lemma IndexListShapes(resp: BackendResponse, data: Json)
    requires resp.text != "" && resp.json == Some(data)
    ensures data.JObj? && "indexes" in data.fields && data.fields["indexes"].JArr? ==>
      IndexesReply(resp) == Reply(JArr(NormalizedIndexes(data.fields["indexes"].items)), resp.status)
    ensures data.JObj? && "indexes" !in data.fields && data != JObj(map[]) ==>
      IndexesReply(resp) == Reply(JArr(NormalizedIndexes([data])), resp.status) && |NormalizedIndexes([data])| == 1
  {
    if data.JObj? && "indexes" !in data.fields && data != JObj(map[]) {
      assert |data.fields| != 0;
      assert [data][..0] == [];
    }
  }

  // ---------------------------------------------------------------------
  // Empty bodies
  // ---------------------------------------------------------------------

  /** What each endpoint answers when the service sends an empty body. */
  lemma EmptyBodyFallbacks(resp: BackendResponse, workspace: string)
    requires resp.text == "" && workspace != ""
    ensures GetWorkspaces(resp) == Reply(JArr([]), 200)
    ensures StatusRelay(resp) == Reply(JObj(map[]), resp.status)
    ensures DocumentsReply(Some(workspace), resp) == Reply(JArr([]), resp.status)
    ensures IndexesReply(resp) == Reply(JArr([]), resp.status)
    ensures GetIndex(resp) == Reply(ErrorBody(NoDataMessage), 404)
    ensures CreatedReply(resp) == Reply(JObj(map["message" := JStr(CreationMessage)]), resp.status)
  {
  }

  /** A body that is not JSON is answered with the service's status and its raw text, never relayed as data. */
  lemma UnparsableBodyIsReported(resp: BackendResponse)
    requires resp.text != "" && resp.json.None?
    ensures StatusRelay(resp) == Reply(InvalidJsonBody(resp.text), resp.status)
    ensures GetWorkspaces(resp) == Reply(InvalidJsonBody(resp.text), resp.status)
    ensures IndexesReply(resp) == Reply(InvalidJsonBody(resp.text), resp.status)
    ensures GetIndex(resp) == Reply(InvalidJsonBody(resp.text), resp.status)
  {
  }

  // ---------------------------------------------------------------------
  // create_index
  // ---------------------------------------------------------------------

  /**
   * The request `create_index` receives: a multipart form (the content type
   * says `multipart/form-data`) with its `IndexDetails` field and what
   * `json.loads` makes of it (None when it raises), or a JSON body.
   */
  datatype CreateRequest =
    | Multipart(indexDetails: Option<string>, parsed: Option<Json>)
    | JsonBody(data: Json)

  const DetailFields: seq<string> := ["documentIds", "IndexName", "SourceLanguage", "TargetLanguage"]
  const LegacyFields: seq<string> := ["name", "sourceLanguage", "targetLanguage"]

  /** The first field that is `not in` the data; Raise when `in` raises on the data. */
  function FirstMissing(fields: seq<string>, data: Json): (r: Py<Option<string>>)
    ensures fields != [] ==> (r.Raise? <==> PyIn(fields[0], data).None?)
    ensures r.Ok? && r.value.Some? ==> r.value.value in fields && PyIn(r.value.value, data) == Some(false)
    ensures r == Ok(None) ==> forall f :: f in fields ==> PyIn(f, data) == Some(true)
    decreases |fields|
  {
    if fields == [] then Ok(None)
    else
      match PyIn(fields[0], data)
      case None => Raise
      case Some(found) => if !found then Ok(Some(fields[0])) else FirstMissing(fields[1..], data)
  }

  /** The fields before the one reported are all present. */
  lemma {:induction false} FirstMissingIsFirst(fields: seq<string>, data: Json, k: nat)
    requires k < |fields| && FirstMissing(fields, data) == Ok(Some(fields[k]))
    requires forall i, j :: 0 <= i < j < |fields| ==> fields[i] != fields[j]
    ensures forall i :: 0 <= i < k ==> PyIn(fields[i], data) == Some(true)
    decreases |fields|
  {
    if k > 0 {
      assert fields[0] != fields[k];
      assert fields[1..][k - 1] == fields[k];
      FirstMissingIsFirst(fields[1..], data, k - 1);
    }
  }

  /** The `for field in required_fields` loop with its early return. */
  method FindMissing(fields: seq<string>, data: Json) returns (r: Py<Option<string>>)
    ensures r == FirstMissing(fields, data)
  {
    for i := 0 to |fields|
      invariant FirstMissing(fields, data) == FirstMissing(fields[i..], data)
    {
      assert fields[i..][1..] == fields[i + 1..];
      var present := PyIn(fields[i], data);
      if present.None? {
        return Raise;
      }
      if !present.value {
        return Ok(Some(fields[i]));
      }
    }
    return Ok(None);
  }

  /** Whether `create_index` refuses the request (with its reply) or forwards the payload. */
  datatype Gate = Refuse(reply: Reply) | Forward(payload: Json)

  function MissingFieldReply(field: string): Reply {
    Reply(ErrorBody("Missing required field: " + field), 400)
  }

  function CheckFields(fields: seq<string>, data: Json): Gate {
    match FirstMissing(fields, data)
    case Raise => Refuse(Crash)
    case Ok(None) => Forward(data)
    case Ok(Some(field)) => Refuse(MissingFieldReply(field))
  }

  function ValidateCreate(req: CreateRequest): (g: Gate)
    ensures g.Forward? ==> forall f :: f in (if req.Multipart? then DetailFields else LegacyFields) ==> PyIn(f, g.payload) == Some(true)
  {
    match req
    case Multipart(details, parsed) =>
      if details.None? || details.value == "" then Refuse(Reply(ErrorBody("Missing IndexDetails"), 400))
      else if parsed.None? then Refuse(Reply(ErrorBody("Invalid IndexDetails format"), 400))
      else CheckFields(DetailFields, parsed.value)
    case JsonBody(data) => CheckFields(LegacyFields, data)
  }

  /** `create_index`, given the service's answer to the forwarded request. */
  function CreateIndexReply(req: CreateRequest, resp: BackendResponse): Reply {
    match ValidateCreate(req)
    case Refuse(reply) => reply
    case Forward(_) => CreatedReply(resp)
  }

  method CreateIndex(req: CreateRequest, resp: BackendResponse) returns (r: Reply)
    ensures r == CreateIndexReply(req, resp)
  {
    var fields, data;
    match req {
      case Multipart(details, parsed) =>
        if details.None? || details.value == "" {
          return Reply(ErrorBody("Missing IndexDetails"), 400);
        }
        if parsed.None? {
          return Reply(ErrorBody("Invalid IndexDetails format"), 400);
        }
        fields, data := DetailFields, parsed.value;
      case JsonBody(body) =>
        fields, data := LegacyFields, body;
    }
    var missing := FindMissing(fields, data);
    if missing.Raise? {
      return Crash;
    }
    if missing.value.Some? {
      return MissingFieldReply(missing.value.value);
    }
    return CreatedReply(resp);
  }

  /** The multipart checks, in order: details present, details parse, then the first missing field by name. */
  lemma MultipartChecksInOrder(details: Option<string>, parsed: Option<Json>, resp: BackendResponse)
    ensures details.None? || details == Some("") ==>
      CreateIndexReply(Multipart(details, parsed), resp) == Reply(ErrorBody("Missing IndexDetails"), 400)
    ensures details.Some? && details.value != "" && parsed.None? ==>
      CreateIndexReply(Multipart(details, parsed), resp) == Reply(ErrorBody("Invalid IndexDetails format"), 400)
    ensures details.Some? && details.value != "" && parsed.Some? && parsed.value.JObj? && "documentIds" !in parsed.value.fields ==>
      CreateIndexReply(Multipart(details, parsed), resp) == MissingFieldReply("documentIds")
    ensures details.Some? && details.value != "" && parsed.Some? && parsed.value.JObj?
            && (forall f :: f in DetailFields ==> f in parsed.value.fields) ==>
      CreateIndexReply(Multipart(details, parsed), resp) == CreatedReply(resp)
  {
    if details.Some? && details.value != "" && parsed.Some? && parsed.value.JObj? {
      var m := parsed.value.fields;
      if forall f :: f in DetailFields ==> f in m {
        assert DetailFields[0] in DetailFields && DetailFields[1] in DetailFields;
        assert DetailFields[2] in DetailFields && DetailFields[3] in DetailFields;
        assert FirstMissing(DetailFields[3..], parsed.value) == Ok(None) by {
          assert DetailFields[3..][1..] == [];
        }
        assert DetailFields[2..][1..] == DetailFields[3..];
        assert DetailFields[1..][1..] == DetailFields[2..];
      }
    }
  }

  /** A JSON null body, or a number, makes the membership test raise: the request crashes with a 500. */
  lemma NonContainerBodyCrashes(data: Json, resp: BackendResponse)
    requires data.JNull? || data.JNum? || data.JBool?
    ensures CreateIndexReply(JsonBody(data), resp) == Crash
  {
  }

  // ---------------------------------------------------------------------
  // translate_text
  // ---------------------------------------------------------------------

  /** `request.args.get(name, default)`. */
  function Arg(args: map<string, string>, name: string, default: string): string {
    if name in args then args[name] else default
  }

  /** The value of the first parameter named `key`, if any. */
  function Param(params: seq<(string, string)>, key: string): Option<string>
    decreases |params|
  {
    if params == [] then None
    else if params[0].0 == key then Some(params[0].1)
    else Param(params[1..], key)
  }

  /** The query of the call to the translator, in insertion order. */
  function TranslateParams(args: map<string, string>): (r: seq<(string, string)>)
    ensures |r| == 8 <==> "nocache" in args && args["nocache"] != ""
    ensures |r| == 7 || (|r| == 8 && r[7] == ("options", "nocache"))
  {
    [ ("api-version", "2025-05-01-preview"),
      ("trackperformance", "true"),
      ("from", Arg(args, "from", "en")),
      ("to", Arg(args, "to", "de")),
      ("texttype", Arg(args, "texttype", "Plain")),
      ("flight", "experimental"),
      ("option", "nocache") ]
    + (if "nocache" in args && args["nocache"] != "" then [("options", "nocache")] else [])
  }

  /**
   * The language pair and text type default to en, de and Plain; the fixed
   * parameters are always there; `options` is added only for a non-empty
   * `nocache` argument; no parameter is named twice.
   */
  lemma TranslateParamsMeaning(args: map<string, string>)
    ensures var p := TranslateParams(args);
      && Param(p, "from") == Some(if "from" in args then args["from"] else "en")
      && Param(p, "to") == Some(if "to" in args then args["to"] else "de")
      && Param(p, "texttype") == Some(if "texttype" in args then args["texttype"] else "Plain")
      && Param(p, "api-version") == Some("2025-05-01-preview")
      && Param(p, "flight") == Some("experimental")
      && Param(p, "option") == Some("nocache")
      && Param(p, "trackperformance") == Some("true")
      && (Param(p, "options").Some? <==> "nocache" in args && args["nocache"] != "")
      && forall i, j :: 0 <= i < j < |p| ==> p[i].0 != p[j].0
  {
    var p := TranslateParams(args);
    ParamAt(p, 0, "api-version");
    ParamAt(p, 1, "trackperformance");
    ParamAt(p, 2, "from");
    ParamAt(p, 3, "to");
    ParamAt(p, 4, "texttype");
    ParamAt(p, 5, "flight");
    ParamAt(p, 6, "option");
    if "nocache" in args && args["nocache"] != "" {
      ParamAt(p, 7, "options");
    } else {
      ParamAt(p, |p|, "options");
    }
  }

  /** `Param` finds the first parameter with the key; past the end it finds none. */
  lemma {:induction false} ParamAt(params: seq<(string, string)>, k: nat, key: string)
    requires k <= |params|
    requires forall j :: 0 <= j < k ==> params[j].0 != key
    ensures k < |params| && params[k].0 == key ==> Param(params, key) == Some(params[k].1)
    ensures k == |params| ==> Param(params, key) == None
    decreases k
  {
    if k > 0 {
      ParamAt(params[1..], k - 1, key);
    }
  }
}
