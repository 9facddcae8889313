/** The Strapi v4 data provider (index.ts): each react-admin operation as the
    request it sends through `processRequest` and the envelope it resolves
    to. */
module StrapiV4Provider {
  import opened Outcome
  import opened JsValues
  import opened Http
  import opened QueryEncoding
  import opened StrapiV4Format
  import opened StrapiV4Upload

  /** The id that names the one record of a single type. */
  const SingleType: string := "SingleType"

  /** processRequest's URL: `populate=*` is added as a further query
      parameter when the URL has a query already, else it starts one. */
  function WithPopulate(url: string): (r: string)
    ensures |r| == |url| + 11 && r[..|url|] == url && r[|url| + 1..] == "populate=*"
    ensures r[|url|] == '&' <==> Contains(url, "?")
    ensures r[|url|] == '?' <==> !Contains(url, "?")
    ensures Contains(r, "?")
  {
    var sep := if Contains(url, "?") then "&" else "?";
    var r := url + sep + "populate=*";
    assert OccursAt(r, "?", |url|) || exists i: nat :: i <= |url| && OccursAt(url, "?", i) && OccursAt(r, "?", i) by {
      if Contains(url, "?") {
        var i: nat :| i <= |url| && OccursAt(url, "?", i);
        assert r[i..i + 1] == url[i..i + 1];
      } else {
        assert r[|url|..|url| + 1] == "?";
      }
    }
    r
  }

  /** `processRequest(url, options)`. */
  function Send(transport: Transport, url: string, verb: Option<HttpMethod>, body: Body): Result<Response> {
    transport(Request(WithPopulate(url), verb, body))
  }

  function ResourceUrl(apiUrl: string, resource: string): string {
    apiUrl + "/" + resource
  }

  /** The URL of one record: the resource URL itself for the single type
      (strict equality), else the resource URL and `/id`. */
  function ItemUrl(apiUrl: string, resource: string, id: Value): (url: string)
    ensures id == Str(SingleType) ==> url == ResourceUrl(apiUrl, resource)
    ensures id != Str(SingleType) ==> url == ResourceUrl(apiUrl, resource) + "/" + ToStr(id)
  {
    ResourceUrl(apiUrl, resource) + (if id == Str(SingleType) then "" else "/" + ToStr(id))
  }

  /** `params.id == SingleType` with JavaScript's loose equality: a string
      compares as it is, an array or object by its string form, anything
      else never equals a non-numeric string. */
  predicate LooselySingleType(id: Value) {
    (id.Str? || id.Arr? || id.Obj? || id.File?) && ToStr(id) == SingleType
  }

  /** `json.data` of a response; reading it off a null body throws. */
  function ResponseData(res: Response): Result<Value> {
    if Nullish(res.json) then Err(TypeError) else Ok(Prop(res.json, "data"))
  }

  /** `formatResponseForRa(response.json.data)`. */
  function FormatResponse(apiUrl: string, res: Response): Result<Value> {
    var d :- ResponseData(res);
    FormatResponseForRa(apiUrl, d)
  }

  function FormatWith(apiUrl: string): Response -> Result<Value> {
    res => FormatResponse(apiUrl, res)
  }

  /** convertHTTPResponse: the formatted `json.data`, with the total read
      from `json.meta.pagination.total` for lists; CREATE returns the
      submitted data with the server's id, DELETE a null id. */
  function ConvertHTTPResponse(apiUrl: string, res: Response, t: OpType, submitted: Value): Result<Envelope> {
    var raData :- FormatResponse(apiUrl, res);
    match t
    case GetList => ListEnvelope(raData, res.json)
    case GetManyReference => ListEnvelope(raData, res.json)
    case Create =>
      if Nullish(raData) then Err(TypeError)
      else Ok(Envelope(Obj(Put(SpreadValue([], submitted), "id", Prop(raData, "id"))), None))
    case Delete => Ok(Envelope(Obj([("id", Null)]), None))
    case _ => Ok(Envelope(raData, None))
  }

  function ListEnvelope(raData: Value, json: Value): Result<Envelope>
    requires !Nullish(json)
  {
    var meta := Prop(json, "meta");
    if Nullish(meta) then Err(TypeError)
    else
      var pagination := Prop(meta, "pagination");
      if Nullish(pagination) then Err(TypeError)
      else Ok(Envelope(raData, Some(Prop(pagination, "total"))))
  }

  // ---------------------------------------------------------------------------
  // Operations

  function ListRequestUrl(apiUrl: string, resource: string, q: QueryParams): string {
    ResourceUrl(apiUrl, resource) + "?" + QueryString(StrapiV4, q)
  }

  function GetList(transport: Transport, apiUrl: string, resource: string, q: QueryParams): Result<Envelope> {
    var res :- Send(transport, ListRequestUrl(apiUrl, resource, q), None, NoBody);
    ConvertHTTPResponse(apiUrl, res, OpType.GetList, Undefined)
  }

  function GetManyReference(transport: Transport, apiUrl: string, resource: string, q: QueryParams): Result<Envelope> {
    var res :- Send(transport, ListRequestUrl(apiUrl, resource, q), None, NoBody);
    ConvertHTTPResponse(apiUrl, res, OpType.GetManyReference, Undefined)
  }

  function GetOne(transport: Transport, apiUrl: string, resource: string, id: Value): Result<Envelope> {
    var res :- Send(transport, ItemUrl(apiUrl, resource, id), None, NoBody);
    ConvertHTTPResponse(apiUrl, res, OpType.GetOne, Undefined)
  }

  /** getMany's filter: an object whose own `data` is null is dropped;
      `typeof null` is "object", so a null id throws. */
  function KeptIds(ids: seq<Value>): Result<seq<Value>> {
    if ids == [] then Ok([])
    else if ids[0] == Null then Err(TypeError)
    else
      var rest :- KeptIds(ids[1..]);
      var drop := ids[0].Obj? && "data" in Keys(ids[0].fields) && Get(ids[0].fields, "data") == Null;
      Ok((if drop then [] else [ids[0]]) + rest)
  }

  /** `i.id || i._id || i`. */
  function LookupKey(i: Value): Result<Value> {
    if Nullish(i) then Err(TypeError)
    else if Truthy(Prop(i, "id")) then Ok(Prop(i, "id"))
    else if Truthy(Prop(i, "_id")) then Ok(Prop(i, "_id"))
    else Ok(i)
  }

  function GetManyRequest(apiUrl: string, resource: string, i: Value): Result<Request> {
    var key :- LookupKey(i);
    Ok(Request(WithPopulate(ResourceUrl(apiUrl, resource) + "/" + ToStr(key)), Some(GET), NoBody))
  }

  function GetManyRequestWith(apiUrl: string, resource: string): Value -> Result<Request> {
    i => GetManyRequest(apiUrl, resource, i)
  }

  /** Sends the requests, then formats every response's `json.data`, in order. */
  function FanOutFormatted(transport: Transport, apiUrl: string, reqs: seq<Request>): Result<Envelope> {
    var responses :- FanOut(transport, reqs);
    var data :- MapAll(FormatWith(apiUrl), responses);
    Ok(Envelope(Arr(data), None))
  }

  function GetMany(transport: Transport, apiUrl: string, resource: string, ids: seq<Value>): Result<Envelope> {
    if |ids| == 0 then Ok(Envelope(Arr([]), None))
    else
      var kept :- KeptIds(ids);
      var reqs :- MapAll(GetManyRequestWith(apiUrl, resource), kept);
      FanOutFormatted(transport, apiUrl, reqs)
  }

  /** The fields that rest destructuring of `params.data` collects; reading
      them off null or undefined throws. */
  function OwnFields(data: Value): Result<Fields> {
    if Nullish(data) then Err(TypeError)
    else if data.Obj? then Ok(data.fields)
    else Ok([])
  }

  /** handleFileUpload: a multipart PUT (UPDATE) or POST (otherwise) of the
      partitioned record. */
  function UploadUrl(apiUrl: string, resource: string, t: OpType, id: Value): string {
    var idSegment := if t == OpType.Update then "/" + ToStr(id) else "";
    ResourceUrl(apiUrl, resource) + (if LooselySingleType(id) then "" else idSegment)
  }

  function UploadRequest(apiUrl: string, resource: string, t: OpType, id: Value, data: Value): Result<Request> {
    var names := UploadFieldNames(data);
    var fs :- OwnFields(data);
    var parts :- FormParts(fs, names);
    Ok(Request(WithPopulate(UploadUrl(apiUrl, resource, t, id)), Some(if t == OpType.Update then PUT else POST), FormBody(parts)))
  }

  function HandleFileUpload(transport: Transport, apiUrl: string, resource: string, t: OpType, id: Value, data: Value): Result<Envelope> {
    var req :- UploadRequest(apiUrl, resource, t, id, data);
    var res :- transport(req);
    ConvertHTTPResponse(apiUrl, res, t, data)
  }

  /** update without uploads: the sanitised record wrapped as `{data}`. */
  function UpdateRequest(apiUrl: string, resource: string, id: Value, data: Value): Result<Request> {
    var fs :- OwnFields(data);
    Ok(Request(WithPopulate(ItemUrl(apiUrl, resource, id)), Some(PUT), JsonBody(Obj([("data", Obj(Sanitize(fs)))]))))
  }

  function Update(transport: Transport, apiUrl: string, resource: string, id: Value, data: Value): Result<Envelope> {
    if |UploadFieldNames(data)| > 0 then HandleFileUpload(transport, apiUrl, resource, OpType.Update, id, data)
    else
      var req :- UpdateRequest(apiUrl, resource, id, data);
      var res :- transport(req);
      ConvertHTTPResponse(apiUrl, res, OpType.Update, data)
  }

  /** updateMany's request for one id: the sanitised record, not wrapped. */
  function UpdateManyRequest(apiUrl: string, resource: string, data: Value, id: Value): Result<Request> {
    var fs :- OwnFields(data);
    Ok(Request(WithPopulate(ResourceUrl(apiUrl, resource) + "/" + ToStr(id)), Some(PUT), JsonBody(Obj(Sanitize(fs)))))
  }

  function UpdateManyRequestWith(apiUrl: string, resource: string, data: Value): Value -> Result<Request> {
    id => UpdateManyRequest(apiUrl, resource, data, id)
  }

  function UpdateMany(transport: Transport, apiUrl: string, resource: string, ids: seq<Value>, data: Value): Result<Envelope> {
    var reqs :- MapAll(UpdateManyRequestWith(apiUrl, resource, data), ids);
    FanOutFormatted(transport, apiUrl, reqs)
  }

  function Create(transport: Transport, apiUrl: string, resource: string, data: Value): Result<Envelope> {
    if |UploadFieldNames(data)| > 0 then HandleFileUpload(transport, apiUrl, resource, OpType.Create, Undefined, data)
    else
      var res :- Send(transport, ResourceUrl(apiUrl, resource), Some(POST), JsonBody(data));
      ConvertHTTPResponse(apiUrl, res, OpType.Create, data)
  }

  function Delete(transport: Transport, apiUrl: string, resource: string, id: Value): Result<Envelope> {
    var res :- Send(transport, ItemUrl(apiUrl, resource, id), Some(DELETE), NoBody);
    ConvertHTTPResponse(apiUrl, res, OpType.Delete, Undefined)
  }

  function DeleteManyRequest(apiUrl: string, resource: string, id: Value): Request {
    Request(WithPopulate(ResourceUrl(apiUrl, resource) + "/" + ToStr(id)), Some(DELETE), NoBody)
  }

  function DeleteMany(transport: Transport, apiUrl: string, resource: string, ids: seq<Value>): Result<Envelope> {
    var reqs := seq(|ids|, i requires 0 <= i < |ids| => DeleteManyRequest(apiUrl, resource, ids[i]));
    FanOutFormatted(transport, apiUrl, reqs)
  }

  // ---------------------------------------------------------------------------
  // Properties of the provider

  /** A body that carries `meta.pagination`. */
  predicate HasPagination(json: Value) {
    !Nullish(json) && !Nullish(Prop(json, "meta")) && !Nullish(Prop(Prop(json, "meta"), "pagination"))
  }

  /** The request getList and getManyReference send for the list parameters. */
  function ListRequest(apiUrl: string, resource: string, q: QueryParams): Request {
    Request(WithPopulate(ListRequestUrl(apiUrl, resource, q)), None, NoBody)
  }

  /** getList and getManyReference send the same GET to the resource with
      the encoded query and `&populate=*` after it, and resolve alike: they
      succeed exactly when the call succeeds, its data can be formatted and
      the body carries `meta.pagination`, whose `total` is then the total; a
      formatted body without it is a TypeError. */
  lemma ListOperationsEndToEnd(transport: Transport, apiUrl: string, resource: string, q: QueryParams)
    ensures ListRequest(apiUrl, resource, q).url ==
              ResourceUrl(apiUrl, resource) + "?" + QueryString(StrapiV4, q) + "&populate=*"
    ensures GetManyReference(transport, apiUrl, resource, q) == GetList(transport, apiUrl, resource, q)
    ensures var res := transport(ListRequest(apiUrl, resource, q));
            var r := GetList(transport, apiUrl, resource, q);
            && (r.Ok? <==> res.Ok? && FormatResponse(apiUrl, res.value).Ok? && HasPagination(res.value.json))
            && (res.Ok? && FormatResponse(apiUrl, res.value).Ok? && !HasPagination(res.value.json) ==> r == Err(TypeError))
            && (r.Ok? ==>
                  r.value == Envelope(FormatResponse(apiUrl, res.value).value,
                                      Some(Prop(Prop(Prop(res.value.json, "meta"), "pagination"), "total"))))
  {
    PopulateAfterQuery(ResourceUrl(apiUrl, resource), QueryString(StrapiV4, q));
  }

  /** A URL that already has a query gets `&populate=*` appended. */
  lemma PopulateAfterQuery(base: string, query: string)
    ensures WithPopulate(base + "?" + query) == base + "?" + query + "&populate=*"
  {
    var url := base + "?" + query;
    assert url[|base|..|base| + 1] == "?";
    assert OccursAt(url, "?", |base|);
    var full := WithPopulate(url);
    assert full == full[..|url|] + [full[|url|]] + full[|url| + 1..];
  }

  /** A list response whose `meta.pagination.total` is 42 has total 42; one
      without `meta` fails. */
  lemma ListTotalExample(apiUrl: string, headers: seq<(string, string)>)
    ensures ConvertHTTPResponse(apiUrl, Response(headers, Obj([("data", Arr([])),
                                  ("meta", Obj([("pagination", Obj([("total", Num(42))]))]))])), OpType.GetList, Undefined)
            == Ok(Envelope(Arr([]), Some(Num(42))))
    ensures ConvertHTTPResponse(apiUrl, Response(headers, Obj([("data", Arr([]))])), OpType.GetList, Undefined)
            == Err(TypeError)
  {
    var json := Obj([("data", Arr([])), ("meta", Obj([("pagination", Obj([("total", Num(42))]))]))]);
    GetAt(json.fields, 1);
  }

  /** CREATE keeps every submitted field and sets `id` from the formatted
      response; a response without data is a TypeError. */
  lemma CreateKeepsSubmittedFields(apiUrl: string, res: Response, fs: Fields)
    requires DistinctKeys(fs) && FormatResponse(apiUrl, res).Ok?
    ensures var r := ConvertHTTPResponse(apiUrl, res, OpType.Create, Obj(fs));
            var raData := FormatResponse(apiUrl, res).value;
            && (r.Ok? <==> !Nullish(raData))
            && (r.Ok? ==>
                  && r.value.total == None && r.value.data.Obj?
                  && Get(r.value.data.fields, "id") == Prop(raData, "id")
                  && (forall k :: k != "id" ==> Get(r.value.data.fields, k) == Get(fs, k))
                  && Keys(r.value.data.fields) == if "id" in Keys(fs) then Keys(fs) else Keys(fs) + ["id"])
  {
    var raData := FormatResponse(apiUrl, res).value;
    CreatedRecord(apiUrl, res, fs);
    if !Nullish(raData) {
      var created := Put(fs, "id", Prop(raData, "id"));
      forall k ensures Get(created, k) == if k == "id" then Prop(raData, "id") else Get(fs, k) {
        PutGet(fs, "id", Prop(raData, "id"), k);
      }
      PutKeys(fs, "id", Prop(raData, "id"));
    }
  }

  /** The record CREATE resolves to: the submitted fields with `id` assigned. */
  lemma CreatedRecord(apiUrl: string, res: Response, fs: Fields)
    requires DistinctKeys(fs) && FormatResponse(apiUrl, res).Ok?
    ensures var raData := FormatResponse(apiUrl, res).value;
            ConvertHTTPResponse(apiUrl, res, OpType.Create, Obj(fs)) ==
              if Nullish(raData) then Err(TypeError)
              else Ok(Envelope(Obj(Put(fs, "id", Prop(raData, "id"))), None))
  {
    SpreadFresh([], fs);
    assert [] + fs == fs;
    assert SpreadValue([], Obj(fs)) == fs;
  }

  /** Creating `{title: "x"}` against a response `{data: {id: 9}}` yields
      `{title: "x", id: 9}`. */
  lemma CreateExample(apiUrl: string, headers: seq<(string, string)>)
    ensures ConvertHTTPResponse(apiUrl, Response(headers, Obj([("data", Obj([("id", Num(9))]))])),
                                OpType.Create, Obj([("title", Str("x"))]))
            == Ok(Envelope(Obj([("title", Str("x")), ("id", Num(9))]), None))
  {
    var item := Obj([("id", Num(9))]);
    assert Flatten(item) == [("id", Num(9))];
    var one: seq<(string, Value)> := [("id", Num(9))];
    assert RewritePair(apiUrl, ("id", Num(9))) == Ok(("id", Num(9)));
    MapAllInOrder(RewriteWith(apiUrl), one);
    assert MapAll(RewriteWith(apiUrl), one).value == one;
    assert FormatResponseForRa(apiUrl, item) == Ok(item);
    var submitted := [("title", Str("x"))];
    assert Spread([], submitted) == submitted by {
      assert submitted[1..] == [];
    }
    assert Keys(submitted) == ["title"];
    PutNew(submitted, "id", Num(9));
    var json := Obj([("data", item)]);
    assert ResponseData(Response(headers, json)) == Ok(item);
    assert Prop(item, "id") == Num(9);
    assert FormatResponse(apiUrl, Response(headers, json)) == Ok(item);
    assert submitted + [("id", Num(9))] == [("title", Str("x")), ("id", Num(9))];
  }

  function DeleteRequest(apiUrl: string, resource: string, id: Value): Request {
    Request(WithPopulate(ItemUrl(apiUrl, resource, id)), Some(DELETE), NoBody)
  }

  /** delete succeeds exactly when the call succeeds and the body's data can
      be formatted, and then resolves to a null id: two servers whose
      answers both format give the same result, whatever their bodies hold. */
  lemma DeleteIgnoresBody(t1: Transport, t2: Transport, apiUrl: string, resource: string, id: Value)
    ensures var res := t1(DeleteRequest(apiUrl, resource, id));
            var r := Delete(t1, apiUrl, resource, id);
            && (r.Ok? <==> res.Ok? && FormatResponse(apiUrl, res.value).Ok?)
            && (r.Ok? ==> r.value == Envelope(Obj([("id", Null)]), None))
    ensures var res1 := t1(DeleteRequest(apiUrl, resource, id));
            var res2 := t2(DeleteRequest(apiUrl, resource, id));
            res1.Ok? && FormatResponse(apiUrl, res1.value).Ok? && res2.Ok? && FormatResponse(apiUrl, res2.value).Ok? ==>
              Delete(t1, apiUrl, resource, id) == Delete(t2, apiUrl, resource, id)
  {
  }

  function GetOneRequest(apiUrl: string, resource: string, id: Value): Request {
    Request(WithPopulate(ItemUrl(apiUrl, resource, id)), None, NoBody)
  }

  /** getOne resolves to the formatted data of the record's answer, without
      a total, and fails exactly when the call or the formatting fails. */
  lemma GetOneFormatsRecord(transport: Transport, apiUrl: string, resource: string, id: Value)
    ensures var res := transport(GetOneRequest(apiUrl, resource, id));
            var r := GetOne(transport, apiUrl, resource, id);
            && (r.Ok? <==> res.Ok? && FormatResponse(apiUrl, res.value).Ok?)
            && (r.Ok? ==> r.value == Envelope(FormatResponse(apiUrl, res.value).value, None))
  {
  }

  /** Single-type URLs: getOne, update and delete drop the id segment only
      for the string "SingleType"; the upload path compares loosely, so an
      array holding that string also names the single type; a create
      upload never has an id segment. */
  lemma SingletonUrls(apiUrl: string, resource: string, id: Value)
    ensures ItemUrl(apiUrl, resource, Str(SingleType)) == ResourceUrl(apiUrl, resource)
    ensures UploadUrl(apiUrl, resource, OpType.Update, Str(SingleType)) == ResourceUrl(apiUrl, resource)
    ensures UploadUrl(apiUrl, resource, OpType.Update, Arr([Str(SingleType)])) == ResourceUrl(apiUrl, resource)
    ensures ItemUrl(apiUrl, resource, Arr([Str(SingleType)])) == ResourceUrl(apiUrl, resource) + "/" + SingleType
    ensures UploadUrl(apiUrl, resource, OpType.Create, id) == ResourceUrl(apiUrl, resource)
    ensures !LooselySingleType(id) ==>
              UploadUrl(apiUrl, resource, OpType.Update, id) == ItemUrl(apiUrl, resource, id)
  {
    assert ToStr(Arr([Str(SingleType)])) == SingleType by {
      assert ItemsText(Arr([Str(SingleType)]), 1) == SingleType;
    }
  }

  /** update sends the sanitised record wrapped as `{data}`; updateMany
      sends it bare. Both leave the timestamps out. */
  lemma UpdateWrapsUpdateManyDoesNot(apiUrl: string, resource: string, id: Value, fs: Fields)
    ensures UpdateRequest(apiUrl, resource, id, Obj(fs)).Ok?
    ensures UpdateManyRequest(apiUrl, resource, Obj(fs), id).Ok?
    ensures UpdateRequest(apiUrl, resource, id, Obj(fs)).value.body == JsonBody(Obj([("data", Obj(Sanitize(fs)))]))
    ensures UpdateManyRequest(apiUrl, resource, Obj(fs), id).value.body == JsonBody(Obj(Sanitize(fs)))
    ensures forall k :: k in Timestamps ==> k !in Keys(Sanitize(fs))
  {
    forall k | k in Timestamps ensures k !in Keys(Sanitize(fs)) {
      OmitGet(fs, Timestamps, k);
    }
  }

  /** A fan-out fails exactly when a request or a formatting fails; it
      otherwise holds one formatted body per request, in request order. */
  lemma {:induction false} FanOutFormattedInOrder(transport: Transport, apiUrl: string, reqs: seq<Request>)
    ensures var r := FanOutFormatted(transport, apiUrl, reqs);
            && (r.Ok? <==> forall i :: 0 <= i < |reqs| ==>
                             transport(reqs[i]).Ok? && FormatResponse(apiUrl, transport(reqs[i]).value).Ok?)
            && (r.Ok? ==>
                  && r.value.total == None && r.value.data.Arr? && |r.value.data.items| == |reqs|
                  && forall i :: 0 <= i < |reqs| ==>
                       r.value.data.items[i] == FormatResponse(apiUrl, transport(reqs[i]).value).value)
  {
    MapAllInOrder(transport, reqs);
    var responses := FanOut(transport, reqs);
    if responses.Ok? {
      var rs := responses.value;
      MapAllInOrder(FormatWith(apiUrl), rs);
      assert forall i :: 0 <= i < |reqs| ==> rs[i] == transport(reqs[i]).value;
    }
  }

  /** deleteMany succeeds exactly when every delete and every formatting
      succeeds; it then holds one formatted body per id, in the order of the
      ids. */
  lemma DeleteManyInOrder(transport: Transport, apiUrl: string, resource: string, ids: seq<Value>)
    ensures var r := DeleteMany(transport, apiUrl, resource, ids);
            r.Ok? <==> forall i :: 0 <= i < |ids| ==>
                         var res := transport(DeleteManyRequest(apiUrl, resource, ids[i]));
                         res.Ok? && FormatResponse(apiUrl, res.value).Ok?
    ensures var r := DeleteMany(transport, apiUrl, resource, ids);
            r.Ok? ==>
              && r.value.data.Arr? && |r.value.data.items| == |ids|
              && forall i :: 0 <= i < |ids| ==>
                   var res := transport(DeleteManyRequest(apiUrl, resource, ids[i]));
                   res.Ok? && FormatResponse(apiUrl, res.value).Ok? &&
                   r.value.data.items[i] == FormatResponse(apiUrl, res.value).value
  {
    var reqs := seq(|ids|, i requires 0 <= i < |ids| => DeleteManyRequest(apiUrl, resource, ids[i]));
    FanOutFormattedInOrder(transport, apiUrl, reqs);
    var r := DeleteMany(transport, apiUrl, resource, ids);
    assert r == FanOutFormatted(transport, apiUrl, reqs);
    assert forall i :: 0 <= i < |ids| ==> reqs[i] == DeleteManyRequest(apiUrl, resource, ids[i]);
    if r.Ok? {
      forall i | 0 <= i < |ids|
        ensures var res := transport(DeleteManyRequest(apiUrl, resource, ids[i]));
                res.Ok? && FormatResponse(apiUrl, res.value).Ok? &&
                r.value.data.items[i] == FormatResponse(apiUrl, res.value).value
      {
        assert reqs[i] == DeleteManyRequest(apiUrl, resource, ids[i]);
      }
    }
  }

  /** updateMany: with no ids it sends nothing and resolves to an empty list,
      whatever `data` is; with ids and a null record it is a TypeError;
      with ids and a record it succeeds exactly when every PUT and every
      formatting succeeds; it then holds one formatted body per id, in the
      order of the ids. */
  lemma UpdateManyInOrder(transport: Transport, apiUrl: string, resource: string, ids: seq<Value>, data: Value)
    ensures ids == [] ==> UpdateMany(transport, apiUrl, resource, ids, data) == Ok(Envelope(Arr([]), None))
    ensures ids != [] && Nullish(data) ==> UpdateMany(transport, apiUrl, resource, ids, data) == Err(TypeError)
    ensures var r := UpdateMany(transport, apiUrl, resource, ids, data);
            r.Ok? <==> ids == [] || (!Nullish(data) && forall i :: 0 <= i < |ids| ==>
                         var req := UpdateManyRequest(apiUrl, resource, data, ids[i]);
                         req.Ok? && transport(req.value).Ok? && FormatResponse(apiUrl, transport(req.value).value).Ok?)
    ensures var r := UpdateMany(transport, apiUrl, resource, ids, data);
            r.Ok? ==>
              && r.value.data.Arr? && |r.value.data.items| == |ids|
              && forall i :: 0 <= i < |ids| ==>
                   var req := UpdateManyRequest(apiUrl, resource, data, ids[i]);
                   req.Ok? && transport(req.value).Ok? && FormatResponse(apiUrl, transport(req.value).value).Ok? &&
                   r.value.data.items[i] == FormatResponse(apiUrl, transport(req.value).value).value
  {
    var f := UpdateManyRequestWith(apiUrl, resource, data);
    MapAllInOrder(f, ids);
    if ids != [] && Nullish(data) {
      MapAllFirstFailure(f, ids, 0);
    }
    var reqs := MapAll(f, ids);
    if reqs.Ok? {
      FanOutFormattedInOrder(transport, apiUrl, reqs.value);
    }
  }

  /** An object id whose own `data` is null. */
  predicate NullData(x: Value) {
    x.Obj? && "data" in Keys(x.fields) && Get(x.fields, "data") == Null
  }

  /** The ids without null data, in order: an order-preserving filter,
      written from the end of the list. */
  function DropNullData(ids: seq<Value>): seq<Value> {
    if ids == [] then []
    else DropNullData(ids[..|ids| - 1]) + (if NullData(ids[|ids| - 1]) then [] else [ids[|ids| - 1]])
  }

  lemma {:induction false} DropNullDataCons(x: Value, rest: seq<Value>)
    ensures DropNullData([x] + rest) == (if NullData(x) then [] else [x]) + DropNullData(rest)
    decreases |rest|
  {
    if rest != [] {
      var last := rest[|rest| - 1];
      assert ([x] + rest)[..|rest|] == [x] + rest[..|rest| - 1];
      DropNullDataCons(x, rest[..|rest| - 1]);
    } else {
      assert DropNullData([x]) == DropNullData([]) + (if NullData(x) then [] else [x]);
    }
  }

  lemma {:induction false} DropNullDataMembers(ids: seq<Value>)
    ensures forall x :: x in DropNullData(ids) <==> x in ids && !NullData(x)
    ensures (forall i :: 0 <= i < |ids| ==> !NullData(ids[i])) ==> DropNullData(ids) == ids
  {
    if ids != [] {
      DropNullDataMembers(ids[..|ids| - 1]);
      assert ids == ids[..|ids| - 1] + [ids[|ids| - 1]];
      if forall i :: 0 <= i < |ids| ==> !NullData(ids[i]) {
        assert forall i :: 0 <= i < |ids| - 1 ==> ids[..|ids| - 1][i] == ids[i];
      }
    }
  }

  /** getMany's filter fails exactly on a null id; otherwise it is the
      order-preserving filter that drops the ids with null data, so it keeps
      exactly the other ids, each in its place, and all of them when none
      has null data. */
  lemma KeptIdsFilter(ids: seq<Value>)
    ensures KeptIds(ids).Ok? <==> Null !in ids
    ensures KeptIds(ids).Ok? ==> KeptIds(ids).value == DropNullData(ids)
    ensures KeptIds(ids).Ok? ==> forall x :: x in KeptIds(ids).value <==> x in ids && !NullData(x)
    ensures KeptIds(ids).Ok? && (forall i :: 0 <= i < |ids| ==> !NullData(ids[i])) ==> KeptIds(ids).value == ids
  {
    KeptIdsIsDropNullData(ids);
    DropNullDataMembers(ids);
  }

  lemma {:induction false} KeptIdsIsDropNullData(ids: seq<Value>)
    ensures KeptIds(ids).Ok? <==> Null !in ids
    ensures KeptIds(ids).Ok? ==> KeptIds(ids).value == DropNullData(ids)
  {
    if ids != [] {
      var x, rest := ids[0], ids[1..];
      assert ids == [x] + rest;
      KeptIdsIsDropNullData(rest);
      if x != Null && KeptIds(rest).Ok? {
        var head := if NullData(x) then [] else [x];
        assert KeptIds(ids) == Ok(head + KeptIds(rest).value);
        DropNullDataCons(x, rest);
      } else if x != Null {
        assert Null in rest;
      }
    }
  }

  /** What getMany resolves one kept id to: its request, the call and the
      formatted data of the answer. */
  function GetManyAnswer(transport: Transport, apiUrl: string, resource: string, i: Value): Result<Value> {
    var req :- GetManyRequest(apiUrl, resource, i);
    var res :- transport(req);
    FormatResponse(apiUrl, res)
  }

  /** getMany answers in the order of its ids: it succeeds exactly when no id
      is null and every kept id's request, call and formatting succeed, and
      then its i-th record is the answer for the i-th id without null data.
      An empty id list resolves to an empty list without any call. */
  lemma GetManyInOrder(transport: Transport, apiUrl: string, resource: string, ids: seq<Value>)
    ensures var kept := DropNullData(ids);
            var r := GetMany(transport, apiUrl, resource, ids);
            && (r.Ok? <==> Null !in ids && forall i :: 0 <= i < |kept| ==> GetManyAnswer(transport, apiUrl, resource, kept[i]).Ok?)
            && (r.Ok? ==>
                  && r.value.total == None && r.value.data.Arr? && |r.value.data.items| == |kept|
                  && forall i :: 0 <= i < |kept| ==>
                       r.value.data.items[i] == GetManyAnswer(transport, apiUrl, resource, kept[i]).value)
  {
    KeptIdsFilter(ids);
    if ids != [] && Null !in ids {
      var kept := DropNullData(ids);
      GetManyFanOut(transport, apiUrl, resource, kept);
    }
  }

  lemma GetManyFanOut(transport: Transport, apiUrl: string, resource: string, kept: seq<Value>)
    ensures var reqs := MapAll(GetManyRequestWith(apiUrl, resource), kept);
            var r := if reqs.Err? then Err(reqs.error) else FanOutFormatted(transport, apiUrl, reqs.value);
            && (r.Ok? <==> forall i :: 0 <= i < |kept| ==> GetManyAnswer(transport, apiUrl, resource, kept[i]).Ok?)
            && (r.Ok? ==>
                  && r.value.total == None && r.value.data.Arr? && |r.value.data.items| == |kept|
                  && forall i :: 0 <= i < |kept| ==>
                       r.value.data.items[i] == GetManyAnswer(transport, apiUrl, resource, kept[i]).value)
  {
    var f := GetManyRequestWith(apiUrl, resource);
    MapAllInOrder(f, kept);
    assert forall i :: 0 <= i < |kept| ==> f(kept[i]) == GetManyRequest(apiUrl, resource, kept[i]);
    var reqs := MapAll(f, kept);
    if reqs.Ok? {
      FanOutFormattedInOrder(transport, apiUrl, reqs.value);
    }
  }
}
