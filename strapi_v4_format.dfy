/** Response formatting of the Strapi v4 provider (index.ts): records arrive
    as `{id, attributes}`, relations as `{data: ...}` envelopes, media
    relations with a `mime` marker and a relative `url`. */
module StrapiV4Format {
  import opened Outcome
  import opened JsValues

  /** `apiUrl.replace(/\/api$/, "")`. */
  function StripApiSuffix(apiUrl: string): (r: string)
    ensures |apiUrl| >= 4 && apiUrl[|apiUrl| - 4..] == "/api" ==> apiUrl == r + "/api"
    ensures !(|apiUrl| >= 4 && apiUrl[|apiUrl| - 4..] == "/api") ==> r == apiUrl
  {
    if |apiUrl| >= 4 && apiUrl[|apiUrl| - 4..] == "/api" then apiUrl[..|apiUrl| - 4] else apiUrl
  }

  /** `processUrl(url)`: the absolute URL of a media file. */
  function MediaUrl(apiUrl: string, url: Value): string {
    StripApiSuffix(apiUrl) + ToStr(url)
  }

  /** A media record `{id, attributes}` flattened to `{id, ...attributes, url}`. */
  function MediaRecord(apiUrl: string, e: Value): Result<Value> {
    if Nullish(e) then Err(TypeError)
    else
      var attributes := Prop(e, "attributes");
      if Nullish(attributes) then Err(TypeError)
      else
        var flat := SpreadValue([("id", Prop(e, "id"))], attributes);
        Ok(Obj(Put(flat, "url", Str(MediaUrl(apiUrl, Prop(attributes, "url"))))))
  }

  /** `({id}) => id`. */
  function RelationId(e: Value): Result<Value> {
    if Nullish(e) then Err(TypeError) else Ok(Prop(e, "id"))
  }

  /** `data && (data[0]?.attributes?.mime || data.attributes?.mime)`: only the
      first element of an array relation is looked at. */
  predicate IsMime(data: Value) {
    Truthy(data) &&
    (Truthy(OptProp(OptProp(First(data), "attributes"), "mime")) ||
     Truthy(OptProp(Prop(data, "attributes"), "mime")))
  }

  /** What one turn of processItem's `for…in` loop does with a field value:
      None when it `continue`s, the new value when it assigns one. */
  function FieldRewrite(apiUrl: string, v: Value): Result<Option<Value>> {
    var data := if Truthy(v) then Prop(v, "data") else Undefined;
    if !Truthy(data) || (data.Arr? && OptProp(First(data), "length") == Num(0)) then Ok(None)
    else if data.Arr? && IsMime(data) then
      var media :- MapAll((e: Value) => MediaRecord(apiUrl, e), data.items);
      Ok(Some(Arr(media)))
    else if IsMime(data) then
      var media :- MediaRecord(apiUrl, data);
      Ok(Some(media))
    else if data.Arr? then
      var ids :- MapAll(RelationId, data.items);
      Ok(Some(Arr(ids)))
    else if Nullish(Prop(data, "id")) then Err(TypeError)
    else Ok(Some(Str(ToStr(Prop(data, "id")))))
  }

  /** The value a field holds after its turn of the loop. */
  function RewriteValue(apiUrl: string, v: Value): Result<Value> {
    var w :- FieldRewrite(apiUrl, v);
    Ok(if w.Some? then w.value else v)
  }

  function RewritePair(apiUrl: string, p: (string, Value)): Result<(string, Value)> {
    var v :- RewriteValue(apiUrl, p.1);
    Ok((p.0, v))
  }

  function RewriteWith(apiUrl: string): ((string, Value)) -> Result<(string, Value)> {
    p => RewritePair(apiUrl, p)
  }

  /** `{id: item.id, ...item.attributes}`, before its fields are rewritten. */
  function Flatten(item: Value): Fields
    requires !Nullish(item)
  {
    SpreadValue([("id", Prop(item, "id"))], Prop(item, "attributes"))
  }

  /** processItem: flatten the record, then rewrite each field in key order. */
  function ProcessedItem(apiUrl: string, item: Value): Result<Value> {
    if Nullish(item) then Err(TypeError)
    else
      var fs :- MapAll(RewriteWith(apiUrl), Flatten(item));
      Ok(Obj(fs))
  }

  function ProcessWith(apiUrl: string): Value -> Result<Value> {
    x => ProcessedItem(apiUrl, x)
  }

  /** formatResponseForRa: falsy or empty input as it is, an array item by
      item, anything else as one record. */
  function FormatResponseForRa(apiUrl: string, input: Value): (r: Result<Value>)
    ensures !Truthy(input) ==> r == Ok(input)
    ensures input == Arr([]) ==> r == Ok(input)
  {
    if !Truthy(input) || Prop(input, "length") == Num(0) then Ok(input)
    else if input.Arr? then
      var items :- MapAll(ProcessWith(apiUrl), input.items);
      Ok(Arr(items))
    else ProcessedItem(apiUrl, input)
  }

  lemma FlattenDistinct(item: Value)
    requires !Nullish(item)
    ensures DistinctKeys(Flatten(item))
  {
    var attributes := Prop(item, "attributes");
    if attributes.Obj? {
      SpreadDistinct([("id", Prop(item, "id"))], attributes.fields);
    }
  }

  /** processItem, as written: a `for…in` loop over the flattened record
      that assigns `json[key]` unless it skips the field. */
  method ProcessItem(apiUrl: string, item: Value) returns (r: Result<Value>)
    ensures r == ProcessedItem(apiUrl, item)
  {
    if Nullish(item) {
      return Err(TypeError);
    }
    var json := Flatten(item);
    FlattenDistinct(item);
    ghost var orig := json;
    var keys := Keys(json);
    var i := 0;
    while i < |keys|
      invariant 0 <= i <= |keys| == |json| == |orig|
      invariant DistinctKeys(json) && Keys(json) == keys
      invariant forall j :: i <= j < |json| ==> json[j] == orig[j]
      invariant forall j :: 0 <= j < i ==> RewritePair(apiUrl, orig[j]) == Ok(json[j])
    {
      var key := keys[i];
      GetAt(json, i);
      var w := FieldRewrite(apiUrl, Get(json, key));
      if w.Err? {
        MapAllFirstFailure(RewriteWith(apiUrl), orig, i);
        return Err(w.error);
      }
      if w.value.Some? {
        PutAt(json, i, w.value.value);
        PutDistinct(json, key, w.value.value);
        PutKeys(json, key, w.value.value);
        json := Put(json, key, w.value.value);
      }
      i := i + 1;
    }
    MapAllInOrder(RewriteWith(apiUrl), orig);
    assert MapAll(RewriteWith(apiUrl), orig).value == json;
    return Ok(Obj(json));
  }

  // ---------------------------------------------------------------------------
  // Properties of the formatting

  /** A list is formatted record by record: it fails exactly when a record
      fails, and otherwise keeps its length and order. */
  lemma FormatListInOrder(apiUrl: string, items: seq<Value>)
    requires |items| > 0
    ensures var r := FormatResponseForRa(apiUrl, Arr(items));
            && (r.Ok? <==> forall i :: 0 <= i < |items| ==> ProcessedItem(apiUrl, items[i]).Ok?)
            && (r.Ok? ==>
                  && r.value.Arr? && |r.value.items| == |items|
                  && forall i :: 0 <= i < |items| ==> r.value.items[i] == ProcessedItem(apiUrl, items[i]).value)
  {
    MapAllInOrder(ProcessWith(apiUrl), items);
  }

  lemma {:induction false} FlattenShape(item: Value)
    requires !Nullish(item) && Prop(item, "attributes").Obj?
    requires DistinctKeys(Prop(item, "attributes").fields)
    requires "id" !in Keys(Prop(item, "attributes").fields)
    ensures Flatten(item) == [("id", Prop(item, "id"))] + Prop(item, "attributes").fields
  {
    var attrs := Prop(item, "attributes").fields;
    var into := [("id", Prop(item, "id"))];
    assert Keys(into) == ["id"];
    forall i | 0 <= i < |attrs| ensures attrs[i].0 !in Keys(into) {
      assert attrs[i].0 == Keys(attrs)[i];
    }
    SpreadFresh(into, attrs);
  }

  /** Rewriting keeps every key in place and rewrites each value on its own. */
  lemma RewriteFieldsInOrder(apiUrl: string, flat: Fields)
    ensures var r := MapAll(RewriteWith(apiUrl), flat);
            && (r.Ok? <==> forall i :: 0 <= i < |flat| ==> RewriteValue(apiUrl, flat[i].1).Ok?)
            && (r.Ok? ==>
                  && Keys(r.value) == Keys(flat)
                  && forall i :: 0 <= i < |flat| ==> r.value[i].1 == RewriteValue(apiUrl, flat[i].1).value)
  {
    MapAllInOrder(RewriteWith(apiUrl), flat);
    assert forall i :: 0 <= i < |flat| ==> RewriteWith(apiUrl)(flat[i]) == RewritePair(apiUrl, flat[i]);
  }

  /** A record `{id, attributes}` becomes `id` followed by its attributes, in
      order, each with its value rewritten. */
  lemma ProcessedItemShape(apiUrl: string, item: Value)
    requires !Nullish(item) && Prop(item, "attributes").Obj?
    requires DistinctKeys(Prop(item, "attributes").fields)
    requires "id" !in Keys(Prop(item, "attributes").fields)
    ensures var attrs := Prop(item, "attributes").fields;
            var r := ProcessedItem(apiUrl, item);
            && (r.Ok? <==>
                  && RewriteValue(apiUrl, Prop(item, "id")).Ok?
                  && forall i :: 0 <= i < |attrs| ==> RewriteValue(apiUrl, attrs[i].1).Ok?)
            && (r.Ok? ==>
                  && r.value.Obj? && Keys(r.value.fields) == ["id"] + Keys(attrs)
                  && r.value.fields[0].1 == RewriteValue(apiUrl, Prop(item, "id")).value
                  && forall i :: 0 <= i < |attrs| ==> r.value.fields[i + 1].1 == RewriteValue(apiUrl, attrs[i].1).value)
  {
    var attrs := Prop(item, "attributes").fields;
    FlattenShape(item);
    var flat := Flatten(item);
    RewriteFieldsInOrder(apiUrl, flat);
    KeysCons(("id", Prop(item, "id")), attrs);
    assert flat[0].1 == Prop(item, "id");
    assert forall i :: 0 <= i < |attrs| ==> flat[i + 1] == attrs[i];
    if RewriteValue(apiUrl, Prop(item, "id")).Ok? && forall i :: 0 <= i < |attrs| ==> RewriteValue(apiUrl, attrs[i].1).Ok? {
      forall i | 0 <= i < |flat| ensures RewriteValue(apiUrl, flat[i].1).Ok? {
        if i > 0 {
          assert flat[i] == attrs[i - 1];
        }
      }
    }
  }

  /** A processed record always has `id` as its first key: an `id` among
      the attributes overwrites the value in place and never moves it. */
  lemma ProcessedItemHasId(apiUrl: string, item: Value)
    ensures var r := ProcessedItem(apiUrl, item);
            r.Ok? ==> r.value.Obj? && |r.value.fields| > 0 && r.value.fields[0].0 == "id"
  {
    if !Nullish(item) {
      var flat := Flatten(item);
      var attributes := Prop(item, "attributes");
      if attributes.Obj? {
        SpreadKeepsFirstKey([("id", Prop(item, "id"))], attributes.fields);
      }
      assert |flat| > 0 && flat[0].0 == "id";
      RewriteFieldsInOrder(apiUrl, flat);
      var r := MapAll(RewriteWith(apiUrl), flat);
      if r.Ok? {
        assert Keys(r.value)[0] == Keys(flat)[0];
      }
    }
  }

  /** formatResponseForRa keeps the shape react-admin expects: a falsy
      input comes back as it is; an array comes back as an array of the same
      length whose elements are records led by `id`; any other input that
      is not empty comes back as one record led by `id`. */
  lemma FormatKeepsShape(apiUrl: string, input: Value)
    ensures var r := FormatResponseForRa(apiUrl, input);
            && (!Truthy(input) ==> r == Ok(input))
            && (r.Ok? && input.Arr? ==>
                  && r.value.Arr? && |r.value.items| == |input.items|
                  && forall i :: 0 <= i < |input.items| ==>
                       r.value.items[i].Obj? && |r.value.items[i].fields| > 0 && r.value.items[i].fields[0].0 == "id")
            && (r.Ok? && Truthy(input) && !input.Arr? && Prop(input, "length") != Num(0) ==>
                  r.value.Obj? && |r.value.fields| > 0 && r.value.fields[0].0 == "id")
  {
    var r := FormatResponseForRa(apiUrl, input);
    if input.Arr? && |input.items| > 0 {
      FormatListInOrder(apiUrl, input.items);
      if r.Ok? {
        forall i | 0 <= i < |input.items|
          ensures r.value.items[i].Obj? && |r.value.items[i].fields| > 0 && r.value.items[i].fields[0].0 == "id"
        {
          ProcessedItemHasId(apiUrl, input.items[i]);
        }
      }
    } else if Truthy(input) && !input.Arr? {
      ProcessedItemHasId(apiUrl, input);
    }
  }

  /** In a processed record, each attribute sits at its own key with its
      rewritten value: a field without data keeps its value, a single
      relation without a media marker holds its id as a string, and a
      single relation without an id makes the whole record fail. */
  lemma ProcessedFieldAtKey(apiUrl: string, item: Value, k: string)
    requires !Nullish(item) && Prop(item, "attributes").Obj?
    requires DistinctKeys(Prop(item, "attributes").fields)
    requires "id" !in Keys(Prop(item, "attributes").fields)
    requires k in Keys(Prop(item, "attributes").fields)
    ensures var v := Get(Prop(item, "attributes").fields, k);
            var r := ProcessedItem(apiUrl, item);
            && (RewriteValue(apiUrl, v).Err? ==> r.Err?)
            && (r.Ok? ==> r.value.Obj? && Get(r.value.fields, k) == RewriteValue(apiUrl, v).value)
            && (r.Ok? && (!Truthy(v) || !Truthy(Prop(v, "data"))) ==> Get(r.value.fields, k) == v)
            && (Truthy(v) && Prop(v, "data").Obj? && !IsMime(Prop(v, "data")) ==>
                  if Nullish(Get(Prop(v, "data").fields, "id")) then r.Err?
                  else r.Ok? ==> Get(r.value.fields, k) == Str(ToStr(Get(Prop(v, "data").fields, "id"))))
  {
    var v := Get(Prop(item, "attributes").fields, k);
    ProcessedGet(apiUrl, item, k);
    RewriteCases(apiUrl, v);
  }

  lemma RewriteCases(apiUrl: string, v: Value)
    ensures !Truthy(v) || !Truthy(Prop(v, "data")) ==> RewriteValue(apiUrl, v) == Ok(v)
    ensures Truthy(v) && Prop(v, "data").Obj? && !IsMime(Prop(v, "data")) ==>
              RewriteValue(apiUrl, v) ==
                if Nullish(Get(Prop(v, "data").fields, "id")) then Err(TypeError)
                else Ok(Str(ToStr(Get(Prop(v, "data").fields, "id"))))
  {
  }

  lemma ProcessedGet(apiUrl: string, item: Value, k: string)
    requires !Nullish(item) && Prop(item, "attributes").Obj?
    requires DistinctKeys(Prop(item, "attributes").fields)
    requires "id" !in Keys(Prop(item, "attributes").fields)
    requires k in Keys(Prop(item, "attributes").fields)
    ensures var v := Get(Prop(item, "attributes").fields, k);
            var r := ProcessedItem(apiUrl, item);
            && (RewriteValue(apiUrl, v).Err? ==> r.Err?)
            && (r.Ok? ==> r.value.Obj? && Get(r.value.fields, k) == RewriteValue(apiUrl, v).value)
  {
    var attrs := Prop(item, "attributes").fields;
    var i :| 0 <= i < |attrs| && Keys(attrs)[i] == k;
    GetAt(attrs, i);
    FlattenShape(item);
    FlattenDistinct(item);
    var flat := Flatten(item);
    assert flat[i + 1] == attrs[i];
    GetRewritten(apiUrl, flat, i + 1);
  }

  /** Rewriting an object with distinct keys fails when one field fails, and
      otherwise leaves each field's rewritten value at its key. */
  lemma GetRewritten(apiUrl: string, flat: Fields, j: nat)
    requires DistinctKeys(flat) && j < |flat|
    ensures var r := MapAll(RewriteWith(apiUrl), flat);
            && (RewriteValue(apiUrl, flat[j].1).Err? ==> r.Err?)
            && (r.Ok? ==> Get(r.value, flat[j].0) == RewriteValue(apiUrl, flat[j].1).value)
  {
    RewriteFieldsInOrder(apiUrl, flat);
    var r := MapAll(RewriteWith(apiUrl), flat);
    if r.Ok? {
      var out := r.value;
      assert DistinctKeys(out) by {
        forall a, b | 0 <= a < b < |out| ensures out[a].0 != out[b].0 {
          assert out[a].0 == Keys(out)[a] == Keys(flat)[a] == flat[a].0;
          assert out[b].0 == Keys(out)[b] == Keys(flat)[b] == flat[b].0;
        }
      }
      assert out[j].0 == Keys(out)[j] == Keys(flat)[j] == flat[j].0;
      GetAt(out, j);
    }
  }

  /** A relation list without a media marker on its first element becomes
      the list of its elements' ids, in order. */
  lemma RelationListBecomesIds(apiUrl: string, items: seq<Value>)
    requires !IsMime(Arr(items))
    requires items == [] || OptProp(items[0], "length") != Num(0)
    ensures var r := RewriteValue(apiUrl, Obj([("data", Arr(items))]));
            && (r.Ok? <==> forall i :: 0 <= i < |items| ==> !Nullish(items[i]))
            && (r.Ok? ==>
                  && r.value.Arr? && |r.value.items| == |items|
                  && forall i :: 0 <= i < |items| ==> r.value.items[i] == Prop(items[i], "id"))
  {
    MapAllInOrder(RelationId, items);
  }

  /** A media list (a `mime` on its first element) becomes the list of its
      flattened media records, in order. */
  lemma MediaListFlattened(apiUrl: string, items: seq<Value>)
    requires |items| > 0 && IsMime(Arr(items))
    requires OptProp(items[0], "length") != Num(0)
    ensures var r := RewriteValue(apiUrl, Obj([("data", Arr(items))]));
            && (r.Ok? <==> forall i :: 0 <= i < |items| ==> MediaRecord(apiUrl, items[i]).Ok?)
            && (r.Ok? ==>
                  && r.value.Arr? && |r.value.items| == |items|
                  && forall i :: 0 <= i < |items| ==> r.value.items[i] == MediaRecord(apiUrl, items[i]).value)
  {
    MapAllInOrder((e: Value) => MediaRecord(apiUrl, e), items);
  }

  lemma MediaRecordFlat(apiUrl: string, id: Value, attrs: Fields)
    requires DistinctKeys(attrs) && "id" !in Keys(attrs)
    ensures MediaRecord(apiUrl, Obj([("id", id), ("attributes", Obj(attrs))])) ==
              Ok(Obj(Put([("id", id)] + attrs, "url", Str(MediaUrl(apiUrl, Get(attrs, "url"))))))
  {
    var e := Obj([("id", id), ("attributes", Obj(attrs))]);
    GetAt([("id", id), ("attributes", Obj(attrs))], 1);
    FlattenShape(e);
  }

  /** A media record keeps its id first and its attributes after it, and
      its `url` becomes absolute: the base URL without a trailing `/api`,
      then the relative url. */
  lemma {:induction false} MediaRecordShape(apiUrl: string, id: Value, attrs: Fields)
    requires DistinctKeys(attrs) && "id" !in Keys(attrs) && "url" in Keys(attrs)
    ensures var r := MediaRecord(apiUrl, Obj([("id", id), ("attributes", Obj(attrs))]));
            && r.Ok? && r.value.Obj?
            && Keys(r.value.fields) == ["id"] + Keys(attrs)
            && Get(r.value.fields, "id") == id
            && Get(r.value.fields, "url") == Str(StripApiSuffix(apiUrl) + ToStr(Get(attrs, "url")))
            && forall k :: k != "id" && k != "url" ==> Get(r.value.fields, k) == Get(attrs, k)
  {
    MediaRecordFlat(apiUrl, id, attrs);
    var flat := [("id", id)] + attrs;
    var url := Str(MediaUrl(apiUrl, Get(attrs, "url")));
    KeysCons(("id", id), attrs);
    assert "url" in Keys(flat);
    PutKeys(flat, "url", url);
    forall k ensures Get(Put(flat, "url", url), k) == if k == "url" then url else Get(flat, k) {
      PutGet(flat, "url", url, k);
    }
    assert flat[1..] == attrs;
  }

  function CoverAttributes(mime: string, url: string): Fields {
    [("mime", Str(mime)), ("url", Str(url))]
  }

  function CoverMedia(mediaId: int, mime: string, url: string): Value {
    Obj([("id", Num(mediaId)), ("attributes", Obj(CoverAttributes(mime, url)))])
  }

  function CoverFormatted(apiUrl: string, mediaId: int, mime: string, url: string): Value {
    Obj([("id", Num(mediaId)), ("mime", Str(mime)), ("url", Str(StripApiSuffix(apiUrl) + url))])
  }

  /** A trailing `/api` is dropped from the base URL of media files. */
  lemma ExampleMediaUrl()
    ensures StripApiSuffix("http://h/api") == "http://h"
    ensures MediaUrl("http://h/api", Str("/u/5.png")) == "http://h/u/5.png"
  {
    var s := "http://h/api";
    assert s[8..] == "/api";
    assert s[..8] == "http://h";
  }

  lemma CoverIsMedia(mediaId: int, mime: string, url: string)
    requires mime != ""
    ensures IsMime(CoverMedia(mediaId, mime, url))
  {
    assert Prop(CoverMedia(mediaId, mime, url), "attributes") == Obj(CoverAttributes(mime, url)) by {
      GetAt(CoverMedia(mediaId, mime, url).fields, 1);
    }
    assert OptProp(Obj(CoverAttributes(mime, url)), "mime") == Str(mime);
  }

  /** A media record with a mime type and a url is flattened, its url made
      absolute. */
  lemma CoverMediaRecord(apiUrl: string, mediaId: int, mime: string, url: string)
    ensures MediaRecord(apiUrl, CoverMedia(mediaId, mime, url)) == Ok(CoverFormatted(apiUrl, mediaId, mime, url))
  {
    var attrs := CoverAttributes(mime, url);
    assert Keys(attrs) == ["mime", "url"];
    MediaRecordFlat(apiUrl, Num(mediaId), attrs);
    GetAt(attrs, 1);
    assert MediaUrl(apiUrl, Get(attrs, "url")) == StripApiSuffix(apiUrl) + url;
    var flat := [("id", Num(mediaId))] + attrs;
    assert DistinctKeys(flat);
    PutAt(flat, 2, Str(StripApiSuffix(apiUrl) + url));
    assert flat[2 := ("url", Str(StripApiSuffix(apiUrl) + url))] == CoverFormatted(apiUrl, mediaId, mime, url).fields;
  }

  /** The cover field of the example below: its media relation is flattened. */
  lemma CoverFieldRewrite(apiUrl: string, mediaId: int, mime: string, url: string)
    requires mime != ""
    ensures RewriteValue(apiUrl, Obj([("data", CoverMedia(mediaId, mime, url))])) == Ok(CoverFormatted(apiUrl, mediaId, mime, url))
  {
    CoverIsMedia(mediaId, mime, url);
    CoverMediaRecord(apiUrl, mediaId, mime, url);
  }

  /** With the base URL `http://h/api` and the url `/u/5.png` the cover's
      url is `http://h/u/5.png`. */
  lemma CoverExampleUrl()
    ensures CoverFormatted("http://h/api", 5, "image/png", "/u/5.png") ==
              Obj([("id", Num(5)), ("mime", Str("image/png")), ("url", Str("http://h/u/5.png"))])
  {
    ExampleMediaUrl();
  }

  lemma TitledRecordFlattened(id: int, title: string, cover: Value)
    ensures Flatten(Obj([("id", Num(id)), ("attributes", Obj([("title", Str(title)), ("cover", cover)]))])) ==
              [("id", Num(id)), ("title", Str(title)), ("cover", cover)]
  {
    var attrs := [("title", Str(title)), ("cover", cover)];
    var item := Obj([("id", Num(id)), ("attributes", Obj(attrs))]);
    GetAt(item.fields, 1);
    assert Keys(attrs) == ["title", "cover"];
    FlattenShape(item);
  }

  lemma RewriteFieldsTo(apiUrl: string, flat: Fields, out: Fields)
    requires |out| == |flat|
    requires forall i :: 0 <= i < |flat| ==> out[i].0 == flat[i].0 && RewriteValue(apiUrl, flat[i].1) == Ok(out[i].1)
    ensures MapAll(RewriteWith(apiUrl), flat) == Ok(out)
  {
    RewriteFieldsInOrder(apiUrl, flat);
    var r := MapAll(RewriteWith(apiUrl), flat).value;
    assert forall i :: 0 <= i < |flat| ==> r[i].0 == Keys(r)[i] == Keys(flat)[i] == flat[i].0;
    assert r == out;
  }

  /** A record with a title and a cover image: the image relation is
      flattened and its url made absolute, the other fields are kept. */
  lemma CoverImageExample(apiUrl: string, id: int, title: string, mediaId: int, mime: string, url: string)
    requires mime != ""
    ensures ProcessedItem(apiUrl,
              Obj([("id", Num(id)),
                   ("attributes", Obj([("title", Str(title)), ("cover", Obj([("data", CoverMedia(mediaId, mime, url))]))]))]))
            == Ok(Obj([("id", Num(id)), ("title", Str(title)), ("cover", CoverFormatted(apiUrl, mediaId, mime, url))]))
  {
    var cover := Obj([("data", CoverMedia(mediaId, mime, url))]);
    TitledRecordFlattened(id, title, cover);
    var flat := [("id", Num(id)), ("title", Str(title)), ("cover", cover)];
    var out := [("id", Num(id)), ("title", Str(title)), ("cover", CoverFormatted(apiUrl, mediaId, mime, url))];
    CoverFieldRewrite(apiUrl, mediaId, mime, url);
    assert RewriteValue(apiUrl, flat[0].1) == Ok(out[0].1);
    assert RewriteValue(apiUrl, flat[1].1) == Ok(out[1].1);
    RewriteFieldsTo(apiUrl, flat, out);
  }

  lemma NotMediaList(a: Value, b: Value)
    requires a == Obj([("id", Num(1)), ("attributes", Obj([]))])
    ensures !IsMime(Arr([a, b]))
  {
    assert Prop(a, "attributes") == Obj([]);
  }

  /** Media detection looks only at the first element: a list whose second
      element is an image is still reduced to ids. */
  lemma MediaMarkerOnlyOnFirstElement()
    ensures RewriteValue("http://h/api",
              Obj([("data", Arr([Obj([("id", Num(1)), ("attributes", Obj([]))]),
                                 Obj([("id", Num(2)), ("attributes", Obj([("mime", Str("image/png"))]))])]))]))
            == Ok(Arr([Num(1), Num(2)]))
  {
    var a := Obj([("id", Num(1)), ("attributes", Obj([]))]);
    var b := Obj([("id", Num(2)), ("attributes", Obj([("mime", Str("image/png"))]))]);
    NotMediaList(a, b);
    assert RelationId(a) == Ok(Num(1)) && RelationId(b) == Ok(Num(2));
    MapAllInOrder(RelationId, [a, b]);
    assert MapAll(RelationId, [a, b]).value == [Num(1), Num(2)];
  }

  /** An empty relation list is not skipped: it becomes an empty id list. */
  lemma EmptyRelationList(apiUrl: string)
    ensures RewriteValue(apiUrl, Obj([("data", Arr([]))])) == Ok(Arr([]))
  {
  }
}

