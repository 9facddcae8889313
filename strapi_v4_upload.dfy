/** Upload detection and the multipart partition of the Strapi v4 provider
    (index.ts): a field needs an upload when its value holds, at any depth,
    an object with a `rawFile` key; each upload field's items are split into
    new files, sent as form parts, and existing files, kept as ids. */
module StrapiV4Upload {
  import opened Outcome
  import opened JsValues
  import opened Http

  /** `hasRawFile`: a truthy object value that has a `rawFile` key or a
      member that has one. For an array, `value.some(hasRawFile)` and
      `Object.values(value).some(hasRawFile)` look at the same elements. */
  predicate HasRawFile(v: Value)
    decreases v
  {
    match v
    case Obj(fs) => "rawFile" in Keys(fs) || exists i :: 0 <= i < |fs| && HasRawFile(fs[i].1)
    case Arr(xs) => exists i :: 0 <= i < |xs| && HasRawFile(xs[i])
    case _ => false
  }

  /** The value reached from `v` by following member positions: the i-th
      value of an object, the i-th element of an array. */
  function Follow(v: Value, path: seq<nat>): Option<Value>
    decreases |path|
  {
    if path == [] then Some(v)
    else match v
      case Obj(fs) => if path[0] < |fs| then Follow(fs[path[0]].1, path[1..]) else None
      case Arr(xs) => if path[0] < |xs| then Follow(xs[path[0]], path[1..]) else None
      case _ => None
  }

  predicate MarksRawFile(v: Value) {
    v.Obj? && "rawFile" in Keys(v.fields)
  }

  /** Some object reachable from `v`, `v` included, has a `rawFile` key. */
  ghost predicate RawFileSomewhere(v: Value) {
    exists path :: Follow(v, path).Some? && MarksRawFile(Follow(v, path).value)
  }

  lemma {:induction false} FollowStep(v: Value, i: nat, c: Value, path: seq<nat>)
    requires (v.Obj? && i < |v.fields| && c == v.fields[i].1) || (v.Arr? && i < |v.items| && c == v.items[i])
    ensures Follow(v, [i] + path) == Follow(c, path)
  {
    assert ([i] + path)[1..] == path;
  }

  lemma {:induction false} RawFileOnPath(v: Value, path: seq<nat>)
    requires Follow(v, path).Some? && MarksRawFile(Follow(v, path).value)
    ensures HasRawFile(v)
    decreases |path|
  {
    if path != [] {
      match v
      case Obj(fs) =>
        RawFileOnPath(fs[path[0]].1, path[1..]);
      case Arr(xs) =>
        RawFileOnPath(xs[path[0]], path[1..]);
    }
  }

  lemma {:induction false} PathToRawFile(v: Value) returns (path: seq<nat>)
    requires HasRawFile(v)
    ensures Follow(v, path).Some? && MarksRawFile(Follow(v, path).value)
    decreases v
  {
    match v
    case Obj(fs) =>
      if "rawFile" in Keys(fs) {
        path := [];
      } else {
        var i :| 0 <= i < |fs| && HasRawFile(fs[i].1);
        var rest := PathToRawFile(fs[i].1);
        FollowStep(v, i, fs[i].1, rest);
        path := [i] + rest;
      }
    case Arr(xs) =>
      var i :| 0 <= i < |xs| && HasRawFile(xs[i]);
      var rest := PathToRawFile(xs[i]);
      FollowStep(v, i, xs[i], rest);
      path := [i] + rest;
  }

  /** The recursive detector finds a `rawFile` key exactly when one is
      reachable at some depth. */
  lemma HasRawFileIffReachable(v: Value)
    ensures HasRawFile(v) <==> RawFileSomewhere(v)
  {
    if HasRawFile(v) {
      var path := PathToRawFile(v);
    }
    if RawFileSomewhere(v) {
      var path :| Follow(v, path).Some? && MarksRawFile(Follow(v, path).value);
      RawFileOnPath(v, path);
    }
  }

  /** `xs` lists some of the elements of `ys`, in their order there. */
  predicate IsSubsequence(xs: seq<string>, ys: seq<string>)
    decreases |ys|
  {
    if xs == [] then true
    else if ys == [] then false
    else if xs[0] == ys[0] then IsSubsequence(xs[1..], ys[1..])
    else IsSubsequence(xs, ys[1..])
  }

  /** `Object.keys(data).filter(key => hasRawFile(data[key]))` over the keys
      from position n on. */
  function RawFileKeys(fs: Fields, n: nat): (names: seq<string>)
    requires n <= |fs|
    ensures forall k :: k in names <==> exists i :: n <= i < |fs| && fs[i].0 == k && HasRawFile(Get(fs, k))
    ensures IsSubsequence(names, Keys(fs)[n..])
    decreases |fs| - n
  {
    if n == |fs| then []
    else
      var rest := RawFileKeys(fs, n + 1);
      assert Keys(fs)[n..][1..] == Keys(fs)[n + 1..];
      if HasRawFile(Get(fs, fs[n].0)) then [fs[n].0] + rest else rest
  }

  /** `getUploadFieldNames`: none for a falsy or non-object `data`, else the
      keys whose value holds a raw file, in key order. Arrays given as data
      are read as having no keys (see README). */
  function UploadFieldNames(data: Value): (names: seq<string>)
    ensures !data.Obj? ==> names == []
    ensures data.Obj? ==>
              && (forall k :: k in names <==> k in Keys(data.fields) && HasRawFile(Get(data.fields, k)))
              && IsSubsequence(names, Keys(data.fields))
  {
    if data.Obj? then
      assert Keys(data.fields)[0..] == Keys(data.fields);
      RawFileKeys(data.fields, 0)
    else []
  }

  // ---------------------------------------------------------------------------
  // The partition of one upload field

  /** `item.id || item._id`. */
  function IdOf(item: Value): Value
    requires !Nullish(item)
  {
    var id := Prop(item, "id");
    if Truthy(id) then id else Prop(item, "_id")
  }

  function FilePartName(field: string): string {
    "files." + field
  }

  /** The form parts and the kept ids after the `reduce` has seen the items;
      reading `rawFile` of a null or undefined item throws. */
  function Partition(field: string, items: seq<Value>): Result<(seq<Part>, seq<Value>)>
    decreases |items|
  {
    if items == [] then Ok(([], []))
    else
      var acc :- Partition(field, items[..|items| - 1]);
      var item := items[|items| - 1];
      if Nullish(item) then Err(TypeError)
      else if IsNewFile(item) then Ok((acc.0 + [FilePart(FilePartName(field), Prop(item, "rawFile"))], acc.1))
      else Ok((acc.0, acc.1 + [IdOf(item)]))
  }

  /** The raw files of the new items, in order (the first filter). */
  function NewFiles(items: seq<Value>): seq<Value> {
    if items == [] then []
    else (if !Nullish(items[0]) && IsNewFile(items[0]) then [Prop(items[0], "rawFile")] else [])
         + NewFiles(items[1..])
  }

  /** The ids of the items that are not new files, in order (the second filter). */
  function ExistingIds(items: seq<Value>): seq<Value> {
    if items == [] then []
    else (if !Nullish(items[0]) && !IsNewFile(items[0]) then [IdOf(items[0])] else [])
         + ExistingIds(items[1..])
  }

  function FileParts(field: string, files: seq<Value>): (parts: seq<Part>)
    ensures |parts| == |files|
  {
    seq(|files|, i requires 0 <= i < |files| => FilePart(FilePartName(field), files[i]))
  }

  lemma {:induction false} NewFilesAppend(items: seq<Value>, x: Value)
    requires !Nullish(x)
    ensures NewFiles(items + [x]) == NewFiles(items) + NewFiles([x])
    decreases |items|
  {
    if items == [] {
      assert [] + [x] == [x];
    } else {
      var whole := items + [x];
      assert whole[0] == items[0] && whole[1..] == items[1..] + [x];
      NewFilesAppend(items[1..], x);
      var head := if !Nullish(items[0]) && IsNewFile(items[0]) then [Prop(items[0], "rawFile")] else [];
      assert NewFiles(whole) == head + NewFiles(items[1..] + [x]);
      assert NewFiles(items) == head + NewFiles(items[1..]);
    }
  }

  lemma {:induction false} ExistingIdsAppend(items: seq<Value>, x: Value)
    requires !Nullish(x)
    ensures ExistingIds(items + [x]) == ExistingIds(items) + ExistingIds([x])
    decreases |items|
  {
    if items == [] {
      assert [] + [x] == [x];
    } else {
      var whole := items + [x];
      assert whole[0] == items[0] && whole[1..] == items[1..] + [x];
      ExistingIdsAppend(items[1..], x);
      var head := if !Nullish(items[0]) && !IsNewFile(items[0]) then [IdOf(items[0])] else [];
      assert ExistingIds(whole) == head + ExistingIds(items[1..] + [x]);
      assert ExistingIds(items) == head + ExistingIds(items[1..]);
    }
  }

  lemma FiltersAppend(items: seq<Value>, x: Value)
    requires !Nullish(x)
    ensures NewFiles(items + [x]) == NewFiles(items) + (if IsNewFile(x) then [Prop(x, "rawFile")] else [])
    ensures ExistingIds(items + [x]) == ExistingIds(items) + (if !IsNewFile(x) then [IdOf(x)] else [])
  {
    NewFilesAppend(items, x);
    ExistingIdsAppend(items, x);
    assert [x][1..] == [];
  }

  /** The one-pass `reduce` does what two filters would: it fails exactly
      when an item is null or undefined, and otherwise its parts are the new
      files in order and its ids those of the other items in order. */
  lemma {:induction false} PartitionIsTwoFilters(field: string, items: seq<Value>)
    ensures Partition(field, items).Ok? <==> forall i :: 0 <= i < |items| ==> !Nullish(items[i])
    ensures Partition(field, items).Ok? ==>
              && Partition(field, items).value.0 == FileParts(field, NewFiles(items))
              && Partition(field, items).value.1 == ExistingIds(items)
    decreases |items|
  {
    if items != [] {
      var init, x := items[..|items| - 1], items[|items| - 1];
      PartitionIsTwoFilters(field, init);
      assert items == init + [x];
      if forall i :: 0 <= i < |init| ==> !Nullish(init[i]) {
        if !Nullish(x) {
          FiltersAppend(init, x);
        }
      } else {
        var i :| 0 <= i < |init| && Nullish(init[i]);
        assert items[i] == init[i];
      }
    }
  }

  // ---------------------------------------------------------------------------
  // The whole form

  /** The form parts and the `data` object after the first n upload fields:
      `data` starts as `params.data` without its timestamps, and each upload
      field is set to the ids its partition keeps. */
  function UploadForm(fs: Fields, names: seq<string>, n: nat): Result<(seq<Part>, Fields)>
    requires n <= |names|
  {
    if n == 0 then Ok(([], Sanitize(fs)))
    else
      var acc :- UploadForm(fs, names, n - 1);
      AddUploadField(fs, acc, names[n - 1])
  }

  /** The `forEach` callback for one upload field: its partition's file parts
      are appended and `data[field]` is set to the ids it keeps. */
  function AddUploadField(fs: Fields, acc: (seq<Part>, Fields), field: string): Result<(seq<Part>, Fields)> {
    var split :- Partition(field, AsList(Get(fs, field)));
    Ok((acc.0 + split.0, Put(acc.1, field, Arr(split.1))))
  }

  /** The multipart body: the file parts, then the JSON `data` part. */
  function FormParts(fs: Fields, names: seq<string>): Result<seq<Part>> {
    var form :- UploadForm(fs, names, |names|);
    Ok(form.0 + [JsonPart("data", Obj(form.1))])
  }

  /** The `reduce` over one field's items, as written: an accumulator, with
      form parts appended as a side effect. */
  method PartitionField(field: string, items: seq<Value>) returns (r: Result<(seq<Part>, seq<Value>)>)
    ensures r == Partition(field, items)
  {
    var parts: seq<Part> := [];
    var acc: seq<Value> := [];
    var j := 0;
    while j < |items|
      invariant 0 <= j <= |items|
      invariant Partition(field, items[..j]) == Ok((parts, acc))
    {
      var item := items[j];
      assert items[..j + 1][..j] == items[..j];
      if Nullish(item) {
        PartitionFails(field, items, j + 1);
        return Err(TypeError);
      }
      if IsNewFile(item) {
        parts := parts + [FilePart(FilePartName(field), Prop(item, "rawFile"))];
      } else {
        acc := acc + [IdOf(item)];
      }
      j := j + 1;
    }
    assert items[..j] == items;
    return Ok((parts, acc));
  }

  lemma {:induction false} PartitionFails(field: string, items: seq<Value>, n: nat)
    requires n <= |items| && Partition(field, items[..n]).Err?
    ensures Partition(field, items).Err? && Partition(field, items).error == TypeError
    decreases |items| - n
  {
    PartitionErrorIsTypeError(field, items[..n]);
    if n < |items| {
      assert items[..n + 1][..n] == items[..n];
      PartitionFails(field, items, n + 1);
    } else {
      assert items[..n] == items;
    }
  }

  lemma {:induction false} PartitionErrorIsTypeError(field: string, items: seq<Value>)
    ensures Partition(field, items).Err? ==> Partition(field, items).error == TypeError
    decreases |items|
  {
    if items != [] {
      PartitionErrorIsTypeError(field, items[..|items| - 1]);
    }
  }

  /** The loop of `handleFileUpload` over the upload fields. */
  method BuildUploadForm(fs: Fields, names: seq<string>) returns (r: Result<seq<Part>>)
    ensures r == FormParts(fs, names)
  {
    var parts: seq<Part> := [];
    var data := Sanitize(fs);
    var n := 0;
    while n < |names|
      invariant 0 <= n <= |names|
      invariant UploadForm(fs, names, n) == Ok((parts, data))
    {
      var next := UploadField(fs, names[n], parts, data);
      UploadFormStep(fs, names, n, (parts, data), next);
      if next.Err? {
        UploadFormFails(fs, names, n + 1);
        return Err(next.error);
      }
      parts, data := next.value.0, next.value.1;
      n := n + 1;
    }
    return Ok(parts + [JsonPart("data", Obj(data))]);
  }

  /** One call of the `forEach` callback. */
  method UploadField(fs: Fields, field: string, parts: seq<Part>, data: Fields)
    returns (r: Result<(seq<Part>, Fields)>)
    ensures r == AddUploadField(fs, (parts, data), field)
  {
    var split := PartitionField(field, AsList(Get(fs, field)));
    if split.Err? {
      return Err(split.error);
    }
    return Ok((parts + split.value.0, Put(data, field, Arr(split.value.1))));
  }

  /** One more upload field. */
  lemma UploadFormStep(fs: Fields, names: seq<string>, n: nat, acc: (seq<Part>, Fields),
                       next: Result<(seq<Part>, Fields)>)
    requires n < |names| && UploadForm(fs, names, n) == Ok(acc)
    requires next == AddUploadField(fs, acc, names[n])
    ensures UploadForm(fs, names, n + 1) == next
  {
  }

  lemma {:induction false} UploadFormFails(fs: Fields, names: seq<string>, n: nat)
    requires n <= |names| && UploadForm(fs, names, n).Err?
    ensures UploadForm(fs, names, |names|) == UploadForm(fs, names, n)
    decreases |names| - n
  {
    if n < |names| {
      UploadFormFails(fs, names, n + 1);
    }
  }

  // ---------------------------------------------------------------------------
  // Properties of the form

  /** The JSON `data` part: an upload field holds the ids its partition
      keeps; any other timestamp field is gone; every other field is as
      submitted. A timestamp field that is also an upload field comes back. */
  lemma {:induction false} UploadFormData(fs: Fields, names: seq<string>, n: nat, k: string)
    requires n <= |names| && UploadForm(fs, names, n).Ok?
    ensures k in names[..n] ==> Partition(k, AsList(Get(fs, k))).Ok?
    ensures Get(UploadForm(fs, names, n).value.1, k) ==
              if k in names[..n] then Arr(Partition(k, AsList(Get(fs, k))).value.1)
              else if k in Timestamps then Undefined
              else Get(fs, k)
  {
    if n == 0 {
      OmitGet(fs, Timestamps, k);
    } else {
      var acc := UploadForm(fs, names, n - 1).value;
      var field := names[n - 1];
      var split := Partition(field, AsList(Get(fs, field))).value;
      UploadFormData(fs, names, n - 1, k);
      PutGet(acc.1, field, Arr(split.1), k);
      assert names[..n] == names[..n - 1] + [field];
    }
  }

  /** The upload fails exactly when some upload field has a null or
      undefined item. */
  lemma {:induction false} UploadFormFailsOnNullItem(fs: Fields, names: seq<string>, n: nat)
    requires n <= |names|
    ensures UploadForm(fs, names, n).Ok? <==>
              forall j :: 0 <= j < n ==> Partition(names[j], AsList(Get(fs, names[j]))).Ok?
  {
    if n > 0 {
      UploadFormFailsOnNullItem(fs, names, n - 1);
    }
  }

  function NewPhoto(): Value {
    Obj([("rawFile", File(0))])
  }

  function ExistingPhoto(): Value {
    Obj([("id", Num(3))])
  }

  function PhotoRecord(): Fields {
    [("title", Str("x")), ("photos", Arr([NewPhoto(), ExistingPhoto()]))]
  }

  /** The partition of a new file and an existing file with id 3. */
  lemma MixedFieldPartition()
    ensures Partition("photos", [NewPhoto(), ExistingPhoto()]) ==
              Ok(([FilePart("files.photos", File(0))], [Num(3)]))
  {
    var items := [NewPhoto(), ExistingPhoto()];
    var one := [NewPhoto()];
    var none: seq<Value> := [];
    var fp: seq<Part> := [FilePart("files.photos", File(0))];
    var noParts: seq<Part> := [];
    assert one[..0] == none && items[..1] == one;
    assert Prop(NewPhoto(), "rawFile") == File(0);
    assert FilePartName("photos") == "files.photos";
    assert Partition("photos", none) == Ok((noParts, none));
    assert noParts + [FilePart(FilePartName("photos"), File(0))] == fp;
    assert Partition("photos", one) == Ok((fp, none));
    assert !IsNewFile(ExistingPhoto()) && IdOf(ExistingPhoto()) == Num(3);
    assert none + [Num(3)] == [Num(3)];
  }

  /** A record whose title is a string and whose `photos` hold a new file and
      an existing file has `photos` as its only upload field. */
  lemma MixedUploadFieldNames()
    ensures UploadFieldNames(Obj(PhotoRecord())) == ["photos"]
  {
    var fs := PhotoRecord();
    var items := [NewPhoto(), ExistingPhoto()];
    GetAt(fs, 1);
    assert Keys(NewPhoto().fields)[0] == "rawFile";
    assert HasRawFile(NewPhoto());
    assert items[0] == NewPhoto();
    assert HasRawFile(Arr(items));
    assert !HasRawFile(Get(fs, "title"));
    assert RawFileKeys(fs, 2) == [];
    assert RawFileKeys(fs, 1) == ["photos"];
  }

  /** Uploading that field sends one file part and keeps `[3]` in `data`. */
  lemma MixedUploadForm()
    ensures FormParts(PhotoRecord(), ["photos"]) ==
              Ok([FilePart("files.photos", File(0)),
                  JsonPart("data", Obj([("title", Str("x")), ("photos", Arr([Num(3)]))]))])
  {
    var fs := PhotoRecord();
    var items := [NewPhoto(), ExistingPhoto()];
    GetAt(fs, 1);
    MixedFieldPartition();
    assert Keys(fs) == ["title", "photos"];
    SanitizeIdentity(fs);
    PutAt(fs, 1, Arr([Num(3)]));
    var noParts: seq<Part> := [];
    var fp: seq<Part> := [FilePart("files.photos", File(0))];
    var names := ["photos"];
    assert UploadForm(fs, names, 0) == Ok((noParts, fs));
    assert AsList(Get(fs, "photos")) == items;
    var data := [("title", Str("x")), ("photos", Arr([Num(3)]))];
    assert fs[1 := ("photos", Arr([Num(3)]))] == data;
    assert Partition(names[0], AsList(Get(fs, names[0]))) == Ok((fp, [Num(3)]));
    assert noParts + fp == fp;
    assert fs[1].0 == names[0];
    assert Put(fs, names[0], Arr([Num(3)])) == data;
    assert AddUploadField(fs, (noParts, fs), names[0]) == Ok((fp, data));
    UploadFormStep(fs, names, 0, (noParts, fs), Ok((fp, data)));
    assert UploadForm(fs, names, |names|) == Ok((fp, data));
    assert fp + [JsonPart("data", Obj(data))] ==
           [FilePart("files.photos", File(0)), JsonPart("data", Obj(data))];
  }
}
