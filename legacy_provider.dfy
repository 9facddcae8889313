/** The legacy Strapi data provider (index.js): a router that first looks
    for file uploads among an allow-list of fields, then fans the batch
    operations out into one request per id, and otherwise builds one request
    with `convertDataRequestToHTTP` and reads its answer back with
    `convertHTTPResponse`. The record in `params.data` is changed in place
    along the way. */
module LegacyProvider {
  import opened Outcome
  import opened JsValues
  import opened Http
  import opened QueryEncoding

  /** The allow-list of upload fields as the provider ships it: empty. */
  const AllUploadFieldNames: seq<string> := []

  /** `params.data`, which the provider rewrites in place. */
  class Record {
    var fields: Fields

    constructor(fs: Fields)
      ensures fields == fs
    {
      fields := fs;
    }
  }

  /** `params.data` as a value: None when it is absent. */
  function Snapshot(data: Record?): Option<Fields>
    reads data
  {
    if data == null then None else Some(data.fields)
  }

  predicate NoNullish(items: seq<Value>) {
    forall i :: 0 <= i < |items| ==> !Nullish(items[i])
  }

  /** `items.filter(f => f.rawFile instanceof File)`. */
  function NewFileItems(items: seq<Value>): (r: seq<Value>)
    requires NoNullish(items)
    ensures |r| <= |items| && NoNullish(r)
    ensures forall i :: 0 <= i < |r| ==> IsNewFile(r[i])
  {
    if items == [] then []
    else (if IsNewFile(items[0]) then [items[0]] else []) + NewFileItems(items[1..])
  }

  /** `items.filter(f => !(f.rawFile instanceof File))`. */
  function CurrentItems(items: seq<Value>): (r: seq<Value>)
    requires NoNullish(items)
    ensures |r| <= |items|
    ensures forall i :: 0 <= i < |r| ==> !Nullish(r[i]) && !IsNewFile(r[i])
  {
    if items == [] then []
    else (if IsNewFile(items[0]) then [] else [items[0]]) + CurrentItems(items[1..])
  }

  lemma {:induction false} FiltersSplitItems(items: seq<Value>)
    requires NoNullish(items)
    ensures |NewFileItems(items)| + |CurrentItems(items)| == |items|
    ensures multiset(NewFileItems(items)) + multiset(CurrentItems(items)) == multiset(items)
  {
    if items != [] {
      FiltersSplitItems(items[1..]);
      assert items == [items[0]] + items[1..];
    }
  }

  // ---------------------------------------------------------------------------
  // determineUploadFieldNames

  /** Where the scan over the keys of `params.data` stands: the record as
      rewritten so far, the upload fields found, and whether a TypeError
      ended it. */
  datatype ScanProgress = ScanProgress(record: Fields, names: seq<string>, failed: bool)

  /** The `forEach` callback for one key: an allowed field is wrapped into
      a list in place, and is an upload field when one of its items holds a
      new file; a null or undefined item throws. */
  function ScanStep(p: ScanProgress, key: string, allowed: seq<string>): ScanProgress {
    if key !in allowed then p
    else
      var items := AsList(Get(p.record, key));
      var record := Put(p.record, key, Arr(items));
      if !NoNullish(items) then ScanProgress(record, p.names, true)
      else if |NewFileItems(items)| > 0 then ScanProgress(record, p.names + [key], false)
      else ScanProgress(record, p.names, false)
  }

  /** The scan after the first n keys. */
  function ScanAfter(keys: seq<string>, fs: Fields, allowed: seq<string>, n: nat): ScanProgress
    requires n <= |keys|
  {
    if n == 0 then ScanProgress(fs, [], false)
    else
      var p := ScanAfter(keys, fs, allowed, n - 1);
      if p.failed then p else ScanStep(p, keys[n - 1], allowed)
  }

  function Scan(fs: Fields, allowed: seq<string>): ScanProgress {
    ScanAfter(Keys(fs), fs, allowed, |fs|)
  }

  lemma {:induction false} ScanStaysFailed(keys: seq<string>, fs: Fields, allowed: seq<string>, n: nat)
    requires n <= |keys| && ScanAfter(keys, fs, allowed, n).failed
    ensures ScanAfter(keys, fs, allowed, |keys|) == ScanAfter(keys, fs, allowed, n)
    decreases |keys| - n
  {
    if n < |keys| {
      ScanStaysFailed(keys, fs, allowed, n + 1);
    }
  }

  /** The `forEach` callback, run on the record in place; `names` is the
      list it pushes upload fields onto. */
  method ScanKey(data: Record, allowed: seq<string>, key: string, names: seq<string>) returns (thrown: bool, names': seq<string>)
    modifies data
    ensures ScanProgress(data.fields, names', thrown) == ScanStep(ScanProgress(old(data.fields), names, false), key, allowed)
  {
    thrown, names' := false, names;
    if key in allowed {
      var items := AsList(Get(data.fields, key));
      data.fields := Put(data.fields, key, Arr(items));
      if !NoNullish(items) {
        thrown := true;
        return;
      }
      if |NewFileItems(items)| > 0 {
        names' := names + [key];
      }
    }
  }

  /** determineUploadFieldNames, with its `forEach` over the keys. */
  method DetermineUploadFieldNames(data: Record?, allowed: seq<string>) returns (r: Result<seq<string>>)
    modifies data
    ensures data == null ==> r == Ok([])
    ensures data != null ==>
              var p := Scan(old(data.fields), allowed);
              && data.fields == p.record
              && r == if p.failed then Err(TypeError) else Ok(p.names)
  {
    if data == null {
      return Ok([]);
    }
    ghost var fs := data.fields;
    var keys := Keys(data.fields);
    var names: seq<string> := [];
    var i := 0;
    while i < |keys|
      invariant 0 <= i <= |keys| && |keys| == |fs| && keys == Keys(fs)
      invariant ScanAfter(keys, fs, allowed, i) == ScanProgress(data.fields, names, false)
    {
      var thrown;
      thrown, names := ScanKey(data, allowed, keys[i], names);
      if thrown {
        ScanStaysFailed(keys, fs, allowed, i + 1);
        return Err(TypeError);
      }
      i := i + 1;
    }
    return Ok(names);
  }

  /** With the allow-list as shipped, the scan changes nothing and finds no
      upload field. */
  lemma {:induction false} ShippedAllowListFindsNothing(keys: seq<string>, fs: Fields, n: nat)
    requires n <= |keys|
    ensures ScanAfter(keys, fs, AllUploadFieldNames, n) == ScanProgress(fs, [], false)
  {
    if n > 0 {
      ShippedAllowListFindsNothing(keys, fs, n - 1);
    }
  }

  /** An allowed key whose value, taken as a list, holds no null item and at
      least one new file. */
  predicate IsUploadField(fs: Fields, allowed: seq<string>, k: string) {
    k in allowed && NoNullish(AsList(Get(fs, k))) && |NewFileItems(AsList(Get(fs, k)))| > 0
  }

  /** An allowed key whose value, taken as a list, holds a null item. */
  predicate ThrowsOnKey(fs: Fields, allowed: seq<string>, k: string) {
    k in allowed && !NoNullish(AsList(Get(fs, k)))
  }

  /** The upload fields among the keys `ks`, in their order. */
  function UploadFieldsAmong(fs: Fields, allowed: seq<string>, ks: seq<string>): seq<string> {
    if ks == [] then []
    else UploadFieldsAmong(fs, allowed, ks[..|ks| - 1])
         + (if IsUploadField(fs, allowed, ks[|ks| - 1]) then [ks[|ks| - 1]] else [])
  }

  /** The record after the scan: every allowed key among `ks` wrapped into a list. */
  function Wrapped(fs: Fields, allowed: seq<string>, ks: seq<string>, k: string): Value {
    if k in ks && k in allowed then Arr(AsList(Get(fs, k))) else Get(fs, k)
  }

  predicate DistinctNames(ks: seq<string>) {
    forall i, j :: 0 <= i < j < |ks| ==> ks[i] != ks[j]
  }

  /** After n distinct keys, the scan has thrown exactly when one of them is
      an allowed key holding a null item; otherwise it has found exactly the
      upload fields among them, in key order, and has wrapped every allowed
      key among them into a list, changing nothing else. */
  lemma {:induction false} ScanFindsUploadFields(keys: seq<string>, fs: Fields, allowed: seq<string>, n: nat)
    requires n <= |keys| && DistinctNames(keys)
    ensures var p := ScanAfter(keys, fs, allowed, n);
            && (p.failed <==> exists j :: 0 <= j < n && ThrowsOnKey(fs, allowed, keys[j]))
            && (!p.failed ==> p.names == UploadFieldsAmong(fs, allowed, keys[..n]))
            && (!p.failed ==> forall k :: Get(p.record, k) == Wrapped(fs, allowed, keys[..n], k))
  {
    if n > 0 {
      ScanFindsUploadFields(keys, fs, allowed, n - 1);
      var p := ScanAfter(keys, fs, allowed, n - 1);
      var key := keys[n - 1];
      assert keys[..n] == keys[..n - 1] + [key];
      assert keys[..n][..n - 1] == keys[..n - 1];
      if p.failed {
        var j :| 0 <= j < n - 1 && ThrowsOnKey(fs, allowed, keys[j]);
      } else {
        assert key !in keys[..n - 1];
        assert Get(p.record, key) == Get(fs, key);
        ScanTurn(p, key, fs, allowed, keys[..n - 1]);
        if ScanStep(p, key, allowed).failed {
          assert ThrowsOnKey(fs, allowed, keys[n - 1]);
        } else {
          assert !ThrowsOnKey(fs, allowed, key);
          assert forall j :: 0 <= j < n - 1 ==> !ThrowsOnKey(fs, allowed, keys[j]);
        }
      }
    }
  }

  /** One turn of the scan, on a key not scanned before. */
  lemma ScanTurn(p: ScanProgress, key: string, fs: Fields, allowed: seq<string>, before: seq<string>)
    requires !p.failed && key !in before
    requires p.names == UploadFieldsAmong(fs, allowed, before)
    requires forall k :: Get(p.record, k) == Wrapped(fs, allowed, before, k)
    ensures var q := ScanStep(p, key, allowed);
            && (q.failed <==> ThrowsOnKey(fs, allowed, key))
            && (!q.failed ==> q.names == UploadFieldsAmong(fs, allowed, before + [key]))
            && (!q.failed ==> forall k :: Get(q.record, k) == Wrapped(fs, allowed, before + [key], k))
  {
    var ks := before + [key];
    assert ks[..|ks| - 1] == before && ks[|ks| - 1] == key;
    assert Get(p.record, key) == Get(fs, key);
    if key in allowed {
      var items := AsList(Get(fs, key));
      forall k ensures Get(Put(p.record, key, Arr(items)), k) == Wrapped(fs, allowed, ks, k) {
        PutGet(p.record, key, Arr(items), k);
      }
    }
  }

  /** Over a whole record with distinct keys: the scan throws exactly when
      an allowed key holds a null item, and otherwise a key is an upload
      field exactly when it is allowed and its list holds a new file; the
      fields come in key order, each once. */
  lemma ScanOfRecord(fs: Fields, allowed: seq<string>)
    requires DistinctKeys(fs)
    ensures var p := Scan(fs, allowed);
            && (p.failed <==> exists k :: k in Keys(fs) && ThrowsOnKey(fs, allowed, k))
            && (!p.failed ==> p.names == UploadFieldsAmong(fs, allowed, Keys(fs)))
            && (!p.failed ==> forall k :: k in p.names <==> k in Keys(fs) && IsUploadField(fs, allowed, k))
            && (!p.failed ==> DistinctNames(p.names))
  {
    var keys := Keys(fs);
    assert DistinctNames(keys) by {
      forall i, j | 0 <= i < j < |keys| ensures keys[i] != keys[j] {
        assert keys[i] == fs[i].0 && keys[j] == fs[j].0;
      }
    }
    ScanFindsUploadFields(keys, fs, allowed, |fs|);
    assert keys[..|fs|] == keys;
    var p := Scan(fs, allowed);
    if p.failed {
      var j :| 0 <= j < |fs| && ThrowsOnKey(fs, allowed, keys[j]);
      assert keys[j] in keys;
    } else {
      UploadFieldsMembers(fs, allowed, keys);
    }
  }

  /** The upload fields among distinct keys are exactly those keys that are
      upload fields, each once. */
  lemma {:induction false} UploadFieldsMembers(fs: Fields, allowed: seq<string>, ks: seq<string>)
    requires DistinctNames(ks)
    ensures forall k :: k in UploadFieldsAmong(fs, allowed, ks) <==> k in ks && IsUploadField(fs, allowed, k)
    ensures DistinctNames(UploadFieldsAmong(fs, allowed, ks))
  {
    if ks != [] {
      var init, last := ks[..|ks| - 1], ks[|ks| - 1];
      assert ks == init + [last];
      UploadFieldsMembers(fs, allowed, init);
      var found := UploadFieldsAmong(fs, allowed, init);
      assert last !in init;
      assert last !in found;
      var all := UploadFieldsAmong(fs, allowed, ks);
      assert all == found + (if IsUploadField(fs, allowed, last) then [last] else []);
    }
  }

  // ---------------------------------------------------------------------------
  // handleFileUpload

  /** Where the upload loop stands: the record, the form parts, the entries
      in `newFilesToAdd`, the JSON `data` object, and whether it threw. */
  datatype UploadProgress = UploadProgress(record: Fields, parts: seq<Part>, added: seq<Value>, data: Fields, failed: bool)

  /** `{src: newFile.rawFile, title: params.data.title}`. */
  function AddedEntry(file: Value, title: Value): Value
    requires !Nullish(file)
  {
    Obj([("src", Prop(file, "rawFile")), ("title", title)])
  }

  function AddedEntries(files: seq<Value>, title: Value): (r: seq<Value>)
    requires NoNullish(files)
    ensures |r| == |files|
  {
    if files == [] then []
    else AddedEntries(files[..|files| - 1], title) + [AddedEntry(files[|files| - 1], title)]
  }

  function NewFileParts(field: string, files: seq<Value>): (r: seq<Part>)
    requires NoNullish(files)
    ensures |r| == |files|
  {
    if files == [] then []
    else NewFileParts(field, files[..|files| - 1]) + [FilePart("files." + field, Prop(files[|files| - 1], "rawFile"))]
  }

  /** One turn of the loop over the upload fields. The field is wrapped in
      place before `filter` runs on its old value, which throws unless that
      value was a list of non-null items. `newFilesToAdd` is not reset between
      fields, so a field receives the entries of every field before it. */
  function UploadStep(p: UploadProgress, field: string): UploadProgress {
    var fieldData := Get(p.record, field);
    var record := Put(p.record, field, Arr(AsList(fieldData)));
    if !fieldData.Arr? || !NoNullish(fieldData.items) then p.(record := record, failed := true)
    else
      var newFiles := NewFileItems(fieldData.items);
      var added := p.added + AddedEntries(newFiles, Get(record, "title"));
      var parts := p.parts + NewFileParts(field, newFiles);
      UploadProgress(record, parts, added, Put(p.data, field, Arr(added + CurrentItems(fieldData.items))), false)
  }

  /** The upload loop after the first n upload fields; `data` starts as the
      record without its timestamps. */
  function UploadAfter(fs: Fields, names: seq<string>, n: nat): UploadProgress
    requires n <= |names|
  {
    if n == 0 then UploadProgress(fs, [], [], Sanitize(fs), false)
    else
      var p := UploadAfter(fs, names, n - 1);
      if p.failed then p else UploadStep(p, names[n - 1])
  }

  /** Once the loop has thrown, the rest of the fields are not visited: the
      record stays as it was when the loop threw. */
  lemma {:induction false} UploadStaysFailed(fs: Fields, names: seq<string>, n: nat, m: nat)
    requires n <= m <= |names| && UploadAfter(fs, names, n).failed
    ensures UploadAfter(fs, names, m).failed
    ensures UploadAfter(fs, names, m).record == UploadAfter(fs, names, n).record
  {
    if m > n {
      UploadStaysFailed(fs, names, n, m - 1);
    }
  }

  /** A field the upload loop can process without throwing: a list with no
      null item. */
  predicate Uploadable(fs: Fields, field: string) {
    Get(fs, field).Arr? && NoNullish(Get(fs, field).items)
  }

  predicate AllUploadable(fs: Fields, names: seq<string>, n: nat)
    requires n <= |names|
  {
    forall j :: 0 <= j < n ==> Uploadable(fs, names[j])
  }

  /** The entries for the new files of the first n fields, field by field. */
  function AllAdded(fs: Fields, names: seq<string>, n: nat): seq<Value>
    requires n <= |names| && AllUploadable(fs, names, n)
  {
    if n == 0 then []
    else AllAdded(fs, names, n - 1) + AddedEntries(NewFileItems(Get(fs, names[n - 1]).items), Get(fs, "title"))
  }

  /** The file parts for the new files of the first n fields, field by field. */
  function AllParts(fs: Fields, names: seq<string>, n: nat): seq<Part>
    requires n <= |names| && AllUploadable(fs, names, n)
  {
    if n == 0 then []
    else AllParts(fs, names, n - 1) + NewFileParts(names[n - 1], NewFileItems(Get(fs, names[n - 1]).items))
  }

  /** After the first n fields the loop has thrown exactly when one of them
      is not a list of non-null items; otherwise the record is unchanged, the
      form holds each field's file parts in field order, and `newFilesToAdd`
      holds each field's new entries in field order. */
  lemma {:induction false} UploadAccumulates(fs: Fields, names: seq<string>, n: nat)
    requires n <= |names|
    ensures var p := UploadAfter(fs, names, n);
            && (p.failed <==> !AllUploadable(fs, names, n))
            && (AllUploadable(fs, names, n) ==>
                  p.record == fs && p.parts == AllParts(fs, names, n) && p.added == AllAdded(fs, names, n))
  {
    if n > 0 {
      UploadAccumulates(fs, names, n - 1);
      AllUploadableStep(fs, names, n);
      var p, field := UploadAfter(fs, names, n - 1), names[n - 1];
      var q := UploadAfter(fs, names, n);
      assert q == if p.failed then p else UploadStep(p, field);
      if AllUploadable(fs, names, n) {
        UploadTurn(p, fs, field);
        var newFiles := NewFileItems(Get(fs, field).items);
        assert q.parts == AllParts(fs, names, n - 1) + NewFileParts(field, newFiles);
        assert q.added == AllAdded(fs, names, n - 1) + AddedEntries(newFiles, Get(fs, "title"));
      }
    }
  }

  /** The first n fields are uploadable exactly when the first n - 1 are and
      the n-th is; the parts and entries then grow by the n-th field's. */
  lemma AllUploadableStep(fs: Fields, names: seq<string>, n: nat)
    requires 0 < n <= |names|
    ensures AllUploadable(fs, names, n) <==> AllUploadable(fs, names, n - 1) && Uploadable(fs, names[n - 1])
    ensures AllUploadable(fs, names, n) ==>
              var newFiles := NewFileItems(Get(fs, names[n - 1]).items);
              && AllParts(fs, names, n) == AllParts(fs, names, n - 1) + NewFileParts(names[n - 1], newFiles)
              && AllAdded(fs, names, n) == AllAdded(fs, names, n - 1) + AddedEntries(newFiles, Get(fs, "title"))
  {
    if !Uploadable(fs, names[n - 1]) {
      assert !AllUploadable(fs, names, n);
    }
  }

  /** One turn over an uploadable field of an unchanged record. */
  lemma UploadTurn(p: UploadProgress, fs: Fields, field: string)
    requires !p.failed && p.record == fs && Uploadable(fs, field)
    ensures var items := Get(fs, field).items;
            UploadStep(p, field) ==
            UploadProgress(fs, p.parts + NewFileParts(field, NewFileItems(items)),
                           p.added + AddedEntries(NewFileItems(items), Get(fs, "title")),
                           Put(p.data, field, Arr(p.added + AddedEntries(NewFileItems(items), Get(fs, "title")) + CurrentItems(items))),
                           false)
  {
    GetFound(fs, field);
    PutSame(fs, field);
  }

  /** With distinct field names and no throw, the JSON `data` part gives the
      j-th upload field the entries of the new files of fields 0..j, followed
      by that field's current files. */
  lemma {:induction false} UploadFieldValue(fs: Fields, names: seq<string>, n: nat, j: nat)
    requires n <= |names| && DistinctNames(names) && AllUploadable(fs, names, n) && j < n
    ensures Get(UploadAfter(fs, names, n).data, names[j]) ==
            Arr(AllAdded(fs, names, j + 1) + CurrentItems(Get(fs, names[j]).items))
  {
    UploadAccumulates(fs, names, n - 1);
    var p := UploadAfter(fs, names, n - 1);
    var field := names[n - 1];
    var items := Get(fs, field).items;
    assert AllUploadable(fs, names, n - 1);
    assert p.record == fs && p.added == AllAdded(fs, names, n - 1);
    UploadTurn(p, fs, field);
    var added := p.added + AddedEntries(NewFileItems(items), Get(fs, "title"));
    var data := UploadAfter(fs, names, n).data;
    assert data == Put(p.data, field, Arr(added + CurrentItems(items)));
    PutGet(p.data, field, Arr(added + CurrentItems(items)), names[j]);
    if j < n - 1 {
      assert names[j] != field;
      UploadFieldValue(fs, names, n - 1, j);
    } else {
      assert added == AllAdded(fs, names, n);
    }
  }

  /** Both filters keep their items in order: filtering a concatenation is
      concatenating the filtered parts. */
  lemma {:induction false} FiltersKeepOrder(a: seq<Value>, b: seq<Value>)
    requires NoNullish(a) && NoNullish(b)
    ensures NoNullish(a + b)
    ensures NewFileItems(a + b) == NewFileItems(a) + NewFileItems(b)
    ensures CurrentItems(a + b) == CurrentItems(a) + CurrentItems(b)
  {
    if a != [] {
      assert (a + b)[1..] == a[1..] + b;
      FiltersKeepOrder(a[1..], b);
    } else {
      assert a + b == b;
    }
  }

  /** The multipart body handleFileUpload sends: the file parts, then the
      JSON `data` part. */
  function UploadBody(p: UploadProgress): Body {
    FormBody(p.parts + [JsonPart("data", Obj(p.data))])
  }

  /** The inner loop of handleFileUpload: one entry in `newFilesToAdd` and
      one form part per new file. */
  method AppendNewFiles(field: string, newFiles: seq<Value>, title: Value, added0: seq<Value>, parts0: seq<Part>)
    returns (added: seq<Value>, parts: seq<Part>)
    requires NoNullish(newFiles)
    ensures added == added0 + AddedEntries(newFiles, title)
    ensures parts == parts0 + NewFileParts(field, newFiles)
  {
    added, parts := added0, parts0;
    var j := 0;
    while j < |newFiles|
      invariant 0 <= j <= |newFiles|
      invariant added == added0 + AddedEntries(newFiles[..j], title)
      invariant parts == parts0 + NewFileParts(field, newFiles[..j])
    {
      assert newFiles[..j + 1][..j] == newFiles[..j];
      added := added + [AddedEntry(newFiles[j], title)];
      parts := parts + [FilePart("files." + field, Prop(newFiles[j], "rawFile"))];
      j := j + 1;
    }
    assert newFiles[..j] == newFiles;
  }

  /** The loops of handleFileUpload that fill the form. */
  method BuildUploadForm(data: Record, names: seq<string>) returns (r: Result<Body>)
    modifies data
    ensures var p := UploadAfter(old(data.fields), names, |names|);
            && data.fields == p.record
            && r == if p.failed then Err(TypeError) else Ok(UploadBody(p))
  {
    ghost var fs := data.fields;
    var snapshot := Sanitize(data.fields);
    var parts: seq<Part> := [];
    var added: seq<Value> := [];
    var n := 0;
    while n < |names|
      invariant 0 <= n <= |names|
      invariant UploadAfter(fs, names, n) == UploadProgress(data.fields, parts, added, snapshot, false)
    {
      ghost var before := UploadProgress(data.fields, parts, added, snapshot, false);
      var field := names[n];
      var fieldData := Get(data.fields, field);
      data.fields := Put(data.fields, field, Arr(AsList(fieldData)));
      if !fieldData.Arr? || !NoNullish(fieldData.items) {
        assert UploadAfter(fs, names, n + 1) == before.(record := data.fields, failed := true);
        UploadStaysFailed(fs, names, n + 1, |names|);
        return Err(TypeError);
      }
      var newFiles := NewFileItems(fieldData.items);
      var current := CurrentItems(fieldData.items);
      added, parts := AppendNewFiles(field, newFiles, Get(data.fields, "title"), added, parts);
      snapshot := Put(snapshot, field, Arr(added + current));
      assert UploadStep(before, field) == UploadProgress(data.fields, parts, added, snapshot, false);
      n := n + 1;
    }
    return Ok(FormBody(parts + [JsonPart("data", Obj(snapshot))]));
  }

  /** The upload request: PUT to the record for UPDATE, POST to the
      resource otherwise. */
  function UploadRequest(apiUrl: string, t: OpType, resource: string, id: Value, body: Body): Request {
    var idSegment := if t == OpType.Update then "/" + ToStr(id) else "";
    Request(apiUrl + "/" + resource + idSegment, Some(if t == OpType.Update then PUT else POST), body)
  }

  // ---------------------------------------------------------------------------
  // convertDataRequestToHTTP and convertHTTPResponse

  function ItemPath(apiUrl: string, resource: string, id: Value): string {
    apiUrl + "/" + resource + "/" + ToStr(id)
  }

  /** The request for one operation; UPDATE reads the record, so a missing
      record throws there. */
  function RequestFor(apiUrl: string, t: OpType, resource: string, q: QueryParams, id: Value, data: Option<Fields>): Result<Request> {
    match t
    case GetList => Ok(Request(apiUrl + "/" + resource + "?" + QueryString(Legacy, q), None, NoBody))
    case GetManyReference => Ok(Request(apiUrl + "/" + resource + "?" + QueryString(Legacy, q), None, NoBody))
    case GetOne => Ok(Request(ItemPath(apiUrl, resource, id), None, NoBody))
    case Update =>
      if data.None? then Err(TypeError)
      else Ok(Request(ItemPath(apiUrl, resource, id), Some(PUT), JsonBody(Obj(Sanitize(data.value)))))
    case Create => Ok(Request(apiUrl + "/" + resource, Some(POST), if data.None? then NoBody else JsonBody(Obj(data.value))))
    case Delete => Ok(Request(ItemPath(apiUrl, resource, id), Some(DELETE), NoBody))
    case _ => Err(Unsupported("Unsupported fetch action type " + TypeName(t)))
  }

  /** convertDataRequestToHTTP: a switch that assigns the URL and options. */
  method ConvertDataRequestToHTTP(apiUrl: string, t: OpType, resource: string, q: QueryParams, id: Value, data: Record?)
    returns (r: Result<Request>)
    ensures r == RequestFor(apiUrl, t, resource, q, id, Snapshot(data))
  {
    var url := "";
    var verb: Option<HttpMethod> := None;
    var body := NoBody;
    match t {
      case GetList =>
        var query := AdjustQueryForStrapi(Legacy, q);
        url := apiUrl + "/" + resource + "?" + query;
      case GetManyReference =>
        var query := AdjustQueryForStrapi(Legacy, q);
        url := apiUrl + "/" + resource + "?" + query;
      case GetOne =>
        url := ItemPath(apiUrl, resource, id);
      case Update =>
        url := ItemPath(apiUrl, resource, id);
        verb := Some(PUT);
        if data == null {
          return Err(TypeError);
        }
        body := JsonBody(Obj(Sanitize(data.fields)));
      case Create =>
        url := apiUrl + "/" + resource;
        verb := Some(POST);
        if data != null {
          body := JsonBody(Obj(data.fields));
        }
      case Delete =>
        url := ItemPath(apiUrl, resource, id);
        verb := Some(DELETE);
      case _ =>
        return Err(Unsupported("Unsupported fetch action type " + TypeName(t)));
    }
    return Ok(Request(url, verb, body));
  }

  /** `s.split('/').pop()`: the text after the last slash, or all of `s`. */
  function AfterLastSlash(s: string): (r: string)
    ensures |r| <= |s| && r == s[|s| - |r|..]
    ensures '/' !in r
    ensures |r| < |s| ==> s[|s| - |r| - 1] == '/'
  {
    if s == [] then []
    else if s[|s| - 1] == '/' then []
    else AfterLastSlash(s[..|s| - 1]) + [s[|s| - 1]]
  }

  /** convertHTTPResponse: lists take their total from the Content-Range
      header; CREATE merges the server's id into the submitted record;
      DELETE answers a null id; anything else passes the body through. */
  function ConvertHTTPResponse(res: Response, t: OpType, data: Option<Fields>): Result<Envelope> {
    match t
    case GetList => ListEnvelope(res)
    case GetManyReference => ListEnvelope(res)
    case Create =>
      if Nullish(res.json) then Err(TypeError)
      else Ok(Envelope(Obj(Put(if data.None? then [] else Spread([], data.value), "id", Prop(res.json, "id"))), None))
    case Delete => Ok(Envelope(Obj([("id", Null)]), None))
    case _ => Ok(Envelope(res.json, None))
  }

  function ListEnvelope(res: Response): Result<Envelope> {
    var range := HeaderValue(res.headers, "content-range");
    if range.None? then Err(MissingContentRange)
    else Ok(Envelope(res.json, Some(ParseInt(AfterLastSlash(range.value)))))
  }

  // ---------------------------------------------------------------------------
  // The router

  /** `Promise.all` over the requests, answering the bodies in order. */
  function FanOutBodies(transport: Transport, reqs: seq<Request>): Result<Envelope> {
    var responses :- FanOut(transport, reqs);
    Ok(Envelope(Arr(seq(|responses|, i requires 0 <= i < |responses| => responses[i].json)), None))
  }

  /** The request UPDATE_MANY sends for one id; the record is destructured
      per id, so a missing record throws only when there is an id. */
  function UpdateManyRequest(apiUrl: string, resource: string, data: Option<Fields>, id: Value): Result<Request> {
    if data.None? then Err(TypeError)
    else Ok(Request(ItemPath(apiUrl, resource, id), Some(PUT), JsonBody(Obj(Sanitize(data.value)))))
  }

  function UpdateManyRequestWith(apiUrl: string, resource: string, data: Option<Fields>): Value -> Result<Request> {
    id => UpdateManyRequest(apiUrl, resource, data, id)
  }

  function PerIdRequests(apiUrl: string, resource: string, ids: seq<Value>, verb: HttpMethod): (reqs: seq<Request>)
    ensures |reqs| == |ids|
  {
    seq(|ids|, i requires 0 <= i < |ids| => Request(ItemPath(apiUrl, resource, ids[i]), Some(verb), NoBody))
  }

  /** The router once no upload is pending. */
  function Route(transport: Transport, apiUrl: string, t: OpType, resource: string, q: QueryParams,
                 id: Value, ids: seq<Value>, data: Option<Fields>): Result<Envelope>
  {
    if t == OpType.UpdateMany then
      var reqs :- MapAll(UpdateManyRequestWith(apiUrl, resource, data), ids);
      FanOutBodies(transport, reqs)
    else if t == OpType.DeleteMany then FanOutBodies(transport, PerIdRequests(apiUrl, resource, ids, DELETE))
    else if t == OpType.GetMany then FanOutBodies(transport, PerIdRequests(apiUrl, resource, ids, GET))
    else
      var req :- RequestFor(apiUrl, t, resource, q, id, data);
      var res :- transport(req);
      ConvertHTTPResponse(res, t, data)
  }

  /** What a call leaves behind: `params.data` as the call left it, and
      what the call resolves to. */
  datatype Dispatched = Dispatched(data: Option<Fields>, result: Result<Envelope>)

  /** handleFileUpload with the upload fields found: the form is built,
      changing the record, and sent; the body of the answer is the data. */
  function UploadOutcome(transport: Transport, apiUrl: string, t: OpType, resource: string, id: Value,
                         fs: Fields, names: seq<string>): Dispatched
  {
    var up := UploadAfter(fs, names, |names|);
    if up.failed then Dispatched(Some(up.record), Err(TypeError))
    else
      var res := transport(UploadRequest(apiUrl, t, resource, id, UploadBody(up)));
      Dispatched(Some(up.record), if res.Err? then Err(res.error) else Ok(Envelope(res.value.json, None)))
  }

  /** The whole router: uploads first, then the rest. */
  function Dispatch(transport: Transport, apiUrl: string, allowed: seq<string>, t: OpType, resource: string,
                    q: QueryParams, id: Value, ids: seq<Value>, data: Option<Fields>): Dispatched
  {
    if data.None? then Dispatched(None, Route(transport, apiUrl, t, resource, q, id, ids, None))
    else
      var scan := Scan(data.value, allowed);
      if scan.failed then Dispatched(Some(scan.record), Err(TypeError))
      else if |scan.names| == 0 then
        Dispatched(Some(scan.record), Route(transport, apiUrl, t, resource, q, id, ids, Some(scan.record)))
      else UploadOutcome(transport, apiUrl, t, resource, id, scan.record, scan.names)
  }

  /** handleFileUpload and the request it sends. */
  method HandleFileUpload(transport: Transport, apiUrl: string, t: OpType, resource: string, id: Value,
                          data: Record, names: seq<string>)
    returns (r: Result<Envelope>)
    modifies data
    ensures var d := UploadOutcome(transport, apiUrl, t, resource, id, old(data.fields), names);
            r == d.result && Some(data.fields) == d.data
  {
    var body := BuildUploadForm(data, names);
    if body.Err? {
      return Err(body.error);
    }
    var res := transport(UploadRequest(apiUrl, t, resource, id, body.value));
    if res.Err? {
      return Err(res.error);
    }
    return Ok(Envelope(res.value.json, None));
  }

  /** The router once no upload is pending: the batch fan-outs, else one
      request and its conversion. */
  method RouteRequest(transport: Transport, apiUrl: string, t: OpType, resource: string,
                      q: QueryParams, id: Value, ids: seq<Value>, data: Record?)
    returns (r: Result<Envelope>)
    ensures r == Route(transport, apiUrl, t, resource, q, id, ids, Snapshot(data))
  {
    if t == OpType.UpdateMany || t == OpType.DeleteMany || t == OpType.GetMany {
      return Route(transport, apiUrl, t, resource, q, id, ids, Snapshot(data));
    }
    var req := ConvertDataRequestToHTTP(apiUrl, t, resource, q, id, data);
    if req.Err? {
      return Err(req.error);
    }
    var res := transport(req.value);
    if res.Err? {
      return Err(res.error);
    }
    return ConvertHTTPResponse(res.value, t, Snapshot(data));
  }

  /** The provider's entry point `(type, resource, params)`, with the
      upload allow-list as a parameter. */
  method Provide(transport: Transport, apiUrl: string, allowed: seq<string>, t: OpType, resource: string,
                 q: QueryParams, id: Value, ids: seq<Value>, data: Record?)
    returns (r: Result<Envelope>)
    modifies data
    ensures var d := Dispatch(transport, apiUrl, allowed, t, resource, q, id, ids, old(Snapshot(data)));
            r == d.result && Snapshot(data) == d.data
  {
    var uploadFieldNames := DetermineUploadFieldNames(data, allowed);
    if uploadFieldNames.Err? {
      return Err(uploadFieldNames.error);
    }
    if |uploadFieldNames.value| > 0 {
      r := HandleFileUpload(transport, apiUrl, t, resource, id, data, uploadFieldNames.value);
      return;
    }
    r := RouteRequest(transport, apiUrl, t, resource, q, id, ids, data);
  }

  // ---------------------------------------------------------------------------
  // Properties of the legacy provider

  lemma {:induction false} AfterLastSlashOfTail(prefix: string, tail: string)
    requires '/' !in tail
    ensures AfterLastSlash(prefix + "/" + tail) == tail
    decreases |tail|
  {
    var s := prefix + "/" + tail;
    if tail == [] {
      assert s[|s| - 1] == '/';
    } else {
      assert s[|s| - 1] == tail[|tail| - 1];
      assert s[..|s| - 1] == prefix + "/" + tail[..|tail| - 1];
      AfterLastSlashOfTail(prefix, tail[..|tail| - 1]);
      assert tail[..|tail| - 1] + [tail[|tail| - 1]] == tail;
    }
  }

  /** A list's total is the number after the last `/` of its Content-Range
      header; without the header the call fails. */
  lemma ContentRangeTotal(headers: seq<(string, string)>, json: Value, t: OpType, data: Option<Fields>, prefix: string, n: nat)
    requires t == OpType.GetList || t == OpType.GetManyReference
    ensures HeaderValue(headers, "content-range") == None ==>
              ConvertHTTPResponse(Response(headers, json), t, data) == Err(MissingContentRange)
    ensures HeaderValue(headers, "content-range") == Some(prefix + "/" + NatToString(n)) ==>
              ConvertHTTPResponse(Response(headers, json), t, data) == Ok(Envelope(json, Some(Num(n))))
  {
    NatToStringDigits(n);
    var digits := NatToString(n);
    assert forall i :: 0 <= i < |digits| ==> digits[i] != '/';
    AfterLastSlashOfTail(prefix, NatToString(n));
    ParseIntOfNatToString(n);
  }

  /** `content-range: posts 0-24/157` gives a total of 157. */
  lemma ContentRangeExample(json: Value)
    ensures ConvertHTTPResponse(Response([("content-range", "posts 0-24/157")], json), OpType.GetList, None)
            == Ok(Envelope(json, Some(Num(157))))
  {
    assert NatToString(157) == "157" by {
      assert NatToString(1) == "1";
      assert NatToString(15) == NatToString(1) + [DigitChar(5)];
    }
    assert "posts 0-24/157" == "posts 0-24" + "/" + NatToString(157);
    ContentRangeTotal([("content-range", "posts 0-24/157")], json, OpType.GetList, None, "posts 0-24", 157);
  }

  /** UPDATE is a PUT to the record whose body is the record without its
      timestamps; CREATE is a POST of the record as it is; a missing record
      fails UPDATE and sends CREATE without a body. */
  lemma WriteRequests(apiUrl: string, resource: string, q: QueryParams, id: Value, fs: Fields)
    ensures RequestFor(apiUrl, OpType.Update, resource, q, id, Some(fs)) ==
              Ok(Request(apiUrl + "/" + resource + "/" + ToStr(id), Some(PUT), JsonBody(Obj(Sanitize(fs)))))
    ensures forall k :: k in Timestamps ==> k !in Keys(Sanitize(fs))
    ensures forall k :: k !in Timestamps ==> Get(Sanitize(fs), k) == Get(fs, k)
    ensures RequestFor(apiUrl, OpType.Create, resource, q, id, Some(fs)) ==
              Ok(Request(apiUrl + "/" + resource, Some(POST), JsonBody(Obj(fs))))
    ensures RequestFor(apiUrl, OpType.Update, resource, q, id, None) == Err(TypeError)
    ensures RequestFor(apiUrl, OpType.Create, resource, q, id, None).value.body == NoBody
  {
    forall k {
      OmitGet(fs, Timestamps, k);
    }
  }

  /** A type outside the nine the router knows fails with its name before
      any request is sent, so the answer does not depend on the transport,
      the parameters or the record. With no upload pending, the whole router
      answers the same. */
  lemma UnsupportedTypeFails(transport: Transport, apiUrl: string, allowed: seq<string>, resource: string,
                             q: QueryParams, id: Value, ids: seq<Value>, data: Option<Fields>, name: string)
    ensures Route(transport, apiUrl, OpType.Other(name), resource, q, id, ids, data) ==
              Err(Unsupported("Unsupported fetch action type " + name))
    ensures data.None? || (!Scan(data.value, allowed).failed && |Scan(data.value, allowed).names| == 0) ==>
              Dispatch(transport, apiUrl, allowed, OpType.Other(name), resource, q, id, ids, data).result ==
              Err(Unsupported("Unsupported fetch action type " + name))
  {
  }

  /** GET_ONE sends a GET to `apiUrl/resource/id` and answers the body as it
      came; DELETE sends a DELETE there and answers a null id whatever the
      body. Each fails exactly when the call fails, with the call's error. */
  lemma SingleRecordCalls(transport: Transport, apiUrl: string, resource: string, q: QueryParams,
                          id: Value, ids: seq<Value>, data: Option<Fields>)
    ensures var res := transport(Request(apiUrl + "/" + resource + "/" + ToStr(id), None, NoBody));
            var r := Route(transport, apiUrl, OpType.GetOne, resource, q, id, ids, data);
            && (r.Ok? <==> res.Ok?)
            && (r.Ok? ==> r.value == Envelope(res.value.json, None))
            && (r.Err? ==> r.error == res.error)
    ensures var res := transport(Request(apiUrl + "/" + resource + "/" + ToStr(id), Some(DELETE), NoBody));
            var r := Route(transport, apiUrl, OpType.Delete, resource, q, id, ids, data);
            && (r.Ok? <==> res.Ok?)
            && (r.Ok? ==> r.value == Envelope(Obj([("id", Null)]), None))
            && (r.Err? ==> r.error == res.error)
  {
  }

  /** GET_LIST and GET_MANY_REFERENCE send a GET to the resource with the
      encoded query, and answer the body with the total taken from the text
      after the last `/` of Content-Range. They fail when the call fails, and
      when the answer has no Content-Range header. */
  lemma ListCalls(transport: Transport, apiUrl: string, t: OpType, resource: string, q: QueryParams,
                  id: Value, ids: seq<Value>, data: Option<Fields>)
    requires t == OpType.GetList || t == OpType.GetManyReference
    ensures var res := transport(Request(apiUrl + "/" + resource + "?" + QueryString(Legacy, q), None, NoBody));
            var r := Route(transport, apiUrl, t, resource, q, id, ids, data);
            && (r.Ok? <==> res.Ok? && HeaderValue(res.value.headers, "content-range").Some?)
            && (res.Err? ==> r == Err(res.error))
            && (res.Ok? && HeaderValue(res.value.headers, "content-range").None? ==> r == Err(MissingContentRange))
            && (r.Ok? ==> r.value == Envelope(res.value.json,
                                              Some(ParseInt(AfterLastSlash(HeaderValue(res.value.headers, "content-range").value)))))
  {
  }

  /** CREATE answers the submitted record with `id` set from the body;
      DELETE answers a null id; GET_ONE and UPDATE pass the body through. */
  lemma ResponseCases(res: Response, fs: Fields, data: Option<Fields>)
    requires DistinctKeys(fs) && !Nullish(res.json)
    ensures var r := ConvertHTTPResponse(res, OpType.Create, Some(fs));
            && r.Ok? && r.value.data.Obj?
            && Get(r.value.data.fields, "id") == Prop(res.json, "id")
            && forall k :: k != "id" ==> Get(r.value.data.fields, k) == Get(fs, k)
    ensures ConvertHTTPResponse(res, OpType.Delete, data) == Ok(Envelope(Obj([("id", Null)]), None))
    ensures ConvertHTTPResponse(res, OpType.GetOne, data) == Ok(Envelope(res.json, None))
    ensures ConvertHTTPResponse(res, OpType.Update, data) == Ok(Envelope(res.json, None))
  {
    SpreadFresh([], fs);
    assert [] + fs == fs;
    forall k {
      PutGet(fs, "id", Prop(res.json, "id"), k);
    }
  }

  /** A fan-out fails exactly when one of its requests fails; otherwise it
      answers one body per request, in request order. */
  lemma FanOutBodiesInOrder(transport: Transport, reqs: seq<Request>)
    ensures var r := FanOutBodies(transport, reqs);
            && (r.Ok? <==> forall i :: 0 <= i < |reqs| ==> transport(reqs[i]).Ok?)
            && (r.Ok? ==>
                  && r.value.total == None && r.value.data.Arr? && |r.value.data.items| == |reqs|
                  && forall i :: 0 <= i < |reqs| ==> r.value.data.items[i] == transport(reqs[i]).value.json)
  {
    MapAllInOrder(transport, reqs);
  }

  /** DELETE_MANY and GET_MANY send one request per id, to that id's record,
      and answer the bodies in the order of the ids. */
  lemma BatchFanOutInOrder(transport: Transport, apiUrl: string, t: OpType, resource: string, q: QueryParams,
                           id: Value, ids: seq<Value>, data: Option<Fields>)
    requires t == OpType.DeleteMany || t == OpType.GetMany
    ensures var verb := if t == OpType.DeleteMany then DELETE else GET;
            var r := Route(transport, apiUrl, t, resource, q, id, ids, data);
            && (r.Ok? <==> forall i :: 0 <= i < |ids| ==>
                             transport(Request(ItemPath(apiUrl, resource, ids[i]), Some(verb), NoBody)).Ok?)
            && (r.Ok? ==>
                  && r.value.data.Arr? && |r.value.data.items| == |ids|
                  && forall i :: 0 <= i < |ids| ==>
                       r.value.data.items[i] == transport(Request(ItemPath(apiUrl, resource, ids[i]), Some(verb), NoBody)).value.json)
  {
    var verb := if t == OpType.DeleteMany then DELETE else GET;
    var reqs := PerIdRequests(apiUrl, resource, ids, verb);
    assert forall i :: 0 <= i < |ids| ==> reqs[i] == Request(ItemPath(apiUrl, resource, ids[i]), Some(verb), NoBody);
    FanOutBodiesInOrder(transport, reqs);
  }

  /** UPDATE_MANY sends the record without its timestamps to each id in
      turn and answers the bodies in the order of the ids; with no ids it
      sends nothing, with ids but no record it fails, and with ids and a
      record it succeeds exactly when every PUT succeeds. */
  lemma UpdateManyInOrder(transport: Transport, apiUrl: string, resource: string, q: QueryParams,
                          id: Value, ids: seq<Value>, data: Option<Fields>)
    ensures ids == [] ==> Route(transport, apiUrl, OpType.UpdateMany, resource, q, id, ids, data) == Ok(Envelope(Arr([]), None))
    ensures ids != [] && data.None? ==> Route(transport, apiUrl, OpType.UpdateMany, resource, q, id, ids, data) == Err(TypeError)
    ensures var r := Route(transport, apiUrl, OpType.UpdateMany, resource, q, id, ids, data);
            r.Ok? <==> ids == [] || (data.Some? && forall i :: 0 <= i < |ids| ==>
                         transport(Request(ItemPath(apiUrl, resource, ids[i]), Some(PUT), JsonBody(Obj(Sanitize(data.value))))).Ok?)
    ensures var r := Route(transport, apiUrl, OpType.UpdateMany, resource, q, id, ids, data);
            r.Ok? ==>
              && (data.Some? || ids == [])
              && r.value.data.Arr? && |r.value.data.items| == |ids|
              && forall i :: 0 <= i < |ids| ==>
                   && data.Some?
                   && transport(Request(ItemPath(apiUrl, resource, ids[i]), Some(PUT), JsonBody(Obj(Sanitize(data.value))))).Ok?
                   && r.value.data.items[i] ==
                        transport(Request(ItemPath(apiUrl, resource, ids[i]), Some(PUT), JsonBody(Obj(Sanitize(data.value))))).value.json
  {
    var f := UpdateManyRequestWith(apiUrl, resource, data);
    MapAllInOrder(f, ids);
    if ids != [] && data.None? {
      MapAllFirstFailure(f, ids, 0);
    }
    var reqs := MapAll(f, ids);
    if reqs.Ok? {
      FanOutBodiesInOrder(transport, reqs.value);
    }
  }

  /** With the allow-list as shipped, the router never uploads and never
      changes the record. */
  lemma ShippedProviderNeverUploads(transport: Transport, apiUrl: string, t: OpType, resource: string,
                                    q: QueryParams, id: Value, ids: seq<Value>, data: Option<Fields>)
    ensures Dispatch(transport, apiUrl, AllUploadFieldNames, t, resource, q, id, ids, data) ==
              Dispatched(data, Route(transport, apiUrl, t, resource, q, id, ids, data))
  {
    if data.Some? {
      ShippedAllowListFindsNothing(Keys(data.value), data.value, |data.value|);
    }
  }

  /** Uploads come first: once an upload field is found, the operation type
      only chooses between PUT to the record (UPDATE) and POST to the
      resource (anything else, batch operations included), and the query
      and the id list play no part. */
  lemma UploadTakesPrecedence(transport: Transport, apiUrl: string, allowed: seq<string>, t1: OpType, t2: OpType,
                              resource: string, q1: QueryParams, q2: QueryParams, id: Value,
                              ids1: seq<Value>, ids2: seq<Value>, fs: Fields)
    requires !Scan(fs, allowed).failed && |Scan(fs, allowed).names| > 0
    requires t1 != OpType.Update && t2 != OpType.Update
    ensures Dispatch(transport, apiUrl, allowed, t1, resource, q1, id, ids1, Some(fs)) ==
            Dispatch(transport, apiUrl, allowed, t2, resource, q2, id, ids2, Some(fs))
    ensures Dispatch(transport, apiUrl, allowed, t1, resource, q1, id, ids1, Some(fs)) ==
            UploadOutcome(transport, apiUrl, OpType.Create, resource, id, Scan(fs, allowed).record, Scan(fs, allowed).names)
  {
  }

  /** The JSON `data` part of an upload: an upload field holds the entries
      added so far followed by its current files; any other timestamp field
      is gone; every other field is as it was. Only upload fields of the
      record are rewritten. */
  lemma {:induction false} UploadDataFields(fs: Fields, names: seq<string>, n: nat, k: string)
    requires n <= |names| && !UploadAfter(fs, names, n).failed && k !in names[..n]
    ensures Get(UploadAfter(fs, names, n).data, k) == if k in Timestamps then Undefined else Get(fs, k)
    ensures Get(UploadAfter(fs, names, n).record, k) == Get(fs, k)
  {
    if n == 0 {
      OmitGet(fs, Timestamps, k);
    } else {
      assert names[..n] == names[..n - 1] + [names[n - 1]];
      var p := UploadAfter(fs, names, n - 1);
      assert !p.failed;
      assert k !in names[..n - 1] && k != names[n - 1];
      UploadDataFields(fs, names, n - 1, k);
      var field := names[n - 1];
      var fieldData := Get(p.record, field);
      var record := Put(p.record, field, Arr(AsList(fieldData)));
      var added := p.added + AddedEntries(NewFileItems(fieldData.items), Get(record, "title"));
      PutGet(p.record, field, Arr(AsList(fieldData)), k);
      PutGet(p.data, field, Arr(added + CurrentItems(fieldData.items)), k);
    }
  }

  function PickedFile(handle: nat): Value {
    Obj([("rawFile", File(handle))])
  }

  lemma OneNewFile(field: string, handle: nat, title: Value)
    ensures NoNullish([PickedFile(handle)])
    ensures NewFileItems([PickedFile(handle)]) == [PickedFile(handle)]
    ensures CurrentItems([PickedFile(handle)]) == []
    ensures AddedEntries([PickedFile(handle)], title) == [AddedEntry(PickedFile(handle), title)]
    ensures NewFileParts(field, [PickedFile(handle)]) == [FilePart("files." + field, File(handle))]
  {
    var f := PickedFile(handle);
    assert Prop(f, "rawFile") == File(handle);
    assert [f][1..] == [] && [f][..0] == [];
    assert AddedEntries([f][..0], title) == [];
    assert NewFileParts(field, [f][..0]) == [];
  }

  /** One turn of the upload loop over a field holding a single new file. */
  lemma StepWithOneNewFile(p: UploadProgress, field: string, handle: nat)
    requires !p.failed && Get(p.record, field) == Arr([PickedFile(handle)]) && field != "title"
    ensures var q := UploadStep(p, field);
            && !q.failed
            && (forall k :: Get(q.record, k) == Get(p.record, k))
            && q.parts == p.parts + [FilePart("files." + field, File(handle))]
            && q.added == p.added + [AddedEntry(PickedFile(handle), Get(p.record, "title"))]
            && Get(q.data, field) == Arr(q.added)
  {
    OneNewFile(field, handle, Get(p.record, "title"));
    var record := Put(p.record, field, Arr([PickedFile(handle)]));
    forall k {
      PutGet(p.record, field, Arr([PickedFile(handle)]), k);
    }
    var q := UploadStep(p, field);
    assert q.added + [] == q.added;
    PutGet(p.data, field, Arr(q.added), field);
  }

  /** `newFilesToAdd` is shared by all upload fields: a second field with
      one new file of its own also receives the entry of the first field's
      file. */
  lemma NewFilesAccumulateAcrossFields(a: string, b: string, h1: nat, h2: nat)
    requires a != b && a != "title" && b != "title"
    ensures var p := UploadAfter([(a, Arr([PickedFile(h1)])), (b, Arr([PickedFile(h2)]))], [a, b], 2);
            && !p.failed
            && p.parts == [FilePart("files." + a, File(h1)), FilePart("files." + b, File(h2))]
            && Get(p.data, b) == Arr([AddedEntry(PickedFile(h1), Undefined), AddedEntry(PickedFile(h2), Undefined)])
  {
    var fs := [(a, Arr([PickedFile(h1)])), (b, Arr([PickedFile(h2)]))];
    var names := [a, b];
    var rest := [(b, Arr([PickedFile(h2)]))];
    assert fs[1..] == rest && rest[1..] == [];
    assert Get(rest, "title") == Undefined;
    assert Get(fs, b) == Get(rest, b) == Arr([PickedFile(h2)]);
    var p0 := UploadProgress(fs, [], [], Sanitize(fs), false);
    assert UploadAfter(fs, names, 0) == p0;
    assert Get(fs, "title") == Undefined;
    assert UploadAfter(fs, names, 1) == UploadStep(p0, a);
    assert UploadAfter(fs, names, 2) == UploadStep(UploadStep(p0, a), b);
    TwoFieldsWithOneNewFile(p0, a, b, h1, h2);
    assert [] + [FilePart("files." + a, File(h1)), FilePart("files." + b, File(h2))]
        == [FilePart("files." + a, File(h1)), FilePart("files." + b, File(h2))];
  }

  /** Two turns of the upload loop over two fields holding one new file each. */
  lemma TwoFieldsWithOneNewFile(p: UploadProgress, a: string, b: string, h1: nat, h2: nat)
    requires !p.failed && a != b && a != "title" && b != "title"
    requires Get(p.record, a) == Arr([PickedFile(h1)]) && Get(p.record, b) == Arr([PickedFile(h2)])
    ensures var q := UploadStep(UploadStep(p, a), b);
            var title := Get(p.record, "title");
            && !q.failed
            && q.parts == p.parts + [FilePart("files." + a, File(h1)), FilePart("files." + b, File(h2))]
            && Get(q.data, b) == Arr(p.added + [AddedEntry(PickedFile(h1), title), AddedEntry(PickedFile(h2), title)])
  {
    var title := Get(p.record, "title");
    StepWithOneNewFile(p, a, h1);
    var p1 := UploadStep(p, a);
    StepWithOneNewFile(p1, b, h2);
    var fa, fb := FilePart("files." + a, File(h1)), FilePart("files." + b, File(h2));
    var ea, eb := AddedEntry(PickedFile(h1), title), AddedEntry(PickedFile(h2), title);
    assert (p.parts + [fa]) + [fb] == p.parts + [fa, fb];
    assert (p.added + [ea]) + [eb] == p.added + [ea, eb];
  }
}
