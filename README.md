# Strapi data providers for react-admin, modelled in Dafny

This project models the two data providers that let a react-admin
application talk to a Strapi back end:

- `index.js` is the provider for the legacy Strapi REST dialect.
- `index.ts` is the provider for Strapi v4.

Both providers translate react-admin's abstract operations (GET_LIST,
GET_ONE, GET_MANY, GET_MANY_REFERENCE, CREATE, UPDATE, UPDATE_MANY, DELETE,
DELETE_MANY) into HTTP requests. They then turn the answers back into
react-admin's `{data, total}` envelope. The model covers four parts of that
work:

- the list query encoder;
- the request builders;
- the response normalisers;
- the file-upload pipeline.

The batch operations are covered too: each one fans out into one request per
id.

## Layout

| file | module | what it holds |
|---|---|---|
| `outcome.dfy` | `Outcome` | `Option`, the error kinds, `Result`, and `MapAll`. `MapAll` is the all-or-nothing ordered map that stands for `Promise.all(xs.map(f))`. |
| `js_values.dfy` | `JsValues` | JavaScript values: objects as ordered key/value sequences, truthiness, `String(v)`, `parseInt`, property reads, `o[k] = v`, spread, and rest destructuring |
| `http.dfy` | `Http` | Requests, responses, multipart parts, the operation constants, and the abstract transport |
| `query_encoding.dfy` | `QueryEncoding` | `adjustQueryForStrapi` for both dialects, which differ only in how each term is spelled |
| `legacy_provider.dfy` | `LegacyProvider` | `index.js`: upload detection and the multipart form, built in place on a `Record` object; the request builder; response conversion; the router |
| `strapi_v4_format.dfy` | `StrapiV4Format` | `formatResponseForRa` of `index.ts` and its `processItem` loop |
| `strapi_v4_upload.dfy` | `StrapiV4Upload` | `getUploadFieldNames`/`hasRawFile` and the `reduce` that partitions upload fields |
| `strapi_v4_provider.dfy` | `StrapiV4Provider` | `processRequest`, `convertHTTPResponse`, and the nine operations of `index.ts` |

### Modelling decisions

**The transport.** The transport is a total function from a request to a
response or a failure. A fan-out issues its requests in input order. When
several requests fail, the first failure in input order is the one reported.

**Errors.** JavaScript errors are values of `Result`, never preconditions:
- reading a property of `null`/`undefined` gives `TypeError`;
- an unknown operation gives `Unsupported` with the source's message;
- a list answer without a Content-Range header gives `MissingContentRange`.

**Mutation in place.** The legacy provider rewrites `params.data` while it
looks for uploads and builds the form. That record is the class
`LegacyProvider.Record`, and the methods that change it are proved equal to
value-level specification functions (`Scan`, `UploadAfter`, `Dispatch`).

**Loops.** Each loop in the source is a method whose `while` loop is proved
against a specification function:
- the filter loop;
- `processItem`'s `for…in`;
- the `reduce` and `forEach` of the upload;
- the loops of `handleFileUpload`.

The properties are then proved about those functions.

### Source behaviour that may surprise

Each of these is modelled as the code does it:

- **Reference scoping** (index.js:95-98, index.ts:46-49) applies whenever the
  target contains `_id` anywhere. It always drops the target's last three
  characters, whatever they are (`QueryEncoding.ReferenceScopingDropsLastThree`).
- **The filter fragment** (index.js:87-94, index.ts:39-45) writes the `&`
  after a term only when the next key is truthy. An empty key therefore glues
  two terms together (`QueryEncoding.EmptyFilterKeyGluesTerms`).
- **The legacy sort term** (index.js:81) starts with `_sort=` and keeps the
  order as given. The v4 term (index.ts:33) starts with `sort=` and
  lower-cases the order.
- **Relation envelopes** (index.ts:117-138) are unwrapped one level deep,
  field by field. The loop does not recurse into the records it builds.
- **A v4 list answer without `meta.pagination`** (index.ts:155) fails with
  the TypeError of the property read.
- **v4 `getMany`** (index.ts:187-189) drops only the ids that are objects
  whose own `data` is `null`. A bare `null` id throws at `hasOwnProperty`,
  because `typeof null` is `"object"`.
- **The legacy upload's `data` part** (index.js:141-159) gives each upload
  field every `newFilesToAdd` entry so far, followed by that field's current
  items, whole.
- **Legacy uploads** (index.js:207-211) are tried before the type is looked
  at. Any type other than UPDATE is sent as a POST to the resource
  (index.js:137-139).
- **v4 `updateMany`** (index.ts:225-239) never looks for uploads.
- **Media detection** (index.ts:120) looks only at the first element of a
  relation list (`StrapiV4Format.MediaMarkerOnlyOnFirstElement`).
- **v4 `update`** (index.ts:219) wraps its body as `{data}`, while
  `updateMany` (index.ts:232) sends the record bare
  (`StrapiV4Provider.UpdateWrapsUpdateManyDoesNot`).
- **v4 `delete`** (index.ts:145-147, 159-160) formats `json.data` before it
  answers `{id: null}`, so a body that cannot be formatted fails.

## Specification functions

The operations are functions without contracts of their own. The lemmas in
the table below state their properties.

- `JsValues.Truthy` (index.js:95, index.ts:113): JavaScript truthiness; used by every row that mentions a falsy value.
- `JsValues.ToStr` (index.js:92, index.ts:136): `String(v)`; see `QueryEncoding.DialectsAgreeOnlyOnSearch` and `StrapiV4Format.ProcessedFieldAtKey`.
- `JsValues.ParseInt` (index.js:188): `parseInt(s, 10)`; see `JsValues.ParseIntReadsBack` and `LegacyProvider.ContentRangeTotal`.
- `JsValues.Sanitize` (index.js:49, index.ts:218): rest destructuring without the four timestamps; see `JsValues.OmitGet`, `JsValues.SanitizeIdempotent` and `JsValues.SanitizeIdentity`.
- `QueryEncoding.SortTerm` (index.js:80-81, index.ts:31-33): see `QueryEncoding.SortTermReadsBack` and `QueryEncoding.SortTermsAcrossDialects`.
- `QueryEncoding.FilterTerm` (index.js:89-93, index.ts:40-44): see `QueryEncoding.DialectsAgreeOnlyOnSearch` and `QueryEncoding.FilterIsJoinedTerms`.
- `QueryEncoding.ScopeFilter` (index.js:95-98, index.ts:46-49): see `QueryEncoding.ScopingOnlyAppends`, `QueryEncoding.ReferenceQueryOfIdField` and `QueryEncoding.ReferenceScopingDropsLastThree`.
- `QueryEncoding.RangeTerm` (index.js:101-104, index.ts:52-54): see `QueryEncoding.RangeStartReadsBack` and `QueryEncoding.RangeLimitReadsBack`.
- `QueryEncoding.QueryString` (index.js:106, index.ts:56): see `QueryEncoding.AdjustQueryForStrapi` and `QueryEncoding.ScopingOnlyAppends`.
- `LegacyProvider.Scan` (index.js:121-129): see `LegacyProvider.ScanOfRecord` and `LegacyProvider.ScanFindsUploadFields`.
- `LegacyProvider.UploadStep` and `LegacyProvider.UploadAfter` (index.js:143-160): see `LegacyProvider.UploadAccumulates`, `LegacyProvider.UploadFieldValue` and `LegacyProvider.UploadDataFields`.
- `LegacyProvider.RequestFor` (index.js:34-65): see `LegacyProvider.WriteRequests` and `LegacyProvider.ConvertDataRequestToHTTP`.
- `LegacyProvider.ConvertHTTPResponse` (index.js:176-197): see `LegacyProvider.ResponseCases` and `LegacyProvider.ContentRangeTotal`.
- `LegacyProvider.Route` (index.js:213-260): see `LegacyProvider.UnsupportedTypeFails`, `LegacyProvider.SingleRecordCalls`, `LegacyProvider.ListCalls`, `LegacyProvider.BatchFanOutInOrder` and `LegacyProvider.UpdateManyInOrder`.
- `LegacyProvider.Dispatch` (index.js:205-261): see `LegacyProvider.Provide`, `LegacyProvider.ShippedProviderNeverUploads` and `LegacyProvider.UploadTakesPrecedence`.
- `StrapiV4Format.FieldRewrite` and `StrapiV4Format.ProcessedItem` (index.ts:114-140): see `StrapiV4Format.ProcessedItemShape`, `StrapiV4Format.ProcessedFieldAtKey` and `StrapiV4Format.ProcessedItemHasId`.
- `StrapiV4Format.MediaRecord` (index.ts:125-134): see `StrapiV4Format.MediaRecordShape` and `StrapiV4Format.MediaListFlattened`.
- `StrapiV4Provider.ConvertHTTPResponse` (index.ts:145-164): see `StrapiV4Provider.ListOperationsEndToEnd` and `StrapiV4Provider.CreateKeepsSubmittedFields`.
- `StrapiV4Provider.GetList` and `StrapiV4Provider.GetManyReference` (index.ts:172-176, 203-207): see `StrapiV4Provider.ListOperationsEndToEnd`.
- `StrapiV4Provider.GetOne` (index.ts:178-183): see `StrapiV4Provider.GetOneFormatsRecord` and `StrapiV4Provider.SingletonUrls`.
- `StrapiV4Provider.KeptIds`, `StrapiV4Provider.LookupKey` and `StrapiV4Provider.GetMany` (index.ts:185-201): see `StrapiV4Provider.KeptIdsFilter` and `StrapiV4Provider.GetManyInOrder`.
- `StrapiV4Provider.Update` and `StrapiV4Provider.Create` (index.ts:209-251): see `StrapiV4Provider.UpdateWrapsUpdateManyDoesNot`, `StrapiV4Provider.CreateKeepsSubmittedFields` and the `StrapiV4Upload` rows.
- `StrapiV4Provider.UpdateMany` (index.ts:225-239): see `StrapiV4Provider.UpdateManyInOrder`.
- `StrapiV4Provider.Delete` (index.ts:253-257): see `StrapiV4Provider.DeleteIgnoresBody`.
- `StrapiV4Provider.DeleteMany` (index.ts:259-269): see `StrapiV4Provider.DeleteManyInOrder`.

## Model

| member | source | states |
|---|---|---|
| `Outcome.MapAllInOrder` | index.js:215-226 | A fan-out succeeds exactly when every call succeeds; its i-th result is then the i-th call's result. |
| `Outcome.MapAllFirstFailure` | index.ts:191-197 | A fan-out whose calls before i succeed and whose i-th call fails reports the i-th call's failure. |
| `JsValues.ParseIntReadsBack` | index.js:188 | `parseInt` of the decimal text of n, followed by any text that does not start with a digit, is n. |
| `JsValues.OmitGet` | index.js:49 | Rest destructuring keeps exactly the keys it does not name, with their values. A named key reads as undefined. |
| `JsValues.SanitizeIdempotent` | index.ts:218 | The sanitized record has no timestamp key, and sanitizing twice is sanitizing once. |
| `JsValues.SanitizeIdentity` | index.js:218 | Sanitizing a record without timestamp keys gives it back unchanged. |
| `JsValues.PutGet` | index.js:191 | `o[k] = v` changes the value at `k` and nothing else. |
| `JsValues.PutKeys` | index.js:191 | `o[k] = v` keeps the key order, and appends `k` when it is new. |
| `JsValues.SpreadFresh` | index.js:191 | Spreading an object with distinct new keys appends its pairs in order. |
| `QueryEncoding.FilterFragment` | index.js:84-94 | The filter loop's result is the filter text of all entries, taken in key order. |
| `QueryEncoding.AdjustQueryForStrapi` | index.js:67-107 | The query string is the sort term, `&`, the pagination term, `&`, and the scoped filter fragment. The same holds in both dialects (index.ts:19-57). |
| `QueryEncoding.SortTermReadsBack` | index.js:80-81 | An empty field gives `_sort=updated_at:DESC` (legacy) or `sort=updated_at:desc` (v4), whatever the order. Otherwise the field and the order read back from either side of the `:`, with the order verbatim in the legacy dialect and lower-cased in v4. |
| `QueryEncoding.SortTermsAcrossDialects` | index.ts:31-33 | The v4 sort term is the legacy term with the order lower-cased, minus the leading underscore. Lower-casing the order first changes nothing. |
| `QueryEncoding.LowerIdempotent` | index.ts:33 | Lower-casing twice is lower-casing once. |
| `QueryEncoding.FilterIsJoinedTerms` | index.js:87-94 | When no key is empty, the filter fragment is the entries' terms joined by `&`, with no leading or trailing separator. |
| `QueryEncoding.FilterPrefixJoin` | index.ts:39-45 | After n of the entries (none with an empty key), the filter is the first n terms joined by `&`, plus one `&` if entries remain. |
| `QueryEncoding.EmptyFilterKeyGluesTerms` | index.js:90-92 | An empty key suppresses the `&` before its term: `{a: "1", "": "2"}` encodes as `a=1=2`. |
| `QueryEncoding.DialectsAgreeOnlyOnSearch` | index.ts:39-44 | The two dialects spell a filter entry alike exactly when it is a search: key `q` with a value other than `""`. Every other entry differs between them. |
| `QueryEncoding.ReferenceScopingOfIdField` | index.ts:46-49 | A target `name_id` with a truthy id appends `&filters[name]_eq=id` (or `&name=id` in legacy). With a falsy id nothing is appended. |
| `QueryEncoding.ScopingOnlyAppends` | index.js:95-98 | Reference scoping only appends to the query. The query with a target is the query without one, followed by `&` and the scope term when the id is truthy and the target contains `_id`, and by nothing otherwise. |
| `QueryEncoding.ReferenceQueryOfIdField` | index.ts:46-49 | For a target `name_id`, the whole query is the unscoped query followed by `&` and the term for `name` and the id when the id is truthy. With a falsy id it is the unscoped query. |
| `QueryEncoding.ReferenceScopingDropsLastThree` | index.js:95-97 | A target that only contains `_id` still loses its last three characters: `author_id_ref` scopes on `author_id_`. |
| `QueryEncoding.RangeStartReadsBack` | index.js:101-104 | For page ≥ 1, the text after the start key parses back to `(page - 1) * perPage`. |
| `QueryEncoding.RangeLimitReadsBack` | index.ts:52-54 | The pagination term ends with the limit key followed by `perPage`, which parses back to `perPage`. |
| `StrapiV4Format.StripApiSuffix` | index.ts:122 | A trailing `/api` is removed. A URL without one is unchanged. |
| `StrapiV4Format.ProcessItem` | index.ts:114-140 | The `for…in` loop that rewrites fields in place yields exactly the record-level specification `ProcessedItem`, including its first failure. |
| `StrapiV4Format.FormatKeepsShape` | index.ts:112-143 | A falsy input comes back as it is. A formatted array keeps its length, and each element is a record whose first key is `id`. Any other formatted input that is not empty is one record whose first key is `id`. |
| `StrapiV4Format.ProcessedItemHasId` | index.ts:114-115 | A processed record is an object whose first key is `id`. |
| `StrapiV4Format.FormatListInOrder` | index.ts:142 | A non-empty list is formatted element by element. It fails exactly when an element fails, and otherwise keeps length and order. |
| `StrapiV4Format.ProcessedItemShape` | index.ts:115-139 | `{id, attributes}` becomes `id` followed by the attribute keys in order, each value rewritten on its own. It fails exactly when some rewrite fails. |
| `StrapiV4Format.RewriteFieldsInOrder` | index.ts:117-138 | Rewriting keeps every key in place and rewrites each value independently, all or nothing. |
| `StrapiV4Format.ProcessedFieldAtKey` | index.ts:117-138 | In a processed record, each attribute's key holds that attribute's own rewrite, and a failing rewrite fails the record. A field whose value or whose `data` is falsy keeps its value. A single relation without a media marker holds `String(data.id)`, and a nullish id fails the record. |
| `StrapiV4Format.RelationListBecomesIds` | index.ts:136 | A non-media relation list becomes its ids, in order, with the same length. A null element is a TypeError. |
| `StrapiV4Format.MediaListFlattened` | index.ts:124-131 | A media list becomes its flattened media records, in order, with the same length. |
| `StrapiV4Format.MediaRecordShape` | index.ts:133-134 | A media record keeps `id` first and then its attributes. Its `url` becomes the base URL without `/api` followed by the relative url. Every other attribute is unchanged. |
| `StrapiV4Format.ExampleMediaUrl` | index.ts:122 | With base `http://h/api`, the url `/u/5.png` becomes `http://h/u/5.png`. |
| `StrapiV4Format.CoverMediaRecord` | index.ts:134 | A media record `{id, attributes: {mime, url}}` becomes `{id, mime, url: absolute}`. |
| `StrapiV4Format.CoverFieldRewrite` | index.ts:133-134 | A cover field `{data: media}` is replaced by its flattened media record. |
| `StrapiV4Format.CoverExampleUrl` | index.ts:122-134 | The cover with id 5, `image/png`, `/u/5.png` under `http://h/api` becomes `{id: 5, mime: "image/png", url: "http://h/u/5.png"}`. |
| `StrapiV4Format.CoverImageExample` | index.ts:114-140 | `{id, attributes: {title, cover: {data: media}}}` becomes `{id, title, cover: flattened media}`. |
| `StrapiV4Format.MediaMarkerOnlyOnFirstElement` | index.ts:120 | A relation list whose second element (not its first) carries `mime` is still reduced to ids. |
| `StrapiV4Format.EmptyRelationList` | index.ts:121 | An empty relation list is not skipped: it becomes an empty id list. |
| `StrapiV4Upload.HasRawFileIffReachable` | index.ts:61-69 | The recursive detector holds exactly when an object with a `rawFile` key is reachable at some depth. |
| `StrapiV4Upload.RawFileKeys` | index.ts:71 | The keys kept are exactly those whose value holds a raw file, in key order. |
| `StrapiV4Upload.UploadFieldNames` | index.ts:59-72 | Data that is not an object has no upload fields. For an object, a key is an upload field exactly when its value holds a raw file, and the fields come in key order. |
| `StrapiV4Upload.PartitionIsTwoFilters` | index.ts:93-98 | The `reduce` fails exactly on a null or undefined item. Otherwise its parts are the new files, in order, as `files.<field>`, and its ids are `id \|\| _id` of the other items, in order. |
| `StrapiV4Upload.PartitionField` | index.ts:93-98 | The accumulator loop computes the partition. |
| `StrapiV4Upload.PartitionErrorIsTypeError` | index.ts:94 | The only way a partition fails is a TypeError. |
| `StrapiV4Upload.UploadField` | index.ts:89-99 | One `forEach` callback appends the field's file parts and sets `data[field]` to its kept ids. |
| `StrapiV4Upload.BuildUploadForm` | index.ts:88-101 | The loop over the upload fields yields the file parts followed by the JSON `data` part. |
| `StrapiV4Upload.UploadFormData` | index.ts:88-99 | In the `data` part, an upload field holds its kept ids, any other timestamp field is gone, and every other field is as submitted. |
| `StrapiV4Upload.UploadFormFailsOnNullItem` | index.ts:89-99 | The upload fails exactly when some upload field's partition fails. |
| `StrapiV4Upload.MixedFieldPartition` | index.ts:93-98 | One new file and one existing file with id 3 give one `files.photos` part and the ids `[3]`. |
| `StrapiV4Upload.MixedUploadFieldNames` | index.ts:59-72 | In `{title: "x", photos: [new, {id: 3}]}`, only `photos` needs an upload. |
| `StrapiV4Upload.MixedUploadForm` | index.ts:86-101 | That record uploads exactly one file part, and its `data` part has `photos: [3]`. |
| `StrapiV4Provider.WithPopulate` | index.ts:166-169 | `populate=*` is appended after `&` when the URL already contains `?`, and after `?` otherwise. The URL itself is kept as a prefix. |
| `StrapiV4Provider.SingletonUrls` | index.ts:82-83 | getOne, update and delete drop the id segment only for the string `"SingleType"`. The upload URL compares loosely, so `["SingleType"]` also names the single type. A create upload has no id segment. Otherwise the update upload URL is the record URL. |
| `StrapiV4Provider.ListOperationsEndToEnd` | index.ts:145-176 | getList sends a GET to the resource with the encoded query followed by `&populate=*`, and getManyReference behaves identically. The call succeeds exactly when the request succeeds, its data can be formatted, and the body has `meta.pagination`. It then answers the formatted data with `meta.pagination.total`. A formatted body without pagination is a TypeError. |
| `StrapiV4Provider.GetOneFormatsRecord` | index.ts:178-183 | getOne succeeds exactly when the call succeeds and its data can be formatted. It then answers the formatted data without a total. |
| `StrapiV4Provider.ListTotalExample` | index.ts:153-155 | `meta.pagination.total = 42` gives total 42. A body without `meta` fails. |
| `StrapiV4Provider.CreateKeepsSubmittedFields` | index.ts:157-158 | CREATE answers the submitted fields unchanged, with `id` from the formatted response. The key order is kept, and `id` is appended when new. A nullish formatted response fails. |
| `StrapiV4Provider.CreatedRecord` | index.ts:157-158 | CREATE answers the submitted record with `id` assigned from the formatted response. |
| `StrapiV4Provider.CreateExample` | index.ts:241-250 | Submitting `{title: "x"}` against `{data: {id: 9}}` yields `{title: "x", id: 9}`. |
| `StrapiV4Provider.DeleteIgnoresBody` | index.ts:253-257 | delete succeeds exactly when the call succeeds and the body's data can be formatted, and then answers `{id: null}`. Two servers whose answers both format give the same result, whatever their bodies hold. |
| `StrapiV4Provider.UpdateWrapsUpdateManyDoesNot` | index.ts:209-239 | update sends `{data: sanitized}`, and updateMany sends the sanitized record bare. The sanitized record has no timestamp key. |
| `StrapiV4Provider.FanOutFormattedInOrder` | index.ts:191-200 | A fan-out fails exactly when a request or a formatting fails. Otherwise it holds one formatted body per request, in request order. |
| `StrapiV4Provider.DeleteManyInOrder` | index.ts:259-269 | deleteMany succeeds exactly when every delete and every formatting of its answer succeed. It then answers one formatted body per id, in the order of the ids. |
| `StrapiV4Provider.UpdateManyInOrder` | index.ts:225-239 | No ids give an empty list. Ids with a nullish record give a TypeError. With ids and a record it succeeds exactly when every PUT and every formatting succeed, and then answers one formatted body per id, in order. |
| `StrapiV4Provider.KeptIdsFilter` | index.ts:187-189 | The filter fails exactly on a null id. Otherwise it equals the order-preserving filter that drops the objects whose own `data` is null. So it keeps exactly the other ids, in order, and all of them when none has null data. |
| `StrapiV4Provider.GetManyInOrder` | index.ts:185-200 | getMany succeeds exactly when no id is null and every kept id's lookup, request and formatting succeed. Its i-th record is then the formatted answer for the i-th kept id, with no total. An empty id list answers `[]`. |
| `LegacyProvider.NewFileItems` | index.js:148 | The first filter keeps only items holding a new file. |
| `LegacyProvider.CurrentItems` | index.js:149 | The second filter keeps only items without a new file. |
| `LegacyProvider.FiltersSplitItems` | index.js:148-149 | Together the two filters keep every item exactly once: the multisets add up to the items. |
| `LegacyProvider.FiltersKeepOrder` | index.js:148-149 | Both filters keep their items in order: filtering a concatenation gives the concatenation of the filtered parts. |
| `LegacyProvider.ScanKey` | index.js:121-129 | One `forEach` callback changes the record and the found names exactly as one step of the scan specifies. |
| `LegacyProvider.DetermineUploadFieldNames` | index.js:110-132 | Absent data gives `[]` and leaves nothing changed. Otherwise the record is left as the scan rewrote it, and the result is the fields found, or a TypeError when the scan threw. |
| `LegacyProvider.ShippedAllowListFindsNothing` | index.js:115-131 | With the shipped empty allow-list, the scan changes nothing and finds no upload field. |
| `LegacyProvider.ScanFindsUploadFields` | index.js:121-129 | After n keys, the scan has thrown exactly when one of them is allowed and holds a nullish item. Otherwise the names found are exactly the upload fields among those keys, in key order, and every allowed key among them is wrapped into a list with nothing else changed. |
| `LegacyProvider.ScanOfRecord` | index.js:110-131 | Over a record with distinct keys, the scan throws exactly when an allowed key holds a nullish item. Otherwise a key is found exactly when it is allowed and its list holds a new file, and each is found once, in key order. |
| `LegacyProvider.AppendNewFiles` | index.js:151-157 | The inner loop adds one `newFilesToAdd` entry and one `files.<field>` part per new file, in order. |
| `LegacyProvider.BuildUploadForm` | index.js:143-161 | The field loop leaves the record as the upload specification rewrites it. It answers the form (file parts, then `data`), or a TypeError when a field throws. |
| `LegacyProvider.UploadAccumulates` | index.js:143-160 | The field loop throws exactly when some upload field is not a list of non-null items. Otherwise the record is unchanged, the form holds each field's file parts in field order, and `newFilesToAdd` holds each field's new entries in field order. |
| `LegacyProvider.UploadFieldValue` | index.js:141-159 | With distinct fields and no throw, the `data` part gives the j-th upload field the entries for the new files of fields 0 to j, followed by that field's current items. |
| `LegacyProvider.UploadDataFields` | index.js:136-160 | A field that is not an upload field is unchanged in the record. In the `data` part such a field is as submitted, except that timestamp fields are gone. |
| `LegacyProvider.StepWithOneNewFile` | index.js:143-159 | A field with a single new file adds one part and one entry, and its `data` value is every entry added so far. |
| `LegacyProvider.TwoFieldsWithOneNewFile` | index.js:143-159 | After two such fields, the second field's `data` value holds both fields' entries. |
| `LegacyProvider.NewFilesAccumulateAcrossFields` | index.js:141-159 | `newFilesToAdd` is never reset. A second upload field also receives the first field's file entry. |
| `LegacyProvider.ConvertDataRequestToHTTP` | index.js:34-65 | The switch that assigns the URL and the options yields exactly the request specification, errors included. |
| `LegacyProvider.WriteRequests` | index.js:45-56 | UPDATE is a PUT to `apiUrl/resource/id` whose body is the record without its four timestamps, with every other key kept. CREATE is a POST of the record unchanged. Missing data fails UPDATE and sends CREATE without a body. |
| `LegacyProvider.UnsupportedTypeFails` | index.js:61-62 | A type outside the nine fails with "Unsupported fetch action type" and its name. No request is sent, so the answer does not depend on the transport. With no upload pending, the whole router answers the same. |
| `LegacyProvider.SingleRecordCalls` | index.js:253-260 | GET_ONE sends a GET to `apiUrl/resource/id` and answers the body as it came. DELETE sends a DELETE there and answers `{id: null}`. Each fails exactly when the call fails, with the call's error. |
| `LegacyProvider.ListCalls` | index.js:176-189 | GET_LIST and GET_MANY_REFERENCE send a GET to the resource with the encoded query. They answer the body with the total parsed after the last `/` of Content-Range. They fail when the call fails, and when that header is missing. |
| `LegacyProvider.AfterLastSlash` | index.js:188 | The result is the suffix after the last `/` (or the whole string), and contains no `/`. |
| `LegacyProvider.AfterLastSlashOfTail` | index.js:188 | The text after the last `/` of `prefix/tail` is the tail, whatever the prefix holds. |
| `LegacyProvider.ContentRangeTotal` | index.js:179-189 | A list answer without Content-Range fails. With `…/n`, the total is n. |
| `LegacyProvider.ContentRangeExample` | index.js:186-189 | `content-range: posts 0-24/157` gives total 157. |
| `LegacyProvider.ResponseCases` | index.js:190-195 | CREATE answers the submitted record with `id` from the body. DELETE answers `{id: null}`. GET_ONE and UPDATE pass the body through. |
| `LegacyProvider.FanOutBodiesInOrder` | index.js:229-250 | A fan-out fails exactly when a request fails. Otherwise it answers one body per request, in order. |
| `LegacyProvider.BatchFanOutInOrder` | index.js:229-251 | DELETE_MANY and GET_MANY send one request per id to that id's record, and answer the bodies in id order. |
| `LegacyProvider.UpdateManyInOrder` | index.js:214-227 | UPDATE_MANY sends the sanitized record to each id and answers the bodies in id order. No ids send nothing; ids without a record fail; with ids and a record it succeeds exactly when every PUT succeeds. |
| `LegacyProvider.HandleFileUpload` | index.js:135-167 | The record is left as the upload rewrote it. The answer is the upload response's body, or the form's or the transport's failure. |
| `LegacyProvider.RouteRequest` | index.js:213-260 | Without uploads, the batch types fan out; any other type is one request and its conversion. Both follow the router specification. |
| `LegacyProvider.Provide` | index.js:205-261 | The entry point's answer, and the record it leaves behind, are those of the whole-router specification. |
| `LegacyProvider.ShippedProviderNeverUploads` | index.js:205-211 | With the shipped allow-list, the router never uploads and never changes the record. |
| `LegacyProvider.UploadTakesPrecedence` | index.js:207-211 | Once an upload field is found, every non-UPDATE type (batch types included) gives the same POST upload outcome, whatever the query or the ids. |

## Left out

- `src/authProvider.js` (login, token storage, 401/403 handling) is not part of this model.
- **Asynchrony.** `async`/`await`, `Promise.all` concurrency and the arrival order of responses are not modelled. A fan-out is an ordered map whose first failure in input order is the one reported.
- **The transport.** `fetchUtils.fetchJson` and the network are a total function parameter, and its failures are opaque.
- **Multipart encoding.** `FormData`, `File` and the multipart wire format are not modelled. A form is an ordered list of named parts, and a browser `File` is a `File(handle)` value.
- **JSON bodies.** `JSON.stringify` is not modelled: bodies stay structured values. Undefined fields are not dropped, and a `File` inside the legacy `data` part is not turned into `{}`.
- **Response headers.** Headers are a list of lower-case names. The case-insensitive lookup of `Headers` is not modelled.
- **`parseInt`.** `parseInt` reads leading decimal digits only. Leading whitespace, signs, and text like `*` (which gives NaN) are covered only by the NaN branch.
- **Numbers.** Numbers are integers. Fractions, infinities and their string forms are left out.
- **`Object.keys` order.** `Object.keys` order is the order of the pairs; JavaScript's rule that integer-like keys come first is not modelled.
- **Spreading non-objects.** Spreading an array or a string into an object literal adds nothing in this model, whereas JavaScript copies their indices.
- **Property reads.** These never read array indices or inherited properties. `for…in` sees only own keys.
- `QueryEncoding.Lower`: lower-cases ASCII letters only, not the full Unicode case mapping of `toLowerCase`.
- `StrapiV4Upload.UploadFieldNames`: an array passed as `data` is read as having no keys, while `Object.keys` would list its indices.
- `LegacyProvider.Provide`: the upload allow-list is a parameter. The shipped value is empty (`LegacyProvider.AllUploadFieldNames`), and `ShippedProviderNeverUploads` covers that case.
- `JsValues.ToStr`: arrays render as their elements joined by `,`, and objects as `[object Object]`. Custom `toString` methods are not modelled.
- **Undefined parameters.** `QueryParams` is a record of typed fields and the ids are a sequence. The TypeErrors the source throws when `params.sort`, `params.filter`, `params.pagination` or `params.ids` is undefined are therefore not modelled.
- **Error messages.** Only the "Unsupported fetch action type" message is kept. Other errors are kinds without text.
