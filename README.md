# CourseService — a Dafny model

`CourseService` is the client-side proxy of a PHP SDK for the `rustici.course.*`
web-service methods of a hosted SCORM engine. Each public method takes its
arguments, builds a parameter array, and hands it to a `ServiceRequest`. That
request is sent (`CallService`), sent with a posted file, or only signed into a
URL (`ConstructUrl`). This model covers what the façade itself decides. That is
which remote method is named, which parameter keys appear under which argument
conditions, and the order in which later writes override earlier ones. It also
covers the upload, import and delete sequence of `ImportCourse` and the fold
that turns a response's attribute list into a dictionary.

The files:

- `outcomes.dfy` (module `Outcomes`): `Option` for PHP `null` and
  `Outcome = Returned(value) | Threw(exception)` for a call that returns or
  throws. `Exception` is an opaque type.
- `attribute_fold.dfy` (module `AttributeFold`): `Overlay(m, pairs)` is the map
  after `m[name] := value` for every pair in order. `PutAll` is the `foreach`
  loop, proved against `Overlay`. The lemmas characterise `Overlay` without
  reference to the fold: its keys, the last occurrence winning, and untouched
  keys keeping their value.
- `requests.dfy` (module `Requests`): the request descriptor
  `Call(remote, params, kind)`, with one pure builder per façade method. Each
  builder's contract states which keys are present and when.
- `course_service.dfy` (module `CourseService`): `Backend` stands for
  everything the façade talks to but does not contain. It has a `trace` of
  `Upload`, `Send` and `Delete` events and oracle functions for the replies.
  The façade methods run against it.

The server is stateful in the model: every reply is a function of the trace so
far and of the request.

Three behaviours of the code worth knowing. The model follows the code in each.
- `ImportCourse` does not guard `DeleteFile` (CourseService.php:45). If the
  deletion throws, its exception replaces the import's outcome. The original
  outcome is preserved exactly when the deletion returns, and `ImportCourse`'s
  contract states both cases.
- The doc comments describe an item id to import and a permission domain
  (CourseService.php:27-30 and 78-81). `ImportCourse` accepts `itemIdToImport`
  and never passes it on. `ImportUploadedCourse` and `VersionUploadedCourse`
  accept `permissionDomain` and never send it. The code that would send either
  one is commented out (CourseService.php:90-96).
- `VersionUploadedCourse` is documented as returning a list of import results
  (CourseService.php:113). It returns nothing, because its conversion of the
  response is commented out (CourseService.php:124).

## Model

| member | source | states |
|---|---|---|
| `CourseService.ImportCourse` | CourseService.php:32-52 | If the upload throws, only the upload happened and its exception is the result. Otherwise the new trace is exactly Upload, then the importCourse request for the returned location, then Delete of that same location. So the deletion happens exactly once, last, after the import, whether the import returned or threw an `Exception`. If the deletion returns, the result is the import's own outcome, with the same exception or the same results. If the deletion throws, its exception propagates. `itemIdToImport` is never sent. |
| `CourseService.ImportUploadedCourse` | CourseService.php:83-104 | Sends one importCourse request. The response is converted to import results, and an exception from either step is passed on. |
| `CourseService.VersionCourse` | CourseService.php:61-69 | Sends one versionCourse request that posts the local zip itself, with no upload or delete, and returns the raw reply. |
| `CourseService.VersionUploadedCourse` | CourseService.php:114-125 | Sends one versionCourse request and returns nothing unless the request threw. |
| `CourseService.Exists` | CourseService.php:127-135 | Sends one exists request. The result is true exactly when the response's `<result>` reads "true", so an unparsable response gives false. |
| `CourseService.GetCourseList` | CourseService.php:143-156 | Sends one getCourseList request and converts the reply to a course-data list. |
| `CourseService.DeleteCourse` | CourseService.php:162-173 | Sends one deleteCourse request built by `DeleteCourseCall` and returns the reply unchanged. |
| `CourseService.DeleteCourseVersion` | CourseService.php:180-188 | Sends one deleteCourse request with the given version and returns the reply unchanged. |
| `CourseService.GetMetadata` | CourseService.php:197-216 | Sends one getMetadata request and returns the raw XML reply unchanged. |
| `CourseService.GetPreviewUrl` | CourseService.php:224-239 | Returns the signed URL of the preview request and cannot change the backend, so nothing is sent. |
| `CourseService.GetPropertyEditorUrl` | CourseService.php:251-269 | Returns the signed URL of the properties request and cannot change the backend, so nothing is sent. |
| `CourseService.GetAttributes` | CourseService.php:281-300 | Sends one getAttributes request. The result's keys are exactly the attribute names in the response, and its values are those of the fold. |
| `CourseService.UpdateAttributes` | CourseService.php:309-335 | Sends the updateAttributes request whose parameters are `courseid` and a set `versionid` with every attribute pair written over them. Returns the response's attributes folded as in GetAttributes. |
| `AttributeFold.PutAll` | CourseService.php:294-298 | The loop's final map equals `Overlay` of the initial map and the pairs. |
| `AttributeFold.OverlayKeys` | CourseService.php:328-332 | The keys after the fold are the keys before it plus every name in the pairs. |
| `AttributeFold.OverlayLastWins` | CourseService.php:294-298 | A name maps to the value at its last occurrence. |
| `AttributeFold.OverlayUntouched` | CourseService.php:318-321 | A key that no pair names keeps its earlier value. |
| `AttributeFold.LastOccurrenceExists` | CourseService.php:294-298 | Every name in the pairs has a last occurrence, so every key's value is determined. |
| `AttributeFold.AttributeMapLastWins` | CourseService.php:292-299 | The returned dictionary's key set equals the set of attribute names, and each maps to the value of its last occurrence. |
| `AttributeFold.DistinctPairsAllWritten` | CourseService.php:318-321 | With distinct names, as a PHP array's keys always are, every pair `(k, v)` ends as `params[k] == v`, whatever was there before. |
| `Requests.PutIfSet` | CourseService.php:228-235 | The key is present iff it was already present or the argument is set. It holds the argument when the argument is set, and an unset argument leaves the map exactly as it was. Other keys are unchanged. |
| `Requests.CourseAndVersion` | CourseService.php:284-287 | The keys are `courseid` and, iff a version is given, `versionid`, with the given values. |
| `Requests.ImportUploadedCourseCall` | CourseService.php:86-98 | importCourse, as a plain call, with exactly the keys `{courseid, path}`. |
| `Requests.PermissionDomainNotForwarded` | CourseService.php:83-98 | The permission domain has no influence on the request ImportUploadedCourse or VersionUploadedCourse sends. |
| `Requests.VersionCourseCall` | CourseService.php:63-67 | versionCourse, posting the given zip, with exactly the key `courseid`. |
| `Requests.VersionUploadedCourseCall` | CourseService.php:117-122 | versionCourse, as a plain call, with the same parameters as ImportUploadedCourse. |
| `Requests.ExistsCall` | CourseService.php:128-131 | exists, with exactly the key `courseid`. |
| `Requests.GetCourseListCall` | CourseService.php:145-153 | getCourseList sends `filter` with the regex iff one is given, and no parameters otherwise. |
| `Requests.DeleteCourseCall` | CourseService.php:164-171 | deleteCourse. `versionid` is present iff only the latest version is to be deleted, and then it is "latest". `courseid` is always present, and there are no other keys. |
| `Requests.DeleteCourseVersionCall` | CourseService.php:182-186 | deleteCourse, with exactly `courseid` and `versionid` as given. |
| `Requests.DeleteLatestIsDeleteVersionLatest` | CourseService.php:162-188 | `DeleteCourse(c, true)` sends the very request that `DeleteCourseVersion(c, "latest")` sends. |
| `Requests.GetMetadataCall` | CourseService.php:199-212 | getMetadata. `courseid`, `scope` and `mdformat` are always present, the last two as the enum mappings' images. `versionid` is present iff a version is given and is not 0. No other keys appear. |
| `Requests.GetPreviewUrlCall` | CourseService.php:226-238 | preview, built as a signed URL and never a call. `courseid` is always present. `redirecturl` and `cssurl` are each present, with the argument's value, iff their argument is set. No other keys appear. |
| `Requests.GetPropertyEditorUrlCall` | CourseService.php:256-268 | properties, built as a signed URL and never a call. `courseid` is always present. `notificationframesrc` and `stylesheet` are each present, with the argument's value, iff their argument is set. No other keys appear. |
| `Requests.GetAttributesCall` | CourseService.php:283-290 | getAttributes, whose `versionid` is present iff a version is given. |
| `Requests.UpdateAttributesCall` | CourseService.php:311-324 | updateAttributes as a plain call. Its parameters are characterised by `UpdateAttributesParams`. |
| `Requests.UpdateAttributesParams` | CourseService.php:312-321 | The keys are the attribute names, `courseid`, and `versionid` iff it is set. Every pair's last occurrence wins, even over `courseid` or `versionid`. `courseid` and `versionid` keep the given values unless a pair names them. |

## Left out

- `ServiceRequest` is not part of this model. It covers the signing, the URL
  encoding, the HTTP transport, and how `CallService` and `ConstructUrl` work
  inside. The model has oracle functions of `Backend` in their place: one from
  the trace and the request to a reply or an exception, and one from the request
  to the signed URL. The signature's timestamp is folded into that second
  function.
- `UploadService`, `ImportResult::ConvertToImportResults` and
  `CourseData::ConvertToCourseDataList` are not part of this model. They are
  oracle functions of `Backend`, and their results are the opaque types
  `ImportResults` and `CourseDataList`.
- `simplexml_load_string` is replaced by the already-extracted `<result>` text
  (`resultElementOf`) and the list of `(name, value)` attributes
  (`attributesOf`). On a response that does not parse, `simplexml_load_string`
  returns `false`. Reading `->result` or `->attributes->attribute` on `false`
  gives `null` with a warning, and a `foreach` over `null` does nothing. So the
  model gives no `<result>` text (Exists returns false) and an empty attribute
  list (an empty dictionary).
- The `Enum` scope and format mappings are function parameters of
  `GetMetadataCall` and `GetMetadata`.
- The `error_log` calls are logging only.
- PHP's loose comparisons and `isset` on falsy values are not modelled. Optional
  arguments are `Option` values and flags are `bool`. `versionId` is
  `Option<int>` in GetMetadata because of its `!= 0` test, and a `Value` (a
  string or an integer) elsewhere.
- Attribute values are strings. SimpleXML's element objects are not modelled.
- The stored configuration is passed through and never read or changed here.
- `Threw` stands only for instances of PHP's `Exception`, the class that
  `catch (Exception $ex)` at CourseService.php:41 catches. A PHP 7 `Error`
  (a TypeError, say, or a call on a non-object inside
  `ConvertToImportResults`) and a fatal error on PHP 5 escape that `catch`, so
  `DeleteFile` at line 45 is skipped. The model has no such failures, and its
  cleanup guarantee for `ImportCourse` does not cover them.
- Concurrency is not modelled, and neither are exceptions thrown by the
  constructors of `ServiceRequest` and `UploadService`.
