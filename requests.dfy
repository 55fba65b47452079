/** What each CourseService method hands to ServiceRequest: the remote method
    name, the parameter array given to `setMethodParams`, and whether the request
    is sent, sent with a posted file, or only turned into a signed URL. */
module Requests {
  import opened Outcomes
  import opened AttributeFold

  /** A value in a PHP parameter array: the façade stores strings (course ids,
      paths, URLs, "latest") and integers (version numbers) there. */
  datatype Value = Text(text: string) | Number(number: int)

  type Params = map<string, Value>

  /** `CallService` without a file, `CallService` after `setFileToPost(file)`,
      or `ConstructUrl`, which signs the request but never sends it. */
  datatype Kind = Invoke | InvokeWithFile(file: string) | SignedUrl

  datatype Call = Call(remote: string, params: Params, kind: Kind)

  const ImportCourseMethod := "rustici.course.importCourse"
  const VersionCourseMethod := "rustici.course.versionCourse"
  const ExistsMethod := "rustici.course.exists"
  const GetCourseListMethod := "rustici.course.getCourseList"
  const DeleteCourseMethod := "rustici.course.deleteCourse"
  const GetMetadataMethod := "rustici.course.getMetadata"
  const PreviewMethod := "rustici.course.preview"
  const PropertiesMethod := "rustici.course.properties"
  const GetAttributesMethod := "rustici.course.getAttributes"
  const UpdateAttributesMethod := "rustici.course.updateAttributes"

  /** `m` with `key` set to the argument when the argument is not null (`isset`). */
  function PutIfSet(m: Params, key: string, arg: Option<string>): (r: Params)
    ensures key in r <==> key in m || arg.Some?
    ensures arg.Some? ==> r[key] == Text(arg.value)
    ensures arg.None? ==> r == m
    ensures forall k | k in m && k != key :: k in r && r[k] == m[k]
    ensures r.Keys <= m.Keys + {key}
  {
    if arg.Some? then m[key := Text(arg.value)] else m
  }

  /** `$params = array('courseid' => $courseId)`, then `versionid` if it is set. */
  function CourseAndVersion(courseId: string, versionId: Option<Value>): (r: Params)
    ensures r.Keys == if versionId.Some? then {"courseid", "versionid"} else {"courseid"}
    ensures r["courseid"] == Text(courseId)
    ensures versionId.Some? ==> r["versionid"] == versionId.value
  {
    var base := map["courseid" := Text(courseId)];
    if versionId.Some? then base["versionid" := versionId.value] else base
  }

  /** ImportUploadedCourse: exactly `courseid` and `path`; the permission
      domain is accepted but never forwarded. */
  function ImportUploadedCourseCall(courseId: string, path: string, permissionDomain: Option<string>): (r: Call)
    ensures r.remote == ImportCourseMethod && r.kind == Invoke
    ensures r.params.Keys == {"courseid", "path"}
    ensures r.params["courseid"] == Text(courseId) && r.params["path"] == Text(path)
  {
    Call(ImportCourseMethod, map["courseid" := Text(courseId), "path" := Text(path)], Invoke)
  }

  /** VersionCourse: posts the local zip itself with only `courseid`. */
  function VersionCourseCall(courseId: string, absoluteFilePathToZip: string): (r: Call)
    ensures r.remote == VersionCourseMethod && r.kind == InvokeWithFile(absoluteFilePathToZip)
    ensures r.params.Keys == {"courseid"} && r.params["courseid"] == Text(courseId)
  {
    Call(VersionCourseMethod, map["courseid" := Text(courseId)], InvokeWithFile(absoluteFilePathToZip))
  }

  /** VersionUploadedCourse: the same keys as ImportUploadedCourse, sent to
      versionCourse; the permission domain is not forwarded either. */
  function VersionUploadedCourseCall(courseId: string, path: string, permissionDomain: Option<string>): (r: Call)
    ensures r.remote == VersionCourseMethod && r.kind == Invoke
    ensures r.params == ImportUploadedCourseCall(courseId, path, None).params
  {
    Call(VersionCourseMethod, map["courseid" := Text(courseId), "path" := Text(path)], Invoke)
  }

  function ExistsCall(courseId: string): (r: Call)
    ensures r.remote == ExistsMethod && r.kind == Invoke
    ensures r.params.Keys == {"courseid"} && r.params["courseid"] == Text(courseId)
  {
    Call(ExistsMethod, map["courseid" := Text(courseId)], Invoke)
  }

  /** GetCourseList: a `filter` parameter iff a regex is given, and otherwise
      no parameters at all (`setMethodParams` is never called). */
  function GetCourseListCall(courseIdFilterRegex: Option<string>): (r: Call)
    ensures r.remote == GetCourseListMethod && r.kind == Invoke
    ensures courseIdFilterRegex.None? ==> r.params == map[]
    ensures courseIdFilterRegex.Some? ==>
      r.params.Keys == {"filter"} && r.params["filter"] == Text(courseIdFilterRegex.value)
  {
    Call(GetCourseListMethod, PutIfSet(map[], "filter", courseIdFilterRegex), Invoke)
  }

  /** DeleteCourse: `versionid` is "latest" when only the latest version is to
      go, and absent (all versions) otherwise. */
  function DeleteCourseCall(courseId: string, deleteLatestVersionOnly: bool): (r: Call)
    ensures r.remote == DeleteCourseMethod && r.kind == Invoke
    ensures "versionid" in r.params <==> deleteLatestVersionOnly
    ensures deleteLatestVersionOnly ==> r.params["versionid"] == Text("latest")
    ensures r.params.Keys <= {"courseid", "versionid"} && "courseid" in r.params && r.params["courseid"] == Text(courseId)
  {
    var params := map["courseid" := Text(courseId)];
    Call(DeleteCourseMethod, if deleteLatestVersionOnly then params["versionid" := Text("latest")] else params, Invoke)
  }

  function DeleteCourseVersionCall(courseId: string, versionId: Value): (r: Call)
    ensures r.remote == DeleteCourseMethod && r.kind == Invoke
    ensures r.params.Keys == {"courseid", "versionid"}
    ensures r.params["courseid"] == Text(courseId) && r.params["versionid"] == versionId
  {
    Call(DeleteCourseMethod, map["courseid" := Text(courseId), "versionid" := versionId], Invoke)
  }

  /** GetMetadata: `courseid`, `scope` and `mdformat` always, the last two as
      the enum names of the arguments; `versionid` only for a version that is
      given and not 0. The enum mappings are parameters. */
  function GetMetadataCall<S, F>(courseId: string, versionId: Option<int>, scope: S, format: F,
                                 metadataScope: S -> string, dataFormat: F -> string): (r: Call)
    ensures r.remote == GetMetadataMethod && r.kind == Invoke
    ensures {"courseid", "scope", "mdformat"} <= r.params.Keys <= {"courseid", "versionid", "scope", "mdformat"}
    ensures "versionid" in r.params <==> versionId.Some? && versionId.value != 0
    ensures "versionid" in r.params ==> r.params["versionid"] == Number(versionId.value)
    ensures r.params["courseid"] == Text(courseId)
    ensures r.params["scope"] == Text(metadataScope(scope))
    ensures r.params["mdformat"] == Text(dataFormat(format))
  {
    var course := map["courseid" := Text(courseId)];
    var versioned := if versionId.Some? && versionId.value != 0 then course["versionid" := Number(versionId.value)] else course;
    var scoped := versioned["scope" := Text(metadataScope(scope))];
    Call(GetMetadataMethod, scoped["mdformat" := Text(dataFormat(format))], Invoke)
  }

  /** GetPreviewUrl: a signed URL, never a call; `redirecturl` and `cssurl`
      each present iff its argument is set. */
  function GetPreviewUrlCall(courseId: string, redirectOnExitUrl: Option<string>, cssUrl: Option<string>): (r: Call)
    ensures r.remote == PreviewMethod && r.kind == SignedUrl
    ensures r.params.Keys <= {"courseid", "redirecturl", "cssurl"}
    ensures "courseid" in r.params && r.params["courseid"] == Text(courseId)
    ensures "redirecturl" in r.params <==> redirectOnExitUrl.Some?
    ensures "cssurl" in r.params <==> cssUrl.Some?
    ensures redirectOnExitUrl.Some? ==> r.params["redirecturl"] == Text(redirectOnExitUrl.value)
    ensures cssUrl.Some? ==> r.params["cssurl"] == Text(cssUrl.value)
  {
    var params := PutIfSet(map["courseid" := Text(courseId)], "redirecturl", redirectOnExitUrl);
    Call(PreviewMethod, PutIfSet(params, "cssurl", cssUrl), SignedUrl)
  }

  /** GetPropertyEditorUrl: a signed URL, never a call; `notificationframesrc`
      and `stylesheet` each present iff its argument is set. */
  function GetPropertyEditorUrlCall(courseId: string, stylesheetUrl: Option<string>,
                                    notificationFrameUrl: Option<string>): (r: Call)
    ensures r.remote == PropertiesMethod && r.kind == SignedUrl
    ensures r.params.Keys <= {"courseid", "notificationframesrc", "stylesheet"}
    ensures "courseid" in r.params && r.params["courseid"] == Text(courseId)
    ensures "notificationframesrc" in r.params <==> notificationFrameUrl.Some?
    ensures "stylesheet" in r.params <==> stylesheetUrl.Some?
    ensures notificationFrameUrl.Some? ==> r.params["notificationframesrc"] == Text(notificationFrameUrl.value)
    ensures stylesheetUrl.Some? ==> r.params["stylesheet"] == Text(stylesheetUrl.value)
  {
    var params := PutIfSet(map["courseid" := Text(courseId)], "notificationframesrc", notificationFrameUrl);
    Call(PropertiesMethod, PutIfSet(params, "stylesheet", stylesheetUrl), SignedUrl)
  }

  function GetAttributesCall(courseId: string, versionId: Option<Value>): (r: Call)
    ensures r.remote == GetAttributesMethod && r.kind == Invoke
    ensures "versionid" in r.params <==> versionId.Some?
    ensures r.params == CourseAndVersion(courseId, versionId)
  {
    Call(GetAttributesMethod, CourseAndVersion(courseId, versionId), Invoke)
  }

  /** UpdateAttributes: `courseid` and the set `versionid` first, then every
      attribute pair written over them in order. */
  function UpdateAttributesCall(courseId: string, versionId: Option<Value>, attributePairs: seq<(string, Value)>): (r: Call)
    ensures r.remote == UpdateAttributesMethod && r.kind == Invoke
  {
    Call(UpdateAttributesMethod, Overlay(CourseAndVersion(courseId, versionId), attributePairs), Invoke)
  }

  /** Deleting only the latest version sends the very request DeleteCourseVersion
      sends for version "latest". */
  lemma DeleteLatestIsDeleteVersionLatest(courseId: string)
    ensures DeleteCourseCall(courseId, true) == DeleteCourseVersionCall(courseId, Text("latest"))
  {
  }

  /** The permission domain has no influence on what ImportUploadedCourse and
      VersionUploadedCourse send. */
  lemma PermissionDomainNotForwarded(courseId: string, path: string, d1: Option<string>, d2: Option<string>)
    ensures ImportUploadedCourseCall(courseId, path, d1) == ImportUploadedCourseCall(courseId, path, d2)
    ensures VersionUploadedCourseCall(courseId, path, d1) == VersionUploadedCourseCall(courseId, path, d2)
  {
  }

  /** The parameters UpdateAttributes sends: every attribute pair's last
      occurrence wins, even over `courseid` and `versionid`; the only other keys
      are `courseid` and a set `versionid`, with the values given. */
  lemma UpdateAttributesParams(courseId: string, versionId: Option<Value>, attributePairs: seq<(string, Value)>)
    ensures var p := UpdateAttributesCall(courseId, versionId, attributePairs).params;
      && p.Keys == Names(attributePairs) + {"courseid"} + (if versionId.Some? then {"versionid"} else {})
      && (forall i | 0 <= i < |attributePairs| && IsLastOccurrence(attributePairs, attributePairs[i].0, i) ::
            p[attributePairs[i].0] == attributePairs[i].1)
      && ("courseid" !in Names(attributePairs) ==> p["courseid"] == Text(courseId))
      && (versionId.Some? && "versionid" !in Names(attributePairs) ==> p["versionid"] == versionId.value)
  {
    var base := CourseAndVersion(courseId, versionId);
    var p := UpdateAttributesCall(courseId, versionId, attributePairs).params;
    OverlayKeys(base, attributePairs);
    forall i | 0 <= i < |attributePairs| && IsLastOccurrence(attributePairs, attributePairs[i].0, i)
      ensures p[attributePairs[i].0] == attributePairs[i].1
    {
      OverlayLastWins(base, attributePairs, attributePairs[i].0, i);
    }
    if "courseid" !in Names(attributePairs) {
      OverlayUntouched(base, attributePairs, "courseid");
    }
    if versionId.Some? && "versionid" !in Names(attributePairs) {
      OverlayUntouched(base, attributePairs, "versionid");
    }
  }
}
