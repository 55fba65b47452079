/** The CourseService façade: each method builds its request (module Requests),
    has it sent or signed, and interprets the reply. Everything the façade talks
    to but does not contain (ServiceRequest's signing and transport, UploadService,
    the XML parser, the ImportResult and CourseData converters) is a Backend. */
module CourseService {
  import opened Outcomes
  import opened Requests
  import opened AttributeFold

  /** What ImportResult::ConvertToImportResults builds from a response. */
  type ImportResults(==)

  /** What CourseData::ConvertToCourseDataList builds from a response. */
  type CourseDataList(==)

  /** One interaction with the server, in the order it happened. */
  datatype Event =
    | Upload(file: string)        // UploadService::UploadFile
    | Send(call: Call)            // ServiceRequest::CallService
    | Delete(location: string)    // UploadService::DeleteFile

  /** The server as the façade sees it. Each reply is a function of everything
      sent so far (`history`) and of the request, so the server may keep state;
      the converters and the XML reader are functions of the response text. */
  class Backend {
    var trace: seq<Event>

    const uploadReply: (seq<Event>, string) -> Outcome<string>
    const serviceReply: (seq<Event>, Call) -> Outcome<string>
    const deleteReply: (seq<Event>, string) -> Outcome<()>
    const signedUrl: Call -> string
    const importResultsOf: string -> Outcome<ImportResults>
    const courseDataListOf: string -> Outcome<CourseDataList>
    /** The text of the `<result>` element, or None when the response does not parse. */
    const resultElementOf: string -> Option<string>
    /** The (name, value) attributes of `<attributes><attribute .../>`, in
        document order; none when the response does not parse. */
    const attributesOf: string -> seq<(string, string)>

    constructor (uploadReply: (seq<Event>, string) -> Outcome<string>,
                 serviceReply: (seq<Event>, Call) -> Outcome<string>,
                 deleteReply: (seq<Event>, string) -> Outcome<()>,
                 signedUrl: Call -> string,
                 importResultsOf: string -> Outcome<ImportResults>,
                 courseDataListOf: string -> Outcome<CourseDataList>,
                 resultElementOf: string -> Option<string>,
                 attributesOf: string -> seq<(string, string)>)
      ensures trace == []
      ensures this.uploadReply == uploadReply && this.serviceReply == serviceReply
      ensures this.deleteReply == deleteReply && this.signedUrl == signedUrl
      ensures this.importResultsOf == importResultsOf && this.courseDataListOf == courseDataListOf
      ensures this.resultElementOf == resultElementOf && this.attributesOf == attributesOf
    {
      trace := [];
      this.uploadReply, this.serviceReply, this.deleteReply := uploadReply, serviceReply, deleteReply;
      this.signedUrl, this.importResultsOf, this.courseDataListOf := signedUrl, importResultsOf, courseDataListOf;
      this.resultElementOf, this.attributesOf := resultElementOf, attributesOf;
    }

    /** Stage a local file; the reply is the location assigned on the server. */
    method UploadFile(file: string) returns (r: Outcome<string>)
      modifies this
      ensures trace == old(trace) + [Upload(file)]
      ensures r == uploadReply(old(trace), file)
    {
      r := uploadReply(trace, file);
      trace := trace + [Upload(file)];
    }

    /** Send a request; the reply is the raw response body. */
    method CallService(call: Call) returns (r: Outcome<string>)
      modifies this
      ensures trace == old(trace) + [Send(call)]
      ensures r == serviceReply(old(trace), call)
    {
      r := serviceReply(trace, call);
      trace := trace + [Send(call)];
    }

    method DeleteFile(location: string) returns (r: Outcome<()>)
      modifies this
      ensures trace == old(trace) + [Delete(location)]
      ensures r == deleteReply(old(trace), location)
    {
      r := deleteReply(trace, location);
      trace := trace + [Delete(location)];
    }

    /** Sign a request into a URL without sending anything. */
    method ConstructUrl(call: Call) returns (url: string)
      ensures url == signedUrl(call)
    {
      url := signedUrl(call);
    }
  }

  /** A reply handed on to a converter; an exception from either is passed on. */
  function AndThen<T>(reply: Outcome<string>, convert: string -> Outcome<T>): Outcome<T>
  {
    match reply
    case Threw(e) => Threw(e)
    case Returned(response) => convert(response)
  }

  /** What ImportUploadedCourse yields for `call` sent after `history`. */
  function ImportReply(b: Backend, history: seq<Event>, call: Call): Outcome<ImportResults>
  {
    AndThen(b.serviceReply(history, call), b.importResultsOf)
  }

  /** Upload the zip, import it from the location the upload returned, always
      delete that location, then rethrow the import's exception if it threw.
      `itemIdToImport` is accepted and not forwarded. An exception from the
      upload ends the method before anything else happens; one from the
      deletion propagates in place of the import's outcome. */
  method ImportCourse(b: Backend, courseId: string, absoluteFilePathToZip: string, itemIdToImport: Option<string>)
    returns (r: Outcome<ImportResults>)
    modifies b
    ensures var uploaded := b.uploadReply(old(b.trace), absoluteFilePathToZip);
      uploaded.Threw? ==>
        b.trace == old(b.trace) + [Upload(absoluteFilePathToZip)] && r == Threw(uploaded.exception)
    ensures var uploaded := b.uploadReply(old(b.trace), absoluteFilePathToZip);
      uploaded.Returned? ==>
        var location := uploaded.value;
        var call := ImportUploadedCourseCall(courseId, location, None);
        var afterUpload := old(b.trace) + [Upload(absoluteFilePathToZip)];
        var afterImport := afterUpload + [Send(call)];
        var deleted := b.deleteReply(afterImport, location);
        && b.trace == afterImport + [Delete(location)]
        && r == if deleted.Threw? then Threw(deleted.exception) else ImportReply(b, afterUpload, call)
  {
    var uploaded := b.UploadFile(absoluteFilePathToZip);
    if uploaded.Threw? {
      return Threw(uploaded.exception);
    }
    var location := uploaded.value;

    var importException: Option<Exception> := None;
    var response: Option<ImportResults> := None;
    var imported := ImportUploadedCourse(b, courseId, location, None);
    match imported {
      case Returned(results) => response := Some(results);
      case Threw(e) => importException := Some(e);
    }

    var deleted := b.DeleteFile(location);
    if deleted.Threw? {
      return Threw(deleted.exception);
    }
    if importException.Some? {
      return Threw(importException.value);
    }
    return Returned(response.value);
  }

  method VersionCourse(b: Backend, courseId: string, absoluteFilePathToZip: string) returns (r: Outcome<string>)
    modifies b
    ensures b.trace == old(b.trace) + [Send(VersionCourseCall(courseId, absoluteFilePathToZip))]
    ensures r == b.serviceReply(old(b.trace), VersionCourseCall(courseId, absoluteFilePathToZip))
  {
    r := b.CallService(VersionCourseCall(courseId, absoluteFilePathToZip));
  }

  method ImportUploadedCourse(b: Backend, courseId: string, path: string, permissionDomain: Option<string>)
    returns (r: Outcome<ImportResults>)
    modifies b
    ensures b.trace == old(b.trace) + [Send(ImportUploadedCourseCall(courseId, path, permissionDomain))]
    ensures r == ImportReply(b, old(b.trace), ImportUploadedCourseCall(courseId, path, permissionDomain))
  {
    var response := b.CallService(ImportUploadedCourseCall(courseId, path, permissionDomain));
    if response.Threw? {
      return Threw(response.exception);
    }
    r := b.importResultsOf(response.value);
  }

  /** The response is not converted and nothing is returned. */
  method VersionUploadedCourse(b: Backend, courseId: string, path: string, permissionDomain: Option<string>)
    returns (r: Outcome<()>)
    modifies b
    ensures b.trace == old(b.trace) + [Send(VersionUploadedCourseCall(courseId, path, permissionDomain))]
    ensures var reply := b.serviceReply(old(b.trace), VersionUploadedCourseCall(courseId, path, permissionDomain));
      r == if reply.Threw? then Threw(reply.exception) else Returned(())
  {
    var response := b.CallService(VersionUploadedCourseCall(courseId, path, permissionDomain));
    if response.Threw? {
      return Threw(response.exception);
    }
    r := Returned(());
  }

  /** True exactly when the response's `<result>` reads "true"; a response
      that does not parse gives false. */
  method Exists(b: Backend, courseId: string) returns (r: Outcome<bool>)
    modifies b
    ensures b.trace == old(b.trace) + [Send(ExistsCall(courseId))]
    ensures var reply := b.serviceReply(old(b.trace), ExistsCall(courseId));
      r == if reply.Threw? then Threw(reply.exception)
           else Returned(b.resultElementOf(reply.value) == Some("true"))
  {
    var response := b.CallService(ExistsCall(courseId));
    if response.Threw? {
      return Threw(response.exception);
    }
    var result := b.resultElementOf(response.value);
    r := Returned(result == Some("true"));
  }

  method GetCourseList(b: Backend, courseIdFilterRegex: Option<string>) returns (r: Outcome<CourseDataList>)
    modifies b
    ensures b.trace == old(b.trace) + [Send(GetCourseListCall(courseIdFilterRegex))]
    ensures r == AndThen(b.serviceReply(old(b.trace), GetCourseListCall(courseIdFilterRegex)), b.courseDataListOf)
  {
    var response := b.CallService(GetCourseListCall(courseIdFilterRegex));
    if response.Threw? {
      return Threw(response.exception);
    }
    r := b.courseDataListOf(response.value);
  }

  method DeleteCourse(b: Backend, courseId: string, deleteLatestVersionOnly: bool) returns (r: Outcome<string>)
    modifies b
    ensures b.trace == old(b.trace) + [Send(DeleteCourseCall(courseId, deleteLatestVersionOnly))]
    ensures r == b.serviceReply(old(b.trace), DeleteCourseCall(courseId, deleteLatestVersionOnly))
  {
    r := b.CallService(DeleteCourseCall(courseId, deleteLatestVersionOnly));
  }

  method DeleteCourseVersion(b: Backend, courseId: string, versionId: Value) returns (r: Outcome<string>)
    modifies b
    ensures b.trace == old(b.trace) + [Send(DeleteCourseVersionCall(courseId, versionId))]
    ensures r == b.serviceReply(old(b.trace), DeleteCourseVersionCall(courseId, versionId))
  {
    r := b.CallService(DeleteCourseVersionCall(courseId, versionId));
  }

  /** The raw metadata XML is returned as it arrives. */
  method GetMetadata<S, F>(b: Backend, courseId: string, versionId: Option<int>, scope: S, format: F,
                           metadataScope: S -> string, dataFormat: F -> string) returns (r: Outcome<string>)
    modifies b
    ensures var call := GetMetadataCall(courseId, versionId, scope, format, metadataScope, dataFormat);
      b.trace == old(b.trace) + [Send(call)] && r == b.serviceReply(old(b.trace), call)
  {
    r := b.CallService(GetMetadataCall(courseId, versionId, scope, format, metadataScope, dataFormat));
  }

  /** A signed preview URL; the method may not change the backend, so no
      request is ever sent. */
  method GetPreviewUrl(b: Backend, courseId: string, redirectOnExitUrl: Option<string>, cssUrl: Option<string>)
    returns (url: string)
    ensures url == b.signedUrl(GetPreviewUrlCall(courseId, redirectOnExitUrl, cssUrl))
  {
    url := b.ConstructUrl(GetPreviewUrlCall(courseId, redirectOnExitUrl, cssUrl));
  }

  /** A signed property-editor URL; as with GetPreviewUrl nothing is sent. */
  method GetPropertyEditorUrl(b: Backend, courseId: string, stylesheetUrl: Option<string>,
                              notificationFrameUrl: Option<string>) returns (url: string)
    ensures url == b.signedUrl(GetPropertyEditorUrlCall(courseId, stylesheetUrl, notificationFrameUrl))
  {
    url := b.ConstructUrl(GetPropertyEditorUrlCall(courseId, stylesheetUrl, notificationFrameUrl));
  }

  /** The response's attributes folded into a dictionary: its keys are the
      attribute names, each with the value of its last occurrence. */
  method GetAttributes(b: Backend, courseId: string, versionId: Option<Value>) returns (r: Outcome<map<string, string>>)
    modifies b
    ensures b.trace == old(b.trace) + [Send(GetAttributesCall(courseId, versionId))]
    ensures var reply := b.serviceReply(old(b.trace), GetAttributesCall(courseId, versionId));
      r == if reply.Threw? then Threw(reply.exception)
           else Returned(Overlay(map[], b.attributesOf(reply.value)))
    ensures r.Returned? ==>
      r.value.Keys == Names(b.attributesOf(b.serviceReply(old(b.trace), GetAttributesCall(courseId, versionId)).value))
  {
    var response := b.CallService(GetAttributesCall(courseId, versionId));
    if response.Threw? {
      return Threw(response.exception);
    }
    var atts := PutAll(map[], b.attributesOf(response.value));
    AttributeMapLastWins(b.attributesOf(response.value));
    r := Returned(atts);
  }

  /** Sends `courseid`, a set `versionid` and then every attribute pair over
      them; returns the changed attributes folded as in GetAttributes. */
  method UpdateAttributes(b: Backend, courseId: string, versionId: Option<Value>, attributePairs: seq<(string, Value)>)
    returns (r: Outcome<map<string, string>>)
    modifies b
    ensures b.trace == old(b.trace) + [Send(UpdateAttributesCall(courseId, versionId, attributePairs))]
    ensures var reply := b.serviceReply(old(b.trace), UpdateAttributesCall(courseId, versionId, attributePairs));
      r == if reply.Threw? then Threw(reply.exception)
           else Returned(Overlay(map[], b.attributesOf(reply.value)))
  {
    var params := CourseAndVersion(courseId, versionId);
    params := PutAll(params, attributePairs);
    var response := b.CallService(Call(UpdateAttributesMethod, params, Invoke));
    if response.Threw? {
      return Threw(response.exception);
    }
    var atts := PutAll(map[], b.attributesOf(response.value));
    r := Returned(atts);
  }

  /** A client: the zip is staged at "/uploads/abc123/course.zip", the import
      request throws `e`; the staged file is still deleted, after the import,
      and the caller sees `e`. */
  method ImportFailureScenario(e: Exception)
  {
    var b := new Backend(
      (history, file) => Returned("/uploads/abc123/course.zip"),
      (history, call) => Threw(e),
      (history, location) => Returned(()),
      call => "",
      response => Threw(e),
      response => Threw(e),
      response => None,
      response => []);
    var r := ImportCourse(b, "COURSE-1", "course.zip", None);
    assert r == Threw(e);
    assert b.trace == [Upload("course.zip"),
                       Send(ImportUploadedCourseCall("COURSE-1", "/uploads/abc123/course.zip", None)),
                       Delete("/uploads/abc123/course.zip")];
  }
}
