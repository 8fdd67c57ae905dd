/**
 * The `POST` handler of src/app/api/send-message/route.ts: the required-field
 * guard, the classification of an uploaded file's MIME type into a WhatsApp
 * media type, and the message payload `sendMessage` posts to the Graph API.
 * The two calls to the Graph API (the media upload and the message send)
 * are not modelled; their outcomes are parameters.
 */
module SendMessage {
  import opened Wrappers
  import opened Strings
  import Json

  /** The media types the route can classify a file into. */
  const MediaTypes: set<string> := {"image", "video", "audio", "document"}

  /** The MIME type of an Excel workbook (.xlsx). */
  const SpreadsheetMimeType: string := "application/" + "vnd.openxmlformats-officedocument.spreadsheetml.sheet"

  /** The exact MIME types sent as documents. */
  const DocumentMimeTypes: set<string> := {
    "application/pdf",
    "text/csv",
    "application/vnd.ms-excel",
    SpreadsheetMimeType
  }

  /** The media types whose payload carries a caption and a file name. */
  const CaptionedTypes: set<string> := {"image", "video", "document"}

  /** The keys every payload starts with. */
  const BaseKeys: set<string> := {"messaging_product", "to", "type"}

  /**
   * The MIME classification of `POST`: the first of the three prefixes
   * that matches gives its media type, the four spreadsheet and document
   * types give "document", and anything else is the error
   * `Unsupported file type: <mime>`.
   */
  function ClassifyMime(mime: string): (r: Result<string, string>)
    ensures StartsWith(mime, "image/") ==> r == Ok("image")
    ensures !StartsWith(mime, "image/") && StartsWith(mime, "video/") ==> r == Ok("video")
    ensures !StartsWith(mime, "image/") && !StartsWith(mime, "video/") && StartsWith(mime, "audio/") ==>
      r == Ok("audio")
    ensures r == Ok("document") <==>
      !StartsWith(mime, "image/") && !StartsWith(mime, "video/") && !StartsWith(mime, "audio/")
      && mime in DocumentMimeTypes
    ensures r.Ok? ==> r.value in MediaTypes
    ensures r.Err? <==>
      !StartsWith(mime, "image/") && !StartsWith(mime, "video/") && !StartsWith(mime, "audio/")
      && mime !in DocumentMimeTypes
    ensures r.Err? ==> r.error == "Unsupported file type: " + mime
  {
    if StartsWith(mime, "image/") then Ok("image")
    else if StartsWith(mime, "video/") then Ok("video")
    else if StartsWith(mime, "audio/") then Ok("audio")
    else if mime in DocumentMimeTypes then Ok("document")
    else Err("Unsupported file type: " + mime)
  }

  /** No MIME type has two of the three prefixes, so their order does not matter. */
  lemma MediaPrefixesExclusive(mime: string)
    ensures !(StartsWith(mime, "image/") && StartsWith(mime, "video/"))
    ensures !(StartsWith(mime, "image/") && StartsWith(mime, "audio/"))
    ensures !(StartsWith(mime, "video/") && StartsWith(mime, "audio/"))
  {
    if StartsWith(mime, "image/") {
      assert mime[0] == 'i';
    }
    if StartsWith(mime, "video/") {
      assert mime[0] == 'v';
    }
  }

  /** A MIME type starting neither with 'i', 'v' nor "au" has none of the three prefixes. */
  lemma NoMediaPrefix(mime: string)
    requires |mime| >= 2 && mime[0] != 'i' && mime[0] != 'v' && (mime[0] == 'a' ==> mime[1] != 'u')
    ensures !StartsWith(mime, "image/") && !StartsWith(mime, "video/") && !StartsWith(mime, "audio/")
  {
  }

  /** Every document MIME type is classified as a document. */
  lemma DocumentMimeTypesAreDocuments(mime: string)
    requires mime in DocumentMimeTypes
    ensures ClassifyMime(mime) == Ok("document")
  {
    if mime == "text/csv" {
      assert mime[0] == 't';
    } else if mime == "application/pdf" {
      assert mime[0] == 'a' && mime[1] == 'p';
    } else if mime == "application/vnd.ms-excel" {
      assert mime[0] == 'a' && mime[1] == 'p';
    } else {
      assert mime == SpreadsheetMimeType;
      assert mime[0] == 'a' && mime[1] == 'p';
    }
    NoMediaPrefix(mime);
  }

  /** The key under which the message body goes: the media type, or "text". */
  function BodyKey(mediaId: Option<string>, mediaType: Option<string>): string {
    if Truthy(mediaId) && Truthy(mediaType) then mediaType.value else "text"
  }

  /**
   * `sendMessage`'s payload, built as the source builds it: the three base
   * fields first, then one body field assigned into the object. With a media
   * id and a media type the body is `{id, caption, filename}` for images,
   * videos and documents and `{id}` for any other type; otherwise it is the
   * text body `{body: message}`. An absent file name is left out, as
   * `JSON.stringify` drops an undefined field.
   */
  method BuildPayload(phone: string, message: string, mediaId: Option<string>, mediaType: Option<string>,
                      fileName: Option<string>)
    returns (payload: map<string, Json.Value>)
    ensures payload.Keys == BaseKeys + {BodyKey(mediaId, mediaType)}
    ensures BodyKey(mediaId, mediaType) !in BaseKeys ==>
      && payload["messaging_product"] == Json.Str("whatsapp")
      && payload["to"] == Json.Str(phone)
      && payload["type"] == Json.Str(if Truthy(mediaType) then mediaType.value else "text")
    ensures !(Truthy(mediaId) && Truthy(mediaType)) ==>
      payload["text"] == Json.Obj(map["body" := Json.Str(message)])
    ensures Truthy(mediaId) && Truthy(mediaType) && mediaType.value !in CaptionedTypes ==>
      payload[mediaType.value] == Json.Obj(map["id" := Json.Str(mediaId.value)])
    ensures Truthy(mediaId) && Truthy(mediaType) && mediaType.value in CaptionedTypes ==>
      && payload[mediaType.value].Obj?
      && payload[mediaType.value].fields.Keys == {"id", "caption"} + (if fileName.Some? then {"filename"} else {})
      && payload[mediaType.value].fields["id"] == Json.Str(mediaId.value)
      && payload[mediaType.value].fields["caption"] == Json.Str(message)
      && (fileName.Some? ==> payload[mediaType.value].fields["filename"] == Json.Str(fileName.value))
  {
    payload := map[
      "messaging_product" := Json.Str("whatsapp"),
      "to" := Json.Str(phone),
      "type" := Json.Str(if Truthy(mediaType) then mediaType.value else "text")
    ];
    if Truthy(mediaId) && Truthy(mediaType) {
      var kind := mediaType.value;
      if kind in CaptionedTypes {
        var media := map["id" := Json.Str(mediaId.value), "caption" := Json.Str(message)];
        if fileName.Some? {
          media := media["filename" := Json.Str(fileName.value)];
        }
        payload := payload[kind := Json.Obj(media)];
      } else {
        payload := payload[kind := Json.Obj(map["id" := Json.Str(mediaId.value)])];
      }
    } else {
      payload := payload["text" := Json.Obj(map["body" := Json.Str(message)])];
    }
  }

  /** A media type from the classification never overwrites a base field. */
  lemma MediaTypesAreNotBaseKeys(mediaId: Option<string>, mediaType: Option<string>)
    requires mediaType.Some? ==> mediaType.value in MediaTypes
    ensures BodyKey(mediaId, mediaType) !in BaseKeys
    ensures BodyKey(mediaId, mediaType) in MediaTypes + {"text"}
  {
  }

  /** The file field of the form: its name and its MIME type. */
  datatype UploadedFile = UploadedFile(name: string, mimeType: string)

  /** The arguments `POST` passes to `sendMessage`. */
  datatype SendCall = SendCall(
    phone: string,
    message: string,
    mediaId: Option<string>,
    mediaType: Option<string>,
    fileName: Option<string>)

  /** An HTTP response: its status and its JSON body. */
  datatype Response = Response(status: nat, body: map<string, Json.Value>)

  /** The body of the 500 response for a caught error with the given message. */
  function ErrorResponse(errorMessage: string): (r: Response)
    ensures r.status == 500 && r.body.Keys == {"_error"}
    ensures errorMessage != "" ==> r.body["_error"] == Json.Str(errorMessage)
    ensures errorMessage == "" ==> r.body["_error"] == Json.Str("Something went wrong!")
  {
    Response(500, map["_error" := Json.Str(if errorMessage != "" then errorMessage else "Something went wrong!")])
  }

  /**
   * `POST`. The form fields are `phone`, `message` and `file` (absent ones
   * are `None`); `upload` is what uploading the file yields (its media id or
   * the error it throws) and `sendError` the error sending throws, if any.
   * Besides the response, the handler reports whether it uploaded the file
   * and the call it made to `sendMessage`.
   */
  method Post(phone: Option<string>, message: Option<string>, file: Option<UploadedFile>,
              upload: Result<string, string>, sendError: Option<string>)
    returns (response: Response, uploaded: bool, sent: Option<SendCall>)
    ensures !Truthy(phone) || !Truthy(message) ==>
      && response == Response(400, map["error" := Json.Str("Phone and message are required")])
      && !uploaded && sent.None?
    ensures Truthy(phone) && Truthy(message) ==> uploaded == file.Some?
    ensures Truthy(phone) && Truthy(message) && file.Some? && upload.Err? ==>
      response == ErrorResponse(upload.error) && sent.None?
    ensures Truthy(phone) && Truthy(message) && file.Some? && upload.Ok? && ClassifyMime(file.value.mimeType).Err? ==>
      response == ErrorResponse(ClassifyMime(file.value.mimeType).error) && sent.None?
    ensures sent.Some? <==>
      Truthy(phone) && Truthy(message) && (file.Some? ==> upload.Ok? && ClassifyMime(file.value.mimeType).Ok?)
    ensures sent.Some? ==>
      && sent.value.phone == phone.value && sent.value.message == message.value
      && (file.None? ==> sent.value.mediaId.None? && sent.value.mediaType.None? && sent.value.fileName.None?)
      && (file.Some? ==>
            && sent.value.mediaId == Some(upload.value)
            && sent.value.mediaType == Some(ClassifyMime(file.value.mimeType).value)
            && sent.value.fileName == Some(file.value.name))
      && (sent.value.mediaType.Some? ==> sent.value.mediaType.value in MediaTypes)
    ensures sent.Some? && sendError.None? ==>
      response == Response(200, map[
        "success" := Json.Bool(true),
        "message" := Json.Str("Message sent successfully!")])
    ensures sent.Some? && sendError.Some? ==> response == ErrorResponse(sendError.value)
  {
    uploaded := false;
    sent := None;
    if !Truthy(phone) || !Truthy(message) {
      response := Response(400, map["error" := Json.Str("Phone and message are required")]);
      return;
    }
    var mediaId: Option<string> := None;
    var mediaType: Option<string> := None;
    if file.Some? {
      uploaded := true;
      if upload.Err? {
        response := ErrorResponse(upload.error);
        return;
      }
      mediaId := Some(upload.value);
      var classified := ClassifyMime(file.value.mimeType);
      if classified.Err? {
        response := ErrorResponse(classified.error);
        return;
      }
      mediaType := Some(classified.value);
    }
    sent := Some(SendCall(phone.value, message.value, mediaId, mediaType,
                          if file.Some? then Some(file.value.name) else None));
    if sendError.Some? {
      response := ErrorResponse(sendError.value);
    } else {
      response := Response(200, map[
        "success" := Json.Bool(true),
        "message" := Json.Str("Message sent successfully!")]);
    }
  }
}
