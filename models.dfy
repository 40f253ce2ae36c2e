/** The two Mongoose schemas: a video record (Backend/src/models/Video.js)
    and a user (Backend/src/models/User.js), with their enumerations,
    defaults, trimming setters and required-field validation as applied
    by `Model.create`. */
module Models {
  import opened Wrappers
  import opened JsText

  // ------------------------------------------------------------ enums

  datatype Status = Pending | Processing | Completed | Failed
  datatype Sensitivity = Unknown | Safe | Flagged
  datatype Role = Viewer | Editor | Admin

  function StatusName(s: Status): string
  {
    match s
    case Pending => "pending"
    case Processing => "processing"
    case Completed => "completed"
    case Failed => "failed"
  }

  function SensitivityName(s: Sensitivity): string
  {
    match s
    case Unknown => "unknown"
    case Safe => "safe"
    case Flagged => "flagged"
  }

  function RoleName(r: Role): string
  {
    match r
    case Viewer => "viewer"
    case Editor => "editor"
    case Admin => "admin"
  }

  /** The `enum` validator of the `role` path: the three names and nothing else. */
  function ParseRole(s: string): (r: Option<Role>)
    ensures r.Some? <==> s in {"viewer", "editor", "admin"}
    ensures r.Some? ==> RoleName(r.value) == s
  {
    if s == "viewer" then Some(Viewer)
    else if s == "editor" then Some(Editor)
    else if s == "admin" then Some(Admin)
    else None
  }

  lemma RoleNameRoundTrip(r: Role)
    ensures ParseRole(RoleName(r)) == Some(r)
  {
  }

  // ------------------------------------------------------- video record

  /** A stored video. `duration` is a Number whose declared default `""`
      is cast to null, hence `None` until processing completes. The record's
      `_id` is its key in the store and the timestamps are not modelled. */
  datatype VideoRecord = VideoRecord(
    title: string,
    description: string,
    filename: string,
    originalName: string,
    filepath: string,
    mimeType: string,
    size: nat,
    duration: Option<nat>,
    status: Status,
    sensitivityStatus: Sensitivity,
    processingProgress: int,
    uploadedBy: string,
    tenantId: string,
    views: nat,
    thumbnail: string)

  const MinProgress: int := 0
  const MaxProgress: int := 100

  /** The message of the `TypeError` raised by reading `_id` of a
      `uploadedBy` that `populate` left null because its user no longer
      exists. */
  const NullUploaderMessage: string := "Cannot read properties of null (reading '_id')"

  /** What the schema guarantees of a record it accepted: the required
      strings are non-empty (title after trimming) and the progress lies in
      its declared bounds. */
  predicate WellFormedVideo(v: VideoRecord)
  {
    && v.title != "" && Trimmed(v.title) && Trimmed(v.description)
    && v.filename != "" && v.originalName != "" && v.filepath != ""
    && v.mimeType != "" && v.uploadedBy != "" && v.tenantId != ""
    && MinProgress <= v.processingProgress <= MaxProgress
  }

  datatype ValidationError = Required(path: string) | NotInEnum(path: string)

  /** `Video.create` with the fields the upload route supplies: setters trim
      `title` and `description`, the defaults fill `duration`,
      `processingProgress`, `views` and `thumbnail`, and the required
      validator rejects an empty string. The upload route passes `pending`
      and `unknown` explicitly, which are also the schema's defaults. */
  function NewVideo(title: string, description: string, filename: string,
                    originalName: string, filepath: string, mimeType: string,
                    size: nat, uploadedBy: string, tenantId: string): (r: Result<VideoRecord, ValidationError>)
    ensures r.Success? <==>
      && !AllSpace(title) && filename != "" && originalName != "" && filepath != ""
      && mimeType != "" && uploadedBy != "" && tenantId != ""
    ensures r.Success? ==> WellFormedVideo(r.value)
    ensures r.Success? ==>
      && r.value.status == Pending && r.value.sensitivityStatus == Unknown
      && r.value.processingProgress == 0 && r.value.views == 0
      && r.value.thumbnail == "" && r.value.duration == None
      && r.value.title == Trim(title) && r.value.description == Trim(description)
      && r.value.size == size && r.value.uploadedBy == uploadedBy && r.value.tenantId == tenantId
    ensures r.Success? ==>
      && r.value.filename == filename && r.value.originalName == originalName
      && r.value.filepath == filepath && r.value.mimeType == mimeType
  {
    var t := Trim(title);
    var d := Trim(description);
    if t == "" || filename == "" || originalName == "" || filepath == ""
       || mimeType == "" || uploadedBy == "" || tenantId == ""
    then
      Failure(Required(if t == "" then "title" else if filename == "" then "filename"
                       else if originalName == "" then "originalName"
                       else if filepath == "" then "filepath"
                       else if mimeType == "" then "mimeType"
                       else if uploadedBy == "" then "uploadedBy" else "tenantId"))
    else
      Success(VideoRecord(
        title := t, description := d, filename := filename, originalName := originalName,
        filepath := filepath, mimeType := mimeType, size := size, duration := None,
        status := Pending, sensitivityStatus := Unknown, processingProgress := 0,
        uploadedBy := uploadedBy, tenantId := tenantId, views := 0, thumbnail := ""))
  }

  // -------------------------------------------------------------- user

  /** A stored user; `id` is the document's `_id`. */
  datatype User = User(id: string, name: string, email: string, passwordHash: string,
                       tenantId: string, role: Role)

  /** The `lowercase` and `trim` setters of the `email` path; Mongoose applies
      them both when a document is created and when a query filter on
      `email` is cast. */
  function NormalizeEmail(e: string): (r: string)
    ensures Trimmed(r)
    ensures forall k :: 0 <= k < |r| ==> !IsUpper(r[k])
  {
    var l := ToLower(e);
    TrimInfix(l);
    Trim(l)
  }

  /** Normalizing an already normalized address changes nothing, so a stored
      address is found again by a lookup that normalizes its argument. */
  lemma {:induction false} NormalizeEmailIdempotent(e: string)
    ensures NormalizeEmail(NormalizeEmail(e)) == NormalizeEmail(e)
  {
    var r := NormalizeEmail(e);
    assert ToLower(r) == r by {
      assert forall k :: 0 <= k < |r| ==> LowerChar(r[k]) == r[k];
    }
    TrimIdempotent(ToLower(e));
  }

  /** `User.create`: `name` is trimmed, `email` normalized, a missing role
      takes the default `viewer`, a role outside the enumeration and an empty
      required string are validation errors. */
  function NewUser(id: string, name: string, email: string, passwordHash: string,
                   tenantId: string, role: Option<string>): (r: Result<User, ValidationError>)
    ensures r.Success? <==>
      && !AllSpace(name) && NormalizeEmail(email) != "" && passwordHash != "" && tenantId != ""
      && (role.None? || ParseRole(role.value).Some?)
    ensures r.Success? ==>
      && r.value.id == id && r.value.name == Trim(name) && r.value.name != ""
      && r.value.email == NormalizeEmail(email) && r.value.passwordHash == passwordHash
      && r.value.tenantId == tenantId
      && r.value.role == (if role.None? then Viewer else ParseRole(role.value).value)
  {
    var n := Trim(name);
    var e := NormalizeEmail(email);
    if n == "" then Failure(Required("name"))
    else if e == "" then Failure(Required("email"))
    else if passwordHash == "" then Failure(Required("passwordHash"))
    else if tenantId == "" then Failure(Required("tenantId"))
    else if role.Some? && ParseRole(role.value).None? then Failure(NotInEnum("role"))
    else Success(User(id, n, e, passwordHash, tenantId,
                      if role.None? then Viewer else ParseRole(role.value).value))
  }
}
