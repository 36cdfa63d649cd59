/**
 The Software document of backend/models/Software.js: its fields, the values
 a request body supplies for them, and the normalisation the schema performs
 when a document is created or updated: trimming, required fields, the
 100-character title limit, enumerations and defaults.
 Enumerated fields are kept as the strings the database stores.
 */
module SoftwareSchema {
  import opened Common
  import opened JsText

  const TitleMaxLength: nat := 100
  const DefaultVersion: string := "1.0.0"
  const DefaultTimeZone: string := "UTC"
  const DefaultRepeatInterval: int := 1

  const StatusValues: seq<string> := ["planning", "in_progress", "completed", "on_hold", "cancelled"]
  const PriorityValues: seq<string> := ["low", "medium", "high"]
  const FrequencyValues: seq<string> := ["daily", "weekly", "monthly", "yearly"]
  const RunStatusValues: seq<string> := ["pending", "active", "paused", "completed"]

  const TitleRequired: string := "Please add a title"
  const TitleTooLong: string := "Title cannot be more than 100 characters"
  const DescriptionRequired: string := "Please add a description"
  const AppUrlRequired: string := "Please add application URL"
  const AuthorRequired: string := "Path `author` is required."

  datatype ScheduleTime = ScheduleTime(hour: Option<int>, minute: Option<int>)

  /** `meta.scheduling`: stored configuration that nothing in the system acts on. */
  datatype Scheduling = Scheduling(
    scheduledDateTime: Option<int>,
    priority: string,
    repeat: bool,
    repeatFrequency: string,
    repeatInterval: int,
    status: string,
    lastRun: Option<int>,
    scheduleTime: ScheduleTime,
    timeZone: string)

  datatype Structure = Structure(
    hasFrontend: bool,
    hasBackend: bool,
    frontendTech: seq<string>,
    backendTech: seq<string>)

  datatype Packages = Packages(frontend: seq<string>, backend: seq<string>)

  /** `meta`; `buildAttempts` is the schema's `meta.queueData.buildAttempts`. */
  datatype Meta = Meta(
    path: Option<string>,
    structure: Structure,
    languages: seq<string>,
    frameworks: seq<string>,
    status: string,
    scheduling: Scheduling,
    installedPackages: Packages,
    scheduled: Option<int>,
    isDeleted: bool,
    promptHistory: seq<string>,
    buildAttempts: int)

  datatype Software = Software(
    id: Id,
    title: string,
    description: string,
    version: string,
    appUrl: string,
    iconUrl: Option<string>,
    isPublic: bool,
    author: Id,
    tags: seq<string>,
    meta: Meta,
    createdAt: int,
    updatedAt: int,
    lastModified: int)

  // Request bodies: every field may be absent. An absent nested object is
  // the same as one with every field absent.

  datatype SchedulingInput = SchedulingInput(
    scheduledDateTime: Option<int>,
    priority: Option<string>,
    repeat: Option<bool>,
    repeatFrequency: Option<string>,
    repeatInterval: Option<int>,
    status: Option<string>,
    lastRun: Option<int>,
    scheduleTime: ScheduleTime,
    timeZone: Option<string>)

  datatype StructureInput = StructureInput(
    hasFrontend: Option<bool>,
    hasBackend: Option<bool>,
    frontendTech: Option<seq<string>>,
    backendTech: Option<seq<string>>)

  datatype PackagesInput = PackagesInput(frontend: Option<seq<string>>, backend: Option<seq<string>>)

  datatype MetaInput = MetaInput(
    path: Option<string>,
    structure: StructureInput,
    languages: Option<seq<string>>,
    frameworks: Option<seq<string>>,
    status: Option<string>,
    scheduling: SchedulingInput,
    installedPackages: PackagesInput,
    scheduled: Option<int>,
    isDeleted: Option<bool>,
    promptHistory: Option<seq<string>>,
    buildAttempts: Option<int>)

  datatype SoftwareInput = SoftwareInput(
    title: Option<string>,
    description: Option<string>,
    version: Option<string>,
    appUrl: Option<string>,
    iconUrl: Option<string>,
    isPublic: Option<bool>,
    author: Option<Id>,
    tags: Option<seq<string>>,
    meta: Option<MetaInput>,
    createdAt: Option<int>,
    updatedAt: Option<int>,
    lastModified: Option<int>)

  const NoScheduling: SchedulingInput :=
    SchedulingInput(None, None, None, None, None, None, None, ScheduleTime(None, None), None)
  const NoMeta: MetaInput :=
    MetaInput(None, StructureInput(None, None, None, None), None, None, None, NoScheduling,
              PackagesInput(None, None), None, None, None, None)

  /** One failed validator: the path and the schema's message. */
  datatype FieldError = FieldError(path: string, message: string)

  function Or<T>(o: Option<T>, fallback: T): (v: T)
    ensures o.Some? ==> v == o.value
    ensures o.None? ==> v == fallback
  {
    if o.Some? then o.value else fallback
  }

  /** The errors a single check contributes to the document's error list. */
  function ErrorsOf<T>(r: Result<T, FieldError>): (es: seq<FieldError>)
    ensures |es| <= 1 && (es == [] <==> r.Success?)
  {
    if r.Failure? then [r.error] else []
  }

  // ---------------------------------------------------------------------
  // The schema's rules, one field at a time
  // ---------------------------------------------------------------------

  /** The title after trimming: present, not empty, at most 100 UTF-16 units. */
  ghost predicate TitleOk(title: string)
  {
    && 0 < |title|
    && !IsJsSpace(title[0]) && !IsJsSpace(title[|title| - 1])
    && Utf16Length(title) <= TitleMaxLength
  }

  /** `title`: trimmed, then required, then limited to 100 characters. */
  function CheckTitle(v: Option<string>): (r: Result<string, FieldError>)
    ensures r.Success? <==> v.Some? && |Trim(v.value)| > 0 && Utf16Length(Trim(v.value)) <= TitleMaxLength
    ensures r.Success? ==> r.value == Trim(v.value) && TitleOk(r.value)
    ensures r.Failure? ==> r.error.path == "title"
  {
    match v
    case None => Failure(FieldError("title", TitleRequired))
    case Some(s) =>
      var t := Trim(s);
      if |t| == 0 then Failure(FieldError("title", TitleRequired))
      else if Utf16Length(t) > TitleMaxLength then Failure(FieldError("title", TitleTooLong))
      else Success(t)
  }

  /** A required string: absent and empty values both fail. */
  function CheckRequired(path: string, message: string, v: Option<string>): (r: Result<string, FieldError>)
    ensures r.Success? <==> v.Some? && |v.value| > 0
    ensures r.Success? ==> r.value == v.value
    ensures r.Failure? ==> r.error == FieldError(path, message)
  {
    if v.Some? && |v.value| > 0 then Success(v.value) else Failure(FieldError(path, message))
  }

  /** An enumerated string: absent takes the default, anything outside the list fails. */
  function CheckEnum(path: string, v: Option<string>, allowed: seq<string>, default: string): (r: Result<string, FieldError>)
    requires default in allowed
    ensures r.Success? <==> v.None? || v.value in allowed
    ensures r.Success? ==> r.value in allowed && r.value == Or(v, default)
    ensures r.Failure? ==> r.error.path == path
  {
    match v
    case None => Success(default)
    case Some(s) =>
      if s in allowed then Success(s)
      else Failure(FieldError(path, "`" + s + "` is not a valid enum value for path `" + path + "`."))
  }

  // ---------------------------------------------------------------------
  // Whole documents
  // ---------------------------------------------------------------------

  ghost predicate MetaWellFormed(m: Meta)
  {
    && m.status in StatusValues
    && m.scheduling.priority in PriorityValues
    && m.scheduling.repeatFrequency in FrequencyValues
    && m.scheduling.status in RunStatusValues
  }

  /** What the schema guarantees of every stored Software document. */
  ghost predicate WellFormed(sw: Software)
  {
    && TitleOk(sw.title)
    && |sw.description| > 0
    && |sw.appUrl| > 0
    && MetaWellFormed(sw.meta)
  }

  /** The enumerations of a `meta` body are all absent or allowed. */
  ghost predicate MetaInputOk(m: MetaInput)
  {
    && (m.status.None? || m.status.value in StatusValues)
    && (m.scheduling.priority.None? || m.scheduling.priority.value in PriorityValues)
    && (m.scheduling.repeatFrequency.None? || m.scheduling.repeatFrequency.value in FrequencyValues)
    && (m.scheduling.status.None? || m.scheduling.status.value in RunStatusValues)
  }

  /** Casts `meta` with every default filled in. */
  function NormaliseMeta(m: MetaInput): (r: Result<Meta, seq<FieldError>>)
    ensures r.Success? <==> MetaInputOk(m)
    ensures r.Failure? ==> |r.error| > 0
    ensures r.Success? ==> MetaWellFormed(r.value)
    ensures r.Success? ==>
              && r.value.status == Or(m.status, "planning")
              && r.value.scheduling.priority == Or(m.scheduling.priority, "medium")
              && r.value.scheduling.repeatFrequency == Or(m.scheduling.repeatFrequency, "daily")
              && r.value.scheduling.status == Or(m.scheduling.status, "pending")
              && r.value.scheduling.repeat == Or(m.scheduling.repeat, false)
              && r.value.scheduling.repeatInterval == Or(m.scheduling.repeatInterval, DefaultRepeatInterval)
              && r.value.scheduling.timeZone == Or(m.scheduling.timeZone, DefaultTimeZone)
              && r.value.structure.hasFrontend == Or(m.structure.hasFrontend, false)
              && r.value.structure.hasBackend == Or(m.structure.hasBackend, false)
              && r.value.isDeleted == Or(m.isDeleted, false)
              && r.value.buildAttempts == Or(m.buildAttempts, 0)
  {
    var status := CheckEnum("meta.status", m.status, StatusValues, "planning");
    var priority := CheckEnum("meta.scheduling.priority", m.scheduling.priority, PriorityValues, "medium");
    var frequency := CheckEnum("meta.scheduling.repeatFrequency", m.scheduling.repeatFrequency, FrequencyValues, "daily");
    var runStatus := CheckEnum("meta.scheduling.status", m.scheduling.status, RunStatusValues, "pending");
    var errors := ErrorsOf(status) + ErrorsOf(priority) + ErrorsOf(frequency) + ErrorsOf(runStatus);
    if errors != [] then Failure(errors)
    else
      var s := m.scheduling;
      var st := m.structure;
      Success(Meta(
        m.path,
        Structure(Or(st.hasFrontend, false), Or(st.hasBackend, false), Or(st.frontendTech, []), Or(st.backendTech, [])),
        Or(m.languages, []),
        Or(m.frameworks, []),
        status.value,
        Scheduling(s.scheduledDateTime, priority.value, Or(s.repeat, false), frequency.value,
                   Or(s.repeatInterval, DefaultRepeatInterval), runStatus.value, s.lastRun,
                   s.scheduleTime, Or(s.timeZone, DefaultTimeZone)),
        Packages(Or(m.installedPackages.frontend, []), Or(m.installedPackages.backend, [])),
        m.scheduled,
        Or(m.isDeleted, false),
        Or(m.promptHistory, []),
        Or(m.buildAttempts, 0)))
  }

  /** A body the schema accepts for a new document written by `author`. */
  ghost predicate CreateInputOk(input: SoftwareInput, author: Option<Id>)
  {
    && CheckTitle(input.title).Success?
    && input.description.Some? && |input.description.value| > 0
    && input.appUrl.Some? && |input.appUrl.value| > 0
    && author.Some?
    && MetaInputOk(Or(input.meta, NoMeta))
  }

  /**
   `Software.create(body)`: casts the body into a document with id `id` and
   the given author; each timestamp the body leaves out defaults to `now`, collecting one error per failing
   path; the document is stored only when there is none.
   */
  function Normalise(input: SoftwareInput, author: Option<Id>, id: Id, now: int): (r: Result<Software, seq<FieldError>>)
    ensures r.Success? <==> CreateInputOk(input, author)
    ensures r.Failure? ==> |r.error| > 0
    ensures r.Success? ==>
              && WellFormed(r.value)
              && r.value.id == id && r.value.author == author.value
              && r.value.title == Trim(input.title.value)
              && r.value.description == input.description.value && r.value.appUrl == input.appUrl.value
              && r.value.version == Or(input.version, DefaultVersion)
              && r.value.iconUrl == input.iconUrl
              && r.value.isPublic == Or(input.isPublic, false)
              && r.value.tags == Or(input.tags, [])
              && r.value.meta == NormaliseMeta(Or(input.meta, NoMeta)).value
              && r.value.createdAt == Or(input.createdAt, now)
              && r.value.updatedAt == Or(input.updatedAt, now)
              && r.value.lastModified == Or(input.lastModified, now)
  {
    var title := CheckTitle(input.title);
    var description := CheckRequired("description", DescriptionRequired, input.description);
    var appUrl := CheckRequired("appUrl", AppUrlRequired, input.appUrl);
    var authorErrors := if author.None? then [FieldError("author", AuthorRequired)] else [];
    var meta := NormaliseMeta(Or(input.meta, NoMeta));
    var metaErrors := if meta.Failure? then meta.error else [];
    var errors := ErrorsOf(title) + ErrorsOf(description) + ErrorsOf(appUrl) + authorErrors + metaErrors;
    if errors != [] then Failure(errors)
    else
      Success(Software(id, title.value, description.value, Or(input.version, DefaultVersion), appUrl.value,
                       input.iconUrl, Or(input.isPublic, false), author.value, Or(input.tags, []),
                       meta.value, Or(input.createdAt, now), Or(input.updatedAt, now), Or(input.lastModified, now)))
  }

  /**
   `findByIdAndUpdate(id, body, { runValidators: true })`: each field present
   in the body is cast and validated like on creation and replaces the stored
   one; a `meta` object replaces the whole stored `meta`, read back with its
   defaults. `updatedAt` is stamped.
   */
  function ApplyUpdate(sw: Software, input: SoftwareInput, now: int): (r: Result<Software, seq<FieldError>>)
    ensures r.Failure? ==> |r.error| > 0
    ensures r.Success? <==>
              && (input.title.None? || CheckTitle(input.title).Success?)
              && (input.description.None? || |input.description.value| > 0)
              && (input.appUrl.None? || |input.appUrl.value| > 0)
              && (input.meta.None? || MetaInputOk(input.meta.value))
    ensures r.Success? ==>
              r.value == Software(sw.id, if input.title.Some? then Trim(input.title.value) else sw.title,
                                  Or(input.description, sw.description), Or(input.version, sw.version),
                                  Or(input.appUrl, sw.appUrl), if input.iconUrl.Some? then input.iconUrl else sw.iconUrl,
                                  Or(input.isPublic, sw.isPublic), Or(input.author, sw.author), Or(input.tags, sw.tags),
                                  if input.meta.Some? then NormaliseMeta(input.meta.value).value else sw.meta,
                                  Or(input.createdAt, sw.createdAt), now, Or(input.lastModified, sw.lastModified))
  {
    var title := if input.title.Some? then CheckTitle(input.title) else Success(sw.title);
    var description := if input.description.Some?
                       then CheckRequired("description", DescriptionRequired, input.description)
                       else Success(sw.description);
    var appUrl := if input.appUrl.Some?
                  then CheckRequired("appUrl", AppUrlRequired, input.appUrl)
                  else Success(sw.appUrl);
    var meta := if input.meta.Some? then NormaliseMeta(input.meta.value) else Success(sw.meta);
    var metaErrors := if meta.Failure? then meta.error else [];
    if title.Failure? || description.Failure? || appUrl.Failure? || meta.Failure? then
      Failure(ErrorsOf(title) + ErrorsOf(description) + ErrorsOf(appUrl) + metaErrors)
    else
      Success(Software(sw.id, title.value, description.value, Or(input.version, sw.version), appUrl.value,
                       if input.iconUrl.Some? then input.iconUrl else sw.iconUrl,
                       Or(input.isPublic, sw.isPublic), Or(input.author, sw.author), Or(input.tags, sw.tags),
                       meta.value, Or(input.createdAt, sw.createdAt), now, Or(input.lastModified, sw.lastModified)))
  }

  // ---------------------------------------------------------------------
  // Properties
  // ---------------------------------------------------------------------

  /**
   A body with only the three required strings gets every default of the
   schema: version 1.0.0, private, status planning, medium priority, daily
   repetition every 1, pending, UTC, no frontend or backend, not deleted,
   no build attempt.
   */
  lemma MinimalBodyDefaults(title: string, description: string, appUrl: string, author: Id, id: Id, now: int)
    requires TitleOk(title) && |description| > 0 && |appUrl| > 0
    ensures var r := Normalise(SoftwareInput(Some(title), Some(description), None, Some(appUrl), None, None, None, None, None, None, None, None),
                               Some(author), id, now);
            && r.Success?
            && r.value.title == title
            && r.value.version == "1.0.0"
            && !r.value.isPublic
            && r.value.iconUrl.None? && r.value.tags == []
            && r.value.meta.status == "planning"
            && r.value.meta.scheduling.priority == "medium"
            && r.value.meta.scheduling.repeatFrequency == "daily"
            && r.value.meta.scheduling.status == "pending"
            && !r.value.meta.scheduling.repeat
            && r.value.meta.scheduling.repeatInterval == 1
            && r.value.meta.scheduling.timeZone == "UTC"
            && !r.value.meta.structure.hasFrontend && !r.value.meta.structure.hasBackend
            && !r.value.meta.isDeleted
            && r.value.meta.buildAttempts == 0
            && r.value.createdAt == now && r.value.updatedAt == now && r.value.lastModified == now
  {
    var input := SoftwareInput(Some(title), Some(description), None, Some(appUrl), None, None, None, None, None, None, None, None);
    assert MetaInputOk(NoMeta);
    var meta := NormaliseMeta(NoMeta);
    assert CreateInputOk(input, Some(author));
    assert Normalise(input, Some(author), id, now).value.meta == meta.value;
  }

  /** A title that is only white space counts as missing. */
  lemma BlankTitleRejected(input: SoftwareInput, author: Option<Id>, id: Id, now: int)
    requires input.title.Some? && forall i :: 0 <= i < |input.title.value| ==> IsJsSpace(input.title.value[i])
    ensures Normalise(input, author, id, now).Failure?
    ensures FieldError("title", TitleRequired) in Normalise(input, author, id, now).error
  {
    TrimBlank(input.title.value);
  }

  /** A document without an author is refused. */
  lemma AuthorRequiredOnCreate(input: SoftwareInput, id: Id, now: int)
    ensures Normalise(input, None, id, now).Failure?
    ensures FieldError("author", AuthorRequired) in Normalise(input, None, id, now).error
  {
  }

  /** The body that resending a stored `meta` amounts to. */
  function MetaToInput(m: Meta): MetaInput
  {
    var s := m.scheduling;
    MetaInput(
      m.path,
      StructureInput(Some(m.structure.hasFrontend), Some(m.structure.hasBackend),
                     Some(m.structure.frontendTech), Some(m.structure.backendTech)),
      Some(m.languages), Some(m.frameworks), Some(m.status),
      SchedulingInput(s.scheduledDateTime, Some(s.priority), Some(s.repeat), Some(s.repeatFrequency),
                      Some(s.repeatInterval), Some(s.status), s.lastRun, s.scheduleTime, Some(s.timeZone)),
      PackagesInput(Some(m.installedPackages.frontend), Some(m.installedPackages.backend)),
      m.scheduled, Some(m.isDeleted), Some(m.promptHistory), Some(m.buildAttempts))
  }

  /** The body that resending a stored document amounts to. */
  function ToInput(sw: Software): SoftwareInput
  {
    SoftwareInput(Some(sw.title), Some(sw.description), Some(sw.version), Some(sw.appUrl), sw.iconUrl,
                  Some(sw.isPublic), Some(sw.author), Some(sw.tags), Some(MetaToInput(sw.meta)),
                  Some(sw.createdAt), Some(sw.updatedAt), Some(sw.lastModified))
  }

  /** Normalisation is the identity on what it produces: a stored `meta` casts to itself. */
  lemma {:induction false} NormaliseMetaStored(m: Meta)
    requires MetaWellFormed(m)
    ensures NormaliseMeta(MetaToInput(m)) == Success(m)
  {
  }

  /** Creating a document from all of a stored one's fields gives that document back. */
  lemma NormaliseStored(sw: Software, now: int)
    requires WellFormed(sw)
    ensures Normalise(ToInput(sw), Some(sw.author), sw.id, now)
              == Success(sw)
  {
    NormaliseMetaStored(sw.meta);
    TrimUntouched(sw.title);
  }

  /**
   An update changes only what its body names: the id and every absent field,
   timestamps included, keep their stored values, `updatedAt` is the update's
   time, and a well-formed document stays well-formed.
   */
  lemma UpdateFrame(sw: Software, input: SoftwareInput, now: int)
    requires ApplyUpdate(sw, input, now).Success?
    ensures var u := ApplyUpdate(sw, input, now).value;
            && u.id == sw.id && u.updatedAt == now
            && (input.createdAt.None? ==> u.createdAt == sw.createdAt)
            && (input.lastModified.None? ==> u.lastModified == sw.lastModified)
            && (input.title.None? ==> u.title == sw.title)
            && (input.description.None? ==> u.description == sw.description)
            && (input.appUrl.None? ==> u.appUrl == sw.appUrl)
            && (input.version.None? ==> u.version == sw.version)
            && (input.iconUrl.None? ==> u.iconUrl == sw.iconUrl)
            && (input.isPublic.None? ==> u.isPublic == sw.isPublic)
            && (input.author.None? ==> u.author == sw.author)
            && (input.tags.None? ==> u.tags == sw.tags)
            && (input.meta.None? ==> u.meta == sw.meta)
  {
  }

  /** Validation on update keeps every stored document within the schema. */
  lemma UpdateKeepsWellFormed(sw: Software, input: SoftwareInput, now: int)
    requires WellFormed(sw) && ApplyUpdate(sw, input, now).Success?
    ensures WellFormed(ApplyUpdate(sw, input, now).value)
  {
  }

  /** Sending a stored document back as an update changes nothing but `updatedAt`. */
  lemma UpdateWithStoredIsNoChange(sw: Software, now: int)
    requires WellFormed(sw)
    ensures ApplyUpdate(sw, ToInput(sw), now) == Success(sw.(updatedAt := now))
  {
    NormaliseMetaStored(sw.meta);
    TrimUntouched(sw.title);
  }
}
