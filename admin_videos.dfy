/**
 * The admin video page (pages/admin/videos.js): the upload/edit form draft and the
 * handlers that change it, the submit with its edit and upload branches, the simulated
 * upload progress, delete, and the reload of the video list. Every network reply is an
 * input; every request a handler would send is returned as a value.
 */
module AdminVideos {
  import opened Records
  import opened Text
  import opened Categories

  /** A `File` picked in the file input; only its identity matters here. */
  type FileHandle = nat

  /** `formData`: the form's draft. */
  datatype FormDraft = FormDraft(
    title: string,
    description: string,
    category: string,
    technologies: string,
    businessDescription: string,
    demoUrl: string,
    githubUrl: string,
    featured: bool,
    video: Option<FileHandle>)

  /** The initial draft, which `resetForm` also restores. */
  const DefaultDraft: FormDraft := FormDraft("", "", "Other", "", "", "", "", false, None)

  /** The names of the draft's text fields. */
  const TextFields: seq<string> :=
    ["title", "description", "category", "technologies", "businessDescription", "demoUrl", "githubUrl"]

  /** The draft's text field called `name`; "" for any other name. */
  function TextField(d: FormDraft, name: string): string
  {
    if name == "title" then d.title
    else if name == "description" then d.description
    else if name == "category" then d.category
    else if name == "technologies" then d.technologies
    else if name == "businessDescription" then d.businessDescription
    else if name == "demoUrl" then d.demoUrl
    else if name == "githubUrl" then d.githubUrl
    else ""
  }

  /** `{ ...prev, [name]: value }` for a text field; a name that is no field leaves the draft as it is. */
  function SetTextField(d: FormDraft, name: string, value: string): FormDraft
  {
    if name == "title" then d.(title := value)
    else if name == "description" then d.(description := value)
    else if name == "category" then d.(category := value)
    else if name == "technologies" then d.(technologies := value)
    else if name == "businessDescription" then d.(businessDescription := value)
    else if name == "demoUrl" then d.(demoUrl := value)
    else if name == "githubUrl" then d.(githubUrl := value)
    else d
  }

  datatype InputKind = FileInput | Checkbox | OtherInput

  /** The parts of `e.target` that `handleChange` reads. */
  datatype InputEvent = InputEvent(name: string, value: string, kind: InputKind, checked: bool, files: seq<FileHandle>)

  /** `handleChange`: the first chosen file, the checkbox state, or the typed value goes into the named field. */
  function ApplyChange(d: FormDraft, e: InputEvent): FormDraft
  {
    match e.kind
    case FileInput => d.(video := if |e.files| > 0 then Some(e.files[0]) else None)
    case Checkbox => if e.name == "featured" then d.(featured := e.checked) else d
    case OtherInput => SetTextField(d, e.name, e.value)
  }

  /**
   * A change touches only the field it names: a text field takes the value and every
   * other text field, the checkbox and the file stay; the checkbox and the file input
   * change only their own field.
   */
  lemma ApplyChangeTouchesOneField(d: FormDraft, e: InputEvent)
    ensures e.kind.OtherInput? ==>
              && ApplyChange(d, e).featured == d.featured && ApplyChange(d, e).video == d.video
              && forall n :: n in TextFields ==>
                   TextField(ApplyChange(d, e), n) == (if n == e.name then e.value else TextField(d, n))
    ensures e.kind.Checkbox? ==>
              ApplyChange(d, e) == (if e.name == "featured" then d.(featured := e.checked) else d)
    ensures e.kind.FileInput? ==>
              && ApplyChange(d, e).(video := d.video) == d
              && (ApplyChange(d, e).video.Some? <==> |e.files| > 0)
              && (|e.files| > 0 ==> ApplyChange(d, e).video == Some(e.files[0]))
  {
    if e.kind.OtherInput? {
      SetTextFieldOnly(d, e.name, e.value);
    }
  }

  lemma SetTextFieldOnly(d: FormDraft, name: string, value: string)
    ensures var r := SetTextField(d, name, value);
            && r.featured == d.featured && r.video == d.video
            && forall n :: n in TextFields ==> TextField(r, n) == (if n == name then value else TextField(d, n))
  {
    var r := SetTextField(d, name, value);
    forall n | n in TextFields
      ensures TextField(r, n) == (if n == name then value else TextField(d, n))
    {
      FieldOfSet(d, name, value, n);
    }
  }

  lemma FieldOfSet(d: FormDraft, name: string, value: string, n: string)
    requires n in TextFields
    ensures TextField(SetTextField(d, name, value), n) == (if n == name then value else TextField(d, n))
  {
    if n == name {
      SetThenRead(d, name, value);
    } else {
      OtherFieldKept(d, name, value, n);
    }
  }

  lemma OtherFieldKept(d: FormDraft, name: string, value: string, n: string)
    requires n != name
    ensures TextField(SetTextField(d, name, value), n) == TextField(d, n)
  {
    var r := SetTextField(d, name, value);
    if name == "title" {
      assert r == d.(title := value);
    } else if name == "description" {
      assert r == d.(description := value);
    } else if name == "category" {
      assert r == d.(category := value);
    } else if name == "technologies" {
      assert r == d.(technologies := value);
    } else if name == "businessDescription" {
      assert r == d.(businessDescription := value);
    } else if name == "demoUrl" {
      assert r == d.(demoUrl := value);
    } else if name == "githubUrl" {
      assert r == d.(githubUrl := value);
    } else {
      assert r == d;
    }
  }

  /** Conversely, the text fields can be set one at a time to any values. */
  lemma SetThenRead(d: FormDraft, name: string, value: string)
    requires name in TextFields
    ensures TextField(SetTextField(d, name, value), name) == value
    ensures SetTextField(d, name, TextField(d, name)) == d
  {
  }

  /** `handleEdit`'s draft: technologies joined with ', ', missing optional texts as '', no file. */
  function EditDraft(v: Video): FormDraft
  {
    FormDraft(
      v.title, v.description, v.category,
      if v.technologies.Some? then Join(v.technologies.value, ", ") else "",
      v.businessDescription, v.demoUrl, v.githubUrl, v.featured,
      None)
  }

  /** The JSON body of the update request: the eight non-file fields. */
  datatype EditPayload = EditPayload(
    title: string,
    description: string,
    category: string,
    technologies: string,
    businessDescription: string,
    demoUrl: string,
    githubUrl: string,
    featured: bool)

  function Payload(d: FormDraft): EditPayload
  {
    EditPayload(d.title, d.description, d.category, d.technologies, d.businessDescription,
                d.demoUrl, d.githubUrl, d.featured)
  }

  /**
   * The update payload carries the draft without its file: two drafts that differ only
   * in the file give the same payload, and the draft is the payload plus its file.
   */
  lemma PayloadOmitsFile(d: FormDraft, f: Option<FileHandle>)
    ensures Payload(d.(video := f)) == Payload(d)
    ensures var p := Payload(d);
            FormDraft(p.title, p.description, p.category, p.technologies, p.businessDescription,
                      p.demoUrl, p.githubUrl, p.featured, d.video) == d
  {
  }

  /**
   * Editing a video and then saving without changes sends back its own fields, the
   * technologies joined with ', ' ('' when there are none). The joined text splits back at
   * ',' into the same list, one piece per technology and each after the first behind the ' '
   * of the separator, whenever no technology carries a ',' of its own.
   */
  lemma EditPrefill(v: Video)
    ensures EditDraft(v).video.None?
    ensures var p := Payload(EditDraft(v));
            && (p.title, p.description, p.category) == (v.title, v.description, v.category)
            && (p.businessDescription, p.demoUrl, p.githubUrl, p.featured)
               == (v.businessDescription, v.demoUrl, v.githubUrl, v.featured)
            && (v.technologies.None? ==> p.technologies == "")
            && (v.technologies.Some? && v.technologies.value == [] ==> p.technologies == "")
            && (v.technologies.Some? && |v.technologies.value| == 1 ==> p.technologies == v.technologies.value[0])
    ensures var t := v.technologies;
            t.Some? && |t.value| >= 1 && (forall k :: 0 <= k < |t.value| ==> ',' !in t.value[k]) ==>
              var r := Split(Payload(EditDraft(v)).technologies, ',');
              && |r| == |t.value| && r[0] == t.value[0]
              && forall k :: 1 <= k < |t.value| ==> r[k] == " " + t.value[k]
  {
    if v.technologies.Some? && |v.technologies.value| == 1 {
      assert v.technologies.value[1..] == [];
    }
    var t := v.technologies;
    if t.Some? && |t.value| >= 1 && (forall k :: 0 <= k < |t.value| ==> ',' !in t.value[k]) {
      SplitCommaJoin(t.value);
    }
  }

  /** One entry of the multipart upload body. */
  datatype Part = FilePart(file: FileHandle) | TextPart(text: string)

  function BoolText(b: bool): string
  {
    if b then "true" else "false"
  }

  /** The `FormData` of a new upload, in append order; `append` prints the boolean. */
  function UploadParts(d: FormDraft, f: FileHandle): seq<(string, Part)>
  {
    [("video", FilePart(f)), ("title", TextPart(d.title)), ("description", TextPart(d.description)),
     ("category", TextPart(d.category)), ("technologies", TextPart(d.technologies)),
     ("businessDescription", TextPart(d.businessDescription)), ("demoUrl", TextPart(d.demoUrl)),
     ("githubUrl", TextPart(d.githubUrl)), ("featured", TextPart(BoolText(d.featured)))]
  }

  /**
   * The upload body holds the file first and then one text entry per field: each text
   * field under its own name with the draft's value, and `featured` printed as a boolean.
   */
  lemma UploadPartsShape(d: FormDraft, f: FileHandle)
    ensures var parts := UploadParts(d, f);
            && |parts| == 9
            && parts[0] == ("video", FilePart(f))
            && (forall i :: 1 <= i < 8 ==> parts[i] == (TextFields[i - 1], TextPart(TextField(d, TextFields[i - 1]))))
            && parts[8] == ("featured", TextPart(if d.featured then "true" else "false"))
  {
  }

  datatype HttpMethod = Get | Post | Put | Delete
  datatype Body = NoBody | Json(payload: EditPayload) | Multipart(parts: seq<(string, Part)>)

  /** A request as the page would send it. */
  datatype Request = Request(verb: HttpMethod, path: string, authorization: string, body: Body)

  /** `/api/videos/${id}`, the address of one video for update and delete. */
  function VideoPath(id: Option<string>): string
  {
    "/api/videos/" + IdText(id)
  }

  const UploadPath: string := "/api/videos/upload"

  /** `Bearer ${token}` with the stored token; a missing one prints as "null". */
  function Authorization(token: Option<string>): string
  {
    "Bearer " + (if token.Some? then token.value else "null")
  }

  /** The login redirect of the page: taken when no token, or an empty one, is stored. */
  function LoginRedirect(token: Option<string>): Option<string>
  {
    if token.None? || token.value == "" then Some("/admin/login") else None
  }

  /** The header carries the stored token verbatim, and only the pages without a usable token redirect. */
  lemma AuthorizationShape(token: Option<string>)
    ensures Authorization(token)[..7] == "Bearer "
    ensures token.Some? ==> Authorization(token)[7..] == token.value
    ensures LoginRedirect(token).None? <==> token.Some? && token.value != ""
  {
  }

  /** The body a failed upload replies with: parsed JSON (its `error` text, "" when absent) or a parse failure. */
  datatype ErrorBody = ErrorJson(error: string) | Unparsable(message: string)

  /** The outcome of one request. */
  datatype Reply = Ok | NotOk(body: ErrorBody) | Threw(message: string)

  /** The outcome of `fetch('/api/videos')` and its JSON body. */
  datatype ListReply = Listed(data: seq<Video>) | NotListed | ListThrew

  //
  // The simulated progress: each interval callback moves the value up by 10 until it
  // has reached 90; the callback that finds 90 clears the interval.
  //

  /** One callback: `prev >= 90 ? 90 : prev + 10`. */
  function Tick(p: nat): nat
  {
    if p >= 90 then 90 else p + 10
  }

  /** The value after `k` callbacks on a fresh ticker. */
  function TickerAfter(k: nat): nat
  {
    if k == 0 then 0 else Tick(TickerAfter(k - 1))
  }

  function Min(a: nat, b: nat): nat
  {
    if a <= b then a else b
  }

  /** After `k` callbacks the ticker shows `min(10k, 90)`: a multiple of ten, at most 90. */
  lemma {:induction false} TickerClosedForm(k: nat)
    ensures TickerAfter(k) == Min(10 * k, 90)
  {
    if k > 0 {
      TickerClosedForm(k - 1);
    }
  }

  /** The ticker never goes down, never passes 90, and only takes the values 0, 10, ..., 90. */
  lemma TickerMonotoneBounded(j: nat, k: nat)
    requires j <= k
    ensures TickerAfter(j) <= TickerAfter(k) <= 90
    ensures TickerAfter(k) % 10 == 0
  {
    TickerClosedForm(j);
    TickerClosedForm(k);
  }

  /** The values a running interval can find: 0, 10, ..., 90. */
  predicate OnTrack(p: nat)
  {
    p <= 90 && p % 10 == 0
  }

  /**
   * The progress value and the intervals stepping it: whether the current upload's own
   * interval is running, and how many intervals of earlier uploads that threw still are.
   * Every interval runs the same callback on the one shared value.
   */
  datatype Tickers = Tickers(progress: nat, own: bool, leftover: nat)

  /**
   * One callback, of the upload's own interval (`byOwn`) or of a leftover one. The callback
   * that finds 90 or more clears its own interval and keeps 90. An interval that is no
   * longer running has no callbacks, so naming one changes nothing.
   */
  function Fire(t: Tickers, byOwn: bool): Tickers
  {
    if (byOwn && !t.own) || (!byOwn && t.leftover == 0) then t
    else if t.progress < 90 then t.(progress := t.progress + 10)
    else if byOwn then t.(progress := 90, own := false)
    else t.(progress := 90, leftover := t.leftover - 1)
  }

  /** The callbacks that `schedule` lists, in order, `true` standing for the upload's own interval. */
  function RunSchedule(t: Tickers, schedule: seq<bool>): Tickers
    decreases |schedule|
  {
    if schedule == [] then t
    else Fire(RunSchedule(t, schedule[..|schedule| - 1]), schedule[|schedule| - 1])
  }

  /** How many entries of `schedule` name the upload's own interval. */
  function OwnCallbacks(schedule: seq<bool>): nat
    decreases |schedule|
  {
    if schedule == [] then 0
    else OwnCallbacks(schedule[..|schedule| - 1]) + (if schedule[|schedule| - 1] then 1 else 0)
  }

  /**
   * An upload with no interval left over from earlier ones sees only its own ticker: after
   * `k` own callbacks the progress is `TickerAfter(k)`, and the interval has cleared itself
   * exactly when `k` is at least 10.
   */
  lemma {:induction false} OwnOnlySchedule(schedule: seq<bool>)
    ensures var k := OwnCallbacks(schedule);
            RunSchedule(Tickers(0, true, 0), schedule) == Tickers(TickerAfter(k), k < 10, 0)
    decreases |schedule|
  {
    if schedule != [] {
      var front := schedule[..|schedule| - 1];
      OwnOnlySchedule(front);
      var k := OwnCallbacks(front);
      TickerClosedForm(k);
      TickerClosedForm(k + 1);
    }
  }

  /**
   * Any mix of callbacks keeps the value on its track and never lowers it, never starts
   * an interval, and never restarts the upload's own one.
   */
  lemma {:induction false} ScheduleKeepsTrack(t: Tickers, schedule: seq<bool>)
    requires OnTrack(t.progress)
    ensures var r := RunSchedule(t, schedule);
            && OnTrack(r.progress) && t.progress <= r.progress
            && r.leftover <= t.leftover && (r.own ==> t.own)
    decreases |schedule|
  {
    if schedule != [] {
      ScheduleKeepsTrack(t, schedule[..|schedule| - 1]);
    }
  }

  /**
   * The callbacks of the intervals running while a request is pending. The runtime's
   * event loop calls them; here they are run in the order `schedule` gives.
   */
  method RunTickers(t: Tickers, schedule: seq<bool>) returns (r: Tickers)
    ensures r == RunSchedule(t, schedule)
  {
    r := t;
    var i := 0;
    while i < |schedule|
      invariant i <= |schedule|
      invariant r == RunSchedule(t, schedule[..i])
    {
      assert schedule[..i + 1][..i] == schedule[..i];
      r := Fire(r, schedule[i]);
      i := i + 1;
    }
    assert schedule[..i] == schedule;
  }

  /** `k` callbacks of leftover intervals, the only ones running between submits. */
  function LeftoverAfter(t: Tickers, k: nat): Tickers
    decreases k
  {
    if k == 0 then t else LeftoverAfter(Fire(t, false), k - 1)
  }

  /**
   * Intervals left running by thrown uploads stop by themselves: from a value on the track,
   * `(90 - p) / 10` callbacks bring it to 90, and one more per interval clears them all.
   */
  lemma {:induction false} LeftRunningTickersStop(t: Tickers, k: nat)
    requires OnTrack(t.progress) && k >= (90 - t.progress) / 10 + t.leftover
    ensures var r := LeftoverAfter(t, k);
            r.leftover == 0 && (t.leftover > 0 ==> r.progress == 90)
    decreases k
  {
    if k > 0 {
      if t.leftover == 0 {
        NoLeftoverStays(t, k - 1);
      } else if Fire(t, false).leftover == 0 {
        NoLeftoverStays(Fire(t, false), k - 1);
      } else {
        LeftRunningTickersStop(Fire(t, false), k - 1);
      }
    }
  }

  lemma {:induction false} NoLeftoverStays(t: Tickers, k: nat)
    requires t.leftover == 0
    ensures LeftoverAfter(t, k) == t
    decreases k
  {
    if k > 0 {
      NoLeftoverStays(t, k - 1);
    }
  }

  const MsgUpdated: string := "Video updated successfully!"
  const MsgUpdateFailed: string := "Failed to update video"
  const MsgNoFile: string := "Please select a video file"
  const MsgUploaded: string := "Video uploaded successfully!"
  const MsgUploadFailed: string := "Failed to upload video"
  const MsgDeleted: string := "Video deleted successfully!"
  const MsgDeleteFailed: string := "Failed to delete video"
  const MsgLoadFailed: string := "Failed to load videos"

  /** The error a rejected upload reports: `data.error || 'Failed to upload video'`, or the parse failure. */
  function UploadError(body: ErrorBody): string
  {
    match body
    case ErrorJson(e) => if e != "" then e else MsgUploadFailed
    case Unparsable(m) => m
  }

  /** The error a failed update reports: the update failure, or what the request threw. */
  function UpdateError(r: Reply): string
  {
    if r.Threw? then r.message else MsgUpdateFailed
  }

  /** The page's state cells. */
  class AdminVideosPage {
    var videos: seq<Video>
    var isLoading: bool
    var isUploading: bool
    var uploadProgress: nat
    var error: Option<string>
    var success: Option<string>
    var showUploadForm: bool
    var editingVideo: Option<Video>
    var formData: FormDraft
    /** How many progress intervals of earlier uploads that threw are still running. */
    var leftoverTickers: nat

    /** The progress stays within 0..100, and while an interval runs it is on its track 0, 10, ..., 90. */
    predicate Valid()
      reads this
    {
      uploadProgress <= 100 && (leftoverTickers > 0 ==> OnTrack(uploadProgress))
    }

    constructor ()
      ensures Valid()
      ensures videos == [] && isLoading && !isUploading && uploadProgress == 0
      ensures error.None? && success.None? && !showUploadForm && editingVideo.None?
      ensures formData == DefaultDraft && leftoverTickers == 0
    {
      videos, isLoading, isUploading, uploadProgress := [], true, false, 0;
      error, success, showUploadForm, editingVideo := None, None, false, None;
      formData, leftoverTickers := DefaultDraft, 0;
    }

    /** `fetchVideos`: a listed reply replaces the videos, a non-ok reply changes nothing, a failure records an error. */
    method FetchVideos(reply: ListReply)
      requires Valid()
      modifies this
      ensures Valid() && !isLoading
      ensures videos == (if reply.Listed? then reply.data else old(videos))
      ensures error == (if reply.ListThrew? then Some(MsgLoadFailed) else old(error))
      ensures success == old(success) && isUploading == old(isUploading) && uploadProgress == old(uploadProgress)
      ensures showUploadForm == old(showUploadForm) && editingVideo == old(editingVideo)
      ensures formData == old(formData) && leftoverTickers == old(leftoverTickers)
    {
      match reply {
        case Listed(data) => videos := data;
        case NotListed =>
        case ListThrew => error := Some(MsgLoadFailed);
      }
      isLoading := false;
    }

    /** `handleChange`. */
    method HandleChange(e: InputEvent)
      requires Valid()
      modifies this
      ensures Valid() && formData == ApplyChange(old(formData), e)
      ensures videos == old(videos) && isLoading == old(isLoading) && isUploading == old(isUploading)
      ensures uploadProgress == old(uploadProgress) && error == old(error) && success == old(success)
      ensures showUploadForm == old(showUploadForm) && editingVideo == old(editingVideo)
      ensures leftoverTickers == old(leftoverTickers)
    {
      formData := ApplyChange(formData, e);
    }

    /** `handleEdit`: the form opens on the video, prefilled. */
    method HandleEdit(v: Video)
      requires Valid()
      modifies this
      ensures Valid() && editingVideo == Some(v) && formData == EditDraft(v) && showUploadForm
      ensures videos == old(videos) && isLoading == old(isLoading) && isUploading == old(isUploading)
      ensures uploadProgress == old(uploadProgress) && error == old(error) && success == old(success)
      ensures leftoverTickers == old(leftoverTickers)
    {
      editingVideo := Some(v);
      formData := EditDraft(v);
      showUploadForm := true;
    }

    /** `resetForm`: the default draft, the form hidden, no video being edited, progress 0. */
    method ResetForm()
      requires Valid()
      modifies this
      ensures Valid()
      ensures formData == DefaultDraft && !showUploadForm && editingVideo.None? && uploadProgress == 0
      ensures videos == old(videos) && isLoading == old(isLoading) && isUploading == old(isUploading)
      ensures error == old(error) && success == old(success) && leftoverTickers == old(leftoverTickers)
    {
      formData := DefaultDraft;
      showUploadForm := false;
      editingVideo := None;
      uploadProgress := 0;
    }

    /** The header button: 'Cancel' resets the form, '+ Upload Video' shows it. */
    method ToggleForm()
      requires Valid()
      modifies this
      ensures Valid()
      ensures old(showUploadForm) ==>
                formData == DefaultDraft && !showUploadForm && editingVideo.None? && uploadProgress == 0
      ensures !old(showUploadForm) ==>
                showUploadForm && formData == old(formData) && editingVideo == old(editingVideo)
                && uploadProgress == old(uploadProgress)
      ensures videos == old(videos) && isLoading == old(isLoading) && isUploading == old(isUploading)
      ensures error == old(error) && success == old(success) && leftoverTickers == old(leftoverTickers)
    {
      if showUploadForm {
        ResetForm();
      } else {
        showUploadForm := true;
      }
    }

    /** A callback of one of the intervals that thrown uploads left running. */
    method TickerFires()
      requires Valid()
      modifies this
      ensures Valid()
      ensures var t := Fire(Tickers(old(uploadProgress), false, old(leftoverTickers)), false);
              uploadProgress == t.progress && leftoverTickers == t.leftover
      ensures videos == old(videos) && isLoading == old(isLoading) && isUploading == old(isUploading)
      ensures error == old(error) && success == old(success) && showUploadForm == old(showUploadForm)
      ensures editingVideo == old(editingVideo) && formData == old(formData)
    {
      if leftoverTickers > 0 {
        if uploadProgress < 90 {
          uploadProgress := uploadProgress + 10;
        } else {
          uploadProgress, leftoverTickers := 90, leftoverTickers - 1;
        }
      }
    }

    /**
     * `handleSubmit`, up to the refetch it starts on success. `schedule` lists the interval
     * callbacks that run while the request is pending: `true` for this upload's own
     * interval, `false` for one left running by an earlier upload that threw. Returns the
     * request sent (None when none is) and whether `fetchVideos` is started.
     */
    method HandleSubmit(token: Option<string>, schedule: seq<bool>, reply: Reply)
        returns (request: Option<Request>, refetch: bool)
      requires Valid()
      modifies this
      ensures Valid() && !isUploading
      ensures videos == old(videos) && isLoading == old(isLoading)
      // Editing: the update request while the leftover intervals go on, then an outcome.
      ensures old(editingVideo).Some? ==>
                var t := RunSchedule(Tickers(0, false, old(leftoverTickers)), schedule);
                && request == Some(Request(Put, VideoPath(old(editingVideo).value.id),
                                           Authorization(token), Json(Payload(old(formData)))))
                && leftoverTickers == t.leftover
                && (refetch <==> reply.Ok?)
                && (reply.Ok? ==> success == Some(MsgUpdated) && error.None? && uploadProgress == 0
                                  && formData == DefaultDraft && !showUploadForm && editingVideo.None?)
                && (!reply.Ok? ==> error == Some(UpdateError(reply)) && success.None? && uploadProgress == t.progress
                                   && formData == old(formData) && showUploadForm == old(showUploadForm)
                                   && editingVideo == old(editingVideo))
      // A new upload without a file: no request and no await, so no callback runs.
      ensures old(editingVideo).None? && old(formData).video.None? ==>
                && request.None? && !refetch && error == Some(MsgNoFile) && success.None?
                && uploadProgress == 0 && leftoverTickers == old(leftoverTickers)
                && formData == old(formData) && showUploadForm == old(showUploadForm) && editingVideo.None?
      // A new upload with a file: the multipart request while all intervals run, then an outcome.
      ensures old(editingVideo).None? && old(formData).video.Some? ==>
                var t := RunSchedule(Tickers(0, true, old(leftoverTickers)), schedule);
                && request == Some(Request(Post, UploadPath, Authorization(token),
                                           Multipart(UploadParts(old(formData), old(formData).video.value))))
                && (refetch <==> reply.Ok?)
                && (reply.Ok? ==> success == Some(MsgUploaded) && error.None? && uploadProgress == 0
                                  && leftoverTickers == t.leftover && formData == DefaultDraft
                                  && !showUploadForm && editingVideo.None?)
                && (reply.NotOk? ==> error == Some(UploadError(reply.body)) && success.None?
                                     && uploadProgress == t.progress && leftoverTickers == t.leftover)
                && (reply.Threw? ==> error == Some(reply.message) && success.None? && uploadProgress == t.progress
                                     && leftoverTickers == t.leftover + (if t.own then 1 else 0))
                && (!reply.Ok? ==> formData == old(formData) && showUploadForm == old(showUploadForm)
                                   && editingVideo.None?)
    {
      isUploading, error, success, uploadProgress := true, None, None, 0;
      if editingVideo.Some? {
        request, refetch := SubmitUpdate(token, schedule, reply);
      } else if formData.video.None? {
        error := Some(MsgNoFile);
        request, refetch := None, false;
      } else {
        request, refetch := SubmitUpload(token, schedule, reply);
      }
      isUploading := false;
    }

    /** The edit branch of `handleSubmit`, from the cleared messages and progress on. */
    method SubmitUpdate(token: Option<string>, schedule: seq<bool>, reply: Reply)
        returns (request: Option<Request>, refetch: bool)
      requires Valid() && editingVideo.Some? && error.None? && success.None? && uploadProgress == 0
      modifies this
      ensures Valid()
      ensures videos == old(videos) && isLoading == old(isLoading) && isUploading == old(isUploading)
      ensures var t := RunSchedule(Tickers(0, false, old(leftoverTickers)), schedule);
              && request == Some(Request(Put, VideoPath(old(editingVideo).value.id),
                                         Authorization(token), Json(Payload(old(formData)))))
              && leftoverTickers == t.leftover
              && (refetch <==> reply.Ok?)
              && (reply.Ok? ==> success == Some(MsgUpdated) && error.None? && uploadProgress == 0
                                && formData == DefaultDraft && !showUploadForm && editingVideo.None?)
              && (!reply.Ok? ==> error == Some(UpdateError(reply)) && success.None? && uploadProgress == t.progress
                                 && formData == old(formData) && showUploadForm == old(showUploadForm)
                                 && editingVideo == old(editingVideo))
    {
      request := Some(Request(Put, VideoPath(editingVideo.value.id), Authorization(token), Json(Payload(formData))));
      refetch := false;
      var start := Tickers(0, false, leftoverTickers);
      var t := RunTickers(start, schedule);
      ScheduleKeepsTrack(start, schedule);
      uploadProgress, leftoverTickers := t.progress, t.leftover;
      if reply.Ok? {
        success := Some(MsgUpdated);
        ResetForm();
        refetch := true;
      } else {
        error := Some(UpdateError(reply));
      }
    }

    /** The upload branch of `handleSubmit`, from the cleared messages and progress on; the form holds a file. */
    method SubmitUpload(token: Option<string>, schedule: seq<bool>, reply: Reply)
        returns (request: Option<Request>, refetch: bool)
      requires Valid() && editingVideo.None? && formData.video.Some? && error.None? && success.None?
      requires uploadProgress == 0
      modifies this
      ensures Valid() && editingVideo.None?
      ensures videos == old(videos) && isLoading == old(isLoading) && isUploading == old(isUploading)
      ensures var t := RunSchedule(Tickers(0, true, old(leftoverTickers)), schedule);
              && request == Some(Request(Post, UploadPath, Authorization(token),
                                         Multipart(UploadParts(old(formData), old(formData).video.value))))
              && (refetch <==> reply.Ok?)
              && (reply.Ok? ==> success == Some(MsgUploaded) && error.None? && uploadProgress == 0
                                && leftoverTickers == t.leftover && formData == DefaultDraft && !showUploadForm)
              && (reply.NotOk? ==> error == Some(UploadError(reply.body)) && success.None?
                                   && uploadProgress == t.progress && leftoverTickers == t.leftover)
              && (reply.Threw? ==> error == Some(reply.message) && success.None? && uploadProgress == t.progress
                                   && leftoverTickers == t.leftover + (if t.own then 1 else 0))
              && (!reply.Ok? ==> formData == old(formData) && showUploadForm == old(showUploadForm))
    {
      request := Some(Request(Post, UploadPath, Authorization(token), Multipart(UploadParts(formData, formData.video.value))));
      refetch := false;
      var start := Tickers(0, true, leftoverTickers);
      var t := RunTickers(start, schedule);
      ScheduleKeepsTrack(start, schedule);
      uploadProgress, leftoverTickers := t.progress, t.leftover;
      match reply {
        case Ok =>
          // `clearInterval`; the 100 it then sets is overwritten by the reset in the same batch.
          success := Some(MsgUploaded);
          ResetForm();
          refetch := true;
        case NotOk(body) =>
          error := Some(UploadError(body));
        case Threw(message) =>
          // The throw skips `clearInterval`: a still running own interval joins the leftover ones.
          leftoverTickers := t.leftover + (if t.own then 1 else 0);
          error := Some(message);
      }
    }

    /**
     * `handleDelete`: nothing without confirmation; otherwise the delete request and
     * either the success message and a refetch, or the error. Neither message is cleared first.
     */
    method HandleDelete(confirmed: bool, videoId: Option<string>, token: Option<string>, reply: Reply)
        returns (request: Option<Request>, refetch: bool)
      requires Valid()
      modifies this
      ensures Valid()
      ensures !confirmed ==> request.None? && !refetch && error == old(error) && success == old(success)
      ensures confirmed ==>
                && request == Some(Request(Delete, VideoPath(videoId), Authorization(token), NoBody))
                && (refetch <==> reply.Ok?)
                && (reply.Ok? ==> success == Some(MsgDeleted) && error == old(error))
                && (reply.NotOk? ==> error == Some(MsgDeleteFailed) && success == old(success))
                && (reply.Threw? ==> error == Some(reply.message) && success == old(success))
      ensures videos == old(videos) && isLoading == old(isLoading) && isUploading == old(isUploading)
      ensures uploadProgress == old(uploadProgress) && showUploadForm == old(showUploadForm)
      ensures editingVideo == old(editingVideo) && formData == old(formData) && leftoverTickers == old(leftoverTickers)
    {
      request, refetch := None, false;
      if confirmed {
        request := Some(Request(Delete, VideoPath(videoId), Authorization(token), NoBody));
        match reply {
          case Ok =>
            success := Some(MsgDeleted);
            refetch := true;
          case NotOk(_) =>
            error := Some(MsgDeleteFailed);
          case Threw(message) =>
            error := Some(message);
        }
      }
    }
  }
}
