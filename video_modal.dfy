/**
 * The video modal (components/VideoModal.js): what it shows for a given `video` prop,
 * which clicks and keys close it, and its effect on the document, which installs a
 * `keydown` listener and locks body scrolling while open and undoes both in cleanup.
 */
module VideoModal {
  import opened Records
  import opened Text
  import opened Duration
  import opened Categories

  /** The fields of the `video` prop that the modal reads. */
  datatype ModalVideo = ModalVideo(
    title: string,
    description: string,
    businessDescription: string,
    category: string,
    technologies: seq<string>,
    featured: bool,
    videoUrl: string,
    thumbnailUrl: string,
    videoThumbnailUrl: string,
    demoUrl: string,
    githubUrl: string,
    views: Option<nat>,
    duration: Option<nat>)

  /** The gallery hands the API record to the modal as it is. */
  function FromVideo(v: Video): ModalVideo
  {
    ModalVideo(v.title, v.description, v.businessDescription, v.category,
               v.technologies.GetOr([]), v.featured, v.videoUrl, v.thumbnailUrl, "",
               v.demoUrl, v.githubUrl, v.views, v.duration)
  }

  /** What the modal puts on screen; each optional part is None when its section is hidden. */
  datatype ModalView = ModalView(
    videoSrc: string,
    poster: string,
    title: string,
    categoryClass: Option<string>,
    featuredBadge: bool,
    durationText: Option<string>,
    demoLink: Option<string>,
    githubLink: Option<string>,
    description: string,
    businessDescription: Option<string>,
    technologies: Option<seq<string>>,
    viewsText: Option<string>)

  /** `if (!isOpen || !video) return null`, otherwise the rendered sections. */
  function Render(isOpen: bool, video: Option<ModalVideo>): Option<ModalView>
  {
    if !isOpen || video.None? then None
    else
      var v := video.value;
      Some(ModalView(
        v.videoUrl,
        if v.thumbnailUrl != "" then v.thumbnailUrl else v.videoThumbnailUrl,
        v.title,
        if v.category != "" then Some(ComputedClass(v.category)) else None,
        v.featured,
        DurationLabel(v.duration),
        if v.demoUrl != "" then Some(v.demoUrl) else None,
        if v.githubUrl != "" then Some(v.githubUrl) else None,
        v.description,
        if v.businessDescription != "" && v.businessDescription != v.description
        then Some(v.businessDescription) else None,
        if |v.technologies| > 0 then Some(v.technologies) else None,
        if v.views.Some? then Some(DecimalString(v.views.value) + " views") else None))
  }

  /**
   * The modal renders only when open with a video; the business description appears only
   * when non-empty and different from the description; the technologies section only
   * when there are some; the duration only when positive, as an m:ss label that reads
   * back to it; the category class is the computed 'category-' class.
   */
  lemma RenderSections(isOpen: bool, video: Option<ModalVideo>)
    ensures Render(isOpen, video).Some? <==> isOpen && video.Some?
    ensures Render(isOpen, video).Some? ==>
              var v, m := video.value, Render(isOpen, video).value;
              && (m.businessDescription.Some? <==>
                    v.businessDescription != "" && v.businessDescription != v.description)
              && (m.technologies.Some? <==> |v.technologies| > 0)
              && (m.durationText.Some? <==> v.duration.Some? && v.duration.value > 0)
              && (m.durationText.Some? ==> ParseDuration(m.durationText.value) == v.duration)
              && (m.categoryClass.Some? ==> StartsWith(m.categoryClass.value, "category-"))
              && (m.categoryClass.Some? <==> v.category != "")
              && (m.poster == "" <==> v.thumbnailUrl == "" && v.videoThumbnailUrl == "")
  {
    if isOpen && video.Some? {
      var v := video.value;
      DurationLabelShown(v.duration);
      if v.category != "" {
        ComputedClassShape(v.category);
      }
    }
  }

  /** `handleKeyDown`: only the Escape key calls `onClose`. */
  function KeyCloses(key: string): bool
  {
    key == "Escape"
  }

  /** Where a click can land: the close button, something else inside the content panel, the panel itself, or the backdrop. */
  datatype Element = CloseButton | InnerElement | ContentPanel | Backdrop

  /** The elements a click at `target` bubbles through, innermost first. */
  function BubblePath(target: Element): seq<Element>
  {
    match target
    case CloseButton => [CloseButton, ContentPanel, Backdrop]
    case InnerElement => [InnerElement, ContentPanel, Backdrop]
    case ContentPanel => [ContentPanel, Backdrop]
    case Backdrop => [Backdrop]
  }

  /** The close button and the backdrop call `onClose`; the content panel stops propagation. */
  function CallsOnClose(e: Element): bool { e == CloseButton || e == Backdrop }
  function StopsPropagation(e: Element): bool { e == ContentPanel }

  /** How many times `onClose` runs while a click bubbles along `path`. */
  function CloseCalls(path: seq<Element>): nat
  {
    if path == [] then 0
    else (if CallsOnClose(path[0]) then 1 else 0)
         + (if StopsPropagation(path[0]) then 0 else CloseCalls(path[1..]))
  }

  /** A click closes the modal exactly once on the backdrop or the close button, and never inside the content. */
  lemma ClickCloses(target: Element)
    ensures CloseCalls(BubblePath(target)) == if target == CloseButton || target == Backdrop then 1 else 0
  {
    var p := BubblePath(target);
    assert p[1..] == [] || p[1..][0] == ContentPanel || p[1..][0] == Backdrop;
    match target
    case CloseButton => assert p[1..] == [ContentPanel, Backdrop];
    case InnerElement => assert p[1..] == [ContentPanel, Backdrop];
    case ContentPanel => assert p[1..] == [Backdrop];
    case Backdrop => assert p[1..] == [];
  }

  /** The identity of one `handleKeyDown` closure; `useCallback` makes a new one whenever `onClose` changes. */
  type Handler = nat

  /** The parts of the document the effect touches: the `keydown` listeners and `body.style.overflow`. */
  datatype DocState = DocState(keyListeners: set<Handler>, bodyOverflow: string)

  /** The effect body: when open, add the listener (adding one already present is a no-op) and hide overflow. */
  function AfterSetup(d: DocState, isOpen: bool, h: Handler): DocState
  {
    if isOpen then DocState(d.keyListeners + {h}, "hidden") else d
  }

  /** The cleanup: remove the listener and set overflow to 'unset', whether or not the effect installed it. */
  function AfterCleanup(d: DocState, h: Handler): DocState
  {
    DocState(d.keyListeners - {h}, "unset")
  }

  /** One change of the effect's dependencies `[isOpen, handleKeyDown]`: the previous cleanup runs, then the effect. */
  function Commit(d: DocState, prev: Option<Handler>, isOpen: bool, h: Handler): DocState
  {
    AfterSetup(if prev.Some? then AfterCleanup(d, prev.value) else d, isOpen, h)
  }

  /** A dependency change: the new `isOpen` and the new listener. */
  datatype Deps = Deps(isOpen: bool, handler: Handler)

  /** The document after the mount and every later dependency change in `changes`. */
  function Mounted(d: DocState, changes: seq<Deps>): DocState
    requires changes != []
    decreases |changes|
  {
    var last := changes[|changes| - 1];
    if |changes| == 1 then Commit(d, None, last.isOpen, last.handler)
    else Commit(Mounted(d, changes[..|changes| - 1]), Some(changes[|changes| - 2].handler), last.isOpen, last.handler)
  }

  /** The listeners that belong to the modal during `changes`. */
  function Handlers(changes: seq<Deps>): set<Handler>
  {
    set i | 0 <= i < |changes| :: changes[i].handler
  }

  /**
   * Resource pairing over a whole lifetime: at any moment the document carries at most
   * the modal's current listener on top of what it had before mounting, overflow is
   * 'hidden' exactly while open (once the first cleanup has run), and unmounting leaves
   * the original listeners with overflow 'unset'.
   */
  lemma {:induction false} Lifecycle(d: DocState, changes: seq<Deps>)
    requires changes != []
    requires Handlers(changes) !! d.keyListeners
    ensures var m, last := Mounted(d, changes), changes[|changes| - 1];
            && m.keyListeners == d.keyListeners + (if last.isOpen then {last.handler} else {})
            && (last.isOpen ==> m.bodyOverflow == "hidden")
            && (!last.isOpen && |changes| > 1 ==> m.bodyOverflow == "unset")
            && AfterCleanup(m, last.handler) == DocState(d.keyListeners, "unset")
    decreases |changes|
  {
    var last := changes[|changes| - 1];
    assert last.handler in Handlers(changes);
    if |changes| > 1 {
      var init := changes[..|changes| - 1];
      assert Handlers(init) <= Handlers(changes) by {
        forall h | h in Handlers(init) ensures h in Handlers(changes) {
          var i :| 0 <= i < |init| && init[i].handler == h;
          assert changes[i].handler == h;
        }
      }
      Lifecycle(d, init);
      assert init[|init| - 1] == changes[|changes| - 2];
    }
  }

  /** How often a `keydown` of `key` calls the modal's `onClose` through listener `h`. */
  function KeyDownCloses(d: DocState, h: Handler, key: string): nat
  {
    if h in d.keyListeners && KeyCloses(key) then 1 else 0
  }

  /**
   * While the modal is open, Escape closes it exactly once and any other key never;
   * once it is closed or unmounted, no key reaches any of its listeners.
   */
  lemma EscapeClosesOnlyWhileOpen(d: DocState, changes: seq<Deps>, key: string)
    requires changes != []
    requires Handlers(changes) !! d.keyListeners
    ensures var m, last := Mounted(d, changes), changes[|changes| - 1];
            && KeyDownCloses(m, last.handler, key) == (if last.isOpen && key == "Escape" then 1 else 0)
            && (!last.isOpen ==> forall h :: h in Handlers(changes) ==> KeyDownCloses(m, h, key) == 0)
            && forall h :: h in Handlers(changes) ==> KeyDownCloses(AfterCleanup(m, last.handler), h, key) == 0
  {
    Lifecycle(d, changes);
  }

  /** The page's document, whose listener set and body overflow the effect mutates. */
  class Document {
    var keyListeners: set<Handler>
    var bodyOverflow: string

    function State(): DocState
      reads this
    {
      DocState(keyListeners, bodyOverflow)
    }

    constructor (listeners: set<Handler>, overflow: string)
      ensures State() == DocState(listeners, overflow)
    {
      keyListeners := listeners;
      bodyOverflow := overflow;
    }

    /** `document.addEventListener('keydown', h)`. */
    method AddKeyListener(h: Handler)
      modifies this
      ensures keyListeners == old(keyListeners) + {h} && bodyOverflow == old(bodyOverflow)
    {
      keyListeners := keyListeners + {h};
    }

    /** `document.removeEventListener('keydown', h)`. */
    method RemoveKeyListener(h: Handler)
      modifies this
      ensures keyListeners == old(keyListeners) - {h} && bodyOverflow == old(bodyOverflow)
    {
      keyListeners := keyListeners - {h};
    }

    /** `document.body.style.overflow = value`. */
    method SetBodyOverflow(value: string)
      modifies this
      ensures bodyOverflow == value && keyListeners == old(keyListeners)
    {
      bodyOverflow := value;
    }
  }

  /** The effect body of the modal. */
  method RunEffect(doc: Document, isOpen: bool, h: Handler)
    modifies doc
    ensures doc.State() == AfterSetup(old(doc.State()), isOpen, h)
  {
    if isOpen {
      doc.AddKeyListener(h);
      doc.SetBodyOverflow("hidden");
    }
  }

  /** The cleanup the effect returns. */
  method RunCleanup(doc: Document, h: Handler)
    modifies doc
    ensures doc.State() == AfterCleanup(old(doc.State()), h)
  {
    doc.RemoveKeyListener(h);
    doc.SetBodyOverflow("unset");
  }

  /** What React does when the dependencies change: the old cleanup, then the new effect. */
  method CommitEffect(doc: Document, prev: Option<Handler>, isOpen: bool, h: Handler)
    modifies doc
    ensures doc.State() == Commit(old(doc.State()), prev, isOpen, h)
  {
    if prev.Some? {
      RunCleanup(doc, prev.value);
    }
    RunEffect(doc, isOpen, h);
  }
}
