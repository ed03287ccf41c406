/**
 * The projects page (pages/projects.js): remote videos are converted into project-shaped
 * records, those whose media URL a portfolio project already uses are dropped, the rest
 * are put in front of the portfolio projects, and the merged list is filtered by
 * category and split into featured and regular projects.
 */
module ProjectsPage {
  import opened Records
  import opened Text
  import opened Duration
  import opened Listing
  import opened Categories
  import VideoModal

  /** The record the page builds from one remote video (`videosAsProjects`). */
  function ToProject(v: Video): Project
  {
    Project(
      FirstTruthyId(v.dbId, v.id),
      v.title,
      v.description,
      v.businessDescription,
      v.technologies.GetOr([]),
      v.category,
      v.featured,
      true,
      v.videoUrl,
      v.thumbnailUrl,
      v.thumbnailUrl,
      v.demoUrl,
      v.githubUrl,
      v.views,
      v.duration,
      true)
  }

  function ToProjects(vs: seq<Video>): (ps: seq<Project>)
    ensures |ps| == |vs|
    ensures forall i :: 0 <= i < |vs| ==> ps[i] == ToProject(vs[i])
  {
    seq(|vs|, i requires 0 <= i < |vs| => ToProject(vs[i]))
  }

  /** What every converted video looks like. */
  lemma ConvertedVideoFields(v: Video)
    ensures var p := ToProject(v);
            && p.hasVideo && p.isVideoProject
            && p.technologies == (if v.technologies.Some? then v.technologies.value else [])
            && p.id == (if v.dbId.Some? && v.dbId.value != "" then v.dbId else v.id)
            && p.videoUrl == v.videoUrl
            && p.videoThumbnailUrl == v.thumbnailUrl && p.image == v.thumbnailUrl
            && p.demo == v.demoUrl && p.github == v.githubUrl
            && (p.title, p.description, p.businessDescription) == (v.title, v.description, v.businessDescription)
            && (p.category, p.featured, p.views, p.duration) == (v.category, v.featured, v.views, v.duration)
  {
  }

  /** `projects.filter(p => p.videoUrl).map(p => p.videoUrl)`. */
  function ProjectVideoUrls(projects: seq<Project>): (urls: seq<string>)
    ensures forall u :: u in urls <==> exists p :: p in projects && p.videoUrl != "" && p.videoUrl == u
  {
    if projects == [] then []
    else
      var rest := ProjectVideoUrls(projects[1..]);
      assert forall p :: p in projects <==> p == projects[0] || p in projects[1..];
      if projects[0].videoUrl != "" then [projects[0].videoUrl] + rest else rest
  }

  /** A video is covered when some project has a non-empty media URL equal to its own. */
  predicate Covered(v: Project, projects: seq<Project>)
  {
    exists p :: p in projects && p.videoUrl != "" && p.videoUrl == v.videoUrl
  }

  /** `videosAsProjects.filter(v => !projectVideoUrls.includes(v.videoUrl))`. */
  function UniqueVideos(converted: seq<Project>, urls: seq<string>): (r: seq<Project>)
    ensures |r| <= |converted|
  {
    if converted == [] then []
    else (if converted[0].videoUrl in urls then [] else [converted[0]]) + UniqueVideos(converted[1..], urls)
  }

  /** `[...uniqueVideos, ...projects]`. */
  function MergeCatalog(videos: seq<Video>, projects: seq<Project>): seq<Project>
  {
    UniqueVideos(ToProjects(videos), ProjectVideoUrls(projects)) + projects
  }

  lemma {:induction false} UniqueVideosExact(converted: seq<Project>, projects: seq<Project>)
    ensures var u := UniqueVideos(converted, ProjectVideoUrls(projects));
            && IsSubsequence(u, converted)
            && (forall x :: x in u <==> x in converted && !Covered(x, projects))
            && (forall x :: multiset(u)[x] == if Covered(x, projects) then 0 else multiset(converted)[x])
  {
    var urls := ProjectVideoUrls(projects);
    if converted != [] {
      UniqueVideosExact(converted[1..], projects);
      var rest := UniqueVideos(converted[1..], urls);
      assert converted == [converted[0]] + converted[1..];
      assert multiset(converted) == multiset([converted[0]]) + multiset(converted[1..]);
      if converted[0].videoUrl in urls {
        assert UniqueVideos(converted, urls) == rest;
        SubsequenceOfTail(rest, converted);
      } else {
        assert UniqueVideos(converted, urls) == [converted[0]] + rest;
        assert ([converted[0]] + rest)[1..] == rest;
      }
    }
  }

  /**
   * The merged catalog: the surviving videos come first, in their original order, then
   * every portfolio project unchanged and in order; a video survives exactly when no
   * project with a non-empty media URL shares its URL, so projects without one never
   * cause a drop.
   */
  lemma MergeCatalogLayout(videos: seq<Video>, projects: seq<Project>)
    ensures var m, u := MergeCatalog(videos, projects), UniqueVideos(ToProjects(videos), ProjectVideoUrls(projects));
            && |m| == |u| + |projects|
            && m[|u|..] == projects
            && IsSubsequence(m[..|u|], ToProjects(videos))
            && (forall x :: multiset(m[..|u|])[x] == if Covered(x, projects) then 0 else multiset(ToProjects(videos))[x])
            && (forall i :: 0 <= i < |u| ==> m[i].isVideoProject && !Covered(m[i], projects))
            && (forall v :: v in videos ==> (ToProject(v) in m[..|u|] <==> !Covered(ToProject(v), projects)))
  {
    var m, u := MergeCatalog(videos, projects), UniqueVideos(ToProjects(videos), ProjectVideoUrls(projects));
    UniqueVideosExact(ToProjects(videos), projects);
    assert m[..|u|] == u;
    assert m[|u|..] == projects;
    forall i | 0 <= i < |u| ensures m[i].isVideoProject && !Covered(m[i], projects) {
      assert m[i] in u;
    }
    forall v | v in videos ensures ToProject(v) in m[..|u|] <==> !Covered(ToProject(v), projects) {
      ConvertedMember(videos, v);
    }
  }

  lemma ConvertedMember(videos: seq<Video>, v: Video)
    requires v in videos
    ensures ToProject(v) in ToProjects(videos)
  {
    var k :| 0 <= k < |videos| && videos[k] == v;
    assert ToProjects(videos)[k] == ToProject(v);
  }

  /** A video whose URL a portfolio project already uses collapses into that project: one item survives. */
  lemma DedupScenario(v: Video, p: Project)
    requires v.videoUrl != "" && p.videoUrl == v.videoUrl
    ensures MergeCatalog([v], [p]) == [p]
  {
    assert ToProjects([v]) == [ToProject(v)];
    assert v.videoUrl in ProjectVideoUrls([p]);
  }

  /**
   * `{project.duration && (<div>…{formatDuration(project.duration)}</div>)}`: what the
   * card's thumbnail corner gets. React prints a `0` produced by `&&` as text, so a zero
   * duration shows a stray "0" instead of nothing.
   */
  datatype CornerContent = Nothing | StrayText(text: string) | DurationBadge(badge: string)

  function DurationCornerAsWritten(duration: Option<nat>): CornerContent
  {
    match duration
    case None => Nothing
    case Some(d) => if d == 0 then StrayText("0") else DurationBadge(FormatDuration(d))
  }

  /** The input that shows the discrepancy: a video whose duration is 0 (unknown). */
  lemma DurationCornerZeroShowsStrayText()
    ensures DurationCornerAsWritten(Some(0)) == StrayText("0")
  {
  }

  /** What the corner evidently should show: a badge only for a positive duration, as the video card does. */
  function DurationCorner(duration: Option<nat>): CornerContent
  {
    match DurationLabel(duration)
    case None => Nothing
    case Some(text) => DurationBadge(text)
  }

  lemma DurationCornerCorrect(duration: Option<nat>)
    ensures DurationCorner(duration) != StrayText("0")
    ensures DurationCorner(duration).DurationBadge? <==> duration.Some? && duration.value > 0
    ensures DurationCorner(duration).DurationBadge? ==>
              ParseDuration(DurationCorner(duration).badge) == duration
    ensures duration != Some(0) ==> DurationCorner(duration) == DurationCornerAsWritten(duration)
  {
    DurationLabelShown(duration);
  }

  /** `{selectedVideo ...project, thumbnailUrl: project.videoThumbnailUrl || project.image}` as the modal reads it. */
  function PlayableVideo(p: Project): VideoModal.ModalVideo
  {
    VideoModal.ModalVideo(
      p.title, p.description, p.businessDescription, p.category, p.technologies, p.featured,
      p.videoUrl,
      if p.videoThumbnailUrl != "" then p.videoThumbnailUrl else p.image,
      p.videoThumbnailUrl,
      "", "",    // the record carries `demo` and `github`; the modal reads `demoUrl` and `githubUrl`
      p.views, p.duration)
  }

  /** The card image, `videoThumbnailUrl || image || '/project-default.jpg'`. */
  function CardImage(p: Project): string
  {
    if p.videoThumbnailUrl != "" then p.videoThumbnailUrl
    else if p.image != "" then p.image
    else "/project-default.jpg"
  }

  /** The play overlay and the 'Watch Demo' button appear for `hasVideo && videoUrl`. */
  predicate ShowsPlayButton(p: Project)
  {
    p.hasVideo && p.videoUrl != ""
  }

  /**
   * The card always has an image, and it is the poster the modal opens with whenever the
   * project has one of its own; every play button the card shows does open the modal.
   */
  lemma CardImageMatchesPoster(p: Project)
    ensures CardImage(p) != ""
    ensures PlayableVideo(p).thumbnailUrl != "" ==> CardImage(p) == PlayableVideo(p).thumbnailUrl
    ensures PlayableVideo(p).thumbnailUrl == "" ==> CardImage(p) == "/project-default.jpg"
    ensures ShowsPlayButton(p) ==> PlayableVideo(p).videoUrl != ""
  {
  }

  /** The outcome of the portfolio half of `Promise.all`: the feed's project list, or a thrown error. */
  datatype PortfolioReply = Portfolio(projects: Option<seq<Project>>) | PortfolioThrew

  /** The page's state cells. */
  class ProjectsPageState {
    var allProjects: seq<Project>
    var filteredProjects: seq<Project>
    var isLoading: bool
    var selectedCategory: string
    var selectedVideo: Option<VideoModal.ModalVideo>
    var isModalOpen: bool

    /** After every handler and the filter effect it triggers, the filtered list follows the selection. */
    predicate Valid()
      reads this
    {
      filteredProjects == CategoryFilter(allProjects, ProjectCategory, selectedCategory)
    }

    constructor ()
      ensures Valid()
      ensures allProjects == [] && filteredProjects == [] && isLoading
      ensures selectedCategory == "all" && selectedVideo.None? && !isModalOpen
    {
      allProjects, filteredProjects := [], [];
      isLoading := true;
      selectedCategory := "all";
      selectedVideo, isModalOpen := None, false;
    }

    /**
     * `loadData` followed by the filter effect its new `allProjects` triggers. The video
     * fetch has already turned a failed response into `[]`; `videos` None is a `null` body.
     */
    method LoadData(portfolio: PortfolioReply, videos: Option<seq<Video>>)
      requires Valid()
      modifies this
      ensures Valid() && !isLoading
      ensures portfolio.Portfolio? ==>
                allProjects == MergeCatalog(videos.GetOr([]), portfolio.projects.GetOr([]))
      ensures portfolio.PortfolioThrew? ==> allProjects == old(allProjects)
      ensures selectedCategory == old(selectedCategory)
      ensures selectedVideo == old(selectedVideo) && isModalOpen == old(isModalOpen)
    {
      if portfolio.Portfolio? {
        var merged := MergeCatalog(videos.GetOr([]), portfolio.projects.GetOr([]));
        allProjects := merged;
        filteredProjects := merged;
        filteredProjects := CategoryFilter(allProjects, ProjectCategory, selectedCategory);
      }
      isLoading := false;
    }

    /** A filter button: `setSelectedCategory`, then the filter effect. */
    method SelectCategory(category: string)
      requires Valid()
      modifies this
      ensures Valid() && selectedCategory == category
      ensures allProjects == old(allProjects) && isLoading == old(isLoading)
      ensures selectedVideo == old(selectedVideo) && isModalOpen == old(isModalOpen)
    {
      selectedCategory := category;
      filteredProjects := CategoryFilter(allProjects, ProjectCategory, selectedCategory);
    }

    /** `handlePlayVideo`: opens the modal only for a project with a media URL. */
    method HandlePlayVideo(p: Project)
      requires Valid()
      modifies this
      ensures Valid()
      ensures p.videoUrl != "" ==> selectedVideo == Some(PlayableVideo(p)) && isModalOpen
      ensures p.videoUrl == "" ==> selectedVideo == old(selectedVideo) && isModalOpen == old(isModalOpen)
      ensures allProjects == old(allProjects) && filteredProjects == old(filteredProjects)
      ensures selectedCategory == old(selectedCategory) && isLoading == old(isLoading)
    {
      if p.videoUrl != "" {
        selectedVideo := Some(PlayableVideo(p));
        isModalOpen := true;
      }
    }

    /** The modal's `onClose`. */
    method CloseModal()
      requires Valid()
      modifies this
      ensures Valid() && !isModalOpen && selectedVideo.None?
      ensures allProjects == old(allProjects) && filteredProjects == old(filteredProjects)
      ensures selectedCategory == old(selectedCategory) && isLoading == old(isLoading)
    {
      isModalOpen := false;
      selectedVideo := None;
    }

    function FeaturedProjects(): seq<Project>
      reads this
    {
      Featured(filteredProjects, ProjectFeatured)
    }

    function RegularProjects(): seq<Project>
      reads this
    {
      Regular(filteredProjects, ProjectFeatured)
    }
  }

  /**
   * The selected thumbnail is `videoThumbnailUrl || image` and the media URL is passed
   * through unchanged; the modal opened from this page shows no demo or GitHub link,
   * since it looks for keys the project record does not have.
   */
  lemma PlayableVideoThumbnail(p: Project)
    ensures PlayableVideo(p).thumbnailUrl == (if p.videoThumbnailUrl != "" then p.videoThumbnailUrl else p.image)
    ensures PlayableVideo(p).videoUrl == p.videoUrl
    ensures VideoModal.Render(true, Some(PlayableVideo(p))).Some?
    ensures VideoModal.Render(true, Some(PlayableVideo(p))).value.poster
            == (if p.videoThumbnailUrl != "" then p.videoThumbnailUrl else p.image)
    ensures VideoModal.Render(true, Some(PlayableVideo(p))).value.demoLink.None?
    ensures VideoModal.Render(true, Some(PlayableVideo(p))).value.githubLink.None?
  {
  }

  /** What the page shows for a state: both sub-lists partition the filtered list, which follows the selection. */
  lemma PageListsPartition(page: ProjectsPageState)
    requires page.Valid()
    ensures page.selectedCategory == "all" ==> page.filteredProjects == page.allProjects
    ensures page.selectedCategory != "all" ==>
              forall x :: x in page.filteredProjects <==> x in page.allProjects && x.category == page.selectedCategory
    ensures |page.FeaturedProjects()| + |page.RegularProjects()| == |page.filteredProjects|
    ensures forall x :: x in page.FeaturedProjects() <==> x in page.filteredProjects && x.featured
    ensures forall x :: x in page.RegularProjects() <==> x in page.filteredProjects && !x.featured
    ensures IsSubsequence(page.FeaturedProjects(), page.filteredProjects)
    ensures IsSubsequence(page.RegularProjects(), page.filteredProjects)
  {
    CategoryFilterExact(page.allProjects, ProjectCategory, page.selectedCategory);
    FeaturedRegularPartition(page.filteredProjects, ProjectFeatured);
  }
}
