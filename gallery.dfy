/**
 * The video gallery page (pages/gallery.js): it loads the remote video list, falls back
 * to a built-in demo catalog when that fails, filters by category, splits featured from
 * regular videos, and opens the modal on a card click while reporting a view.
 */
module GalleryPage {
  import opened Records
  import opened Listing
  import opened Categories
  import opened Duration
  import VideoModal

  // The demo catalog's media addresses and longer texts.
  const ElephantsVideoUrl: string := "https://res.cloudinary.com/demo/video/upload/v1/samples/elephants.mp4"
  const ElephantsThumbnailUrl: string := "https://res.cloudinary.com/demo/video/upload/so_0,w_640,h_360,c_fill/v1/samples/elephants.jpg"
  const SeaTurtleVideoUrl: string := "https://res.cloudinary.com/demo/video/upload/v1/samples/sea-turtle.mp4"
  const SeaTurtleThumbnailUrl: string := "https://res.cloudinary.com/demo/video/upload/so_0,w_640,h_360,c_fill/v1/samples/sea-turtle.jpg"
  const SampleVideoUrl: string := "https://res.cloudinary.com/demo/video/upload/v1/samples/cld-sample-video.mp4"
  const SampleThumbnailUrl: string := "https://res.cloudinary.com/demo/video/upload/so_0,w_640,h_360,c_fill/v1/samples/cld-sample-video.jpg"
  const ErpDescription: string := "Complete ERP solution with inventory management, HR, accounting, and reporting modules."
  const ErpBusinessDescription: string := "A comprehensive enterprise resource planning system designed for mid to large-sized businesses. Features include real-time inventory tracking, employee management, financial reporting, and customizable dashboards."
  const CrmDescription: string := "Customer relationship management system with lead tracking and analytics."
  const CrmBusinessDescription: string := "Modern CRM platform with AI-powered lead scoring, sales pipeline management, and comprehensive customer analytics."
  const AdminDescription: string := "Feature-rich admin panel with user management and analytics."
  const TrackerDescription: string := "Real-time store inventory and sales tracking application."
  const ShopDescription: string := "Full-featured online store with payment integration."
  const SaasDescription: string := "Business intelligence dashboard for SaaS metrics."

  /** The built-in catalog shown when the video list cannot be fetched. */
  function DemoVideos(): seq<Video>
  {
    [DemoVideo1(), DemoVideo2(), DemoVideo3(), DemoVideo4(), DemoVideo5(), DemoVideo6()]
  }

  function DemoVideo1(): Video
  {
    Video(None, Some("1"), "Enterprise ERP System",
      ErpDescription,
      ErpBusinessDescription,
      "ERP", Some(["React", "Node.js", "PostgreSQL", "Redis", "Docker"]), true,
      ElephantsVideoUrl,
      ElephantsThumbnailUrl,
      "#", "#", Some(1250), Some(180))
  }

  function DemoVideo2(): Video
  {
    Video(None, Some("2"), "CRM Dashboard",
      CrmDescription,
      CrmBusinessDescription,
      "CRM", Some(["Next.js", "GraphQL", "MongoDB", "Tailwind"]), true,
      SeaTurtleVideoUrl,
      SeaTurtleThumbnailUrl,
      "#", "#", Some(890), Some(240))
  }

  function DemoVideo3(): Video
  {
    Video(None, Some("3"), "Admin Dashboard",
      AdminDescription, "",
      "Admin", Some(["React", "Express", "MySQL", "Chart.js"]), false,
      SampleVideoUrl,
      SampleThumbnailUrl,
      "", "", Some(567), Some(120))
  }

  function DemoVideo4(): Video
  {
    Video(None, Some("4"), "Store Tracker",
      TrackerDescription, "",
      "Tracking", Some(["Vue.js", "Firebase", "Socket.io"]), false,
      ElephantsVideoUrl,
      ElephantsThumbnailUrl,
      "", "", Some(423), Some(150))
  }

  function DemoVideo5(): Video
  {
    Video(None, Some("5"), "E-Commerce Platform",
      ShopDescription, "",
      "E-Commerce", Some(["Next.js", "Stripe", "Prisma", "Vercel"]), false,
      SeaTurtleVideoUrl,
      SeaTurtleThumbnailUrl,
      "", "", Some(1100), Some(200))
  }

  function DemoVideo6(): Video
  {
    Video(None, Some("6"), "SaaS Analytics",
      SaasDescription, "",
      "SaaS", Some(["React", "D3.js", "Node.js", "TimescaleDB"]), false,
      SampleVideoUrl,
      SampleThumbnailUrl,
      "", "", Some(756), Some(180))
  }

  /** The demo catalog has six videos with the distinct ids '1' to '6'. */
  lemma DemoCatalogIds(d: seq<Video>)
    requires d == DemoVideos()
    ensures |d| == 6
    ensures forall i :: 0 <= i < 6 ==> d[i].id.Some? && d[i].dbId.None? && CardKey(d[i]) == d[i].id
    ensures forall i, j :: 0 <= i < j < 6 ==> d[i].id != d[j].id
  {
  }

  /** One demo video per filter category, in the order of the filter buttons. */
  lemma DemoCatalogCategories(d: seq<Video>)
    requires d == DemoVideos()
    ensures forall i :: 0 <= i < 6 ==> d[i].category == FilterValues[i + 1]
  {
  }

  /** Every demo video shows a duration badge and a view count. */
  lemma DemoCatalogBadges(d: seq<Video>)
    requires d == DemoVideos()
    ensures forall i :: 0 <= i < 6 ==> DurationLabel(d[i].duration).Some? && d[i].views.Some?
  {
  }

  /** Every demo video can be played: it has a media URL, one of three sample clips. */
  lemma DemoCatalogPlayable(d: seq<Video>)
    requires d == DemoVideos()
    ensures forall i :: 0 <= i < 6 ==> d[i].videoUrl in {ElephantsVideoUrl, SeaTurtleVideoUrl, SampleVideoUrl}
    ensures ElephantsVideoUrl != "" && SeaTurtleVideoUrl != "" && SampleVideoUrl != ""
  {
  }

  /** Exactly the first two demo videos are featured: they form the featured row, the other four the grid. */
  lemma DemoCatalogFeatured(d: seq<Video>)
    requires d == DemoVideos()
    ensures Featured(d, VideoFeatured) == d[..2]
    ensures Regular(d, VideoFeatured) == d[2..]
  {
    assert forall i :: 0 <= i < 2 ==> d[i].featured;
    assert forall i :: 2 <= i < |d| ==> !d[i].featured;
    KeepPrefix(d, VideoFeatured, true, 2);
    KeepSuffix(d, VideoFeatured, false, 2);
  }

  /** The outcome of `fetch(`${apiUrl}/api/videos`)` and its JSON body. */
  datatype VideosReply = Listed(data: seq<Video>) | NotOk | Threw(message: string)

  /** The card's React key, `video._id || video.id`. */
  function CardKey(v: Video): Option<string>
  {
    FirstTruthyId(v.dbId, v.id)
  }

  /** The view-count request `handleVideoClick` sends: `${apiUrl}/api/videos/${videoId}/view`. */
  function ViewCountUrl(env: string, v: Video): string
  {
    ApiUrl(env) + "/api/videos/" + IdText(CardKey(v)) + "/view"
  }

  /**
   * The request goes to the configured base, names the database id when there is a
   * non-empty one and the plain id otherwise, and prints "undefined" when neither exists.
   */
  lemma ViewCountUrlShape(env: string, v: Video)
    ensures var u, base := ViewCountUrl(env, v), ApiUrl(env) + "/api/videos/";
            && u[..|base|] == base
            && u[|u| - 5..] == "/view"
            && u[|base|..|u| - 5] ==
                 (if v.dbId.Some? && v.dbId.value != "" then v.dbId.value
                  else if v.id.Some? then v.id.value else "undefined")
    ensures env == "" ==> ViewCountUrl(env, v)[..|DefaultApiUrl|] == DefaultApiUrl
  {
  }

  /** The page's state cells. */
  class GalleryPageState {
    var videos: seq<Video>
    var filteredVideos: seq<Video>
    var isLoading: bool
    var selectedCategory: string
    var selectedVideo: Option<Video>
    var isModalOpen: bool
    var error: Option<string>

    /** After every handler and the filter effect it triggers, the filtered list follows the selection. */
    predicate Valid()
      reads this
    {
      filteredVideos == CategoryFilter(videos, VideoCategory, selectedCategory)
    }

    constructor ()
      ensures Valid()
      ensures videos == [] && filteredVideos == [] && isLoading && error.None?
      ensures selectedCategory == "all" && selectedVideo.None? && !isModalOpen
    {
      videos, filteredVideos := [], [];
      isLoading := true;
      selectedCategory := "all";
      selectedVideo, isModalOpen := None, false;
      error := None;
    }

    /**
     * `fetchVideos` followed by the filter effect its new `videos` triggers: the fetched
     * list, or on any failure the error message and the demo catalog.
     */
    method FetchVideos(reply: VideosReply)
      requires Valid()
      modifies this
      ensures Valid() && !isLoading
      ensures reply.Listed? ==> videos == reply.data && error == old(error)
      ensures reply.NotOk? ==> videos == DemoVideos() && error == Some("Failed to fetch videos")
      ensures reply.Threw? ==> videos == DemoVideos() && error == Some(reply.message)
      ensures selectedCategory == old(selectedCategory)
      ensures selectedVideo == old(selectedVideo) && isModalOpen == old(isModalOpen)
    {
      match reply {
        case Listed(data) =>
        videos := data;
        filteredVideos := data;
      case NotOk =>
        error := Some("Failed to fetch videos");
        videos := DemoVideos();
        filteredVideos := DemoVideos();
      case Threw(message) =>
        error := Some(message);
        videos := DemoVideos();
        filteredVideos := DemoVideos();
      }
      filteredVideos := CategoryFilter(videos, VideoCategory, selectedCategory);
      isLoading := false;
    }

    /** A filter button: `setSelectedCategory`, then the filter effect. */
    method SelectCategory(category: string)
      requires Valid()
      modifies this
      ensures Valid() && selectedCategory == category
      ensures videos == old(videos) && isLoading == old(isLoading) && error == old(error)
      ensures selectedVideo == old(selectedVideo) && isModalOpen == old(isModalOpen)
    {
      selectedCategory := category;
      filteredVideos := CategoryFilter(videos, VideoCategory, selectedCategory);
    }

    /**
     * `handleVideoClick`: open the modal on the clicked video and send the view-count
     * request, whose address is returned; its outcome never reaches the page state.
     */
    method HandleVideoClick(env: string, v: Video) returns (viewRequest: string)
      requires Valid()
      modifies this
      ensures Valid() && selectedVideo == Some(v) && isModalOpen
      ensures viewRequest == ViewCountUrl(env, v)
      ensures videos == old(videos) && filteredVideos == old(filteredVideos)
      ensures selectedCategory == old(selectedCategory) && isLoading == old(isLoading) && error == old(error)
    {
      selectedVideo := Some(v);
      isModalOpen := true;
      viewRequest := ViewCountUrl(env, v);
    }

    /** `closeModal`. */
    method CloseModal()
      requires Valid()
      modifies this
      ensures Valid() && !isModalOpen && selectedVideo.None?
      ensures videos == old(videos) && filteredVideos == old(filteredVideos)
      ensures selectedCategory == old(selectedCategory) && isLoading == old(isLoading) && error == old(error)
    {
      isModalOpen := false;
      selectedVideo := None;
    }

    function FeaturedVideos(): seq<Video>
      reads this
    {
      Featured(filteredVideos, VideoFeatured)
    }

    function RegularVideos(): seq<Video>
      reads this
    {
      Regular(filteredVideos, VideoFeatured)
    }

    /** What the modal shows for this state. */
    function ModalShown(): Option<VideoModal.ModalView>
      reads this
    {
      VideoModal.Render(isModalOpen, if selectedVideo.Some? then Some(VideoModal.FromVideo(selectedVideo.value)) else None)
    }
  }

  /** What the page shows for a state: both sub-lists partition the filtered list, which follows the selection. */
  lemma PageListsPartition(page: GalleryPageState)
    requires page.Valid()
    ensures page.selectedCategory == "all" ==> page.filteredVideos == page.videos
    ensures page.selectedCategory != "all" ==>
              forall x :: x in page.filteredVideos <==> x in page.videos && x.category == page.selectedCategory
    ensures |page.FeaturedVideos()| + |page.RegularVideos()| == |page.filteredVideos|
    ensures forall x :: x in page.FeaturedVideos() <==> x in page.filteredVideos && x.featured
    ensures forall x :: x in page.RegularVideos() <==> x in page.filteredVideos && !x.featured
    ensures IsSubsequence(page.FeaturedVideos(), page.filteredVideos)
    ensures IsSubsequence(page.RegularVideos(), page.filteredVideos)
  {
    CategoryFilterExact(page.videos, VideoCategory, page.selectedCategory);
    FeaturedRegularPartition(page.filteredVideos, VideoFeatured);
  }

  /** After a click the modal is open on that video; after closing nothing is rendered. */
  lemma ModalFollowsSelection(page: GalleryPageState)
    ensures page.ModalShown().Some? <==> page.isModalOpen && page.selectedVideo.Some?
    ensures page.ModalShown().Some? ==>
              page.ModalShown().value.videoSrc == page.selectedVideo.value.videoUrl
              && page.ModalShown().value.poster == page.selectedVideo.value.thumbnailUrl
  {
  }
}
