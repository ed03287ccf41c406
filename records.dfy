/**
 * The records the pages pass around. JavaScript objects with optional keys become
 * datatypes: an optional text field is a `string` in which "" stands for both a missing
 * key and an empty value (every use in the pages tests it for truthiness with `||` or
 * `&&`, where the two behave alike); identifiers, view counts and durations, where a
 * missing key behaves differently from a present one, are `Option`s.
 */
module Records {

  datatype Option<T> = None | Some(value: T) {
    function GetOr(default: T): T {
      match this
      case Some(v) => v
      case None => default
    }
  }

  /** The API base URL every page uses when `NEXT_PUBLIC_API_URL` is not set. */
  const DefaultApiUrl: string := "https://portfolio22-api.osamashaer66.workers.dev"

  /** `process.env.NEXT_PUBLIC_API_URL || DefaultApiUrl`; "" stands for an unset variable. */
  function ApiUrl(env: string): string
  {
    if env != "" then env else DefaultApiUrl
  }

  /** A video record as the remote `/api/videos` endpoint returns it. */
  datatype Video = Video(
    dbId: Option<string>,              // `_id`
    id: Option<string>,
    title: string,
    description: string,
    businessDescription: string,
    category: string,
    technologies: Option<seq<string>>,
    featured: bool,
    videoUrl: string,
    thumbnailUrl: string,
    demoUrl: string,
    githubUrl: string,
    views: Option<nat>,
    duration: Option<nat>)

  /**
   * A project-shaped record: what the portfolio feed lists, and what the projects page
   * converts every video into. A missing `technologies` list is the empty list (every
   * use goes through `?.`).
   */
  datatype Project = Project(
    id: Option<string>,
    title: string,
    description: string,
    businessDescription: string,
    technologies: seq<string>,
    category: string,
    featured: bool,
    hasVideo: bool,
    videoUrl: string,
    videoThumbnailUrl: string,
    image: string,
    demo: string,
    github: string,
    views: Option<nat>,
    duration: Option<nat>,
    isVideoProject: bool)

  /** `a || b` on two optional identifiers: the first one unless it is missing or empty. */
  function FirstTruthyId(a: Option<string>, b: Option<string>): Option<string>
  {
    if a.Some? && a.value != "" then a else b
  }

  /** What a template literal prints for an optional identifier: a missing one prints "undefined". */
  function IdText(id: Option<string>): string
  {
    match id
    case Some(s) => s
    case None => "undefined"
  }

  function VideoCategory(v: Video): string { v.category }
  function VideoFeatured(v: Video): bool { v.featured }
  function ProjectCategory(p: Project): string { p.category }
  function ProjectFeatured(p: Project): bool { p.featured }
}
