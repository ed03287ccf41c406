# Video catalog client of a portfolio site, in Dafny

This project models the client-side video catalog of a Next.js/React portfolio site. It covers five parts:

- the public **gallery**, which fetches the remote video list, falls back to a built-in demo catalog, filters by category, splits featured from regular videos, and sends a view-count request on each click;
- the **projects page**, which converts the remote videos into project records, drops those whose media URL a portfolio project already uses, puts the rest in front of the portfolio projects, and then filters and splits the merged list the same way;
- the **admin video page**, with its form draft, the edit and upload branches of submit, the simulated upload progress, delete, and the list reload;
- the two shared components, the **video card** and the **video modal**, including the modal's keyboard listener and body scroll lock;
- the **home page** hero, skills grid and project cards.

Each React component's state cells are the fields of a Dafny `class`. Every handler is a `method` whose `modifies this` and `ensures` state the whole new state. Rendering is a pure `function` from state to a view datatype. Network replies, the stored admin token, `window.location.origin` and `process.env.NEXT_PUBLIC_API_URL` are parameters. Every request a handler would send is returned as a value.

Modules, one per unit of the site:

- `Text` (`text.dfy`): JavaScript string operations the pages rely on:
  - `String(n)` with its inverse;
  - `padStart`;
  - one-character `split` and `join`;
  - `startsWith`;
  - ASCII `toLowerCase`;
  - the first-match `replace`.
- `Records` (`records.dfy`): the API video record, the project record, `a || b` on identifiers, and template-literal printing of a missing id.
- `Duration` (`duration.dfy`): `formatDuration`, its inverse, and the "> 0" badge rule.
- `Categories` (`categories.dfy`): the category lists, the `categoryStyles` table, and the computed `category-…` class.
- `Listing` (`listing.dfy`): `filter`, `slice(0, n)`, the category filter, and the featured/regular split.
- `ProjectsPage`, `GalleryPage`, `AdminVideos`, `VideoCard`, `VideoModal`, `HomePage`: one per source file.

Where the code does something its own names and messages do not suggest, the model follows the code:

- A successful upload calls `setUploadProgress(100)` (pages/admin/videos.js:148) and then `resetForm()` (pages/admin/videos.js:153). `resetForm` calls `setUploadProgress(0)` (pages/admin/videos.js:216) in the same batch, so the progress the page shows after success is 0.
- An upload that throws (for example, a network failure) skips `clearInterval`. Nothing else ever clears that interval; it clears only itself, on the callback that finds the progress at 90. Until then it keeps stepping the one shared progress value: after the submit has finished, and also during later submits, which reset the value to 0 and may start an interval of their own beside it. `AdminVideos.AdminVideosPage.HandleSubmit`, `AdminVideos.AdminVideosPage.TickerFires` and `AdminVideos.LeftRunningTickersStop` model this, with a count of the intervals still running.
- Submitting validates only that a new upload has a file. There are no title, MIME-type or size checks.
- The admin page lists videos from the relative `/api/videos`, not from the configured API base. Delete uses the record's `id` field, never `_id`.
- The projects page hands its project record to the modal. That record carries `demo`/`github`, while the modal reads `demoUrl`/`githubUrl`, so a modal opened from the projects page never shows those links (`ProjectsPage.PlayableVideoThumbnail`).

## Model

| member | source | states |
|---|---|---|
| Text.DecimalString | components/VideoCard.js:31 | `${views}` prints at least one digit, with no leading zero unless it is "0", and one digit exactly below 10 |
| Text.DecimalRoundTrip | components/VideoCard.js:31 | reading the printed digits back gives the number |
| Text.DecimalStringInjective | components/VideoCard.js:31 | two different counts never print the same digits |
| Text.PadStart | components/VideoCard.js:19 | `padStart` gives the original string right-aligned in at least `width` characters, filled on the left |
| Text.Split | pages/index.js:79 | `split(' ')` gives at least one part and no part contains the separator |
| Text.JoinSplit | pages/index.js:80 | joining the parts of a split with the same separator gives the string back |
| Text.SplitAtFirst | pages/index.js:79-80 | the first part is everything before the first separator; the rest, re-joined, is everything after it |
| Text.ToLower | components/VideoModal.js:74 | lower-casing keeps the length and lower-cases each character on its own |
| Text.ToLowerIdempotent | components/VideoModal.js:74 | lower-casing twice is lower-casing once |
| Text.RemoveFirstCount | components/VideoModal.js:74 | `replace('-', '')` splices out the first '-', keeping everything before and after it in order, so exactly one '-' goes when there is one; without one nothing changes |
| Text.SplitNoSeparator | pages/index.js:79 | a string without the separator splits into itself alone |
| Text.SplitAfterPart | pages/index.js:79 | a separator right after a part without one ends that part, and splitting goes on behind it |
| Text.SplitCommaJoin | pages/admin/videos.js:169 | a list joined with ', ' splits at ',' into as many pieces, the first as it was and each later one behind a ' ', when no element has a ',' |
| Duration.FormatDurationShape | components/VideoCard.js:15-20 | a non-zero duration formats as decimal minutes, ':', and two-digit seconds whose value is the remainder mod 60; zero gives "" |
| Duration.FormatDurationRoundTrip | pages/projects.js:109-114 | parsing the label gives the seconds back, so no two durations share a label |
| Duration.DurationLabelShown | components/VideoCard.js:72-76 | a duration badge appears exactly for a positive duration and reads back to it |
| Categories.StyleClassTable | components/VideoCard.js:4-12 | the style table knows exactly the seven form categories; any other category gets 'tag'; every class is 'tag' or starts with 'category-' |
| Categories.ComputedClassShape | components/VideoModal.js:74 | the computed class is 'category-' followed by the lower-cased category with its first '-' taken out: the lower-cased parts before and after that '-', in order; the whole lower-cased category when there is none; no upper-case letter |
| Categories.FirstDashPlace | components/VideoModal.js:74 | the first '-' of the lower-cased category sits where the category's own first '-' is |
| Categories.OtherClass | pages/index.js:216 | 'Other' computes to 'category-other' |
| Categories.ComputedClassMatchesStyle | pages/index.js:216 | for the six named categories the computed class equals the table's class; for 'Other' they differ ('category-other' against 'tag') |
| Listing.Keep | pages/gallery.js:62 | `filter` returns no more elements than it got, each with the wanted key |
| Listing.KeepMembers | pages/gallery.js:62 | an element is kept exactly when it is in the input and has the wanted key |
| Listing.KeepIsSubsequence | pages/gallery.js:62 | the filter keeps the input's order |
| Listing.KeepIdempotent | pages/gallery.js:58-64 | re-running the filter effect on its own output changes nothing |
| Listing.KeepWhole | pages/gallery.js:62 | the filter returns its input exactly when every element passes |
| Listing.KeepPartition | pages/gallery.js:89-90 | the two sides of a boolean filter together hold every element exactly once |
| Listing.TakePrefix | pages/index.js:40 | `slice(0, n)` keeps the first `min(n, length)` elements in order |
| Listing.KeepCount | pages/gallery.js:62 | the filter keeps each passing element exactly as often as the input holds it, and no other element |
| Listing.CategoryFilterExact | pages/gallery.js:58-64 | 'all' keeps the list as it is; any other selection keeps exactly the elements of that category, in order, each as often as the list holds it |
| Listing.FeaturedRegularPartition | pages/gallery.js:89-90 | the featured and regular lists are ordered sublists that together hold each filtered element once, split on the flag: the featured list holds each featured element as often as the list does, the regular list each other one |
| ProjectsPage.ToProjects | pages/projects.js:50-67 | one converted record per remote video, in order |
| ProjectsPage.ConvertedVideoFields | pages/projects.js:50-67 | a converted video is flagged as video project with a video, takes `_id` when non-empty and otherwise `id`, defaults missing technologies to [], and maps the thumbnail to both image fields and demo/github from the URL fields |
| ProjectsPage.ProjectVideoUrls | pages/projects.js:71 | the URL list holds exactly the non-empty media URLs of the portfolio projects |
| ProjectsPage.UniqueVideos | pages/projects.js:72 | deduplication never adds videos |
| ProjectsPage.UniqueVideosExact | pages/projects.js:72 | the surviving videos are an ordered sublist, and a video survives exactly when no project with a non-empty media URL shares its URL, as often as it was converted |
| ProjectsPage.MergeCatalogLayout | pages/projects.js:74 | the merged list is the surviving videos, then every portfolio project unchanged; each remote video appears exactly when not covered, as often as it was converted |
| ProjectsPage.ConvertedMember | pages/projects.js:50-67 | every remote video has its converted record in the converted list |
| ProjectsPage.DedupScenario | pages/projects.js:71-74 | a video whose URL a project already uses collapses into that project |
| ProjectsPage.DurationCornerZeroShowsStrayText | pages/projects.js:250 | a zero duration puts a stray "0" in the card corner |
| ProjectsPage.DurationCornerCorrect | pages/projects.js:250-254 | the corrected corner never shows stray text, shows a badge exactly for a positive duration that reads back to it, and agrees with the code on every other input |
| ProjectsPage.CardImageMatchesPoster | pages/projects.js:215 | a card always has an image, which is the modal's poster whenever the project has one; every play button shown opens the modal |
| ProjectsPage.PlayableVideoThumbnail | pages/projects.js:98-106 | the selected video's thumbnail is `videoThumbnailUrl || image`, its media URL is unchanged, and the modal shows no demo or GitHub link for it |
| ProjectsPage.ProjectsPageState.constructor | pages/projects.js:30-35 | the initial state: empty lists, loading, 'all', no modal |
| ProjectsPage.ProjectsPageState.LoadData | pages/projects.js:37-85 | the page stops loading with the merged catalog, or leaves the list as it was when the portfolio fetch throws; the filter follows the selection |
| ProjectsPage.ProjectsPageState.SelectCategory | pages/projects.js:88-96 | the selection changes and the filtered list follows it; nothing else changes |
| ProjectsPage.ProjectsPageState.HandlePlayVideo | pages/projects.js:98-106 | the modal opens on the project exactly when it has a media URL; otherwise nothing changes |
| ProjectsPage.ProjectsPageState.CloseModal | pages/projects.js:483-490 | the modal closes and forgets its video |
| ProjectsPage.PageListsPartition | pages/projects.js:116-117 | the featured and regular projects partition the filtered list, which follows the selected category |
| GalleryPage.DemoCatalogIds | pages/gallery.js:243-323 | the demo catalog has six videos with distinct ids and no database id, each keyed by its id |
| GalleryPage.DemoCatalogCategories | pages/gallery.js:243-323 | the demo videos cover the six filter categories in button order |
| GalleryPage.DemoCatalogBadges | pages/gallery.js:243-323 | every demo video shows a duration badge and a view count |
| GalleryPage.DemoCatalogPlayable | pages/gallery.js:243-323 | every demo video plays one of three sample clips, each with a non-empty URL |
| GalleryPage.DemoCatalogFeatured | pages/gallery.js:89-90 | the first two demo videos form the featured row, the other four the grid |
| GalleryPage.ViewCountUrlShape | pages/gallery.js:73-76 | the view request goes to `<api base>/api/videos/<id>/view`, naming the non-empty `_id`, else `id`, else "undefined" |
| GalleryPage.GalleryPageState.constructor | pages/gallery.js:18-24 | the initial state: empty lists, loading, 'all', no modal, no error |
| GalleryPage.GalleryPageState.FetchVideos | pages/gallery.js:27-55 | the fetched list, or on a non-ok reply or a throw the error message and the demo catalog; loading ends and the filter follows the selection |
| GalleryPage.GalleryPageState.SelectCategory | pages/gallery.js:58-64 | the selection changes and the filtered list follows it; nothing else changes |
| GalleryPage.GalleryPageState.HandleVideoClick | pages/gallery.js:67-82 | the modal opens on the clicked video and the view-count request is returned; the list state is unchanged |
| GalleryPage.GalleryPageState.CloseModal | pages/gallery.js:84-87 | the modal closes and forgets its video |
| GalleryPage.PageListsPartition | pages/gallery.js:89-90 | the featured and regular videos partition the filtered list, which follows the selected category |
| GalleryPage.ModalFollowsSelection | pages/gallery.js:232-236 | the modal is shown exactly when open with a video, and plays that video with its thumbnail as poster |
| AdminVideos.ApplyChangeTouchesOneField | pages/admin/videos.js:59-68 | a change writes only the field it names: the typed value, the checkbox state, or the first chosen file |
| AdminVideos.SetThenRead | pages/admin/videos.js:66 | a text field reads back what was written, and writing a field's own value changes nothing |
| AdminVideos.EditPrefill | pages/admin/videos.js:163-177 | the edit draft carries the video's own fields, no file, and the technologies joined with ', ' ("" for a missing or empty list); the joined text splits back at ',' into one piece per technology, the first as it was and each later one behind a ' ', whenever no technology has a ',' |
| AdminVideos.PayloadOmitsFile | pages/admin/videos.js:88-97 | the update body is the draft without its file |
| AdminVideos.UploadPartsShape | pages/admin/videos.js:111-120 | the upload body is the file followed by one entry per text field and `featured` printed as a boolean, in append order |
| AdminVideos.AuthorizationShape | pages/admin/videos.js:32-37 | the header is "Bearer " plus the stored token, and only a missing or empty token redirects to the login |
| AdminVideos.TickerMonotoneBounded | pages/admin/videos.js:123-131 | the simulated progress never goes down, never exceeds 90, and is always a multiple of ten |
| AdminVideos.TickerClosedForm | pages/admin/videos.js:124-130 | after k callbacks on a fresh value the progress is `min(10k, 90)` |
| AdminVideos.OwnOnlySchedule | pages/admin/videos.js:123-131 | with no interval left over from earlier uploads, the progress after k callbacks of the upload's own interval is `min(10k, 90)`, and that interval has cleared itself exactly when k is at least 10 |
| AdminVideos.ScheduleKeepsTrack | pages/admin/videos.js:123-131 | any mix of callbacks of the own and leftover intervals keeps the shared value a multiple of ten up to 90 and never lowers it; intervals only ever stop, none starts |
| AdminVideos.RunTickers | pages/admin/videos.js:123-133 | the interval callbacks that run while a request is pending, in the given order, give the state that `RunSchedule` gives |
| AdminVideos.LeftRunningTickersStop | pages/admin/videos.js:125-127 | intervals left running by thrown uploads all stop by themselves: within `(90 - p) / 10` callbacks plus one per interval, with the progress at 90 |
| AdminVideos.NoLeftoverStays | pages/admin/videos.js:125-127 | once no leftover interval runs, nothing steps the progress any more |
| AdminVideos.AdminVideosPage.constructor | pages/admin/videos.js:10-29 | the initial state: loading, no messages, the form hidden with the default draft |
| AdminVideos.AdminVideosPage.FetchVideos | pages/admin/videos.js:44-57 | an ok reply replaces the list; a non-ok reply changes nothing; a throw records 'Failed to load videos'; loading ends |
| AdminVideos.AdminVideosPage.HandleChange | pages/admin/videos.js:59-68 | the draft takes the change and nothing else changes |
| AdminVideos.AdminVideosPage.HandleEdit | pages/admin/videos.js:163-177 | the form opens on the video, prefilled |
| AdminVideos.AdminVideosPage.ResetForm | pages/admin/videos.js:202-217 | the default draft, the form hidden, no edit, progress 0 |
| AdminVideos.AdminVideosPage.ToggleForm | pages/admin/videos.js:233-240 | 'Cancel' resets the form; '+ Upload Video' only shows it |
| AdminVideos.AdminVideosPage.TickerFires | pages/admin/videos.js:124-130 | a callback of a leftover interval between submits: it advances the progress by one step, or finding 90 keeps 90 and clears that one interval; with none running nothing changes |
| AdminVideos.AdminVideosPage.HandleSubmit | pages/admin/videos.js:70-161 | the request sent; for each outcome, the messages, the progress after the callbacks that ran while the request was pending (leftover intervals included), the form state, whether the list is reloaded, and how many intervals are left running |
| AdminVideos.AdminVideosPage.SubmitUpdate | pages/admin/videos.js:80-104 | the PUT request to the edited video's address carries the draft's eight non-file fields; leftover intervals go on stepping the progress meanwhile; success resets the form and reloads, any failure keeps the form, the stepped progress, and shows the update error |
| AdminVideos.AdminVideosPage.SubmitUpload | pages/admin/videos.js:106-150 | the POST of the multipart upload with its own interval and the leftover ones stepping the progress; success ends at progress 0 after the reset; a failed reply clears the own interval and keeps the progress where it was; a throw adds the own interval to the leftover ones unless it already cleared itself |
| AdminVideos.AdminVideosPage.HandleDelete | pages/admin/videos.js:179-200 | nothing without confirmation; otherwise the DELETE request, then the success message and a reload or the error |
| VideoCard.FormatViewsTiers | components/VideoCard.js:23-32 | the tier follows the count (millions, thousands, plain), a missing count reads as 0, and a plain label reads back to its count |
| VideoCard.TagTruncation | components/VideoCard.js:108-117 | the card shows the first `min(n, 6 or 4)` tags, and a `+k` badge exactly when k more are hidden |
| VideoCard.RenderCardRules | components/VideoCard.js:56-104 | the placeholder exactly on error or no thumbnail; a duration badge exactly for a positive duration; an unknown category styled 'tag'; a featured card shows the business description when it is not empty and the description otherwise, every other card the description |
| VideoCard.CardState.constructor | components/VideoCard.js:35-36 | neither hovered nor failed |
| VideoCard.CardState.MouseEnter | components/VideoCard.js:49 | hovered; the image flag is kept |
| VideoCard.CardState.MouseLeave | components/VideoCard.js:50 | not hovered; the image flag is kept |
| VideoCard.CardState.ImageLoadFailed | components/VideoCard.js:59 | failed; the hover flag is kept |
| VideoCard.FailedImageStaysPlaceholder | components/VideoCard.js:56 | once the image has failed, the card shows the placeholder whatever the pointer does |
| VideoModal.RenderSections | components/VideoModal.js:31-143 | the modal renders only when open with a video; the business description only when non-empty and different; technologies only when some; the duration only when positive |
| VideoModal.ClickCloses | components/VideoModal.js:36-44 | a click closes the modal exactly once on the backdrop or the close button, and never inside the content panel |
| VideoModal.EscapeClosesOnlyWhileOpen | components/VideoModal.js:13-29 | while open, Escape closes the modal exactly once and other keys never; once closed or unmounted, no key reaches its listeners |
| VideoModal.Document.constructor | components/VideoModal.js:21-22 | the document with the given listeners and overflow |
| VideoModal.Document.AddKeyListener | components/VideoModal.js:21 | adds the listener and keeps the overflow |
| VideoModal.Document.RemoveKeyListener | components/VideoModal.js:26 | removes the listener and keeps the overflow |
| VideoModal.Document.SetBodyOverflow | components/VideoModal.js:22 | sets the overflow and keeps the listeners |
| VideoModal.RunEffect | components/VideoModal.js:19-23 | while open, the listener is installed and scrolling locked; closed, nothing changes |
| VideoModal.RunCleanup | components/VideoModal.js:25-28 | the listener is removed and scrolling unlocked |
| VideoModal.CommitEffect | components/VideoModal.js:19-29 | a dependency change runs the previous cleanup, then the effect |
| VideoModal.Lifecycle | components/VideoModal.js:19-29 | over any sequence of dependency changes, the document holds the original listeners plus only the current handler while open; overflow is 'hidden' while open and 'unset' once closed after a change; unmounting restores the original listeners with overflow 'unset' |
| HomePage.FirstNamePart | pages/index.js:79 | the first name is everything before the first space, 'John' when that is empty, and holds no space |
| HomePage.LastNamePart | pages/index.js:80 | the last name is everything after the first space, later spaces included, 'Doe' when that is empty |
| HomePage.NameRoundTrip | pages/index.js:79-80 | a name with an inner space is its first and last name joined by a space; a name without one is all first name |
| HomePage.ImageSources | pages/index.js:68 | http addresses are kept, others are put under the origin, the defaults fill the gaps, and resolving twice against an http origin changes nothing |
| HomePage.SkillsFallback | pages/index.js:155-164 | the grid is never empty: the feed's skills when any, otherwise the twelve defaults |
| HomePage.ShownProjectsFirstThree | pages/index.js:40 | the page shows the first three projects, in order |
| HomePage.HomeCardRules | pages/index.js:215-230 | a category badge exactly for a category, with the computed class, which agrees with the table except for 'Other'; at most four tags, in order |
| HomePage.HomeWithoutData | pages/index.js:38-40 | with no data the hero reads 'John Doe' with the default title, bio and picture, all fallback skills, and three skeleton cards |
| HomePage.HomeCards | pages/index.js:189 | one card per shown project, in order, at most three; skeleton cards only when there is none |

## Left out

- Network, storage and navigation are parameters or left out: `fetch`, `localStorage.getItem`, `router.push`, `confirm`, `console.error`, and `fetchPortfolioData`. The last is not part of this model; its result is an input.
- The transient render between state updates and their filter effects is not modelled. Each handler is followed at once by the effect it triggers, which is how React batches them.
- The timing of the progress intervals (500 ms) is not modelled. The interleaving of their callbacks while a request is pending is a parameter, `schedule`. Between submits each leftover callback is one `TickerFires` call.
- After a non-ok upload reply, leftover callbacks can still run during `await response.json()` (pages/admin/videos.js:144). They touch only the progress and the interval count, so they act as `TickerFires` calls after the submit.
- Concurrency between overlapping submits, and list reloads racing each other, are not modelled: each handler completes before the next one starts.
- Counts, durations and progress values are unbounded integers. JavaScript numbers are doubles: `String(n)` switches to exponent notation from 1e21, and integers above 2^53 lose precision. The model covers the values below those bounds.
- VideoCard.FormatViewsTiers: the "1.2K" and "3.4M" texts come from floating-point `toFixed(1)`. The model keeps only the tier and the count, not the decimal text.
- Text.ToLower: lowercases only A–Z. JavaScript's full Unicode case mapping is not modelled.
- `StyleClass` looks the category up as a plain key. Keys inherited from `Object.prototype` (for example 'constructor') are not modelled.
- The modal's "Added <date>" line is left out: it depends on `createdAt` and locale date formatting.
- AdminVideos.ApplyChange: a text input whose name is no draft field leaves the draft unchanged. In the code it would add a new key that nothing reads. A text input named `featured` is not modelled, since the form has none.
- The JSON shape of replies is not checked. A reply body is already a list of video records, or a parsed error object.
- When a thrown value is not an `Error`, its `err.message` is modelled as an arbitrary string.
- The projects page's `Promise.all`: the video half never fails, because its errors already turn into `[]`. Only the portfolio half can throw.
- The contact and login pages, the layouts, `next.config.js` and `utils/api.js` are not part of this model.
- The onError fallback images (inline SVG data URLs) are not modelled. Only the video card's placeholder switch is.
- The card's link clicks calling `stopPropagation` are not modelled. Neither are the animation delays and CSS class strings other than the category classes.
- The `<Head>` title and meta texts are left out.

## Findings

| source | as written | input that shows it | evidently intended | confidence | as-written member | corrected member |
|---|---|---|---|---|---|---|
| pages/projects.js:250 | `{project.duration && (…badge…)}` makes React print the number 0 as text when the duration is 0 | a video project with `duration: 0` shows a stray "0" over its thumbnail; the regular grid repeats the pattern at line 387 | no badge for a zero duration, as the video card's `video.duration > 0` test does | not executed | ProjectsPage.DurationCornerZeroShowsStrayText | ProjectsPage.DurationCornerCorrect |
