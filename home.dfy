/**
 * The home page (pages/index.js): once the portfolio feed has loaded, the hero shows
 * the profile's name split into a first name and the rest, its picture, title and bio;
 * the skills grid falls back to a fixed list; and at most three project cards follow.
 * `origin` is `window.location.origin`, or "" where there is no window.
 */
module HomePage {
  import opened Records
  import opened Text
  import opened Categories
  import opened Listing

  /** `profile?.name?.split(' ')[0] || 'John'`; a missing name is "". */
  function FirstName(name: string): string
  {
    var first := Split(name, ' ')[0];
    if first != "" then first else "John"
  }

  /** `profile?.name?.split(' ').slice(1).join(' ') || 'Doe'`. */
  function LastName(name: string): string
  {
    var rest := Join(Split(name, ' ')[1..], " ");
    if rest != "" then rest else "Doe"
  }

  /** The first name is everything before the first space, and holds no space; an empty one becomes 'John'. */
  lemma FirstNamePart(name: string)
    ensures var i := IndexOf(name, ' ');
            && FirstName(name) == (if i > 0 then name[..i] else "John")
            && ' ' !in FirstName(name)
  {
    SplitAtFirst(name, ' ');
    assert ' ' !in Split(name, ' ')[0];
    assert ' ' !in "John";
  }

  /** The last name is everything after the first space, later spaces included; an empty one becomes 'Doe'. */
  lemma LastNamePart(name: string)
    ensures var i := IndexOf(name, ' ');
            LastName(name) == (if i + 1 < |name| then name[i + 1..] else "Doe")
  {
    SplitAtFirst(name, ' ');
  }

  /**
   * A name with a space that neither starts nor ends it is its two parts joined by that
   * space; a name without a space is all first name.
   */
  lemma NameRoundTrip(name: string)
    ensures var i := IndexOf(name, ' ');
            && (0 < i && i + 1 < |name| ==> FirstName(name) + " " + LastName(name) == name)
            && (i == |name| && name != "" ==> FirstName(name) == name && LastName(name) == "Doe")
  {
    var i := IndexOf(name, ' ');
    FirstNamePart(name);
    LastNamePart(name);
    if 0 < i && i + 1 < |name| {
      assert FirstName(name) == name[..i] && LastName(name) == name[i + 1..];
      SplitAround(name, i);
    } else if i == |name| && name != "" {
      assert name[..i] == name;
    }
  }

  lemma SplitAround(s: string, i: nat)
    requires i < |s| && s[i] == ' '
    ensures s[..i] + " " + s[i + 1..] == s
  {
    assert s == s[..i] + [s[i]] + s[i + 1..];
  }

  /** `project.image?.startsWith('http') ? image : origin + (image || '/project-default.jpg')`. */
  function ProjectImageSrc(origin: string, image: string): string
  {
    if StartsWith(image, "http") then image
    else origin + (if image != "" then image else "/project-default.jpg")
  }

  /** `profileImage ? (profileImage.startsWith('http') ? profileImage : origin + profileImage) : '/profile.jpg'`. */
  function ProfileImageSrc(origin: string, image: string): string
  {
    if image == "" then "/profile.jpg"
    else if StartsWith(image, "http") then image
    else origin + image
  }

  /**
   * Absolute addresses are kept and every other one is put under the origin; resolving
   * an already resolved address against an http origin changes nothing. The profile
   * default is the one address left relative.
   */
  lemma ImageSources(origin: string, image: string)
    ensures StartsWith(image, "http") ==> ProjectImageSrc(origin, image) == image && ProfileImageSrc(origin, image) == image
    ensures !StartsWith(image, "http") ==>
              ProjectImageSrc(origin, image) == origin + (if image == "" then "/project-default.jpg" else image)
    ensures !StartsWith(image, "http") && image != "" ==> ProfileImageSrc(origin, image) == origin + image
    ensures image == "" ==> ProfileImageSrc(origin, image) == "/profile.jpg"
    ensures StartsWith(origin, "http") ==>
              && ProjectImageSrc(origin, ProjectImageSrc(origin, image)) == ProjectImageSrc(origin, image)
              && (image != "" ==> ProfileImageSrc(origin, ProfileImageSrc(origin, image)) == ProfileImageSrc(origin, image))
  {
    if StartsWith(origin, "http") && !StartsWith(image, "http") {
      var p := origin + (if image != "" then image else "/project-default.jpg");
      assert p[..4] == origin[..4];
      if image != "" {
        assert (origin + image)[..4] == origin[..4];
      }
    }
  }

  /** The skills shown when the feed lists none. */
  const FallbackSkills: seq<string> :=
    ["React", "Node.js", "TypeScript", "PostgreSQL", "MongoDB", "Docker", "AWS", "Next.js", "GraphQL", "Redis", "Tailwind", "Python"]

  /** `skills.length > 0 ? skills : [fallback]`, with `skills = portfolioData?.skills || []`. */
  function ShownSkills(skills: Option<seq<string>>): seq<string>
  {
    if skills.Some? && |skills.value| > 0 then skills.value else FallbackSkills
  }

  lemma SkillsFallback(skills: Option<seq<string>>)
    ensures |ShownSkills(skills)| > 0
    ensures skills.Some? && skills.value != [] ==> ShownSkills(skills) == skills.value
    ensures skills.None? || skills.value == [] ==> |ShownSkills(skills)| == 12 && ShownSkills(skills)[0] == "React"
  {
  }

  /** `portfolioData?.projects?.slice(0, 3) || []`. */
  function ShownProjects(projects: Option<seq<Project>>): seq<Project>
  {
    if projects.Some? then Take(projects.value, 3) else []
  }

  lemma ShownProjectsFirstThree(projects: Option<seq<Project>>)
    ensures var all, shown := projects.GetOr([]), ShownProjects(projects);
            && |shown| == (if |all| <= 3 then |all| else 3)
            && shown == all[..|shown|]
  {
    if projects.Some? {
      TakePrefix(projects.value, 3);
    }
  }

  /** One project card of the home page. */
  datatype HomeCard = HomeCard(
    image: string,
    videoOverlay: bool,
    categoryClass: Option<string>,
    title: string,
    description: string,
    tags: seq<string>,
    githubLink: Option<string>,
    demoLink: Option<string>)

  function RenderHomeCard(origin: string, p: Project): HomeCard
  {
    HomeCard(
      ProjectImageSrc(origin, p.image),
      p.hasVideo,
      if p.category != "" then Some(ComputedClass(p.category)) else None,
      p.title,
      p.description,
      Take(p.technologies, 4),
      if p.github != "" then Some(p.github) else None,
      if p.demo != "" then Some(p.demo) else None)
  }

  /**
   * A home card's category class is the computed 'category-' class, which agrees with
   * the style table for every named category but 'Other'; at most four tags are shown.
   */
  lemma HomeCardRules(origin: string, p: Project)
    ensures var c := RenderHomeCard(origin, p);
            && (c.categoryClass.Some? <==> p.category != "")
            && (c.categoryClass.Some? ==> StartsWith(c.categoryClass.value, "category-"))
            && (p.category in FormCategories && p.category != "Other" ==>
                  c.categoryClass == Some(StyleClass(p.category)))
            && |c.tags| == (if |p.technologies| <= 4 then |p.technologies| else 4)
            && c.tags == p.technologies[..|c.tags|]
  {
    if p.category != "" {
      ComputedClassShape(p.category);
    }
    if p.category in FormCategories {
      ComputedClassMatchesStyle(p.category);
    }
    TakePrefix(p.technologies, 4);
  }

  /** The parts of the profile the hero reads; a missing text is "". */
  datatype Profile = Profile(name: string, title: string, bio: string, profileImage: string)

  /** What `fetchPortfolioData` resolves to, as far as this page reads it. */
  datatype Portfolio = Portfolio(profile: Option<Profile>, skills: Option<seq<string>>, projects: Option<seq<Project>>)

  const DefaultTitle: string := "Full-Stack Developer & UI/UX Designer"
  const DefaultBio: string :=
    "Passionate about creating beautiful, functional, and user-centered digital experiences. I specialize in modern web technologies and love turning complex problems into simple, elegant solutions."

  /** The hero and the two grids; with no project to show, three pulsing skeleton cards stand in. */
  datatype HomeView = HomeView(
    firstName: string,
    lastName: string,
    heroTitle: string,
    heroBio: string,
    profileImage: string,
    skills: seq<string>,
    cards: seq<HomeCard>,
    skeletons: nat)

  /** The page after loading; `data` is None when the feed failed or resolved to nothing. */
  function RenderHome(origin: string, data: Option<Portfolio>): HomeView
  {
    var profile := if data.Some? && data.value.profile.Some? then data.value.profile.value else Profile("", "", "", "");
    var shown := ShownProjects(if data.Some? then data.value.projects else None);
    HomeView(
      FirstName(profile.name),
      LastName(profile.name),
      if profile.title != "" then profile.title else DefaultTitle,
      if profile.bio != "" then profile.bio else DefaultBio,
      ProfileImageSrc(origin, profile.profileImage),
      ShownSkills(if data.Some? then data.value.skills else None),
      seq(|shown|, i requires 0 <= i < |shown| => RenderHomeCard(origin, shown[i])),
      if |shown| > 0 then 0 else 3)
  }

  /** Without data the page still shows a complete hero: 'John Doe', the default picture, all fallback skills, and three skeleton cards. */
  lemma HomeWithoutData(origin: string)
    ensures var v := RenderHome(origin, None);
            && v.firstName == "John" && v.lastName == "Doe"
            && v.heroTitle == DefaultTitle && v.heroBio == DefaultBio
            && v.profileImage == "/profile.jpg" && v.skills == FallbackSkills && v.cards == [] && v.skeletons == 3
  {
    assert Split("", ' ') == [""];
  }

  /** With data, one card per shown project, in order, at most three; skeletons only when there is none. */
  lemma HomeCards(origin: string, data: Portfolio)
    ensures var v, shown := RenderHome(origin, Some(data)), ShownProjects(data.projects);
            && |v.cards| == |shown| <= 3
            && (v.skeletons > 0 <==> v.cards == []) && v.skeletons <= 3
            && forall i :: 0 <= i < |shown| ==> v.cards[i] == RenderHomeCard(origin, data.projects.value[i])
  {
    ShownProjectsFirstThree(data.projects);
  }
}
