/**
  The four constellations shown on the page, each with its links and, for
  the two that open a modal, the list the modal shows instead; and the
  modal's choice of list, `modalLinks ?? links`.
*/
module ConstellationData {

  import opened Wrappers
  import ConstellationLines

  datatype IconName =
    | Twitter | Instagram | LinkedIn | GitHub | YouTube | TikTok
    | Code | Laptop | Book | Bulb | Briefcase | LinkIcon

  datatype Position = TopLeft | TopRight | BottomLeft | BottomRight

  /** A link; `caption` is the displayed label, and `openModal` is false where the table leaves it out. */
  datatype ConstellationLink = ConstellationLink(id: string, caption: string, icon: IconName, url: string, openModal: bool)

  datatype Constellation = Constellation(
    id: string,
    caption: string,
    position: Position,
    links: seq<ConstellationLink>,
    modalLinks: Option<seq<ConstellationLink>>)

  function Plain(id: string, caption: string, icon: IconName, url: string): ConstellationLink {
    ConstellationLink(id, caption, icon, url, false)
  }

  const Constellations: seq<Constellation> := [
    Constellation("social", "Social Constellation", TopLeft,
      [ Plain("twitter", "Twitter / X", Twitter, "https://twitter.com/YOUR_HANDLE"),
        Plain("instagram", "Instagram", Instagram, "https://instagram.com/YOUR_HANDLE"),
        Plain("linkedin", "LinkedIn", LinkedIn, "https://linkedin.com/in/YOUR_HANDLE") ],
      None),
    Constellation("portfolio", "Portfolio Constellation", TopRight,
      [ Plain("github", "GitHub", GitHub, "https://github.com/YOUR_HANDLE"),
        Plain("portfolio", "My Portfolio", Briefcase, "https://yourportfolio.com") ],
      None),
    Constellation("projects", "Projects Constellation", BottomLeft,
      [ ConstellationLink("code", "View Projects", Code, "#", true),
        Plain("laptop", "Live Demos", Laptop, "https://yoursite.com/demos") ],
      Some([ Plain("proj1", "Project One", LinkIcon, "https://project1.com"),
             Plain("proj2", "Project Two", LinkIcon, "https://project2.com"),
             Plain("proj3", "Project Three", LinkIcon, "https://project3.com") ])),
    Constellation("knowledge", "Knowledge Constellation", BottomRight,
      [ ConstellationLink("blog", "Blog", Book, "#", true),
        Plain("tips", "Tips", Bulb, "https://yourblog.com") ],
      Some([ Plain("article1", "Article One", LinkIcon, "https://article1.com"),
             Plain("article2", "Article Two", LinkIcon, "https://article2.com") ]))
  ]

  /** The list the modal shows: the modal links when present, the constellation's own links otherwise. */
  function LinksToShow(c: Constellation): (shown: seq<ConstellationLink>)
    ensures c.modalLinks.Some? ==> shown == c.modalLinks.value
    ensures c.modalLinks.None? ==> shown == c.links
  {
    match c.modalLinks
    case Some(modal) => modal
    case None => c.links
  }

  predicate DistinctLinkIds(links: seq<ConstellationLink>) {
    forall i, j :: 0 <= i < j < |links| ==> links[i].id != links[j].id
  }

  predicate HasModalLink(c: Constellation) {
    exists k :: 0 <= k < |c.links| && c.links[k].openModal
  }

  /** What every constellation of the table satisfies. */
  predicate Consistent(c: Constellation) {
    && c.id in ConstellationLines.Patterns
    && DistinctLinkIds(c.links)
    && (c.modalLinks.Some? ==> DistinctLinkIds(c.modalLinks.value))
    && (HasModalLink(c) ==> c.modalLinks.Some? && |c.modalLinks.value| > 0)
    && |LinksToShow(c)| > 0
  }

  lemma SocialConsistent() ensures Consistent(Constellations[0]) { }
  lemma PortfolioConsistent() ensures Consistent(Constellations[1]) { }
  lemma ProjectsConsistent() ensures Consistent(Constellations[2]) { }
  lemma KnowledgeConsistent() ensures Consistent(Constellations[3]) { }

  /**
    Every constellation has a star pattern (so its lines always render), its
    link ids and modal link ids are distinct, a constellation with a modal
    link has a non-empty modal list, and the modal never shows an empty list.
  */
  lemma ConstellationsConsistent()
    ensures forall i :: 0 <= i < |Constellations| ==> Consistent(Constellations[i])
  {
    SocialConsistent();
    PortfolioConsistent();
    ProjectsConsistent();
    KnowledgeConsistent();
  }

  /** Constellation ids are pairwise distinct. */
  lemma ConstellationIdsDistinct()
    ensures forall i, j :: 0 <= i < j < |Constellations| ==> Constellations[i].id != Constellations[j].id
  {
  }

  /** Every constellation's decoration renders: the pattern lookup never comes back empty. */
  lemma EveryConstellationRenders(width: real, height: real)
    ensures forall i :: 0 <= i < |Constellations| ==> ConstellationLines.Render(Constellations[i].id, width, height).Some?
  {
    ConstellationsConsistent();
  }

}
