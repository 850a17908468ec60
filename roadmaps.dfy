/**
 * The roadmap catalog (one fixed, ordered curriculum of six skills per
 * career domain) and the initializer that turns a catalog entry plus the
 * skills a user says they already have into that user's starting roadmap.
 */
module Roadmaps {
  import opened Text

  /** A skill's progress status. */
  datatype Status = Completed | Current | Locked

  /** One step of a curriculum; `order` is its 1-based position. */
  datatype RoadmapSkill = RoadmapSkill(
    id: string,
    name: string,
    description: string,
    duration: string,
    status: Status,
    order: int)

  datatype DomainRoadmap = DomainRoadmap(domain: string, domainLabel: string, skills: seq<RoadmapSkill>)

  const TechRoadmap: DomainRoadmap := DomainRoadmap("tech", "Web Development", [
    RoadmapSkill("html", "HTML", "Structure of web pages", "7-10 days", Locked, 1),
    RoadmapSkill("css", "CSS", "Styling & layout of websites", "10-14 days", Locked, 2),
    RoadmapSkill("javascript", "JavaScript", "Logic & interactivity", "15-20 days", Locked, 3),
    RoadmapSkill("frameworks", "Frameworks", "Building scalable UI (React)", "15-18 days", Locked, 4),
    RoadmapSkill("backend", "Backend Basics", "Server & data handling", "12-15 days", Locked, 5),
    RoadmapSkill("projects", "Projects", "Real-world applications", "10-14 days", Locked, 6)
  ])

  const DataRoadmap: DomainRoadmap := DomainRoadmap("data", "Data Analytics", [
    RoadmapSkill("excel", "Excel", "Basics of data handling", "7-10 days", Locked, 1),
    RoadmapSkill("sql", "SQL", "Database querying", "10-14 days", Locked, 2),
    RoadmapSkill("python", "Python", "Data analysis programming", "15-18 days", Locked, 3),
    RoadmapSkill("visualization", "Data Visualization", "Visual storytelling", "7-10 days", Locked, 4),
    RoadmapSkill("statistics", "Statistics", "Data interpretation", "7-10 days", Locked, 5),
    RoadmapSkill("projects", "Projects", "Dashboards & insights", "10-12 days", Locked, 6)
  ])

  const DesignRoadmap: DomainRoadmap := DomainRoadmap("design", "UI/UX Design", [
    RoadmapSkill("basics", "Design Basics", "Color, typography, spacing", "5-7 days", Locked, 1),
    RoadmapSkill("ux", "UX Principles", "User research & usability", "7-10 days", Locked, 2),
    RoadmapSkill("ui", "UI Design", "Visual interface design", "7-10 days", Locked, 3),
    RoadmapSkill("figma", "Figma", "Design tool mastery", "5-7 days", Locked, 4),
    RoadmapSkill("prototyping", "Prototyping", "Interactive designs", "5-7 days", Locked, 5),
    RoadmapSkill("portfolio", "Portfolio", "Case studies", "7-10 days", Locked, 6)
  ])

  const BusinessRoadmap: DomainRoadmap := DomainRoadmap("business", "Business Analytics", [
    RoadmapSkill("excel", "Excel", "Advanced spreadsheets", "7-10 days", Locked, 1),
    RoadmapSkill("analytics", "Business Analytics", "Data-driven decisions", "10-14 days", Locked, 2),
    RoadmapSkill("sql", "SQL Basics", "Query business data", "10-12 days", Locked, 3),
    RoadmapSkill("visualization", "Dashboards", "Power BI / Tableau", "7-10 days", Locked, 4),
    RoadmapSkill("communication", "Presentation", "Stakeholder communication", "5-7 days", Locked, 5),
    RoadmapSkill("projects", "Case Studies", "Real business problems", "10-14 days", Locked, 6)
  ])

  const MarketingRoadmap: DomainRoadmap := DomainRoadmap("marketing", "Digital Marketing", [
    RoadmapSkill("fundamentals", "Marketing Basics", "Core marketing concepts", "5-7 days", Locked, 1),
    RoadmapSkill("seo", "SEO", "Search engine optimization", "10-14 days", Locked, 2),
    RoadmapSkill("content", "Content Marketing", "Creating valuable content", "7-10 days", Locked, 3),
    RoadmapSkill("social", "Social Media", "Platform strategies", "7-10 days", Locked, 4),
    RoadmapSkill("analytics", "Analytics", "Google Analytics mastery", "5-7 days", Locked, 5),
    RoadmapSkill("campaigns", "Campaigns", "Run real campaigns", "10-14 days", Locked, 6)
  ])

  const FinanceRoadmap: DomainRoadmap := DomainRoadmap("finance", "Finance & Analytics", [
    RoadmapSkill("excel", "Financial Excel", "Advanced formulas & modeling", "10-14 days", Locked, 1),
    RoadmapSkill("accounting", "Accounting Basics", "Financial statements", "10-12 days", Locked, 2),
    RoadmapSkill("modeling", "Financial Modeling", "Building financial models", "12-15 days", Locked, 3),
    RoadmapSkill("valuation", "Valuation", "Company valuation methods", "10-12 days", Locked, 4),
    RoadmapSkill("python", "Python for Finance", "Quantitative analysis", "12-15 days", Locked, 5),
    RoadmapSkill("projects", "Case Studies", "Real financial analysis", "10-14 days", Locked, 6)
  ])

  /** The fixed table of curricula, keyed by domain id. */
  const Catalog: map<string, DomainRoadmap> := map[
    "tech" := TechRoadmap,
    "data" := DataRoadmap,
    "design" := DesignRoadmap,
    "business" := BusinessRoadmap,
    "marketing" := MarketingRoadmap,
    "finance" := FinanceRoadmap
  ]

  /** The domain used when a key is not in the catalog. */
  const DefaultDomain: string := "tech"

  /** `domainRoadmaps[domain] || domainRoadmaps.tech`. */
  function ResolveRoadmap(domain: string): DomainRoadmap
  {
    if domain in Catalog then Catalog[domain] else Catalog[DefaultDomain]
  }

  /**
   * The initializer's matching rule: after lower-casing, either string
   * includes the other.
   */
  predicate Matches(prior: string, skillName: string)
  {
    Contains(Lower(prior), Lower(skillName)) || Contains(Lower(skillName), Lower(prior))
  }

  /** `existingSkills.some(s => Matches(s, skillName))`. */
  predicate HasSkill(existing: seq<string>, skillName: string)
  {
    exists s :: s in existing && Matches(s, skillName)
  }

  /**
   * `skills.findIndex(s => !HasSkill(existing, s.name))`: the lowest index of
   * a skill no prior skill matches, or -1 when every skill is matched.
   */
  function FirstIncomplete(skills: seq<RoadmapSkill>, existing: seq<string>): (k: int)
    ensures -1 <= k < |skills|
    ensures k == -1 <==> forall j :: 0 <= j < |skills| ==> HasSkill(existing, skills[j].name)
    ensures k >= 0 ==> !HasSkill(existing, skills[k].name)
    ensures k >= 0 ==> forall j :: 0 <= j < k ==> HasSkill(existing, skills[j].name)
  {
    if skills == [] then -1
    else if !HasSkill(existing, skills[0].name) then 0
    else
      var k := FirstIncomplete(skills[1..], existing);
      if k == -1 then -1 else k + 1
  }

  /** The status the initializer gives the skill at `index`. */
  function StatusAt(skills: seq<RoadmapSkill>, existing: seq<string>, index: int): Status
    requires 0 <= index < |skills|
  {
    if |existing| == 0 then
      if index == 0 then Current else Locked
    else if HasSkill(existing, skills[index].name) then
      Completed
    else if index == FirstIncomplete(skills, existing) then
      Current
    else
      Locked
  }

  /**
   * The `map` in `initializeRoadmap`: every skill is copied with only its
   * status replaced.
   */
  function AssignStatuses(skills: seq<RoadmapSkill>, existing: seq<string>): (r: seq<RoadmapSkill>)
    ensures |r| == |skills|
    ensures forall i :: 0 <= i < |r| ==> r[i].(status := skills[i].status) == skills[i]
  {
    seq(|skills|, i requires 0 <= i < |skills| => skills[i].(status := StatusAt(skills, existing, i)))
  }

  /** `initializeRoadmap(domain, existingSkills)`. */
  function InitializeRoadmap(domain: string, existing: seq<string>): (r: seq<RoadmapSkill>)
  {
    AssignStatuses(ResolveRoadmap(domain).skills, existing)
  }

  /** The statuses of a roadmap, in order. */
  function Statuses(r: seq<RoadmapSkill>): seq<Status>
  {
    seq(|r|, i requires 0 <= i < |r| => r[i].status)
  }

  /* ---------------------------------------------------------------------- */
  /* Properties of the catalog                                               */
  /* ---------------------------------------------------------------------- */

  /** A catalog entry is stored under its own domain id, lists six skills, all locked, numbered 1..6, with distinct ids. */
  predicate WellFormedRoadmap(key: string, r: DomainRoadmap)
  {
    && r.domain == key
    && |r.skills| == 6
    && (forall i :: 0 <= i < |r.skills| ==> r.skills[i].status == Locked && r.skills[i].order == i + 1)
    && (forall i, j :: 0 <= i < j < |r.skills| ==> r.skills[i].id != r.skills[j].id)
  }

  /** Each of the six curricula satisfies the catalog invariant. */
  lemma TechWellFormed()
    ensures WellFormedRoadmap("tech", TechRoadmap)
  {
    var s := TechRoadmap.skills;
    assert forall i :: 0 <= i < |s| ==> s[i].status == Locked && s[i].order == i + 1;
    assert forall i, j :: 0 <= i < j < |s| ==> s[i].id != s[j].id;
  }

  lemma DataWellFormed()
    ensures WellFormedRoadmap("data", DataRoadmap)
  {
    var s := DataRoadmap.skills;
    assert forall i :: 0 <= i < |s| ==> s[i].status == Locked && s[i].order == i + 1;
    assert forall i, j :: 0 <= i < j < |s| ==> s[i].id != s[j].id;
  }

  lemma DesignWellFormed()
    ensures WellFormedRoadmap("design", DesignRoadmap)
  {
    var s := DesignRoadmap.skills;
    assert forall i :: 0 <= i < |s| ==> s[i].status == Locked && s[i].order == i + 1;
    assert forall i, j :: 0 <= i < j < |s| ==> s[i].id != s[j].id;
  }

  lemma BusinessWellFormed()
    ensures WellFormedRoadmap("business", BusinessRoadmap)
  {
    var s := BusinessRoadmap.skills;
    assert forall i :: 0 <= i < |s| ==> s[i].status == Locked && s[i].order == i + 1;
    assert forall i, j :: 0 <= i < j < |s| ==> s[i].id != s[j].id;
  }

  lemma MarketingWellFormed()
    ensures WellFormedRoadmap("marketing", MarketingRoadmap)
  {
    var s := MarketingRoadmap.skills;
    assert forall i :: 0 <= i < |s| ==> s[i].status == Locked && s[i].order == i + 1;
    assert forall i, j :: 0 <= i < j < |s| ==> s[i].id != s[j].id;
  }

  lemma FinanceWellFormed()
    ensures WellFormedRoadmap("finance", FinanceRoadmap)
  {
    var s := FinanceRoadmap.skills;
    assert forall i :: 0 <= i < |s| ==> s[i].status == Locked && s[i].order == i + 1;
    assert forall i, j :: 0 <= i < j < |s| ==> s[i].id != s[j].id;
  }

  lemma EntryWellFormed(d: string)
    requires d in Catalog
    ensures WellFormedRoadmap(d, Catalog[d])
  {
    if d == "tech" {
      TechWellFormed();
    } else if d == "data" {
      DataWellFormed();
    } else if d == "design" {
      DesignWellFormed();
    } else if d == "business" {
      BusinessWellFormed();
    } else if d == "marketing" {
      MarketingWellFormed();
    } else if d == "finance" {
      FinanceWellFormed();
    }
  }

  lemma CatalogWellFormed()
    ensures Catalog.Keys == {"tech", "data", "design", "business", "marketing", "finance"}
    ensures forall d :: d in Catalog ==> WellFormedRoadmap(d, Catalog[d])
  {
    forall d | d in Catalog ensures WellFormedRoadmap(d, Catalog[d]) {
      EntryWellFormed(d);
    }
  }

  /* ---------------------------------------------------------------------- */
  /* Properties of the initializer                                           */
  /* ---------------------------------------------------------------------- */

  /** The matching rule does not care which of its two strings is the prior skill. */
  lemma MatchesSymmetric(a: string, b: string)
    ensures Matches(a, b) <==> Matches(b, a)
  {
  }

  /** An unknown domain gets exactly the default curriculum; a known one its own. */
  lemma ResolveFallback(domain: string, existing: seq<string>)
    ensures domain !in Catalog ==> InitializeRoadmap(domain, existing) == InitializeRoadmap(DefaultDomain, existing)
    ensures domain in Catalog ==> |InitializeRoadmap(domain, existing)| == |Catalog[domain].skills|
    ensures domain in Catalog ==> forall i :: 0 <= i < |Catalog[domain].skills| ==>
              InitializeRoadmap(domain, existing)[i].id == Catalog[domain].skills[i].id
  {
  }

  /** With no prior skills, every domain starts at its first skill and locks the other five. */
  lemma EmptyPriorSkills(domain: string)
    ensures Statuses(InitializeRoadmap(domain, [])) == [Current, Locked, Locked, Locked, Locked, Locked]
  {
    CatalogWellFormed();
    var r := InitializeRoadmap(domain, []);
    assert |r| == 6;
  }

  /** With prior skills, a skill is completed exactly when some prior skill matches it. */
  lemma CompletedIffMatched(skills: seq<RoadmapSkill>, existing: seq<string>, i: int)
    requires existing != [] && 0 <= i < |skills|
    ensures AssignStatuses(skills, existing)[i].status == Completed <==> HasSkill(existing, skills[i].name)
  {
  }

  /** With prior skills, the current skill is exactly the lowest-indexed unmatched one. */
  lemma CurrentIsFirstUnmatched(skills: seq<RoadmapSkill>, existing: seq<string>, i: int)
    requires existing != [] && 0 <= i < |skills|
    ensures AssignStatuses(skills, existing)[i].status == Current <==>
              !HasSkill(existing, skills[i].name) && forall j :: 0 <= j < i ==> HasSkill(existing, skills[j].name)
  {
  }

  /** No call of the initializer ever yields two current skills. */
  lemma AtMostOneCurrent(skills: seq<RoadmapSkill>, existing: seq<string>)
    ensures forall i, j :: 0 <= i < j < |skills| ==>
              !(AssignStatuses(skills, existing)[i].status == Current && AssignStatuses(skills, existing)[j].status == Current)
  {
  }

  /** Every skill before the current one is completed. */
  lemma BeforeCurrentCompleted(skills: seq<RoadmapSkill>, existing: seq<string>, k: int)
    requires 0 <= k < |skills| && AssignStatuses(skills, existing)[k].status == Current
    ensures forall j :: 0 <= j < k ==> AssignStatuses(skills, existing)[j].status == Completed
  {
  }

  /** When every skill is matched nothing is current. */
  lemma AllMatchedNoCurrent(skills: seq<RoadmapSkill>, existing: seq<string>)
    requires existing != []
    requires forall j :: 0 <= j < |skills| ==> HasSkill(existing, skills[j].name)
    ensures forall i :: 0 <= i < |skills| ==> AssignStatuses(skills, existing)[i].status == Completed
  {
  }

  /** An unmatched skill other than the first unmatched one is locked. */
  lemma LaterUnmatchedLocked(skills: seq<RoadmapSkill>, existing: seq<string>, i: int, k: int)
    requires existing != [] && 0 <= k < i < |skills|
    requires !HasSkill(existing, skills[k].name) && !HasSkill(existing, skills[i].name)
    ensures AssignStatuses(skills, existing)[i].status == Locked
  {
  }

  /** Prior skills that match nothing produce the same roadmap as no prior skills at all. */
  lemma NoMatchesSameAsEmpty(skills: seq<RoadmapSkill>, existing: seq<string>)
    requires forall s, j :: s in existing && 0 <= j < |skills| ==> !Matches(s, skills[j].name)
    ensures AssignStatuses(skills, existing) == AssignStatuses(skills, [])
  {
    var a, b := AssignStatuses(skills, existing), AssignStatuses(skills, []);
    forall i | 0 <= i < |skills| ensures a[i] == b[i] {
      assert !HasSkill(existing, skills[i].name);
    }
  }

  /** An empty prior-skill entry is included in every name, so it completes the whole roadmap. */
  lemma EmptyEntryCompletesAll(skills: seq<RoadmapSkill>, existing: seq<string>)
    requires "" in existing
    ensures forall i :: 0 <= i < |skills| ==> AssignStatuses(skills, existing)[i].status == Completed
  {
    forall i | 0 <= i < |skills| ensures HasSkill(existing, skills[i].name) {
      ContainsEmpty(Lower(skills[i].name));
      assert Lower("") == "";
      assert Matches("", skills[i].name);
    }
  }

  /** Matching two strings whose lower-case forms are known. */
  lemma MatchesLowered(prior: string, name: string, lp: string, ln: string)
    requires Lower(prior) == lp && Lower(name) == ln
    ensures Matches(prior, name) <==> Contains(lp, ln) || Contains(ln, lp)
  {
  }

  lemma HasSkillPair(a: string, b: string, name: string)
    ensures HasSkill([a, b], name) <==> Matches(a, name) || Matches(b, name)
  {
    assert a in [a, b] && b in [a, b];
  }

  /** A skill name that neither includes nor is included in "html" or "css" is not matched by "HTML" or "CSS". */
  lemma NotMatchedByHtmlCss(existing: seq<string>, name: string, ln: string)
    requires existing == ["HTML", "CSS"]
    requires Lower(name) == ln
    requires !Contains(ln, "html") && !Contains("html", ln) && !Contains(ln, "css") && !Contains("css", ln)
    ensures !HasSkill(existing, name)
  {
    assert Lower("HTML") == "html" && Lower("CSS") == "css";
    MatchesLowered("HTML", name, "html", ln);
    MatchesLowered("CSS", name, "css", ln);
    HasSkillPair("HTML", "CSS", name);
  }

  /** The prior skills "HTML" and "CSS" match the first two web skills... */
  lemma HtmlCssMatched(existing: seq<string>, html: string, css: string)
    requires existing == ["HTML", "CSS"] && html == "HTML" && css == "CSS"
    ensures HasSkill(existing, html) && HasSkill(existing, css)
  {
    assert Lower("HTML") == "html" && Lower("CSS") == "css";
    assert ContainsFrom("html", "html", 0) && ContainsFrom("css", "css", 0);
    MatchesLowered("HTML", "HTML", "html", "html");
    MatchesLowered("CSS", "CSS", "css", "css");
    HasSkillPair("HTML", "CSS", "HTML");
    HasSkillPair("HTML", "CSS", "CSS");
  }

  /**
   * ... and none of the last four.  One lemma per name keeps each literal
   * evaluation in a proof of its own.
   */
  lemma JavaScriptUnmatched(existing: seq<string>, name: string)
    requires existing == ["HTML", "CSS"] && name == "JavaScript"
    ensures !HasSkill(existing, name)
  {
    assert Lower(name) == "javascript";
    assert !ContainsFrom("javascript", "html", 0) && !ContainsFrom("javascript", "css", 0);
    NotMatchedByHtmlCss(existing, name, "javascript");
  }

  lemma FrameworksUnmatched(existing: seq<string>, name: string)
    requires existing == ["HTML", "CSS"] && name == "Frameworks"
    ensures !HasSkill(existing, name)
  {
    assert Lower(name) == "frameworks";
    assert !ContainsFrom("frameworks", "html", 0) && !ContainsFrom("frameworks", "css", 0);
    NotMatchedByHtmlCss(existing, name, "frameworks");
  }

  lemma BackendBasicsUnmatched(existing: seq<string>, name: string)
    requires existing == ["HTML", "CSS"] && name == "Backend Basics"
    ensures !HasSkill(existing, name)
  {
    assert Lower(name) == "backend basics";
    assert !ContainsFrom("backend basics", "html", 0) && !ContainsFrom("backend basics", "css", 0);
    NotMatchedByHtmlCss(existing, name, "backend basics");
  }

  lemma ProjectsUnmatched(existing: seq<string>, name: string)
    requires existing == ["HTML", "CSS"] && name == "Projects"
    ensures !HasSkill(existing, name)
  {
    assert Lower(name) == "projects";
    assert !ContainsFrom("projects", "html", 0) && !ContainsFrom("projects", "css", 0);
    NotMatchedByHtmlCss(existing, name, "projects");
  }

  /** The status pattern of a six-skill roadmap whose first two skills, and only those, are matched. */
  lemma FirstTwoMatched(skills: seq<RoadmapSkill>, existing: seq<string>)
    requires existing != [] && |skills| == 6
    requires HasSkill(existing, skills[0].name) && HasSkill(existing, skills[1].name)
    requires forall i :: 2 <= i < 6 ==> !HasSkill(existing, skills[i].name)
    ensures Statuses(AssignStatuses(skills, existing)) == [Completed, Completed, Current, Locked, Locked, Locked]
  {
    assert FirstIncomplete(skills, existing) == 2;
  }

  /** Any six-skill curriculum named like the web one gets this pattern from "HTML" and "CSS". */
  lemma TechStatusesHtmlCss(skills: seq<RoadmapSkill>, existing: seq<string>)
    requires existing == ["HTML", "CSS"]
    requires |skills| == 6
    requires skills[0].name == "HTML" && skills[1].name == "CSS" && skills[2].name == "JavaScript"
    requires skills[3].name == "Frameworks" && skills[4].name == "Backend Basics" && skills[5].name == "Projects"
    ensures Statuses(AssignStatuses(skills, existing)) == [Completed, Completed, Current, Locked, Locked, Locked]
  {
    HtmlCssMatched(existing, skills[0].name, skills[1].name);
    JavaScriptUnmatched(existing, skills[2].name);
    FrameworksUnmatched(existing, skills[3].name);
    BackendBasicsUnmatched(existing, skills[4].name);
    ProjectsUnmatched(existing, skills[5].name);
    FirstTwoMatched(skills, existing);
  }

  /** The names of the web curriculum, in order. */
  lemma TechNames(skills: seq<RoadmapSkill>)
    requires skills == TechRoadmap.skills
    ensures |skills| == 6
    ensures skills[0].name == "HTML" && skills[1].name == "CSS" && skills[2].name == "JavaScript"
    ensures skills[3].name == "Frameworks" && skills[4].name == "Backend Basics" && skills[5].name == "Projects"
  {
  }

  /** "HTML" and "CSS" complete the first two web skills and make JavaScript current. */
  lemma TechScenario(domain: string, existing: seq<string>)
    requires domain == "tech" && existing == ["HTML", "CSS"]
    ensures Statuses(InitializeRoadmap(domain, existing)) == [Completed, Completed, Current, Locked, Locked, Locked]
  {
    var skills := ResolveRoadmap(domain).skills;
    assert skills == TechRoadmap.skills;
    TechNames(skills);
    TechStatusesHtmlCss(skills, existing);
  }

  /**
   * Matching is by inclusion, not equality: the one-letter prior skill "R"
   * already counts as the data curriculum's "Projects" skill.
   */
  lemma OneLetterPriorMatches(prior: string, name: string)
    requires prior == "R" && name == "Projects"
    ensures Matches(prior, name)
  {
    assert Lower(prior) == "r" && Lower(name) == "projects";
    assert MatchesAt("projects", "r", 1, 0);
    assert ContainsFrom("projects", "r", 0);
  }
}
