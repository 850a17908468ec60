/**
 * The five-step onboarding wizard: a step counter moved by Next and Back,
 * a per-step gate on the Next button, and the answers collected so far
 * (name, experience level, domain, known skills, target role).
 */
module Onboarding {
  import opened Text
  import Roadmaps

  const TotalSteps: int := 5

  /** The wizard's answers, replaced as a whole on every edit. */
  datatype FormData = FormData(
    name: string,
    experience: string,
    domain: string,
    skills: seq<string>,
    targetRole: string)

  const EmptyForm: FormData := FormData("", "", "", [], "")

  /** The domain buttons of step 3 and the experience buttons of step 2, by id. */
  const DomainIds: seq<string> := ["tech", "data", "design", "business", "marketing", "finance"]
  const ExperienceIds: seq<string> := ["student", "graduate", "professional"]

  /** The skill buttons offered at step 4, per domain. */
  const PopularSkills: map<string, seq<string>> := map[
    "tech" := ["JavaScript", "Python", "React", "Node.js", "TypeScript", "Git", "SQL", "AWS"],
    "data" := ["Python", "SQL", "Machine Learning", "Pandas", "Statistics", "TensorFlow", "Power BI", "R"],
    "design" := ["Figma", "Adobe XD", "Sketch", "UI Design", "UX Research", "Prototyping", "Illustrator", "Photoshop"],
    "business" := ["Project Management", "Excel", "Communication", "Leadership", "Strategy", "Agile", "Negotiation", "Analytics"],
    "marketing" := ["SEO", "Content Writing", "Social Media", "Google Analytics", "Email Marketing", "PPC", "Copywriting", "Branding"],
    "finance" := ["Financial Modeling", "Excel", "Accounting", "Valuation", "Bloomberg", "Risk Analysis", "Investment Analysis", "Python"]
  ]

  /** The role buttons offered at step 5, per domain. */
  const TargetRoles: map<string, seq<string>> := map[
    "tech" := ["Frontend Developer", "Backend Developer", "Full Stack Developer", "DevOps Engineer", "Cloud Architect", "Mobile Developer"],
    "data" := ["Data Analyst", "Data Scientist", "ML Engineer", "Data Engineer", "Business Analyst", "AI Research Scientist"],
    "design" := ["UI Designer", "UX Designer", "Product Designer", "Graphic Designer", "Design Lead", "UX Researcher"],
    "business" := ["Product Manager", "Business Analyst", "Management Consultant", "Operations Manager", "Strategy Analyst", "Project Manager"],
    "marketing" := ["Digital Marketer", "Content Strategist", "SEO Specialist", "Growth Marketer", "Brand Manager", "Social Media Manager"],
    "finance" := ["Financial Analyst", "Investment Banker", "Risk Analyst", "Portfolio Manager", "FP&A Analyst", "Quantitative Analyst"]
  ]

  /** `popularSkills[domain] || popularSkills.tech`. */
  function SkillChoices(domain: string): seq<string>
  {
    if domain in PopularSkills then PopularSkills[domain] else PopularSkills["tech"]
  }

  /** `targetRoles[domain] || targetRoles.tech`. */
  function RoleChoices(domain: string): seq<string>
  {
    if domain in TargetRoles then TargetRoles[domain] else TargetRoles["tech"]
  }

  lemma SkillTableKeys()
    ensures forall d :: d in DomainIds <==> d in PopularSkills
  {
  }

  lemma RoleTableKeys()
    ensures forall d :: d in DomainIds <==> d in TargetRoles
  {
  }

  lemma CatalogKeys()
    ensures forall d :: d in DomainIds <==> d in Roadmaps.Catalog
  {
  }

  /** Every domain the wizard offers has its own skill buttons, role buttons and roadmap. */
  lemma DomainTablesAgree()
    ensures forall d :: d in DomainIds <==> d in PopularSkills
    ensures forall d :: d in DomainIds <==> d in TargetRoles
    ensures forall d :: d in DomainIds <==> d in Roadmaps.Catalog
  {
    SkillTableKeys();
    RoleTableKeys();
    CatalogKeys();
  }

  lemma SkillTableSizes()
    ensures forall d :: d in PopularSkills ==> |PopularSkills[d]| == 8
  {
  }

  lemma RoleTableSizes()
    ensures forall d :: d in TargetRoles ==> |TargetRoles[d]| == 6
  {
  }

  /** A domain the wizard does not offer (the empty one included) falls back to the "tech" buttons. */
  lemma ChoicesFallBack(domain: string)
    ensures domain !in DomainIds ==> SkillChoices(domain) == PopularSkills["tech"] && RoleChoices(domain) == TargetRoles["tech"]
    ensures domain in DomainIds ==> SkillChoices(domain) == PopularSkills[domain] && RoleChoices(domain) == TargetRoles[domain]
    ensures |SkillChoices(domain)| == 8 && |RoleChoices(domain)| == 6
  {
    SkillTableKeys();
    RoleTableKeys();
    SkillTableSizes();
    RoleTableSizes();
    assert "tech" in PopularSkills && "tech" in TargetRoles;
  }

  /* ---------------------------------------------------------------------- */
  /* Skill toggling                                                          */
  /* ---------------------------------------------------------------------- */

  /** `skills.filter(s => s !== skill)`. */
  function Without(skills: seq<string>, skill: string): (r: seq<string>)
    ensures |r| <= |skills|
    ensures forall x :: x in r <==> x in skills && x != skill
  {
    if skills == [] then []
    else if skills[0] == skill then Without(skills[1..], skill)
    else [skills[0]] + Without(skills[1..], skill)
  }

  /** Step 4's `toggleSkill`: remove every copy of a selected skill, or append an unselected one. */
  function Toggled(skills: seq<string>, skill: string): seq<string>
  {
    if skill in skills then Without(skills, skill) else skills + [skill]
  }

  predicate NoDuplicates(s: seq<string>)
  {
    forall i, j :: 0 <= i < j < |s| ==> s[i] != s[j]
  }

  /** Toggling flips the membership of the toggled skill and of no other. */
  lemma ToggleFlipsMembership(skills: seq<string>, skill: string, other: string)
    ensures skill in Toggled(skills, skill) <==> skill !in skills
    ensures other != skill ==> (other in Toggled(skills, skill) <==> other in skills)
  {
  }

  /** An unselected skill is appended after all the selected ones. */
  lemma ToggleAppendsAtEnd(skills: seq<string>, skill: string)
    requires skill !in skills
    ensures Toggled(skills, skill) == skills + [skill]
  {
  }

  /** Filtering keeps the order of what it keeps, so it keeps distinctness. */
  lemma {:induction false} WithoutKeepsDistinct(skills: seq<string>, skill: string)
    requires NoDuplicates(skills)
    ensures NoDuplicates(Without(skills, skill))
  {
    if skills != [] {
      assert NoDuplicates(skills[1..]) by {
        forall i, j | 0 <= i < j < |skills[1..]| ensures skills[1..][i] != skills[1..][j] {
          assert skills[1..][i] == skills[i + 1] && skills[1..][j] == skills[j + 1];
        }
      }
      WithoutKeepsDistinct(skills[1..], skill);
      if skills[0] != skill {
        var rest := Without(skills[1..], skill);
        assert skills[0] !in skills[1..] by {
          forall k | 0 <= k < |skills[1..]| ensures skills[1..][k] != skills[0] {
            assert skills[1..][k] == skills[k + 1];
          }
        }
        assert skills[0] !in rest;
        var r := [skills[0]] + rest;
        forall i, j | 0 <= i < j < |r| ensures r[i] != r[j] {
          if i == 0 {
            assert r[j] == rest[j - 1];
          } else {
            assert r[i] == rest[i - 1] && r[j] == rest[j - 1];
          }
        }
      }
    }
  }

  /** The selected-skills list never holds a skill twice. */
  lemma ToggleKeepsDistinct(skills: seq<string>, skill: string)
    requires NoDuplicates(skills)
    ensures NoDuplicates(Toggled(skills, skill))
  {
    if skill in skills {
      WithoutKeepsDistinct(skills, skill);
    } else {
      var r := skills + [skill];
      forall i, j | 0 <= i < j < |r| ensures r[i] != r[j] {
        if j == |skills| {
          assert r[i] == skills[i];
        } else {
          assert r[i] == skills[i] && r[j] == skills[j];
        }
      }
    }
  }

  /** Filtering out a skill that is not there changes nothing. */
  lemma {:induction false} WithoutAbsent(skills: seq<string>, skill: string)
    requires skill !in skills
    ensures Without(skills, skill) == skills
  {
    if skills != [] {
      WithoutAbsent(skills[1..], skill);
      assert [skills[0]] + skills[1..] == skills;
    }
  }

  /** Filtering distributes over appending one element. */
  lemma {:induction false} WithoutAppend(skills: seq<string>, x: string, skill: string)
    ensures Without(skills + [x], skill) == Without(skills, skill) + Without([x], skill)
  {
    if skills != [] {
      assert (skills + [x])[1..] == skills[1..] + [x];
      WithoutAppend(skills[1..], x, skill);
    } else {
      assert skills + [x] == [x];
    }
  }

  /** Selecting and then deselecting an unselected skill restores the list exactly. */
  lemma ToggleTwiceRestores(skills: seq<string>, skill: string)
    requires skill !in skills
    ensures Toggled(Toggled(skills, skill), skill) == skills
  {
    WithoutAppend(skills, skill, skill);
    WithoutAbsent(skills, skill);
    assert Without([skill], skill) == [];
  }

  /* ---------------------------------------------------------------------- */
  /* The Next gate and the progress label                                   */
  /* ---------------------------------------------------------------------- */

  /** `canProceed`: whether the Next button is enabled at `step` with answers `form`. */
  function CanProceed(step: int, form: FormData): bool
  {
    match step
    case 1 => |Trim(form.name)| > 0
    case 2 => |form.experience| > 0
    case 3 => |form.domain| > 0
    case 4 => |form.skills| > 0
    case 5 => |form.targetRole| > 0
    case _ => false
  }

  /** What each step demands before Next is enabled; no step outside 1..5 is ever passable. */
  lemma CanProceedMeaning(step: int, form: FormData)
    ensures step == 1 ==> (CanProceed(step, form) <==> !IsBlank(form.name))
    ensures step == 2 ==> (CanProceed(step, form) <==> form.experience != "")
    ensures step == 3 ==> (CanProceed(step, form) <==> form.domain != "")
    ensures step == 4 ==> (CanProceed(step, form) <==> form.skills != [])
    ensures step == 5 ==> (CanProceed(step, form) <==> form.targetRole != "")
    ensures CanProceed(step, form) ==> 1 <= step <= TotalSteps
  {
    TrimEmptyIffBlank(form.name);
  }

  /** `Math.round(n / d)` for non-negative `n` and positive `d`: halves round up. */
  function RoundDiv(n: int, d: int): int
    requires d > 0
  {
    (2 * n + d) / (2 * d)
  }

  /** The percentage label `Math.round((step / totalSteps) * 100)`. */
  function StepPercent(step: int): (p: int)
    requires 1 <= step <= TotalSteps
    ensures p == 20 * step
    ensures 20 <= p <= 100
  {
    RoundDiv(step * 100, TotalSteps)
  }

  /* ---------------------------------------------------------------------- */
  /* The wizard's state                                                      */
  /* ---------------------------------------------------------------------- */

  class Wizard {
    var step: int
    var form: FormData

    ghost predicate Valid()
      reads this
    {
      1 <= step <= TotalSteps
    }

    constructor ()
      ensures Valid()
      ensures step == 1 && form == EmptyForm
    {
      step := 1;
      form := EmptyForm;
    }

    /** `handleNext`: advance, or at the last step ask to leave for the dashboard. */
    method HandleNext() returns (toDashboard: bool)
      requires Valid()
      modifies this`step
      ensures Valid()
      ensures toDashboard <==> old(step) == TotalSteps
      ensures step == if old(step) < TotalSteps then old(step) + 1 else old(step)
    {
      if step < TotalSteps {
        step := step + 1;
        toDashboard := false;
      } else {
        toDashboard := true;
      }
    }

    /** `handleBack`: go back one step, except from the first. */
    method HandleBack()
      requires Valid()
      modifies this`step
      ensures Valid()
      ensures step == if old(step) > 1 then old(step) - 1 else old(step)
    {
      if step > 1 {
        step := step - 1;
      }
    }

    /** A click on Next, which is disabled while the current step's gate is closed. */
    method PressNext() returns (toDashboard: bool)
      requires Valid()
      modifies this`step
      ensures Valid()
      ensures !CanProceed(old(step), form) ==> step == old(step) && !toDashboard
      ensures CanProceed(old(step), form) ==> (toDashboard <==> old(step) == TotalSteps)
      ensures CanProceed(old(step), form) ==> step == if old(step) < TotalSteps then old(step) + 1 else old(step)
    {
      toDashboard := false;
      if CanProceed(step, form) {
        toDashboard := HandleNext();
      }
    }

    /** Typing in the name field at step 1. */
    method SetName(value: string)
      modifies this`form
      ensures form == old(form).(name := value)
    {
      form := form.(name := value);
    }

    /** An experience button at step 2. */
    method ChooseExperience(id: string)
      modifies this`form
      ensures form == old(form).(experience := id)
    {
      form := form.(experience := id);
    }

    /** A domain button at step 3: the skills and role chosen for the old domain are discarded. */
    method ChooseDomain(id: string)
      modifies this`form
      ensures form.domain == id && form.skills == [] && form.targetRole == ""
      ensures form.name == old(form.name) && form.experience == old(form.experience)
    {
      form := form.(domain := id, skills := [], targetRole := "");
    }

    /** A skill button at step 4. */
    method ToggleSkill(skill: string)
      modifies this`form
      ensures form == old(form).(skills := Toggled(old(form.skills), skill))
      ensures NoDuplicates(old(form.skills)) ==> NoDuplicates(form.skills)
    {
      if NoDuplicates(form.skills) {
        ToggleKeepsDistinct(form.skills, skill);
      }
      form := form.(skills := Toggled(form.skills, skill));
    }

    /** A role button at step 5. */
    method ChooseRole(role: string)
      modifies this`form
      ensures form == old(form).(targetRole := role)
    {
      form := form.(targetRole := role);
    }
  }
}
