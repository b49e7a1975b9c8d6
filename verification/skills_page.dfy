/** The skills page's logic: proficiency buckets with their labels and badge colours, the per-category
    sections, and the summary counts. */
module SkillsPage {
  import opened Wrappers

  /** A row of the `skills` table; the level is a JavaScript number and the category may be null. */
  datatype Skill = Skill(id: string, name: string, category: Option<string>, proficiencyLevel: real)

  /** The section headings, in display order. */
  const Categories: seq<string> := [
    "Frontend", "Backend", "Database", "Backend-as-a-Service", "Styling", "Version Control",
    "Cloud", "DevOps", "AI", "Mobile", "Project Management"
  ]

  predicate Distinct(names: seq<string>) {
    forall i, j :: 0 <= i < j < |names| ==> names[i] != names[j]
  }

  lemma CategoriesDistinct()
    ensures |Categories| == 11 && Distinct(Categories)
  {
  }

  // ----- proficiency buckets ----------------------------------------------------------------

  datatype Proficiency = Beginner | Intermediate | Advanced | Expert

  function Rank(p: Proficiency): nat {
    match p
    case Beginner => 0
    case Intermediate => 1
    case Advanced => 2
    case Expert => 3
  }

  /** How many of the thresholds 3, 4 and 5 a level reaches. */
  function ThresholdsReached(level: real): nat {
    (if level >= 3.0 then 1 else 0) + (if level >= 4.0 then 1 else 0) + (if level >= 5.0 then 1 else 0)
  }

  /** The bucket both badge functions share: each threshold reached moves a level one bucket up. */
  function ProficiencyOf(level: real): (p: Proficiency)
    ensures Rank(p) == ThresholdsReached(level)
  {
    if level >= 5.0 then Expert
    else if level >= 4.0 then Advanced
    else if level >= 3.0 then Intermediate
    else Beginner
  }

  function LabelOf(p: Proficiency): string {
    match p
    case Expert => "Expert"
    case Advanced => "Advanced"
    case Intermediate => "Intermediate"
    case Beginner => "Beginner"
  }

  function ColorOf(p: Proficiency): string {
    match p
    case Expert => "bg-green-500"
    case Advanced => "bg-blue-500"
    case Intermediate => "bg-yellow-500"
    case Beginner => "bg-gray-500"
  }

  /** `getProficiencyLabel`: the name of the level's bucket. */
  function ProficiencyLabel(level: real): (r: string)
    ensures r == LabelOf(ProficiencyOf(level))
  {
    if level >= 5.0 then "Expert"
    else if level >= 4.0 then "Advanced"
    else if level >= 3.0 then "Intermediate"
    else "Beginner"
  }

  /** `getProficiencyColor`: the colour of the level's bucket. */
  function ProficiencyColor(level: real): (r: string)
    ensures r == ColorOf(ProficiencyOf(level))
  {
    if level >= 5.0 then "bg-green-500"
    else if level >= 4.0 then "bg-blue-500"
    else if level >= 3.0 then "bg-yellow-500"
    else "bg-gray-500"
  }

  /** A badge's label and colour always name the same bucket: two levels get the same label exactly
      when they get the same colour. */
  lemma LabelAndColorAgree(a: real, b: real)
    ensures ProficiencyLabel(a) == ProficiencyLabel(b) <==> ProficiencyColor(a) == ProficiencyColor(b)
    ensures ProficiencyLabel(a) == ProficiencyLabel(b) <==> ProficiencyOf(a) == ProficiencyOf(b)
  {
  }

  /** A higher level never gets a lower bucket. */
  lemma ProficiencyMonotone(a: real, b: real)
    requires a <= b
    ensures Rank(ProficiencyOf(a)) <= Rank(ProficiencyOf(b))
  {
  }

  // ----- sections ---------------------------------------------------------------------------

  /** `skills.filter(skill => skill.category === category)`. */
  function CategorySkills(skills: seq<Skill>, category: string): (r: seq<Skill>)
    ensures forall s :: s in r <==> s in skills && s.category == Some(category)
    ensures |r| <= |skills|
  {
    if skills == [] then []
    else (if skills[0].category == Some(category) then [skills[0]] else []) + CategorySkills(skills[1..], category)
  }

  /** A section keeps the input order: filtering a concatenation concatenates the filtered parts. */
  lemma {:induction false} CategorySkillsAppend(a: seq<Skill>, b: seq<Skill>, category: string)
    ensures CategorySkills(a + b, category) == CategorySkills(a, category) + CategorySkills(b, category)
  {
    if a == [] {
      assert a + b == b;
    } else {
      assert (a + b)[0] == a[0];
      assert (a + b)[1..] == a[1..] + b;
      CategorySkillsAppend(a[1..], b, category);
    }
  }

  /** A skill whose category is null or not one of the headings. */
  predicate Unlisted(s: Skill, categories: seq<string>) {
    s.category.None? || s.category.value !in categories
  }

  /** An unlisted skill appears in no section. */
  lemma UnlistedInNoSection(skills: seq<Skill>, s: Skill)
    requires Unlisted(s, Categories)
    ensures forall i :: 0 <= i < |Categories| ==> s !in CategorySkills(skills, Categories[i])
  {
  }

  /** The skills that no section shows. */
  function UnlistedSkills(skills: seq<Skill>, categories: seq<string>): (r: seq<Skill>)
    ensures forall s :: s in r <==> s in skills && Unlisted(s, categories)
  {
    if skills == [] then []
    else (if Unlisted(skills[0], categories) then [skills[0]] else []) + UnlistedSkills(skills[1..], categories)
  }

  /** The number of cards in the sections for `categories`. */
  function SectionTotal(skills: seq<Skill>, categories: seq<string>): nat {
    if categories == [] then 0
    else |CategorySkills(skills, categories[0])| + SectionTotal(skills, categories[1..])
  }

  /** The number of sections among `categories` that show skill `s`. */
  function Hits(s: Skill, categories: seq<string>): nat {
    if categories == [] then 0
    else (if s.category == Some(categories[0]) then 1 else 0) + Hits(s, categories[1..])
  }

  lemma {:induction false} SectionTotalCons(s: Skill, rest: seq<Skill>, categories: seq<string>)
    ensures SectionTotal([s] + rest, categories) == Hits(s, categories) + SectionTotal(rest, categories)
  {
    if categories != [] {
      assert ([s] + rest)[0] == s && ([s] + rest)[1..] == rest;
      SectionTotalCons(s, rest, categories[1..]);
    }
  }

  /** With distinct headings a skill is shown once if it is listed and not at all otherwise. */
  lemma {:induction false} HitsOfDistinct(s: Skill, categories: seq<string>)
    requires Distinct(categories)
    ensures Hits(s, categories) == if Unlisted(s, categories) then 0 else 1
  {
    if categories != [] {
      var rest := categories[1..];
      assert Distinct(rest);
      HitsOfDistinct(s, rest);
      assert categories == [categories[0]] + rest;
      assert forall x :: x in rest ==> x != categories[0];
    }
  }

  /** Every skill is either shown in exactly one section or in none, so the cards in all sections plus
      the unlisted skills make up the total. */
  lemma {:induction false} SectionsPartitionSkills(skills: seq<Skill>, categories: seq<string>)
    requires Distinct(categories)
    ensures SectionTotal(skills, categories) + |UnlistedSkills(skills, categories)| == |skills|
  {
    if skills == [] {
      SectionTotalOfNone(categories);
    } else {
      assert skills == [skills[0]] + skills[1..];
      SectionTotalCons(skills[0], skills[1..], categories);
      HitsOfDistinct(skills[0], categories);
      SectionsPartitionSkills(skills[1..], categories);
    }
  }

  lemma {:induction false} SectionTotalOfNone(categories: seq<string>)
    ensures SectionTotal([], categories) == 0
  {
    if categories != [] {
      SectionTotalOfNone(categories[1..]);
    }
  }

  /** The page's sections show every skill with one of the eleven categories exactly once. */
  lemma PageSectionsPartitionSkills(skills: seq<Skill>)
    ensures SectionTotal(skills, Categories) + |UnlistedSkills(skills, Categories)| == |skills|
  {
    CategoriesDistinct();
    SectionsPartitionSkills(skills, Categories);
  }

  // ----- summary ----------------------------------------------------------------------------

  /** `skills.filter(s => s.proficiency_level >= threshold)`. */
  function AtLeast(skills: seq<Skill>, threshold: real): (r: seq<Skill>)
    ensures forall s :: s in r <==> s in skills && s.proficiencyLevel >= threshold
    ensures |r| <= |skills|
  {
    if skills == [] then []
    else (if skills[0].proficiencyLevel >= threshold then [skills[0]] else []) + AtLeast(skills[1..], threshold)
  }

  /** The filter keeps input order and each skill's multiplicity: filtering a concatenation
      concatenates the filtered parts. */
  lemma {:induction false} AtLeastAppend(a: seq<Skill>, b: seq<Skill>, threshold: real)
    ensures AtLeast(a + b, threshold) == AtLeast(a, threshold) + AtLeast(b, threshold)
  {
    if a == [] {
      assert a + b == b;
    } else {
      assert (a + b)[0] == a[0];
      assert (a + b)[1..] == a[1..] + b;
      AtLeastAppend(a[1..], b, threshold);
    }
  }

  /** Raising the threshold never lets more skills through. */
  lemma {:induction false} AtLeastMonotone(skills: seq<Skill>, high: real, low: real)
    requires low <= high
    ensures |AtLeast(skills, high)| <= |AtLeast(skills, low)|
  {
    if skills != [] {
      AtLeastMonotone(skills[1..], high, low);
    }
  }

  /** The four numbers of the overview panel. */
  datatype Summary = Summary(expert: nat, advanced: nat, categories: nat, total: nat)

  /** The overview: skills at level 5 or more, at level 4 or more, the number of headings and the
      number of skills. */
  function Summarize(skills: seq<Skill>): (r: Summary)
    ensures r.categories == 11
    ensures r.total == |skills|
    ensures r.expert == |AtLeast(skills, 5.0)| && r.advanced == |AtLeast(skills, 4.0)|
    ensures r.expert <= r.advanced <= r.total
  {
    AtLeastMonotone(skills, 5.0, 4.0);
    Summary(|AtLeast(skills, 5.0)|, |AtLeast(skills, 4.0)|, |Categories|, |skills|)
  }
}
