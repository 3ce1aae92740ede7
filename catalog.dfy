/** The keyword tables the checkers read (`constants.py`), transcribed as
    constant sequences in their dictionary order. */
module Catalog {

  /** A named list of phrases: one entry of a `{name: [phrases]}` table. */
  datatype Group = Group(name: string, members: seq<string>)

  /** The phrases of every group, concatenated in table order
      (`for v in table.values(): all.extend(v)`). */
  function Flatten(groups: seq<Group>): (r: seq<string>)
    ensures forall g, j :: 0 <= g < |groups| && 0 <= j < |groups[g].members| ==> groups[g].members[j] in r
  {
    if groups == [] then []
    else
      var rest := Flatten(groups[1..]);
      assert forall g :: 1 <= g < |groups| ==> groups[g] == groups[1..][g - 1];
      groups[0].members + rest
  }

  // Heading keywords per section (SECTION_KEYWORDS).
  const SummaryHeadings: seq<string> := ["summary", "objective", "professional summary",
    "career objective", "career summary", "professional profile", "executive summary"]
  const ExperienceHeadings: seq<string> := ["work experience", "professional experience",
    "work history", "employment history", "relevant experience"]
  const EducationHeadings: seq<string> := ["education", "academic background", "educational background"]
  const SkillsHeadings: seq<string> := ["skills", "technical skills", "competencies", "proficiencies",
    "core competencies", "areas of expertise", "key skills"]
  const CertificationsHeadings: seq<string> := ["certifications", "certificates", "professional certifications"]
  const ProjectsHeadings: seq<string> := ["projects", "personal projects", "academic projects", "key projects"]
  const AwardsHeadings: seq<string> := ["awards", "honors", "achievements"]
  const LanguagesHeadings: seq<string> := ["languages", "language proficiency"]
  const VolunteerHeadings: seq<string> := ["volunteer", "volunteering", "community service"]

  /** ACTION_VERBS_BY_CATEGORY */
  const ActionVerbs: seq<Group> := [
    Group("Leadership", ["led", "directed", "managed", "supervised", "oversaw", "headed",
      "spearheaded", "coordinated", "mentored", "guided", "delegated", "chaired"]),
    Group("Achievement", ["achieved", "exceeded", "surpassed", "earned", "attained", "accomplished",
      "awarded", "won", "outperformed", "delivered"]),
    Group("Technical", ["developed", "engineered", "built", "designed", "implemented", "programmed",
      "coded", "configured", "deployed", "automated", "architected", "integrated",
      "debugged", "tested", "maintained"]),
    Group("Communication", ["presented", "authored", "published", "documented", "reported",
      "communicated", "articulated", "briefed", "advocated", "negotiated"]),
    Group("Improvement", ["improved", "enhanced", "increased", "optimized", "streamlined",
      "modernized", "accelerated", "transformed", "revamped", "upgraded",
      "refined", "restructured"]),
    Group("Analysis", ["analyzed", "assessed", "evaluated", "researched", "investigated",
      "examined", "audited", "forecasted", "identified", "measured", "quantified"]),
    Group("Creation", ["created", "established", "founded", "initiated", "launched", "pioneered",
      "introduced", "generated", "formulated", "devised", "invented"]),
    Group("Operations", ["executed", "administered", "facilitated", "organized", "planned",
      "produced", "processed", "consolidated", "resolved", "performed",
      "collaborated", "conducted", "trained"])
  ]

  /** WEAK_VERBS */
  const WeakVerbs: seq<string> := ["helped", "assisted", "tried", "worked on", "was responsible for",
    "responsible for", "duties included", "tasked with", "participated in",
    "involved in", "handled"]

  /** HARD_SKILLS; "swift" and "kotlin" are listed under two categories. */
  const HardSkills: seq<Group> := [
    Group("Programming Languages", ["python", "java", "javascript", "typescript", "c++", "c#", "ruby",
      "php", "swift", "kotlin", "golang", "rust", "scala", "r ", "matlab"]),
    Group("Web Technologies", ["html", "css", "react", "angular", "vue", "node.js", "nodejs", "express",
      "django", "flask", "spring", "asp.net", "next.js", "tailwind", "bootstrap",
      "graphql", "rest api", "restful"]),
    Group("Databases", ["sql", "mysql", "postgresql", "mongodb", "redis", "elasticsearch",
      "dynamodb", "oracle", "firebase", "cassandra", "sqlite"]),
    Group("Cloud & DevOps", ["aws", "azure", "gcp", "google cloud", "docker", "kubernetes",
      "jenkins", "terraform", "ansible", "ci/cd", "github actions", "gitlab"]),
    Group("Data & AI", ["machine learning", "deep learning", "data analysis", "data science",
      "tensorflow", "pytorch", "pandas", "numpy", "tableau", "power bi",
      "nlp", "computer vision", "artificial intelligence", "big data", "spark", "hadoop"]),
    Group("Tools & Software", ["git", "jira", "confluence", "figma", "adobe", "photoshop",
      "excel", "powerpoint", "microsoft office", "slack", "trello",
      "postman", "vs code", "intellij"]),
    Group("Security", ["cybersecurity", "penetration testing", "encryption", "oauth", "ssl",
      "firewall", "siem", "vulnerability", "compliance"]),
    Group("Mobile", ["android", "ios", "react native", "flutter", "swift", "kotlin"])
  ]

  /** SOFT_SKILLS */
  const SoftSkills: seq<Group> := [
    Group("Leadership", ["leadership", "team lead", "mentorship", "delegation", "decision making",
      "strategic thinking", "vision", "coaching"]),
    Group("Communication", ["communication", "presentation", "public speaking", "writing",
      "negotiation", "interpersonal", "active listening", "storytelling"]),
    Group("Problem Solving", ["problem solving", "critical thinking", "analytical", "troubleshooting",
      "innovation", "creative thinking", "root cause analysis"]),
    Group("Collaboration", ["teamwork", "collaboration", "cross-functional", "stakeholder management",
      "partnership", "relationship building", "conflict resolution"]),
    Group("Management", ["project management", "time management", "agile", "scrum", "kanban",
      "resource management", "risk management", "budget management", "planning"]),
    Group("Adaptability", ["adaptability", "flexibility", "fast learner", "quick learner",
      "self-motivated", "proactive", "detail-oriented", "multitasking"])
  ]

  /** UNPROFESSIONAL_EMAIL_WORDS */
  const UnprofessionalEmailWords: seq<string> := ["cute", "hot", "sexy", "babe", "cool", "princess",
    "prince", "love", "angel", "devil", "420", "69",
    "xxx", "gamer", "ninja", "swag", "yolo"]

  /** ATS_UNFRIENDLY_CHARS */
  const AtsUnfriendlyChars: seq<char> := ['\U{2022}', '\U{25CF}', '\U{25AA}', '\U{25A0}', '\U{2192}', '\U{2190}',
    '\U{2605}', '\U{2606}', '\U{2713}', '\U{2717}', '\U{25B6}', '\U{25C0}',
    '\U{2764}', '\U{2603}', '\U{263A}']
}
