/**
  * The portfolio's records and static content (src/lib/data.ts): the
  * experience and project record types, the runtime type guards that tell
  * them apart, and `toModalData`, which normalises either kind into the one
  * record the project modal displays.
  */
module Data {
  import opened JsValues

  datatype PersonalInfoRecord = PersonalInfoRecord(
    name: string,
    role: string,
    location: string,
    email: string,
    linkedin: string,
    github: string,
    bio: string,
    status: string)

  datatype SkillCategory = SkillCategory(category: string, items: seq<string>)

  datatype ExperienceItem = ExperienceItem(
    id: int,
    year: string,
    title: string,
    company: string,
    description: string,
    tech: seq<string>)

  datatype ProjectItem = ProjectItem(
    title: string,
    category: string,
    description: string,
    tech: seq<string>,
    githubUrl: Option<string>,
    demoUrl: Option<string>,
    featured: bool,
    imageUrl: Option<string>)

  /** The argument type `ExperienceItem | ProjectItem` of `toModalData`. */
  datatype Item = Exp(exp: ExperienceItem) | Proj(proj: ProjectItem)

  datatype Source = FromExperience | FromProject

  /** The normalised record the modal consumes. */
  datatype ModalData = ModalData(
    title: string,
    year: string,
    description: string,
    techStack: seq<string>,
    imageUrl: Option<string>,
    source: Option<Source>)

  /** The separator the portfolio puts between a company and a description. */
  const Bullet: string := " \U{2022} "

  // ---------------------------------------------------------------------
  // Records as the JavaScript objects the guards inspect
  // ---------------------------------------------------------------------

  function ExperienceRecord(e: ExperienceItem): JsRecord
  {
    map["id" := Number(e.id as real), "year" := Str(e.year), "title" := Str(e.title),
        "company" := Str(e.company), "description" := Str(e.description),
        "tech" := StrArray(e.tech)]
  }

  /** `obj` with the optional property `key` set when `v` is given. */
  function WithOptional(obj: JsRecord, key: string, v: Option<string>): (r: JsRecord)
  {
    if v.Some? then obj[key := Str(v.value)] else obj
  }

  /** A project object literal: the optional URLs are own properties only
      when they are given. */
  function ProjectRecord(p: ProjectItem): JsRecord
  {
    var base := map["title" := Str(p.title), "category" := Str(p.category),
        "description" := Str(p.description), "tech" := StrArray(p.tech),
        "featured" := Bool(p.featured)];
    WithOptional(WithOptional(WithOptional(base, "githubUrl", p.githubUrl),
      "demoUrl", p.demoUrl), "imageUrl", p.imageUrl)
  }

  /** What the guards and the normalisers read off a project object. */
  lemma ProjectRecordFields(p: ProjectItem)
    ensures var r := ProjectRecord(p);
      && "company" !in r && "id" !in r && "year" !in r && "techStack" !in r
      && Get(r, "title") == Str(p.title) && Get(r, "category") == Str(p.category)
      && Get(r, "description") == Str(p.description) && Get(r, "tech") == StrArray(p.tech)
      && Get(r, "imageUrl") == (if p.imageUrl.Some? then Str(p.imageUrl.value) else Undefined)
  {
  }

  function ItemRecord(item: Item): JsRecord
  {
    match item
    case Exp(e) => ExperienceRecord(e)
    case Proj(p) => ProjectRecord(p)
  }

  function ItemValue(item: Item): JsValue
  {
    Object(ItemRecord(item))
  }

  // ---------------------------------------------------------------------
  // Type guards
  // ---------------------------------------------------------------------

  /** `typeof v === 'object'` (null included) together with `key in v`. No
      array in this program owns a key the guards ask about. */
  predicate HasKey(v: JsValue, key: string)
  {
    v.Object? && key in v.fields
  }

  /** `isExperienceItem`: a truthy object with both `company` and `id`; it
      accepts exactly the objects that carry those two keys. */
  predicate IsExperienceItem(v: JsValue)
    ensures IsExperienceItem(v) <==> v.Object? && "company" in v.fields && "id" in v.fields
  {
    Truthy(v) && (v.Null? || v.Array? || v.Object?) && HasKey(v, "company") && HasKey(v, "id")
  }

  /** `isProjectItem`: a truthy object with `category` and no `company`; it
      accepts exactly the objects that carry the one key and lack the other. */
  predicate IsProjectItem(v: JsValue)
    ensures IsProjectItem(v) <==> v.Object? && "category" in v.fields && "company" !in v.fields
  {
    Truthy(v) && (v.Null? || v.Array? || v.Object?) && HasKey(v, "category") && !HasKey(v, "company")
  }

  /** The guards never both accept a value. */
  lemma GuardsExclusive(v: JsValue)
    ensures !(IsExperienceItem(v) && IsProjectItem(v))
  {
  }

  /** On the records the program builds, the guards recognise exactly the
      kind of record they are named after. */
  lemma GuardsRecogniseItems(item: Item)
    ensures IsExperienceItem(ItemValue(item)) <==> item.Exp?
    ensures IsProjectItem(ItemValue(item)) <==> item.Proj?
  {
    match item
    case Exp(e) =>
      assert "category" !in ExperienceRecord(e);
    case Proj(p) =>
      ProjectRecordFields(p);
  }

  // ---------------------------------------------------------------------
  // toModalData
  // ---------------------------------------------------------------------

  /** `toModalData`: the experience branch is chosen by `isExperienceItem`
      applied to the object itself. */
  function ToModalData(item: Item): (m: ModalData)
    ensures m.title == (match item case Exp(e) => e.title case Proj(p) => p.title)
    ensures m.techStack == (match item case Exp(e) => e.tech case Proj(p) => p.tech)
    ensures item.Exp? ==>
      m.year == item.exp.year
      && m.description == item.exp.company + Bullet + item.exp.description
      && m.imageUrl == None && m.source == Some(FromExperience)
    ensures item.Proj? ==>
      m.year == "2025" && m.description == item.proj.description
      && m.imageUrl == item.proj.imageUrl && m.source == Some(FromProject)
  {
    GuardsRecogniseItems(item);
    if IsExperienceItem(ItemValue(item)) then
      var e := item.exp;
      ModalData(e.title, e.year, e.company + Bullet + e.description, e.tech, None, Some(FromExperience))
    else
      var p := item.proj;
      ModalData(p.title, "2025", p.description, p.tech, p.imageUrl, Some(FromProject))
  }

  /** The company prefix makes an experience record's modal description
      strictly longer than the bare description, so the two never agree. */
  lemma ExperienceDescriptionPrefixed(e: ExperienceItem)
    ensures ToModalData(Exp(e)).description != e.description
    ensures |ToModalData(Exp(e)).description| == |e.company| + 3 + |e.description|
  {
  }

  // ---------------------------------------------------------------------
  // Static content
  // ---------------------------------------------------------------------

  /** The titles of the featured projects, in array order:
      `projects.filter(p => p.featured).map(p => p.title)`. */
  function FeaturedTitles(projects: seq<ProjectItem>): (r: seq<string>)
    ensures |r| <= |projects|
    ensures projects != [] && projects[0].featured ==> r != [] && r[0] == projects[0].title
    ensures projects != [] && !projects[0].featured ==> |r| < |projects|
  {
    if projects == [] then []
    else
      var rest := FeaturedTitles(projects[1..]);
      if projects[0].featured then [projects[0].title] + rest else rest
  }

  /** A title is listed exactly when some featured project carries it. */
  lemma {:induction false} FeaturedTitlesExact(projects: seq<ProjectItem>, t: string)
    ensures t in FeaturedTitles(projects) <==> exists p :: p in projects && p.featured && p.title == t
  {
    if projects != [] {
      FeaturedTitlesExact(projects[1..], t);
      assert forall p :: p in projects <==> p == projects[0] || p in projects[1..];
    }
  }

  /** PERSONAL_INFO. */
  const PersonalInfo: PersonalInfoRecord := PersonalInfoRecord(
    name := "Sai Teja Meka",
    role := "AI Product Engineer",
    location := "New Jersey, USA",
    email := "saitejameka45usa@gmail.com",
    linkedin := "https://www.linkedin.com/in/sai-teja-meka-b336211b6",
    github := "https://github.com/Sai-Teja-Meka",
    bio := "AI engineer with 1+ years of experience building LLM systems, multi-agent orchestration, and full-stack AI applications. Developed RAG pipelines achieving 85% consistency with human evaluation. Specialize in translating research into shipped products, from event-sourced backends to real-time 3D visualization systems.",
    status := "Open to Work \U{2022} AWS Certified AI Practitioner"
  )

  /** SKILLS, in display order (the icons are left out). */
  const Skills: seq<SkillCategory> := [
    SkillCategory(
      "AI & Agents",
      ["Multi-Agent Systems", "RAG Pipelines", "LangChain", "CrewAI", "ChromaDB", "Pinecone", "Cognitive Architecture"]),
    SkillCategory(
      "LLM Engineering",
      ["Prompt Engineering", "Model Evaluation", "Fine-tuning", "Embeddings", "LLM Observability", "Big Five Modeling", "Semantic Search"]),
    SkillCategory(
      "Full Stack & Cloud",
      ["FastAPI", "React Flow", "Next.js", "AWS (EC2/Lambda)", "Docker", "Event Sourcing", "WebSockets"]),
    SkillCategory(
      "Data & Core",
      ["Python", "Neo4j", "SQL", "PyTorch", "Scikit-learn", "Real-time Streaming", "GLSL Shaders"])
  ]

  /** EXPERIENCE, newest first. */
  const Experience: seq<ExperienceItem> := [
    ExperienceItem(
      id := 1,
      year := "Sep 2025 - Present",
      title := "AI Engineer Intern",
      company := "Cloud Bridge Solutions Inc",
      description := "Architected an enterprise AI education platform with 9 production modules. Built a RAG engine using Pinecone achieving sub-250ms retrieval and 92% relevance. Engineered AI lesson planners and adaptive testing achieving 88% accuracy against teacher-validated rubrics.",
      tech := ["Python", "RAG", "Pinecone", "MongoDB", "Flask", "Microservices"]),
    ExperienceItem(
      id := 2,
      year := "Aug 2024 - Dec 2024",
      title := "Data Science Consultant",
      company := "PepsiCo (Capstone)",
      description := "Developed predictive ML models optimizing packaging performance. Delivered a simulation tool enabling researchers to test packaging recipe outcomes via virtual experimentation, accelerating R&D decision velocity by 25%.",
      tech := ["Predictive Modeling", "Statistical Simulation", "Python", "Gradient Boosting"]),
    ExperienceItem(
      id := 3,
      year := "July 2022 - July 2023",
      title := "Data Analyst",
      company := "Savant Instruments",
      description := "Engineered real-time Power BI dashboards and AI-powered reporting pipelines, reducing manual reporting overhead by 40% with sub-hour latency insights. Built forecasting engines improving prediction accuracy by 25%.",
      tech := ["Power BI", "SQL", "ETL Pipelines", "Forecasting", "A/B Testing"])
  ]

  const Chronos: ProjectItem :=
    ProjectItem(
    title := "Chronos: LLM Time-Travel Debugger",
    category := "LLM Observability",
    description := "Event-sourced observability platform capturing step-level traces (tool calls, errors). Features a React Flow DAG UI with time-travel debugging (rewind/fork states) and live updates via SSE. Deployed on AWS EC2.",
    tech := ["FastAPI", "React Flow", "Event Sourcing", "AWS EC2", "PostgreSQL"],
    githubUrl := Some("https://github.com/Sai-Teja-Meka/Chronos"),
    demoUrl := Some("https://chronos-chi-eight.vercel.app/"),
    featured := true,
    imageUrl := Some("/assets/chronos-preview.gif"))

  const PersonaEngine: ProjectItem :=
    ProjectItem(
    title := "Agent Persona Engine",
    category := "Cognitive AI",
    description := "Cognitive architecture extraction engine creating synthetic expert personas. Engineered a hybrid memory system (ChromaDB + Neo4j) achieving sub-200ms retrieval and personality drift detection.",
    tech := ["FastAPI", "Neo4j", "ChromaDB", "Big Five Model", "WebSockets"],
    githubUrl := Some("https://github.com/Sai-Teja-Meka/Agent-Persona-Engine"),
    demoUrl := Some("https://agent-persona-engine.vercel.app/"),
    featured := true,
    imageUrl := Some("https://raw.githubusercontent.com/Sai-Teja-Meka/Agent-Persona-Engine/main/preview.png"))

  const ContentClassification: ProjectItem :=
    ProjectItem(
    title := "LLM Content Classification",
    category := "AI Safety",
    description := "Modular agent-driven content moderation pipeline using GPT-4 and Claude. Achieved 85% consistency with human review via few-shot prompting and chain-of-thought reasoning across 10k+ segments.",
    tech := ["GPT-4", "Claude", "LangChain", "Scikit-learn"],
    githubUrl := Some("https://github.com/Sai-Teja-Meka/Content_Moderator-Guardian-AI-"),
    demoUrl := Some("https://contentmoderator.streamlit.app/"),
    featured := true,
    imageUrl := None)

  const InteractivePortfolio: ProjectItem :=
    ProjectItem(
    title := "3D Interactive Portfolio",
    category := "Creative Engineering",
    description := "Immersive 3D portfolio using React Three Fiber with custom GLSL shaders and GPU particle systems. Integrated a Groq-powered AI terminal for natural language Q&A about my skills and experience.",
    tech := ["React Three Fiber", "GLSL", "Groq API", "Zustand"],
    githubUrl := Some("https://github.com/Sai-Teja-Meka/Advanced_UI"),
    demoUrl := Some("https://advanced-ui-iota.vercel.app/"),
    featured := false,
    imageUrl := None)

  /** PROJECTS. */
  const Projects: seq<ProjectItem> := [Chronos, PersonaEngine, ContentClassification, InteractivePortfolio]

  /** The experience ids are pairwise distinct, so they are usable as keys. */
  lemma ExperienceIdsDistinct()
    ensures forall i, j :: 0 <= i < j < |Experience| ==> Experience[i].id != Experience[j].id
  {
  }

  lemma FeaturedTitlesCons(p: ProjectItem, rest: seq<ProjectItem>)
    ensures FeaturedTitles([p] + rest)
         == (if p.featured then [p.title] else []) + FeaturedTitles(rest)
  {
    assert ([p] + rest)[1..] == rest;
  }

  /** Exactly three of the four projects are featured: the first three. */
  lemma ThreeFeaturedProjects()
    ensures |Projects| == 4
    ensures FeaturedTitles(Projects) == [Projects[0].title, Projects[1].title, Projects[2].title]
  {
    var ps := Projects;
    FeaturedTitlesCons(ps[3], []);
    assert [ps[3]] + [] == ps[3..];
    FeaturedTitlesCons(ps[2], ps[3..]);
    assert [ps[2]] + ps[3..] == ps[2..];
    FeaturedTitlesCons(ps[1], ps[2..]);
    assert [ps[1]] + ps[2..] == ps[1..];
    FeaturedTitlesCons(ps[0], ps[1..]);
    assert [ps[0]] + ps[1..] == ps;
  }
}
