/** The skill records placed as spheres (lib/data/skills.ts). */
module SkillsData {
  import opened Wrappers

  datatype Skill = Skill(id: string, name: string, category: string, level: int, icon: Option<string>)

  /** The four values of the `category` union type. */
  const Categories: seq<string> := ["frontend", "backend", "cloud", "databases"]

  /** `skillCategories`: the display label of each category. */
  const CategoryLabels: map<string, string> := map[
    "frontend" := "Frontend",
    "backend" := "Backend",
    "cloud" := "Cloud & DevOps",
    "databases" := "Databases"]

  /** The `Frontend - Web Development & UI` group of the list. */
  const FrontendSkills: seq<Skill> := [
    Skill("react", "React.js", "frontend", 5, None),
    Skill("nextjs", "Next.js", "frontend", 5, None),
    Skill("typescript", "TypeScript", "frontend", 5, None),
    Skill("javascript", "JavaScript", "frontend", 5, None),
    Skill("html5", "HTML5", "frontend", 5, None),
    Skill("css3", "CSS3", "frontend", 5, None),
    Skill("tailwind", "Tailwind CSS", "frontend", 5, None),
    Skill("redux", "Redux", "frontend", 5, None),
    Skill("zustand", "Zustand", "frontend", 5, None),
    Skill("reactquery", "React Query", "frontend", 5, None),
    Skill("framermotion", "Framer Motion", "frontend", 5, None),
    Skill("shadcn", "ShadCN UI", "frontend", 5, None),
    Skill("radix", "Radix UI", "frontend", 4, None),
    Skill("chakra", "Chakra UI", "frontend", 4, None),
    Skill("bootstrap", "Bootstrap", "frontend", 4, None),
    Skill("webpack", "Webpack", "frontend", 4, None)
  ]

  /** The `Backend - Languages, Frameworks & APIs` group of the list. */
  const BackendSkills: seq<Skill> := [
    Skill("python", "Python", "backend", 5, None),
    Skill("nodejs", "Node.js", "backend", 5, None),
    Skill("express", "Express.js", "backend", 5, None),
    Skill("go", "Go", "backend", 3, None),
    Skill("flask", "Flask", "backend", 5, None),
    Skill("django", "Django", "backend", 4, None),
    Skill("fastapi", "FastAPI", "backend", 5, None),
    Skill("graphql", "GraphQL", "backend", 4, None),
    Skill("restapi", "REST API", "backend", 5, None),
    Skill("websockets", "WebSockets", "backend", 4, None),
    Skill("webhooks", "WebHooks", "backend", 4, None),
    Skill("oauth", "OAuth", "backend", 5, None),
    Skill("jwt", "JWT", "backend", 5, None),
    Skill("kafka", "Kafka", "backend", 4, None),
    Skill("langchain", "LangChain", "backend", 4, None),
    Skill("openai", "OpenAI", "backend", 4, None)
  ]

  /** The `Cloud & DevOps` group of the list. */
  const CloudSkills: seq<Skill> := [
    Skill("aws", "AWS", "cloud", 5, None),
    Skill("docker", "Docker", "cloud", 5, None),
    Skill("kubernetes", "Kubernetes", "cloud", 4, None),
    Skill("vercel", "Vercel", "cloud", 5, None),
    Skill("cloudflare", "Cloudflare", "cloud", 4, None),
    Skill("terraform", "Terraform", "cloud", 4, None),
    Skill("cicd", "CI/CD", "cloud", 5, None),
    Skill("git", "Git", "cloud", 5, None),
    Skill("github", "GitHub", "cloud", 5, None),
    Skill("jest", "Jest", "cloud", 5, None),
    Skill("cypress", "Cypress", "cloud", 4, None),
    Skill("vitest", "Vitest", "cloud", 4, None),
    Skill("postman", "Postman", "cloud", 5, None)
  ]

  /** The `Databases & ORMs` group of the list. */
  const DatabaseSkills: seq<Skill> := [
    Skill("mongodb", "MongoDB", "databases", 5, None),
    Skill("postgresql", "PostgreSQL", "databases", 5, None),
    Skill("mysql", "MySQL", "databases", 5, None),
    Skill("mssql", "MS SQL", "databases", 4, None),
    Skill("redis", "Redis", "databases", 5, None),
    Skill("elasticsearch", "Elasticsearch", "databases", 4, None),
    Skill("supabase", "Supabase", "databases", 4, None),
    Skill("firebase", "Firebase", "databases", 5, None),
    Skill("prisma", "Prisma", "databases", 5, None),
    Skill("mongoose", "Mongoose", "databases", 5, None),
    Skill("sequelize", "Sequelize", "databases", 4, None)
  ]

  /** `skills`: the four groups in source order. */
  const Skills: seq<Skill> := FrontendSkills + BackendSkills + CloudSkills + DatabaseSkills

  /** Each group holds only skills of its own category, with levels in 1..5. */
  predicate Group(g: seq<Skill>, category: string)
  {
    forall k :: 0 <= k < |g| ==> g[k].category == category && 1 <= g[k].level <= 5
  }

  /** The size, category and levels of each group, one group at a time. */
  lemma FrontendGroup()
    ensures |FrontendSkills| == 16 && Group(FrontendSkills, "frontend")
  {
  }
  lemma BackendGroup()
    ensures |BackendSkills| == 16 && Group(BackendSkills, "backend")
  {
  }
  lemma CloudGroup()
    ensures |CloudSkills| == 13 && Group(CloudSkills, "cloud")
  {
  }
  lemma DatabaseGroup()
    ensures |DatabaseSkills| == 11 && Group(DatabaseSkills, "databases")
  {
  }

  /** The four groups: their sizes and categories. */
  lemma GroupFacts()
    ensures |FrontendSkills| == 16 && Group(FrontendSkills, "frontend")
    ensures |BackendSkills| == 16 && Group(BackendSkills, "backend")
    ensures |CloudSkills| == 13 && Group(CloudSkills, "cloud")
    ensures |DatabaseSkills| == 11 && Group(DatabaseSkills, "databases")
  {
    FrontendGroup();
    BackendGroup();
    CloudGroup();
    DatabaseGroup();
  }

  /** The position of an id in the list, -1 for an unknown id; the ids are looked up by length and first letter. */
  function Position(id: string): int
  {
    match |id|
    case 2 => if id == "go" then 19 else -1
    case 3 =>
      (match id[0]
      case 'j' => if id == "jwt" then 28 else -1
      case 'a' => if id == "aws" then 32 else -1
      case 'g' => if id == "git" then 39 else -1
      case _ => -1)
    case 4 =>
      (match id[0]
      case 'c' => if id == "css3" then 5 else if id == "cicd" then 38 else -1
      case 'j' => if id == "jest" then 41 else -1
      case _ => -1)
    case 5 =>
      (match id[0]
      case 'r' => if id == "react" then 0 else if id == "redux" then 7 else if id == "radix" then 12 else if id == "redis" then 49 else -1
      case 'h' => if id == "html5" then 4 else -1
      case 'f' => if id == "flask" then 20 else -1
      case 'o' => if id == "oauth" then 27 else -1
      case 'k' => if id == "kafka" then 29 else -1
      case 'm' => if id == "mysql" then 47 else if id == "mssql" then 48 else -1
      case _ => -1)
    case 6 =>
      (match id[0]
      case 'n' => if id == "nextjs" then 1 else if id == "nodejs" then 17 else -1
      case 's' => if id == "shadcn" then 11 else -1
      case 'c' => if id == "chakra" then 13 else -1
      case 'p' => if id == "python" then 16 else if id == "prisma" then 53 else -1
      case 'd' => if id == "django" then 21 else if id == "docker" then 33 else -1
      case 'o' => if id == "openai" then 31 else -1
      case 'v' => if id == "vercel" then 35 else if id == "vitest" then 43 else -1
      case 'g' => if id == "github" then 40 else -1
      case _ => -1)
    case 7 =>
      (match id[0]
      case 'z' => if id == "zustand" then 8 else -1
      case 'w' => if id == "webpack" then 15 else -1
      case 'e' => if id == "express" then 18 else -1
      case 'f' => if id == "fastapi" then 22 else -1
      case 'g' => if id == "graphql" then 23 else -1
      case 'r' => if id == "restapi" then 24 else -1
      case 'c' => if id == "cypress" then 42 else -1
      case 'p' => if id == "postman" then 44 else -1
      case 'm' => if id == "mongodb" then 45 else -1
      case _ => -1)
    case 8 =>
      (match id[0]
      case 't' => if id == "tailwind" then 6 else -1
      case 'w' => if id == "webhooks" then 26 else -1
      case 's' => if id == "supabase" then 51 else -1
      case 'f' => if id == "firebase" then 52 else -1
      case 'm' => if id == "mongoose" then 54 else -1
      case _ => -1)
    case 9 =>
      (match id[0]
      case 'b' => if id == "bootstrap" then 14 else -1
      case 'l' => if id == "langchain" then 30 else -1
      case 't' => if id == "terraform" then 37 else -1
      case 's' => if id == "sequelize" then 55 else -1
      case _ => -1)
    case 10 =>
      (match id[0]
      case 't' => if id == "typescript" then 2 else -1
      case 'j' => if id == "javascript" then 3 else -1
      case 'r' => if id == "reactquery" then 9 else -1
      case 'w' => if id == "websockets" then 25 else -1
      case 'k' => if id == "kubernetes" then 34 else -1
      case 'c' => if id == "cloudflare" then 36 else -1
      case 'p' => if id == "postgresql" then 46 else -1
      case _ => -1)
    case 12 => if id == "framermotion" then 10 else -1
    case 13 => if id == "elasticsearch" then 50 else -1
    case _ => -1
  }

  /** Each id of a group sits at its own position of the list. */
  lemma PositionInFrontendSkills(k: nat)
    requires k < |FrontendSkills|
    ensures Position(FrontendSkills[k].id) == k
  {
    if k == 0 { assert FrontendSkills[0].id == "react"; }
    else if k == 1 { assert FrontendSkills[1].id == "nextjs"; }
    else if k == 2 { assert FrontendSkills[2].id == "typescript"; }
    else if k == 3 { assert FrontendSkills[3].id == "javascript"; }
    else if k == 4 { assert FrontendSkills[4].id == "html5"; }
    else if k == 5 { assert FrontendSkills[5].id == "css3"; }
    else if k == 6 { assert FrontendSkills[6].id == "tailwind"; }
    else if k == 7 { assert FrontendSkills[7].id == "redux"; }
    else if k == 8 { assert FrontendSkills[8].id == "zustand"; }
    else if k == 9 { assert FrontendSkills[9].id == "reactquery"; }
    else if k == 10 { assert FrontendSkills[10].id == "framermotion"; }
    else if k == 11 { assert FrontendSkills[11].id == "shadcn"; }
    else if k == 12 { assert FrontendSkills[12].id == "radix"; }
    else if k == 13 { assert FrontendSkills[13].id == "chakra"; }
    else if k == 14 { assert FrontendSkills[14].id == "bootstrap"; }
    else if k == 15 { assert FrontendSkills[15].id == "webpack"; }
  }

  lemma PositionInBackendSkills(k: nat)
    requires k < |BackendSkills|
    ensures Position(BackendSkills[k].id) == 16 + k
  {
    if k == 0 { assert BackendSkills[0].id == "python"; }
    else if k == 1 { assert BackendSkills[1].id == "nodejs"; }
    else if k == 2 { assert BackendSkills[2].id == "express"; }
    else if k == 3 { assert BackendSkills[3].id == "go"; }
    else if k == 4 { assert BackendSkills[4].id == "flask"; }
    else if k == 5 { assert BackendSkills[5].id == "django"; }
    else if k == 6 { assert BackendSkills[6].id == "fastapi"; }
    else if k == 7 { assert BackendSkills[7].id == "graphql"; }
    else if k == 8 { assert BackendSkills[8].id == "restapi"; }
    else if k == 9 { assert BackendSkills[9].id == "websockets"; }
    else if k == 10 { assert BackendSkills[10].id == "webhooks"; }
    else if k == 11 { assert BackendSkills[11].id == "oauth"; }
    else if k == 12 { assert BackendSkills[12].id == "jwt"; }
    else if k == 13 { assert BackendSkills[13].id == "kafka"; }
    else if k == 14 { assert BackendSkills[14].id == "langchain"; }
    else if k == 15 { assert BackendSkills[15].id == "openai"; }
  }

  lemma PositionInCloudSkills(k: nat)
    requires k < |CloudSkills|
    ensures Position(CloudSkills[k].id) == 32 + k
  {
    if k == 0 { assert CloudSkills[0].id == "aws"; }
    else if k == 1 { assert CloudSkills[1].id == "docker"; }
    else if k == 2 { assert CloudSkills[2].id == "kubernetes"; }
    else if k == 3 { assert CloudSkills[3].id == "vercel"; }
    else if k == 4 { assert CloudSkills[4].id == "cloudflare"; }
    else if k == 5 { assert CloudSkills[5].id == "terraform"; }
    else if k == 6 { assert CloudSkills[6].id == "cicd"; }
    else if k == 7 { assert CloudSkills[7].id == "git"; }
    else if k == 8 { assert CloudSkills[8].id == "github"; }
    else if k == 9 { assert CloudSkills[9].id == "jest"; }
    else if k == 10 { assert CloudSkills[10].id == "cypress"; }
    else if k == 11 { assert CloudSkills[11].id == "vitest"; }
    else if k == 12 { assert CloudSkills[12].id == "postman"; }
  }

  lemma PositionInDatabaseSkills(k: nat)
    requires k < |DatabaseSkills|
    ensures Position(DatabaseSkills[k].id) == 45 + k
  {
    if k == 0 { assert DatabaseSkills[0].id == "mongodb"; }
    else if k == 1 { assert DatabaseSkills[1].id == "postgresql"; }
    else if k == 2 { assert DatabaseSkills[2].id == "mysql"; }
    else if k == 3 { assert DatabaseSkills[3].id == "mssql"; }
    else if k == 4 { assert DatabaseSkills[4].id == "redis"; }
    else if k == 5 { assert DatabaseSkills[5].id == "elasticsearch"; }
    else if k == 6 { assert DatabaseSkills[6].id == "supabase"; }
    else if k == 7 { assert DatabaseSkills[7].id == "firebase"; }
    else if k == 8 { assert DatabaseSkills[8].id == "prisma"; }
    else if k == 9 { assert DatabaseSkills[9].id == "mongoose"; }
    else if k == 10 { assert DatabaseSkills[10].id == "sequelize"; }
  }

  /** Every position of the list, with the group it comes from. */
  lemma SkillAt(k: nat)
    requires k < |Skills|
    ensures k < 16 ==> Skills[k] == FrontendSkills[k]
    ensures 16 <= k < 32 ==> Skills[k] == BackendSkills[k - 16]
    ensures 32 <= k < 45 ==> Skills[k] == CloudSkills[k - 32]
    ensures 45 <= k ==> Skills[k] == DatabaseSkills[k - 45]
  {
    GroupFacts();
  }

  /**
   * 56 skills; every level lies in 1..5 as the field's comment states, and
   * every category is one of the four and has a label.
   */
  lemma SkillsWellFormed()
    ensures |Skills| == 56
    ensures forall k :: 0 <= k < |Skills| ==> 1 <= Skills[k].level <= 5
    ensures forall k :: 0 <= k < |Skills| ==> Skills[k].category in Categories && Skills[k].category in CategoryLabels
  {
    GroupFacts();
    forall k | 0 <= k < |Skills|
      ensures 1 <= Skills[k].level <= 5
      ensures Skills[k].category in Categories && Skills[k].category in CategoryLabels
    {
      SkillAt(k);
    }
  }

  /** The list is grouped: the skills of one category are contiguous, in the order of `Categories`. */
  lemma SkillsGrouped(k: nat)
    requires k < |Skills|
    ensures Skills[k].category == "frontend" <==> k < 16
    ensures Skills[k].category == "backend" <==> 16 <= k < 32
    ensures Skills[k].category == "cloud" <==> 32 <= k < 45
    ensures Skills[k].category == "databases" <==> 45 <= k
  {
    GroupFacts();
    SkillAt(k);
  }

  /** Skill ids are pairwise distinct; the scene uses them as React keys. */
  lemma SkillIdsDistinct()
    ensures forall i, j :: 0 <= i < j < |Skills| ==> Skills[i].id != Skills[j].id
  {
    forall i, j | 0 <= i < j < |Skills|
      ensures Skills[i].id != Skills[j].id
    {
      PositionOf(i);
      PositionOf(j);
    }
  }

  /** The id at position k has position k, so no id occurs twice. */
  lemma PositionOf(k: nat)
    requires k < |Skills|
    ensures Position(Skills[k].id) == k
  {
    GroupFacts();
    SkillAt(k);
    if k < 16 {
      PositionInFrontendSkills(k);
    } else if k < 32 {
      PositionInBackendSkills(k - 16);
    } else if k < 45 {
      PositionInCloudSkills(k - 32);
    } else {
      PositionInDatabaseSkills(k - 45);
    }
  }
}
