/** The experience records shown as planets (lib/data/experience.ts). */
module ExperienceData {
  import opened Wrappers
  import Lookup

  datatype Experience = Experience(
    id: string,
    name: string,
    location: Option<string>,
    role: string,
    period: string,
    kind: string,
    description: string,
    highlights: Option<seq<string>>,
    technologies: seq<string>,
    color: string,
    size: real,
    distance: real)

  function IdOf(e: Experience): string { e.id }

  const Experiences: seq<Experience> := [
    Experience(
      "sports-excitement", "Sports Excitement", Some("New York, NY"),
      "Full Stack Developer Intern", "Mar 2025 - Jul 2025", "velocity",
      "Developed responsive, WCAG/508-compliant UIs and optimized CDN-accelerated delivery pipelines with Cloudflare, serving 10K+ daily users. Integrated GraphQL APIs to improve performance by 30% and architected RBAC authentication modules for PII/PHI data protection.",
      Some([
        "Built high-performance UIs with TypeScript and Tailwind CSS for thousands of daily users",
        "Optimized CDN delivery with Cloudflare, improving latency and reliability",
        "Integrated GraphQL APIs reducing over-fetching and improving response performance by 30%",
        "Enhanced frontend via code splitting, Webpack optimization, and Zustand refactoring",
        "Architected RBAC authentication modules for PII/PHI data protection",
        "Integrated Mapbox and Google OAuth into production applications",
        "Containerized backend services with Docker for enhanced system performance",
        "Collaborated on MVP launch with cross-functional teams"]),
      ["TypeScript", "React", "Node.js", "GraphQL", "Tailwind CSS", "Cloudflare", "Docker", "Zustand", "Supabase", "ElasticSearch", "Mapbox"],
      "#FF2F7B", 1.2, 4.0),
    Experience(
      "accenture", "Accenture", Some("Bangalore, India"),
      "Full Stack Developer", "May 2022 - Dec 2023", "foundation",
      "Developed custom web applications using React.js and Node.js, optimizing frontend performance with Webpack and Redux. Built scalable middleware and data pipelines, reducing bug resolution time by 30% and improving query efficiency by 20%.",
      Some([
        "Developed custom web apps with React.js, HTML5, CSS3, and Bootstrap",
        "Optimized frontend performance with Webpack and Redux, reducing bundle size by 20%",
        "Built scalable middleware and data pipelines with Node.js and Express",
        "Reduced bug resolution time by 30% through analytical debugging",
        "Designed and optimized MySQL schemas, improving query efficiency by 20%",
        "Integrated Razorpay payment gateway, reducing checkout errors by 15%",
        "Improved code reliability with Jest and Mocha unit testing",
        "Ensured WCAG accessibility compliance and security best practices",
        "Deployed and monitored AWS workloads (EC2, Lambda, S3, CloudWatch)",
        "Reduced MTTD incidents by 25% through improved observability"]),
      ["JavaScript", "React.js", "Node.js", "Express", "MySQL", "Redux", "Webpack", "AWS", "Jest", "Mocha", "Bootstrap"],
      "#00D9FF", 1.1, 7.0),
    Experience(
      "uncc-ta-swe", "UNC Charlotte", Some("Charlotte, NC"),
      "Teaching Assistant - Software Development", "Aug 2025 - Present", "knowledge",
      "Guiding students in full-stack development best practices, conducting code reviews and sandbox testing to ensure quality coding standards and reliable development.",
      Some([
        "Collaborated with professor to guide students in full-stack development",
        "Provided mentorship on best practices, debugging, and problem-solving",
        "Conducted code reviews and sandbox testing",
        "Ensured students learn quality coding standards"]),
      ["Full Stack", "Code Review", "Testing", "Mentorship"],
      "#7B2FFF", 0.8, 10.0),
    Experience(
      "uncc-ta-logic", "UNC Charlotte", Some("Charlotte, NC"),
      "Teaching Assistant - Logic & Algorithms", "Jan 2025 - May 2025", "knowledge",
      "Mentored 50+ students in Computer Science fundamentals including data structures, algorithm design, and OOP concepts. Conducted review sessions and built supplementary materials.",
      Some([
        "Mentored 50+ students in data structures and algorithm design",
        "Evaluated programming assignments with detailed feedback",
        "Conducted review sessions simplifying complex algorithmic concepts",
        "Built supplementary materials for student learning"]),
      ["Algorithms", "Data Structures", "OOP", "Teaching"],
      "#FFD700", 0.8, 13.0)
  ]

  /** Each orbit lies strictly outside the previous one. */
  predicate OrbitsIncrease(xs: seq<Experience>)
  {
    forall i :: 0 <= i < |xs| - 1 ==> xs[i].distance < xs[i + 1].distance
  }

  /** Four records, with the four ids in this order, pairwise distinct. */
  lemma ExperienceIds()
    ensures |Experiences| == 4
    ensures Experiences[0].id == "sports-excitement" && Experiences[1].id == "accenture"
    ensures Experiences[2].id == "uncc-ta-swe" && Experiences[3].id == "uncc-ta-logic"
    ensures forall i, j :: 0 <= i < j < |Experiences| ==> Experiences[i].id != Experiences[j].id
  {
  }

  /** Every distance and size is positive and the orbits increase outward. */
  lemma ExperienceGeometry()
    ensures forall i :: 0 <= i < |Experiences| ==> Experiences[i].distance > 0.0 && Experiences[i].size > 0.0
    ensures OrbitsIncrease(Experiences)
  {
  }

  /** Adjacent increase gives increase between any two orbits. */
  lemma {:induction false} OrbitsIncreasePairwise(xs: seq<Experience>, i: nat, j: nat)
    requires OrbitsIncrease(xs) && i < j < |xs|
    ensures xs[i].distance < xs[j].distance
    decreases j - i
  {
    if i + 1 < j {
      OrbitsIncreasePairwise(xs, i + 1, j);
    }
  }

  /** Every record has highlights, at least one of them, and at least one technology. */
  lemma ExperienceContent()
    ensures forall i :: 0 <= i < |Experiences| ==>
      Experiences[i].highlights.Some? && |Experiences[i].highlights.value| > 0 && |Experiences[i].technologies| > 0
  {
  }

  /** Selecting the id of record i shows record i. */
  lemma ExperienceFindById(i: nat)
    requires i < |Experiences|
    ensures Lookup.Find(Experiences, IdOf, Some(Experiences[i].id)) == Some(Experiences[i])
  {
    ExperienceIds();
    Lookup.FindDistinct(Experiences, IdOf, i);
  }
}
