/** The project records shown on the UFO cards (lib/data/projects.ts). */
module ProjectsData {
  import opened Wrappers
  import Lookup

  datatype Project = Project(
    id: string,
    title: string,
    description: string,
    details: string,
    technologies: seq<string>,
    link: Option<string>,
    achievements: Option<seq<string>>)

  function IdOf(p: Project): string { p.id }

  const Projects: seq<Project> := [
    Project(
      "ufo-1", "Orbital Portfolio", "Interactive 3D portfolio using Three.js and React",
      "A fully interactive portfolio website featuring a 3D solar system where each planet represents a different work experience. Built with React Three Fiber for smooth 60 FPS animations and optimized performance.",
      ["Three.js", "React", "TypeScript", "Framer Motion", "Next.js"],
      Some("https://github.com/yourusername/orbital-portfolio"),
      Some(["Built scalable 3D architecture", "Optimized performance by 40%", "Implemented responsive design"])),
    Project(
      "ufo-2", "GraphQL Optimizer", "Performance optimization tools for GraphQL APIs",
      "Advanced GraphQL query optimization toolkit that reduces over-fetching by 30% and improves response times. Features include query analysis, caching strategies, and real-time performance monitoring.",
      ["GraphQL", "Node.js", "Redis", "TypeScript", "Apollo"],
      Some("https://github.com/yourusername/graphql-optimizer"),
      Some(["Reduced API calls by 30%", "Implemented intelligent caching", "Real-time monitoring dashboard"])),
    Project(
      "ufo-3", "Cloud Infrastructure", "Scalable AWS architecture with Docker containers",
      "Enterprise-grade cloud infrastructure setup with automated CI/CD pipelines, container orchestration, and monitoring. Handles 10K+ daily users with 99.9% uptime and auto-scaling capabilities.",
      ["AWS", "Docker", "Kubernetes", "Terraform", "CloudWatch"],
      Some("https://github.com/yourusername/cloud-infra"),
      Some(["99.9% uptime achieved", "Auto-scaling for 10K+ users", "Automated CI/CD pipeline"]))
  ]

  /** Three projects with ids ufo-1, ufo-2 and ufo-3, pairwise distinct. */
  lemma ProjectIds()
    ensures |Projects| == 3
    ensures Projects[0].id == "ufo-1" && Projects[1].id == "ufo-2" && Projects[2].id == "ufo-3"
    ensures forall i, j :: 0 <= i < j < |Projects| ==> Projects[i].id != Projects[j].id
  {
  }

  /** Every project has a non-empty link and exactly three achievements. */
  lemma ProjectContent()
    ensures forall i :: 0 <= i < |Projects| ==>
      Projects[i].link.Some? && Projects[i].link.value != "" &&
      Projects[i].achievements.Some? && |Projects[i].achievements.value| == 3
  {
  }
}
