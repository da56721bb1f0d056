/** The project showcase: the category filter over the fixed project list,
    the tech-stack icon lookup and the hovered card. */
module Projects {
  import opened Wrappers

  datatype Icon = Code | Server | Database | Palette | Globe

  datatype Project = Project(id: nat, title: string, techStack: seq<string>, category: string, featured: bool)

  const AllProjects: seq<Project> := [
    Project(1, "E-Commerce Platform",
            ["React", "Nodejs", "MongoDB", "Stripe", "Tailwind CSS", "Cloudinary"], "Full Stack", true),
    Project(2, "Swift-Pay",
            ["Next", "Typescript", "Prisma", "Postgresql", "AWS EC2", "Docker"], "AI/ML", true),
    Project(3, "Portfolio Website",
            ["Next.js", "Vapi", "Make.com", "lucide react"], "Frontend", false),
    Project(4, "Airline Ticket Booking System",
            ["Express.js", "RabbitMQ", "JWT", "Microservices", "MySQL"], "Backend", false),
    Project(5, "Smart Route Planner",
            ["Google Colab", "Pandas", "Matplotlib", "Mapbox", "Vite", "Python", "Digital Ocean"], "AI/ML", false),
    Project(6, "VisualSense",
            ["Cloudinary", "Next.js", "Clerk", "Zod", "MongoDB", "Stripe", "lucide-react"], "AI/ML", true)
  ]

  const TechStackIcons: map<string, Icon> := map[
    "Next.js" := Code, "React" := Code, "Vue.js" := Code, "TypeScript" := Code,
    "JavaScript" := Code, "Node.js" := Server, "Python" := Code, "Django" := Server,
    "PostgreSQL" := Database, "MongoDB" := Database, "Firebase" := Database,
    "Tailwind CSS" := Palette, "CSS3" := Palette, "Material-UI" := Palette,
    "Bootstrap" := Palette, "Socket.io" := Globe, "OpenAI API" := Code,
    "OpenWeather API" := Globe, "Stripe" := Code, "Chart.js" := Code, "D3.js" := Code,
    "Framer Motion" := Code, "Redux" := Code
  ]

  /** The filter buttons, in display order. */
  const Categories: seq<string> := ["All", "Full Stack", "Frontend", "AI/ML", "Data Science"]

  const AllCategory := "All"

  /** `a` is `b` with some elements left out, the rest in the same order. */
  predicate IsSubsequence<T(==)>(a: seq<T>, b: seq<T>)
    decreases |b|
  {
    if a == [] then true
    else if b == [] then false
    else if a[0] == b[0] then IsSubsequence(a[1..], b[1..])
    else IsSubsequence(a, b[1..])
  }

  /** `ps.filter(p => p.category === category)`. */
  function FilterByCategory(ps: seq<Project>, category: string): (r: seq<Project>)
    ensures |r| <= |ps|
    ensures forall p :: multiset(r)[p] == if p.category == category then multiset(ps)[p] else 0
    ensures IsSubsequence(r, ps)
  {
    if ps == [] then []
    else
      var rest := FilterByCategory(ps[1..], category);
      assert ps == [ps[0]] + ps[1..];
      if ps[0].category == category then
        [ps[0]] + rest
      else
        SubsequenceOfTail(rest, ps);
        rest
  }

  /** A project is kept iff it is in the list and of the category; nothing is
      kept iff no project is of the category. */
  lemma FilterByCategoryMembers(ps: seq<Project>, category: string)
    ensures forall p :: p in FilterByCategory(ps, category) <==> p in ps && p.category == category
    ensures FilterByCategory(ps, category) == []
            <==> forall i :: 0 <= i < |ps| ==> ps[i].category != category
  {
    var r := FilterByCategory(ps, category);
    forall p
      ensures p in r <==> p in ps && p.category == category
    {
      assert p in r <==> p in multiset(r);
      assert p in ps <==> p in multiset(ps);
    }
    if r != [] {
      assert r[0] in r;
    }
  }

  /** A subsequence of the tail is a subsequence of the whole. */
  lemma {:induction false} SubsequenceOfTail<T>(a: seq<T>, b: seq<T>)
    requires b != [] && IsSubsequence(a, b[1..])
    ensures IsSubsequence(a, b)
    decreases |b|, 0
  {
    if a != [] && a[0] == b[0] {
      SubsequenceDropFirst(a, b[1..]);
    }
  }

  /** Dropping the first element keeps a subsequence a subsequence. */
  lemma {:induction false} SubsequenceDropFirst<T>(a: seq<T>, b: seq<T>)
    requires a != [] && IsSubsequence(a, b)
    ensures IsSubsequence(a[1..], b)
    decreases |b|, 1
  {
    if b != [] {
      if a[0] == b[0] {
        if a[1..] != [] {
          SubsequenceOfTail(a[1..], b);
        }
      } else {
        SubsequenceDropFirst(a, b[1..]);
        if a[1..] != [] {
          SubsequenceOfTail(a[1..], b);
        }
      }
    }
  }

  /** filteredProjects over a project list: all of it under "All",
      otherwise those of the selected category. */
  function Filtered(ps: seq<Project>, selectedCategory: string): (r: seq<Project>)
    ensures |r| <= |ps| && IsSubsequence(r, ps)
    ensures forall p :: p in r ==> p in ps
  {
    if selectedCategory == AllCategory then
      SubsequenceOfItself(ps);
      ps
    else
      FilterByCategoryMembers(ps, selectedCategory);
      FilterByCategory(ps, selectedCategory)
  }

  /** Every list is a subsequence of itself. */
  lemma {:induction false} SubsequenceOfItself<T>(a: seq<T>)
    ensures IsSubsequence(a, a)
    decreases |a|
  {
    if a != [] {
      SubsequenceOfItself(a[1..]);
    }
  }

  /** The grid the section shows for the selected category. */
  function FilteredProjects(selectedCategory: string): (r: seq<Project>)
    ensures |r| <= |AllProjects|
    ensures forall p :: p in r ==> p in AllProjects
  {
    Filtered(AllProjects, selectedCategory)
  }

  /** "All" yields the full list; any other category yields exactly the
      projects of that category, each as often as in the list, in list order. */
  lemma FilteredSpec(ps: seq<Project>, selectedCategory: string)
    ensures selectedCategory == AllCategory ==> Filtered(ps, selectedCategory) == ps
    ensures selectedCategory != AllCategory ==>
              var r := Filtered(ps, selectedCategory);
              && IsSubsequence(r, ps)
              && (forall p :: p in r <==> p in ps && p.category == selectedCategory)
              && (forall p :: multiset(r)[p] == if p.category == selectedCategory then multiset(ps)[p] else 0)
  {
    if selectedCategory != AllCategory {
      FilterByCategoryMembers(ps, selectedCategory);
    }
  }

  /** The "Backend" project is listed only under "All": no filter button
      names its category. */
  lemma BackendOnlyUnderAll(c: string)
    requires c in Categories && c != AllCategory
    ensures AllProjects[3] !in FilteredProjects(c)
  {
    var backend := AllProjects[3];
    assert backend.category == "Backend";
    assert c != "Backend";
    FilteredSpec(AllProjects, c);
  }

  /** "Data Science" has a button but no project: choosing it empties the
      grid. */
  lemma DataScienceShowsNothing()
    ensures FilteredProjects("Data Science") == []
  {
    var cats := [AllProjects[0].category, AllProjects[1].category, AllProjects[2].category,
                 AllProjects[3].category, AllProjects[4].category, AllProjects[5].category];
    assert cats == ["Full Stack", "AI/ML", "Frontend", "Backend", "AI/ML", "AI/ML"];
    assert forall i :: 0 <= i < |AllProjects| ==> AllProjects[i].category == cats[i];
    FilterByCategoryMembers(AllProjects, "Data Science");
    assert FilteredProjects("Data Science") == FilterByCategory(AllProjects, "Data Science");
  }

  /** The icon drawn beside a tech name: its table entry, or Code. */
  function IconFor(tech: string): (icon: Icon)
    ensures tech in TechStackIcons ==> icon == TechStackIcons[tech]
    ensures tech !in TechStackIcons ==> icon == Code
  {
    if tech in TechStackIcons then TechStackIcons[tech] else Code
  }

  /** The lookup is by exact name: "Nodejs", as the first project spells it,
      falls back to Code while "Node.js" would get Server. */
  lemma IconLookupIsExact()
    ensures IconFor("Nodejs") == Code && IconFor("Node.js") == Server
  {
  }

  /** The showcase's own state: the selected filter and the hovered card. */
  class ProjectsSection {
    var hoveredProject: Option<nat>
    var selectedCategory: string

    constructor ()
      ensures hoveredProject == None && selectedCategory == AllCategory
    {
      hoveredProject := None;
      selectedCategory := AllCategory;
    }

    /** The cards in the grid. */
    function Shown(): seq<Project>
      reads this
    {
      FilteredProjects(selectedCategory)
    }

    method SelectCategory(c: string)
      modifies this
      ensures selectedCategory == c && hoveredProject == old(hoveredProject)
      ensures Shown() == FilteredProjects(c)
    {
      selectedCategory := c;
    }

    method MouseEnter(p: Project)
      modifies this
      ensures hoveredProject == Some(p.id) && selectedCategory == old(selectedCategory)
    {
      hoveredProject := Some(p.id);
    }

    method MouseLeave()
      modifies this
      ensures hoveredProject == None && selectedCategory == old(selectedCategory)
    {
      hoveredProject := None;
    }
  }
}
