/**
 * The skills section (components/sections/Skills.tsx): a purple-and-white
 * starfield, a ring layout of the skill spheres coloured by category, and
 * a random subset of same-category pairs joined by lines.
 *
 * Each `useMemo` that calls `Math.random()` is given its own oracle: the
 * layout draws 2 values per skill, the connection scan one per candidate
 * pair, the starfield 4 per star.
 */
module Skills {
  import opened Numeric
  import opened Starfield
  import SkillsData
  import Scene

  // ---------------------------------------------------------------- starfield

  const StarCount: nat := 2500
  const Purple: Vec3 := Vec3(0.6, 0.4, 0.9)
  const Pale: Vec3 := Vec3(0.9, 0.9, 1.0)

  /** Radius `60 + Math.random() * 60`; a star is purple when its fourth draw exceeds 0.85. */
  const Stars: Tinted := Tinted(60.0, 60.0, 0.85, Purple, Pale)

  /** The starfield buffers: 2500 stars in the shell [60, 120), each purple exactly when its colour draw exceeds 0.85. */
  method FillStarfield(rnd: Random, trig: Trig) returns (positions: array<real>, colors: array<real>)
    ensures positions.Length == 3 * StarCount && colors.Length == 3 * StarCount
    ensures forall k :: 0 <= k < StarCount ==> At(positions[..], k) == Star(rnd, trig, 4, k, 60.0, 60.0)
    ensures forall k :: 0 <= k < StarCount ==> 3600.0 <= NormSq(At(positions[..], k)) < 14400.0
    ensures forall k :: 0 <= k < StarCount ==> (At(colors[..], k) == Purple <==> rnd(4 * k + 3) > 0.85)
    ensures forall k :: 0 <= k < StarCount ==> At(colors[..], k) == Purple || At(colors[..], k) == Pale
  {
    positions, colors := FillTinted(StarCount, rnd, trig, Stars);
    forall k | 0 <= k < StarCount
      ensures 3600.0 <= NormSq(At(positions[..], k)) < 14400.0
    {
      StarInShell(rnd, trig, 4, k, 60.0, 60.0);
    }
  }

  /** The frame callback: delta * 0.02 about y and delta * 0.005 about x, if the ref is attached. */
  method StarfieldFrame(stars: Scene.Object3D?, delta: real)
    modifies stars
    ensures stars != null ==> stars.rotationY == old(stars.rotationY) + delta * 0.02
    ensures stars != null ==> stars.rotationX == old(stars.rotationX) + delta * 0.005
    ensures stars != null ==> stars.positionY == old(stars.positionY) && stars.opacity == old(stars.opacity)
    ensures stars != null ==> stars.scaleX == old(stars.scaleX) && stars.scaleY == old(stars.scaleY) && stars.scaleZ == old(stars.scaleZ)
  {
    Scene.Spin(stars, delta, 0.02, 0.005);
  }

  // ---------------------------------------------------------------- layout

  /** `categoryColors`. */
  const CategoryColors: map<string, string> := map[
    "frontend" := "#f97316",
    "backend" := "#8b5cf6",
    "cloud" := "#eab308",
    "databases" := "#06b6d4"]

  const Fallback: string := "#ffffff"

  /** `categoryColors[category] || '#ffffff'` (every table entry is a non-empty string). */
  function CategoryColor(category: string): (c: string)
  {
    if category in CategoryColors then CategoryColors[category] else Fallback
  }

  /** The four categories get four different colours, none of them the fallback; anything else gets the fallback. */
  lemma ColorsTellCategoriesApart(a: string, b: string)
    ensures a in SkillsData.Categories ==> CategoryColor(a) != Fallback
    ensures a !in SkillsData.Categories ==> CategoryColor(a) == Fallback
    ensures a in SkillsData.Categories && b in SkillsData.Categories && CategoryColor(a) == CategoryColor(b) ==> a == b
  {
  }

  /** A sphere of the layout: its skill, its position and its colour. */
  datatype Placed = Placed(skill: SkillsData.Skill, position: Vec3, color: string)

  /** `(index / skillsData.length) * Math.PI * 2`. */
  function Angle(i: nat, n: nat): (r: real)
    requires i < n
    ensures 0.0 <= r < 2.0 * Pi
  {
    assert (i as real) / (n as real) < 1.0;
    (i as real) / (n as real) * Pi * 2.0
  }

  /** Later skills sit at strictly larger angles. */
  lemma AngleIncreasing(i: nat, j: nat, n: nat)
    requires i < j < n
    ensures Angle(i, n) < Angle(j, n)
  {
    assert (i as real) / (n as real) < (j as real) / (n as real);
  }

  /** Skill i of the list: radius `10 + r * 6` and height `(r - 0.5) * 8`, draws 2i and 2i + 1. */
  function Placement(skills: seq<SkillsData.Skill>, rnd: Random, trig: Trig, i: nat): Placed
    requires i < |skills|
  {
    var angle := Angle(i, |skills|);
    var radius := 10.0 + rnd(2 * i) * 6.0;
    var height := (rnd(2 * i + 1) - 0.5) * 8.0;
    Placed(skills[i], Vec3(trig.cos(angle) * radius, height, trig.sin(angle) * radius), CategoryColor(skills[i].category))
  }

  /**
   * Every sphere lies on the ring between the horizontal radii 10 and 16, at
   * a height in [-4, 4), and carries its skill and its category's colour.
   */
  lemma PlacementBounds(skills: seq<SkillsData.Skill>, rnd: Random, trig: Trig, i: nat)
    requires i < |skills|
    ensures Placement(skills, rnd, trig, i).skill == skills[i]
    ensures Placement(skills, rnd, trig, i).color == CategoryColor(skills[i].category)
    ensures -4.0 <= Placement(skills, rnd, trig, i).position.y < 4.0
    ensures 100.0 <= Placement(skills, rnd, trig, i).position.x * Placement(skills, rnd, trig, i).position.x
                   + Placement(skills, rnd, trig, i).position.z * Placement(skills, rnd, trig, i).position.z < 256.0
  {
    var angle := Angle(i, |skills|);
    var radius := 10.0 + rnd(2 * i) * 6.0;
    var c, s := trig.cos(angle), trig.sin(angle);
    assert c * c + s * s == 1.0;
    assert (c * radius) * (c * radius) + (s * radius) * (s * radius) == (c * c + s * s) * (radius * radius);
    assert rnd(2 * i) * 6.0 < 6.0;
    SquareBounds(10.0, radius, 16.0);
    assert rnd(2 * i + 1) * 8.0 < 8.0;
  }

  /** The `forEach` that pushes one entry per skill, in list order. */
  method LayoutSkills(skills: seq<SkillsData.Skill>, rnd: Random, trig: Trig) returns (placed: seq<Placed>)
    ensures |placed| == |skills|
    ensures forall i :: 0 <= i < |skills| ==> placed[i] == Placement(skills, rnd, trig, i)
  {
    placed := [];
    var index := 0;
    while index < |skills|
      invariant 0 <= index <= |skills| && |placed| == index
      invariant forall i :: 0 <= i < index ==> placed[i] == Placement(skills, rnd, trig, i)
    {
      var angle := (index as real) / (|skills| as real) * Pi * 2.0;
      var radius := 10.0 + rnd(2 * index) * 6.0;
      var height := (rnd(2 * index + 1) - 0.5) * 8.0;
      var skill := skills[index];
      placed := placed + [Placed(skill, Vec3(trig.cos(angle) * radius, height, trig.sin(angle) * radius), CategoryColor(skill.category))];
      index := index + 1;
    }
  }

  /** For the shipped list every sphere is coloured from the table, never with the fallback. */
  lemma ShippedColors(rnd: Random, trig: Trig, i: nat)
    requires i < |SkillsData.Skills|
    ensures Placement(SkillsData.Skills, rnd, trig, i).color == CategoryColors[SkillsData.Skills[i].category]
  {
    SkillsData.SkillsWellFormed();
  }

  // ---------------------------------------------------------------- connections

  /** `{ start, end }`. */
  datatype Connection = Connection(start: Vec3, end: Vec3)

  /** The scan's state: the index pairs joined so far and the number of draws made. */
  datatype Scan = Scan(links: seq<(nat, nat)>, draws: nat)

  /**
   * The inner body for the pair (i, j). The condition short-circuits, so a
   * draw is made only for a pair with i < j in the same category, and the
   * pair is joined when that draw exceeds 0.6.
   */
  function Cell(placed: seq<Placed>, rnd: Random, i: nat, j: nat, s: Scan): Scan
    requires i < |placed| && j < |placed|
  {
    if i < j && placed[i].skill.category == placed[j].skill.category then
      Scan(if rnd(s.draws) > 0.6 then s.links + [(i, j)] else s.links, s.draws + 1)
    else s
  }

  /** Row i after its first j cells, starting from s. */
  function AfterCells(placed: seq<Placed>, rnd: Random, i: nat, j: nat, s: Scan): Scan
    requires i < |placed| && j <= |placed|
    decreases j
  {
    if j == 0 then s else Cell(placed, rnd, i, j - 1, AfterCells(placed, rnd, i, j - 1, s))
  }

  /** The scan after its first i rows. */
  function AfterRows(placed: seq<Placed>, rnd: Random, i: nat): Scan
    requires i <= |placed|
    decreases i
  {
    if i == 0 then Scan([], 0) else AfterCells(placed, rnd, i - 1, |placed|, AfterRows(placed, rnd, i - 1))
  }

  /** The joined index pairs of the whole scan. */
  function Links(placed: seq<Placed>, rnd: Random): seq<(nat, nat)>
  {
    AfterRows(placed, rnd, |placed|).links
  }

  /** Pair p comes before pair q in the scan's row-major order. */
  predicate Before(p: (nat, nat), q: (nat, nat))
  {
    p.0 < q.0 || (p.0 == q.0 && p.1 < q.1)
  }

  /** A valid same-category pair of the layout, lower index first. */
  predicate Related(placed: seq<Placed>, p: (nat, nat))
  {
    p.0 < p.1 < |placed| && placed[p.0].skill.category == placed[p.1].skill.category
  }

  /** What holds of the scan before cell (i, j): every link is related, they are in scan order, all before (i, j), and no more links than draws. */
  predicate ScanInv(placed: seq<Placed>, s: Scan, i: nat, j: nat)
  {
    (forall k :: 0 <= k < |s.links| ==> Related(placed, s.links[k]) && Before(s.links[k], (i, j))) &&
    (forall k, l :: 0 <= k < l < |s.links| ==> Before(s.links[k], s.links[l])) &&
    |s.links| <= s.draws
  }

  lemma CellInv(placed: seq<Placed>, rnd: Random, i: nat, j: nat, s: Scan)
    requires i < |placed| && j < |placed| && ScanInv(placed, s, i, j)
    ensures ScanInv(placed, Cell(placed, rnd, i, j, s), i, j + 1)
  {
  }

  lemma {:induction false} CellsInv(placed: seq<Placed>, rnd: Random, i: nat, j: nat, s: Scan)
    requires i < |placed| && j <= |placed| && ScanInv(placed, s, i, 0)
    ensures ScanInv(placed, AfterCells(placed, rnd, i, j, s), i, j)
    decreases j
  {
    if j > 0 {
      CellsInv(placed, rnd, i, j - 1, s);
      CellInv(placed, rnd, i, j - 1, AfterCells(placed, rnd, i, j - 1, s));
    }
  }

  lemma {:induction false} RowsInv(placed: seq<Placed>, rnd: Random, i: nat)
    requires i <= |placed|
    ensures ScanInv(placed, AfterRows(placed, rnd, i), i, 0)
    decreases i
  {
    if i > 0 {
      RowsInv(placed, rnd, i - 1);
      CellsInv(placed, rnd, i - 1, |placed|, AfterRows(placed, rnd, i - 1));
    }
  }

  /**
   * Every connection joins two skills of the same category, lower index
   * first (so no self-loops), and the pairs come in strictly increasing
   * row-major order (so no pair twice).
   */
  lemma LinksRelated(placed: seq<Placed>, rnd: Random)
    ensures forall k :: 0 <= k < |Links(placed, rnd)| ==> Related(placed, Links(placed, rnd)[k])
    ensures forall k, l :: 0 <= k < l < |Links(placed, rnd)| ==> Before(Links(placed, rnd)[k], Links(placed, rnd)[l])
  {
    RowsInv(placed, rnd, |placed|);
  }

  /** All same-category pairs of the layout, lower index first. */
  function SameCategoryPairs(placed: seq<Placed>): set<(nat, nat)>
  {
    set a: nat, b: nat | a < b < |placed| && placed[a].skill.category == placed[b].skill.category :: (a, b)
  }

  lemma {:induction false} DistinctCard<T>(s: seq<T>)
    requires forall k, l :: 0 <= k < l < |s| ==> s[k] != s[l]
    ensures |set x | x in s| == |s|
    decreases |s|
  {
    if s != [] {
      var init := s[..|s| - 1];
      DistinctCard(init);
      assert (set x | x in s) == (set x | x in init) + {s[|s| - 1]};
      assert s[|s| - 1] !in init;
    }
  }

  lemma {:induction false} SubsetCard<T>(a: set<T>, b: set<T>)
    requires a <= b
    ensures |a| <= |b|
    decreases |a|
  {
    if a != {} {
      var x :| x in a;
      SubsetCard(a - {x}, b - {x});
    }
  }

  /** There are never more connections than same-category pairs. */
  lemma LinksBounded(placed: seq<Placed>, rnd: Random)
    ensures |Links(placed, rnd)| <= |SameCategoryPairs(placed)|
  {
    var links := Links(placed, rnd);
    LinksRelated(placed, rnd);
    forall k, l | 0 <= k < l < |links|
      ensures links[k] != links[l]
    {
    }
    DistinctCard(links);
    forall p | p in links
      ensures p in SameCategoryPairs(placed)
    {
    }
    var joined := set p | p in links;
    SubsetCard(joined, SameCategoryPairs(placed));
  }

  /** The connections drawn for a list of joined pairs. */
  function Joined(placed: seq<Placed>, links: seq<(nat, nat)>): (r: seq<Connection>)
    requires forall k :: 0 <= k < |links| ==> Related(placed, links[k])
    ensures |r| == |links|
  {
    seq(|links|, k requires 0 <= k < |links| && Related(placed, links[k]) => Connection(placed[links[k].0].position, placed[links[k].1].position))
  }

  /** The inner `forEach` for row i, continuing the scan from `links0` and `draws0`. */
  method ScanRow(placed: seq<Placed>, rnd: Random, i: nat, ghost links0: seq<(nat, nat)>, draws0: nat, conns0: seq<Connection>)
    returns (ghost links: seq<(nat, nat)>, draws: nat, conns: seq<Connection>)
    requires i < |placed| && ScanInv(placed, Scan(links0, draws0), i, 0) && conns0 == Joined(placed, links0)
    ensures Scan(links, draws) == AfterCells(placed, rnd, i, |placed|, Scan(links0, draws0))
    ensures ScanInv(placed, Scan(links, draws), i, |placed|)
    ensures conns == Joined(placed, links)
  {
    links, draws, conns := links0, draws0, conns0;
    var j := 0;
    while j < |placed|
      invariant 0 <= j <= |placed|
      invariant Scan(links, draws) == AfterCells(placed, rnd, i, j, Scan(links0, draws0))
      invariant ScanInv(placed, Scan(links, draws), i, j)
      invariant conns == Joined(placed, links)
    {
      CellInv(placed, rnd, i, j, Scan(links, draws));
      if i < j && placed[i].skill.category == placed[j].skill.category {
        var u := rnd(draws);
        draws := draws + 1;
        if u > 0.6 {
          assert Joined(placed, links + [(i, j)]) == Joined(placed, links) + [Connection(placed[i].position, placed[j].position)];
          conns := conns + [Connection(placed[i].position, placed[j].position)];
          links := links + [(i, j)];
        }
      }
      j := j + 1;
    }
  }

  /** The nested `forEach` with its `push`: the connections of exactly the joined pairs, in scan order. */
  method BuildConnections(placed: seq<Placed>, rnd: Random) returns (conns: seq<Connection>)
    ensures forall k :: 0 <= k < |Links(placed, rnd)| ==> Related(placed, Links(placed, rnd)[k])
    ensures conns == Joined(placed, Links(placed, rnd))
  {
    LinksRelated(placed, rnd);
    conns := [];
    var draws: nat := 0;
    ghost var links: seq<(nat, nat)> := [];
    var i := 0;
    while i < |placed|
      invariant 0 <= i <= |placed|
      invariant Scan(links, draws) == AfterRows(placed, rnd, i)
      invariant ScanInv(placed, Scan(links, draws), i, 0)
      invariant conns == Joined(placed, links)
    {
      links, draws, conns := ScanRow(placed, rnd, i, links, draws, conns);
      RowsInv(placed, rnd, i + 1);
      i := i + 1;
    }
  }
}
