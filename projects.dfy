/**
 * The project gallery's category filter and the category buttons.
 */
module ProjectFilter {

  /** The filter choices; `All` shows every project. */
  datatype Category = All | Security | Web

  /** A project's own category is never `All`. */
  type ProjectCategory = c: Category | c != All witness Security

  /** The fields of a project that the filter looks at or that tell projects
      apart; images, links and descriptions are left out. */
  datatype Project = Project(id: int, title: string, category: ProjectCategory, year: string)

  /** The gallery's entries, in display order. */
  const Catalogue: seq<Project> := [
    Project(1, "DTDS", Security, "2024"),
    Project(2, "DefroxPot Honeypot", Security, "2023"),
    Project(3, "Movie Booking Platform", Web, "2023")
  ]

  /** `projects.filter(p => p.category === c)`. */
  function KeepCategory(ps: seq<Project>, c: Category): (r: seq<Project>)
    ensures |r| <= |ps|
    ensures forall p :: p in r <==> p in ps && p.category == c
    decreases |ps|
  {
    if ps == [] then []
    else (if ps[0].category == c then [ps[0]] else []) + KeepCategory(ps[1..], c)
  }

  /** `filteredProjects`: the whole list for `All`, otherwise the projects of
      the selected category. */
  function Filtered(ps: seq<Project>, selected: Category): (r: seq<Project>)
    ensures selected == All ==> r == ps
    ensures selected != All ==> forall p :: p in r <==> p in ps && p.category == selected
  {
    if selected == All then ps else KeepCategory(ps, selected)
  }

  /** `a` is `b` with some entries removed and the rest in their order. */
  predicate IsSubsequence(a: seq<Project>, b: seq<Project>)
    decreases |b|
  {
    if a == [] then true
    else if b == [] then false
    else if a[0] == b[0] then IsSubsequence(a[1..], b[1..])
    else IsSubsequence(a, b[1..])
  }

  lemma {:induction false} KeepCategoryIsSubsequence(ps: seq<Project>, c: Category)
    ensures IsSubsequence(KeepCategory(ps, c), ps)
    decreases |ps|
  {
    if ps != [] {
      KeepCategoryIsSubsequence(ps[1..], c);
      var rest := KeepCategory(ps[1..], c);
      if ps[0].category == c {
        assert KeepCategory(ps, c) == [ps[0]] + rest;
        assert ([ps[0]] + rest)[1..] == rest;
      } else {
        assert KeepCategory(ps, c) == rest;
        SubsequenceOfTail(rest, ps);
      }
    }
  }

  /** Putting one more entry in front of `b` keeps `a` a subsequence. */
  lemma {:induction false} SubsequenceOfTail(a: seq<Project>, b: seq<Project>)
    requires b != [] && IsSubsequence(a, b[1..])
    ensures IsSubsequence(a, b)
    decreases |b|, 1
  {
    if a != [] && a[0] == b[0] {
      DropHead(a, b[1..]);
    }
  }

  /** Removing the first entry of `a` keeps it a subsequence of `t`. */
  lemma {:induction false} DropHead(a: seq<Project>, t: seq<Project>)
    requires a != [] && IsSubsequence(a, t)
    ensures IsSubsequence(a[1..], t)
    decreases |t|, 2
  {
    if a[0] == t[0] {
      SubsequenceOfTail(a[1..], t);
    } else {
      DropHead(a, t[1..]);
      SubsequenceOfTail(a[1..], t);
    }
  }

  /** The filtered list keeps the input's order: it is a subsequence of it. */
  lemma FilteredIsSubsequence(ps: seq<Project>, selected: Category)
    ensures IsSubsequence(Filtered(ps, selected), ps)
  {
    if selected == All {
      SubsequenceReflexive(ps);
    } else {
      KeepCategoryIsSubsequence(ps, selected);
    }
  }

  lemma {:induction false} SubsequenceReflexive(a: seq<Project>)
    ensures IsSubsequence(a, a)
    decreases |a|
  {
    if a != [] {
      SubsequenceReflexive(a[1..]);
    }
  }

  /** The filter keeps every copy of each matching project and drops every
      copy of the others. */
  lemma {:induction false} KeepCategoryMultiset(ps: seq<Project>, c: Category, p: Project)
    ensures multiset(KeepCategory(ps, c))[p] == if p.category == c then multiset(ps)[p] else 0
    decreases |ps|
  {
    if ps != [] {
      KeepCategoryMultiset(ps[1..], c, p);
      assert ps == [ps[0]] + ps[1..];
    }
  }

  /** Every project is either a security or a web project, so the two
      filtered lists together hold exactly the full list. */
  lemma {:induction false} CategoriesPartition(ps: seq<Project>)
    ensures multiset(Filtered(ps, Security)) + multiset(Filtered(ps, Web)) == multiset(ps)
    ensures |Filtered(ps, Security)| + |Filtered(ps, Web)| == |ps|
    decreases |ps|
  {
    if ps != [] {
      CategoriesPartition(ps[1..]);
      assert ps == [ps[0]] + ps[1..];
    }
  }

  /** Filtering again by the same category changes nothing. */
  lemma {:induction false} FilterIdempotent(ps: seq<Project>, selected: Category)
    ensures Filtered(Filtered(ps, selected), selected) == Filtered(ps, selected)
  {
    if selected != All {
      KeepCategoryFixesMatching(KeepCategory(ps, selected), selected);
    }
  }

  /** A list whose projects all have category `c` passes the filter whole. */
  lemma {:induction false} KeepCategoryFixesMatching(ps: seq<Project>, c: Category)
    requires forall p :: p in ps ==> p.category == c
    ensures KeepCategory(ps, c) == ps
    decreases |ps|
  {
    if ps != [] {
      assert ps[0] in ps;
      assert forall p :: p in ps[1..] ==> p in ps;
      KeepCategoryFixesMatching(ps[1..], c);
      assert ps == [ps[0]] + ps[1..];
    }
  }

  /** On the gallery's own entries: two security projects and one web one. */
  lemma CatalogueSplit()
    ensures Filtered(Catalogue, Security) == Catalogue[..2]
    ensures Filtered(Catalogue, Web) == Catalogue[2..]
    ensures Filtered(Catalogue, All) == Catalogue
  {
    assert Catalogue[1..][1..][1..] == [];
  }

  /** The filter buttons, in display order. */
  const Buttons: seq<Category> := [All, Security, Web]

  /** A button's `aria-pressed` value. */
  predicate Pressed(selected: Category, button: Category) {
    selected == button
  }

  /** Exactly one filter button is pressed: the one for the selection. */
  lemma ExactlyOneButtonPressed(selected: Category)
    ensures |set i | 0 <= i < |Buttons| && Pressed(selected, Buttons[i])| == 1
  {
    var i: nat := match selected case All => 0 case Security => 1 case Web => 2;
    assert (set j | 0 <= j < |Buttons| && Pressed(selected, Buttons[j])) == {i};
  }

  /** The `Projects` component's `selectedCategory` state. */
  class ProjectsComponent {
    var selectedCategory: Category

    constructor ()
      ensures selectedCategory == All
    {
      selectedCategory := All;
    }

    /** A click on the button for `c`. */
    method SelectCategory(c: Category)
      modifies this
      ensures selectedCategory == c
    {
      selectedCategory := c;
    }

    /** The projects currently shown. */
    function Shown(ps: seq<Project>): seq<Project>
      reads this
    {
      Filtered(ps, selectedCategory)
    }
  }
}
