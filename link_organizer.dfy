/**
 * The link organizer of the links-and-blog workspace: adding and deleting
 * links, the list of categories and the category filter with its counts.
 */
module LinkOrganizer {
  import opened Seqs

  datatype Link = Link(id: string, title: string, url: string, category: string, createdAt: int)

  /** The three input boxes of the add form. */
  datatype NewLink = NewLink(title: string, url: string, category: string)

  const General := "General"
  const All := "all"
  const EmptyForm := NewLink([], [], [])

  /**
   * `addLink`, with the fresh id and the clock passed in: an empty title or
   * URL changes nothing; otherwise the link (category "General" when left
   * empty) goes first and the form is cleared.
   */
  function AddLink(links: seq<Link>, form: NewLink, newId: string, now: int): (r: (seq<Link>, NewLink))
    ensures form.title == [] || form.url == [] ==> r == (links, form)
    ensures form.title != [] && form.url != [] ==>
              r.1 == EmptyForm && |r.0| == |links| + 1 && r.0[1..] == links &&
              r.0[0] == Link(newId, form.title, form.url, if form.category == [] then General else form.category, now)
  {
    if form.title == [] || form.url == [] then (links, form)
    else
      var link := Link(newId, form.title, form.url, if form.category == [] then General else form.category, now);
      ([link] + links, EmptyForm)
  }

  /** The filter predicate "the link is not `id`". */
  function NotLink(id: string): Link -> bool
  {
    (l: Link) => l.id != id
  }

  /** `deleteLink`: the other links remain, in their order. */
  function DeleteLink(links: seq<Link>, id: string): (r: seq<Link>)
    ensures forall l :: l in r <==> l in links && l.id != id
    ensures r == Filter(links, NotLink(id))
  {
    var r := Filter(links, NotLink(id));
    forall l ensures l in r <==> l in links && l.id != id {
      FilterMembership(links, NotLink(id), l);
    }
    r
  }

  /** A saved link never has an empty category. */
  lemma AddedCategoryNonEmpty(links: seq<Link>, form: NewLink, newId: string, now: int)
    requires form.title != [] && form.url != []
    ensures AddLink(links, form, newId, now).0[0].category != []
  {
  }

  predicate Distinct(s: seq<string>)
  {
    forall i, j :: 0 <= i < j < |s| ==> s[i] != s[j]
  }

  /** `Array.from(new Set(s))`: each value once, in order of first appearance. */
  function Dedup(s: seq<string>): (r: seq<string>)
    ensures Distinct(r)
    ensures forall x :: x in r <==> x in s
  {
    if s == [] then []
    else
      var d := Dedup(s[..|s| - 1]);
      var x := s[|s| - 1];
      assert s == s[..|s| - 1] + [x];
      if x in d then d else d + [x]
  }

  /** The values first met in a prefix keep their places at the front. */
  lemma {:induction false} DedupPrefix(a: seq<string>, b: seq<string>)
    ensures Dedup(a) <= Dedup(a + b)
  {
    if b != [] {
      var front := b[..|b| - 1];
      assert (a + b)[..|a + b| - 1] == a + front;
      DedupPrefix(a, front);
    } else {
      assert a + b == a;
    }
  }

  function CategoryOf(l: Link): string
  {
    l.category
  }

  /** `categories` */
  function Categories(links: seq<Link>): (r: seq<string>)
    ensures Distinct(r)
    ensures forall c :: c in r <==> exists l :: l in links && l.category == c
  {
    var cats := Map(links, CategoryOf);
    assert forall c :: c in cats <==> exists l :: l in links && l.category == c by {
      forall c
        ensures c in cats <==> exists l :: l in links && l.category == c
      {
        if c in cats {
          var i :| 0 <= i < |cats| && cats[i] == c;
          assert links[i] in links;
        }
        if exists l :: l in links && l.category == c {
          var l :| l in links && l.category == c;
          var i :| 0 <= i < |links| && links[i] == l;
          assert cats[i] == c;
        }
      }
    }
    Dedup(cats)
  }

  function InCategory(c: string): Link -> bool
  {
    (l: Link) => l.category == c
  }

  /** `filteredLinks`: everything for "all", else exactly that category's links in order. */
  function FilteredLinks(links: seq<Link>, selected: string): (r: seq<Link>)
    ensures selected == All ==> r == links
    ensures selected != All ==> r == Filter(links, InCategory(selected))
    ensures selected != All ==> forall l :: l in r <==> l in links && l.category == selected
  {
    if selected == All then links
    else
      forall l ensures l in Filter(links, InCategory(selected)) <==> l in links && l.category == selected {
        FilterMembership(links, InCategory(selected), l);
      }
      Filter(links, InCategory(selected))
  }

  /** The count on a category's button. */
  function CategoryCount(links: seq<Link>, c: string): nat
  {
    |Filter(links, InCategory(c))|
  }

  /** The buttons' counts over a list of categories. */
  function SumCounts(cats: seq<string>, links: seq<Link>): nat
  {
    if cats == [] then 0 else SumCounts(cats[..|cats| - 1], links) + CategoryCount(links, cats[|cats| - 1])
  }

  /** Every link is counted on exactly one category button, so the counts add up to the "All" count. */
  lemma {:induction false} CountsSumToTotal(links: seq<Link>)
    ensures SumCounts(Categories(links), links) == |links|
    ensures forall c :: c in Categories(links) <==> CategoryCount(links, c) > 0
  {
    if links != [] {
      var front := links[..|links| - 1];
      var x := links[|links| - 1];
      assert links == front + [x];
      CountsSumToTotal(front);
      MapAppend(front, [x], CategoryOf);
      var cats := Categories(front);
      assert Map(links, CategoryOf)[..|links| - 1] == Map(front, CategoryOf);
      SumCountsAddLink(cats, front, x);
      if x.category !in cats {
        assert Categories(links) == cats + [x.category];
        assert cats + [x.category] == Categories(links);
        assert (cats + [x.category])[..|cats|] == cats;
        FilterAppend(front, [x], InCategory(x.category));
        FilterNone(front, InCategory(x.category));
      } else {
        assert Categories(links) == cats;
      }
    }
    forall c ensures c in Categories(links) <==> CategoryCount(links, c) > 0 {
      ListedIffCounted(links, c);
    }
  }

  /** A category has a button iff some link is counted on it. */
  lemma ListedIffCounted(links: seq<Link>, c: string)
    ensures c in Categories(links) <==> CategoryCount(links, c) > 0
  {
    var f := Filter(links, InCategory(c));
    if |f| > 0 {
      FilterMembership(links, InCategory(c), f[0]);
    }
    if c in Categories(links) {
      var l :| l in links && l.category == c;
      FilterMembership(links, InCategory(c), l);
    }
  }

  /** One more link adds one to the sum when its category is among those summed. */
  lemma {:induction false} SumCountsAddLink(cats: seq<string>, links: seq<Link>, x: Link)
    requires Distinct(cats)
    ensures SumCounts(cats, links + [x]) == SumCounts(cats, links) + (if x.category in cats then 1 else 0)
  {
    if cats != [] {
      var front := cats[..|cats| - 1];
      var c := cats[|cats| - 1];
      assert cats == front + [c];
      SumCountsAddLink(front, links, x);
      FilterAppend(links, [x], InCategory(c));
      assert x.category in cats <==> x.category in front || x.category == c;
      assert c !in front;
    }
  }
}
