/** The collapsible navigation tree of src/lib/dropdown-menu.tsx. Each
    `DropdownMenu` node is a link when it has an `href` and no children,
    and otherwise a collapsible group whose children are nodes in turn; each
    mounted node owns one `isOpen` flag. `SidebarNavigation` renders a list
    of top-level nodes.

    A node is identified by its path: the indices leading to it from the
    top-level list. The set of open flags is the set of paths whose flag is
    true. Icons and class names are not modelled. */
module DropdownMenu {
  import opened Wrappers

  /** A `DropdownItem`; its `label` is called `title` here. An absent
      `children` list is the empty sequence: the component treats the two
      alike. */
  datatype Item = Item(title: string, href: Option<string>, children: seq<Item>)

  /** `item.children && item.children.length > 0`. */
  predicate HasChildren(item: Item)
  {
    |item.children| > 0
  }

  /** `!hasChildren && item.href`, with the empty string falsy. */
  predicate IsLink(item: Item)
  {
    !HasChildren(item) && item.href.Some? && item.href.value != ""
  }

  /** What a node renders: a navigating link, or a trigger button with an
      optional chevron (rotated while open) and the list of its children's
      renderings, empty when it has none. */
  datatype View =
    | NavLink(title: string, href: string)
    | Group(title: string, chevron: bool, open: bool, content: seq<View>)

  /** The rendering of the node at `path`, given the set of open paths;
      the `i`-th child's path is `path + [i]`. */
  function Render(item: Item, path: seq<nat>, open: set<seq<nat>>): View
  {
    if IsLink(item) then NavLink(item.title, item.href.value)
    else if HasChildren(item) then
      var kids := item.children;
      Group(item.title, true, path in open,
            seq(|kids|, i requires 0 <= i < |kids| => Render(kids[i], path + [i], open)))
    else Group(item.title, false, path in open, [])
  }

  /** Renders a list of sibling nodes under `parent`, in order. */
  function RenderList(items: seq<Item>, parent: seq<nat>, open: set<seq<nat>>): (r: seq<View>)
    ensures |r| == |items|
    ensures forall i :: 0 <= i < |items| ==> r[i] == Render(items[i], parent + [i], open)
  {
    seq(|items|, i requires 0 <= i < |items| => Render(items[i], parent + [i], open))
  }

  /** `SidebarNavigation`: the top-level nodes in order. */
  function SidebarNavigation(items: seq<Item>, open: set<seq<nat>>): (r: seq<View>)
    ensures |r| == |items|
    ensures forall i :: 0 <= i < |items| ==> r[i] == Render(items[i], [i], open)
  {
    var r := RenderList(items, [], open);
    assert forall i :: 0 <= i < |items| ==> [] + [i] == [i];
    r
  }

  /** A node is a link exactly when it has an href and no children; every
      other node is a group, whose chevron and content are there exactly when
      it has children, and whose children appear in their own order. */
  lemma RenderShape(item: Item, path: seq<nat>, open: set<seq<nat>>)
    ensures Render(item, path, open).NavLink? <==> IsLink(item)
    ensures IsLink(item) ==> Render(item, path, open) == NavLink(item.title, item.href.value)
    ensures !IsLink(item) ==>
      var v := Render(item, path, open);
      && v.title == item.title
      && (v.open <==> path in open)
      && (v.chevron <==> HasChildren(item))
      && |v.content| == |item.children|
      && v.content == RenderList(item.children, path, open)
  {
  }

  /** A node with children and an href is a group: the href is ignored. */
  lemma ChildrenOverrideHref(title: string, href: string, children: seq<Item>, path: seq<nat>,
                             open: set<seq<nat>>)
    requires children != []
    ensures Render(Item(title, Some(href), children), path, open).Group?
    ensures Render(Item(title, Some(href), children), path, open).chevron
  {
  }

  /** `p` is a prefix of `q`. */
  predicate Under(p: seq<nat>, q: seq<nat>)
  {
    |p| <= |q| && q[..|p|] == p
  }

  /** Two sets of open paths that agree on every path under `p`. */
  ghost predicate AgreeUnder(p: seq<nat>, open1: set<seq<nat>>, open2: set<seq<nat>>)
  {
    forall q :: Under(p, q) ==> (q in open1 <==> q in open2)
  }

  /** A node's rendering depends only on the open flags of the node itself
      and of its descendants. */
  lemma {:induction false} RenderLocal(item: Item, path: seq<nat>, open1: set<seq<nat>>, open2: set<seq<nat>>)
    requires AgreeUnder(path, open1, open2)
    ensures Render(item, path, open1) == Render(item, path, open2)
    decreases item
  {
    assert Under(path, path) by { assert path[..|path|] == path; }
    if !IsLink(item) && HasChildren(item) {
      var kids := item.children;
      forall i | 0 <= i < |kids|
        ensures Render(kids[i], path + [i], open1) == Render(kids[i], path + [i], open2)
      {
        SubtreeAgrees(path, i, open1, open2);
        RenderLocal(kids[i], path + [i], open1, open2);
      }
    }
  }

  /** Agreement under a node carries over to each of its children. */
  lemma SubtreeAgrees(p: seq<nat>, i: nat, open1: set<seq<nat>>, open2: set<seq<nat>>)
    requires AgreeUnder(p, open1, open2)
    ensures AgreeUnder(p + [i], open1, open2)
  {
    forall q | Under(p + [i], q)
      ensures q in open1 <==> q in open2
    {
      assert q[..|p|] == (p + [i])[..|p|] == p;
      assert Under(p, q);
    }
  }

  /** Opening or closing one node changes nothing outside its own subtree:
      every top-level entry not on the path renders as before, and
      neither do the other nodes' flags. */
  lemma ToggleIsLocal(items: seq<Item>, open: set<seq<nat>>, path: seq<nat>, value: bool, i: nat)
    requires i < |items|
    requires path == [] || path[0] != i
    ensures var open2 := if value then open + {path} else open - {path};
      SidebarNavigation(items, open2)[i] == SidebarNavigation(items, open)[i]
  {
    var open2 := if value then open + {path} else open - {path};
    forall q | Under([i], q)
      ensures q in open2 <==> q in open
    {
      assert q[0] == [i][0];
    }
    RenderLocal(items[i], [i], open2, open);
  }

  /** No group in the view is open, at any depth. */
  predicate AllClosed(v: View)
  {
    match v
    case NavLink(_, _) => true
    case Group(_, _, open, content) =>
      !open && forall i :: 0 <= i < |content| ==> AllClosed(content[i])
  }

  /** With no flag set, every group is closed, at every depth. */
  lemma {:induction false} InitiallyAllClosed(item: Item, path: seq<nat>)
    ensures AllClosed(Render(item, path, {}))
    decreases item
  {
    if !IsLink(item) && HasChildren(item) {
      var kids := item.children;
      var v := Render(item, path, {});
      forall i | 0 <= i < |kids|
        ensures AllClosed(v.content[i])
      {
        InitiallyAllClosed(kids[i], path + [i]);
      }
    }
  }

  /** The open flags of one mounted navigation tree. */
  class Sidebar {
    const items: seq<Item>
    var open: set<seq<nat>>

    /** Every `useState(false)`: no node starts open. */
    constructor (items: seq<Item>)
      ensures this.items == items && open == {}
    {
      this.items := items;
      open := {};
    }

    /** What the mounted tree shows for the current flags. */
    function View(): (r: seq<View>)
      reads this
      ensures |r| == |items|
      ensures r == SidebarNavigation(items, open)
    {
      SidebarNavigation(items, open)
    }

    /** One node's `onOpenChange`: sets that node's flag and no other. */
    method OnOpenChange(path: seq<nat>, value: bool)
      modifies this
      ensures path in open <==> value
      ensures forall q :: q != path ==> (q in open <==> q in old(open))
    {
      if value {
        open := open + {path};
      } else {
        open := open - {path};
      }
    }
  }

  /** Open the first of two groups: only it shows open, and the second
      renders exactly as before. */
  method OpenFirstOfTwo(a: Item, b: Item) returns (before: seq<View>, after: seq<View>)
    requires HasChildren(a) && HasChildren(b) && !IsLink(a)
    ensures |before| == |after| == 2
    ensures after[0].Group? && after[0].open
    ensures after[1] == before[1]
  {
    var bar := new Sidebar([a, b]);
    before := bar.View();
    bar.OnOpenChange([0], true);
    after := bar.View();
    ToggleIsLocal([a, b], {}, [0], true, 1);
    assert bar.open == {} + {[0]};
  }
}
