/** The users list page, src/app/users/page.tsx: a case-insensitive search
    over name, e-mail and role, a page size, the slice of rows on the current
    page, the "Showing a to b of n" summary, Previous/Next and the windowed
    list of page links.

    The page keeps `currentPage`, `searchTerm` and the page size as state;
    everything shown is computed from them. Lower-casing is an ASCII fold. */
module UsersList {
  import opened Strings
  import opened Wrappers
  import ConfirmationModal

  datatype User = User(id: nat, name: string, email: string, role: string, status: string, joinDate: string)

  /** The search keeps a user when the lower-cased term occurs in the
      lower-cased name, e-mail or role. */
  predicate Matches(u: User, term: string)
  {
    var t := Lower(term);
    Includes(Lower(u.name), t) || Includes(Lower(u.email), t) || Includes(Lower(u.role), t)
  }

  /** `filteredUsers`: the matching users, in their original order. */
  function Filter(users: seq<User>, term: string): (r: seq<User>)
    ensures |r| <= |users|
    ensures forall u :: u in r <==> u in users && Matches(u, term)
  {
    if users == [] then []
    else
      var rest := Filter(users[1..], term);
      assert forall u :: u in users <==> u == users[0] || u in users[1..];
      if Matches(users[0], term) then [users[0]] + rest else rest
  }

  /** Filtering distributes over concatenation, which is to say that it
      keeps the relative order of the users it keeps. */
  lemma {:induction false} FilterAppend(a: seq<User>, b: seq<User>, term: string)
    ensures Filter(a + b, term) == Filter(a, term) + Filter(b, term)
    decreases |a|
  {
    if a == [] {
      assert a + b == b;
    } else {
      assert (a + b)[0] == a[0] && (a + b)[1..] == a[1..] + b;
      FilterAppend(a[1..], b, term);
    }
  }

  /** An empty search keeps every user. */
  lemma {:induction false} EmptyTermKeepsAll(users: seq<User>)
    ensures Filter(users, "") == users
    decreases |users|
  {
    if users != [] {
      assert Includes(Lower(users[0].name), "") by {
        assert OccursAt(Lower(users[0].name), "", 0);
      }
      EmptyTermKeepsAll(users[1..]);
    }
  }

  /** ceil(n / k) for a positive page size `k`: enough pages for every row,
      and no page more than that. */
  function CeilDiv(n: nat, k: nat): (r: nat)
    requires k > 0
    ensures r * k >= n
    ensures r == 0 || (r - 1) * k < n
    ensures r == 0 <==> n == 0
  {
    var r := (n + k - 1) / k;
    var rem := (n + k - 1) % k;
    assert n + k - 1 == r * k + rem && 0 <= rem < k;
    assert r * k - k == (r - 1) * k;
    r
  }

  /** `filteredUsers.slice(startIndex, endIndex)` with
      `startIndex = (page - 1) * perPage`: the rows of one page, clipped to the
      list, so never more than `perPage` of them. */
  function PageRows(filtered: seq<User>, page: nat, perPage: nat): (r: seq<User>)
    requires page >= 1
    ensures |r| <= perPage
    ensures (page - 1) * perPage >= |filtered| ==> r == []
    ensures (page - 1) * perPage < |filtered| ==>
      |r| == (if (page - 1) * perPage + perPage <= |filtered| then perPage else |filtered| - (page - 1) * perPage)
    ensures forall i :: 0 <= i < |r| ==>
      (page - 1) * perPage + i < |filtered| && r[i] == filtered[(page - 1) * perPage + i]
  {
    var start := (page - 1) * perPage;
    var end := start + perPage;
    if start >= |filtered| then []
    else if end <= |filtered| then filtered[start..end]
    else filtered[start..]
  }

  /** The page-size menu: four fixed sizes and "all". */
  datatype PageSizeChoice = Ten | TwentyFive | Fifty | Hundred | All

  // ---------------------------------------------------------------------
  // The page-size arithmetic as written. Choosing "all" stores the number
  // of rows matching at that moment, which is 0 when nothing matches, and
  // `Math.ceil(n / 0)` is NaN for n = 0 and Infinity otherwise.
  // ---------------------------------------------------------------------

  /** A JavaScript page count: a whole number, NaN or Infinity. */
  datatype PageCount = Finite(n: nat) | NotANumber | Infinite

  /** `itemsPerPage` after `handleItemsPerPageChange`, as written. */
  function StoredPageSizeAsWritten(c: PageSizeChoice, filteredCount: nat): (k: nat)
    ensures c == All ==> k == filteredCount
    ensures c != All ==> k >= 10
  {
    match c
    case Ten => 10
    case TwentyFive => 25
    case Fifty => 50
    case Hundred => 100
    case All => filteredCount
  }

  /** `Math.ceil(filteredUsers.length / itemsPerPage)`, as written. */
  function TotalPagesAsWritten(count: nat, perPage: nat): (r: PageCount)
    ensures perPage > 0 ==> r == Finite(CeilDiv(count, perPage))
    ensures perPage == 0 && count == 0 ==> r == NotANumber
    ensures perPage == 0 && count > 0 ==> r == Infinite
  {
    if perPage > 0 then Finite(CeilDiv(count, perPage))
    else if count == 0 then NotANumber
    else Infinite
  }

  /** The Next guard `currentPage < totalPages`, as written. */
  predicate NextEnabledAsWritten(page: nat, total: PageCount)
  {
    match total
    case Finite(n) => page < n
    case NotANumber => false
    case Infinite => true
  }

  /** Choose "all" while the search matches nothing, then change the search
      so that some users match: the stored page size is 0, the page count is
      Infinity, the first page shows no rows although rows match, and Next
      stays enabled on every page. */
  lemma AllWithNoMatchesHidesLaterMatches(users: seq<User>, emptyTerm: string, term: string, page: nat)
    requires Filter(users, emptyTerm) == [] && Filter(users, term) != []
    requires page >= 1
    ensures StoredPageSizeAsWritten(All, |Filter(users, emptyTerm)|) == 0
    ensures TotalPagesAsWritten(|Filter(users, term)|, 0) == Infinite
    ensures PageRows(Filter(users, term), page, 0) == []
    ensures NextEnabledAsWritten(page, TotalPagesAsWritten(|Filter(users, term)|, 0))
  {
  }

  /** Choose "all" while the search matches `k` users, then change the
      search so that more than `k` match: the stored page size is still `k`,
      so page 1 shows only the first `k` matches, there are at least two
      pages, and Next is enabled. "All" then does not show all. */
  lemma StaleAllCountHidesLaterMatches(users: seq<User>, termAtChoice: string, term: string)
    requires 0 < |Filter(users, termAtChoice)| < |Filter(users, term)|
    ensures var k := StoredPageSizeAsWritten(All, |Filter(users, termAtChoice)|);
      var later := Filter(users, term);
      && k == |Filter(users, termAtChoice)|
      && PageRows(later, 1, k) == later[..k]
      && PageRows(later, 1, k) != later
      && TotalPagesAsWritten(|later|, k).Finite?
      && TotalPagesAsWritten(|later|, k).n >= 2
      && NextEnabledAsWritten(1, TotalPagesAsWritten(|later|, k))
  {
    var k := |Filter(users, termAtChoice)|;
    var later := Filter(users, term);
    var rows := PageRows(later, 1, k);
    assert |rows| == k;
    assert rows == later[..k];
  }

  /** A concrete case: one sample user, a search for "zzz", "all", then the
      search cleared. */
  lemma AllWithNoMatchesExample()
    ensures var users := [SampleUser()];
      && Filter(users, "zzz") == []
      && Filter(users, "") == users
      && StoredPageSizeAsWritten(All, |Filter(users, "zzz")|) == 0
      && PageRows(Filter(users, ""), 1, StoredPageSizeAsWritten(All, |Filter(users, "zzz")|)) == []
  {
    var users := [SampleUser()];
    SampleUserMissesZzz();
    assert users[1..] == [];
    EmptyTermKeepsAll(users);
  }

  /** The first of the page's sample users. */
  function SampleUser(): User
  {
    User(1, "John Doe", "john@example.com", "Admin", "Active", "2024-01-15")
  }

  lemma SampleUserMissesZzz()
    ensures !Matches(SampleUser(), "zzz")
  {
    var u := SampleUser();
    assert Lower("zzz") == "zzz";
    LowerHasNoZ(u.name);
    LowerHasNoZ(u.email);
    LowerHasNoZ(u.role);
  }

  /** A string without the letter z, in either case, does not contain "zzz"
      once lower-cased. */
  lemma LowerHasNoZ(s: string)
    requires forall i :: 0 <= i < |s| ==> s[i] != 'z' && s[i] != 'Z'
    ensures !Includes(Lower(s), "zzz")
  {
    var l := Lower(s);
    forall i | 0 <= i <= |l| - 3
      ensures !OccursAt(l, "zzz", i)
    {
      assert l[i..i + 3][0] == l[i] == LowerChar(s[i]) != 'z';
    }
  }

  // ---------------------------------------------------------------------
  // The corrected page size: "all" means every matching row on one page,
  // whatever the search is now, and a page size is never 0.
  // ---------------------------------------------------------------------

  /** Rows per page for a page-size choice and the current number of matches. */
  function PerPage(c: PageSizeChoice, filteredCount: nat): (k: nat)
    ensures k >= 1
    ensures c == All ==> k >= filteredCount
    ensures c != All ==> k == StoredPageSizeAsWritten(c, filteredCount)
  {
    match c
    case Ten => 10
    case TwentyFive => 25
    case Fifty => 50
    case Hundred => 100
    case All => if filteredCount == 0 then 1 else filteredCount
  }

  /** With "all", every matching row is on page 1, and there is one page
      (none when nothing matches). */
  lemma AllShowsEveryMatch(filtered: seq<User>)
    ensures PageRows(filtered, 1, PerPage(All, |filtered|)) == filtered
    ensures CeilDiv(|filtered|, PerPage(All, |filtered|)) == (if filtered == [] then 0 else 1)
  {
    var k := PerPage(All, |filtered|);
    var r := CeilDiv(|filtered|, k);
    if filtered != [] {
      assert r >= 1;
      MulAtLeast(r - 1, k);
    }
  }

  lemma MulAtLeast(a: int, k: nat)
    requires a >= 0
    ensures a == 0 || a * k >= k
  {
    if a > 0 {
      assert a * k == (a - 1) * k + k;
    }
  }

  /** One entry of the pagination bar between Previous and Next. */
  datatype PageItem = PageLink(page: nat, active: bool) | Ellipsis

  /** `Array.from({ length: total }, (_, i) => i + 1)`: every page. */
  function EveryPage(current: nat, total: nat): (r: seq<PageItem>)
    ensures |r| == total
    ensures forall i :: 0 <= i < total ==> r[i] == PageLink(i + 1, i + 1 == current)
  {
    seq(total, i requires 0 <= i < total => PageLink(i + 1, i + 1 == current))
  }

  /** `[p - 1, p, p + 1].filter(page => page >= 1 && page <= total)`. */
  function Neighbourhood(current: nat, total: nat): seq<PageItem>
    requires current >= 1
  {
    (if 1 <= current - 1 <= total then [PageLink(current - 1, false)] else [])
    + (if current <= total then [PageLink(current, true)] else [])
    + (if current + 1 <= total then [PageLink(current + 1, false)] else [])
  }

  /** The pagination bar: every page when there are at most five, otherwise
      the current page with its neighbours, the first page (and an ellipsis)
      when the current page is past 2 (3), and the last page (and an
      ellipsis) when it is before `total - 1` (`total - 2`). */
  function PageItems(current: nat, total: nat): seq<PageItem>
    requires current >= 1
  {
    if total <= 5 then EveryPage(current, total)
    else
      (if current > 2 then [PageLink(1, false)] + (if current > 3 then [Ellipsis] else []) else [])
      + Neighbourhood(current, total)
      + (if current < total - 1 then (if current < total - 2 then [Ellipsis] else []) + [PageLink(total, false)] else [])
  }

  /** The page numbers the bar offers, left to right. */
  function Numbers(items: seq<PageItem>): (r: seq<nat>)
    ensures |r| <= |items|
  {
    if items == [] then []
    else (if items[0].PageLink? then [items[0].page] else []) + Numbers(items[1..])
  }

  predicate StrictlyIncreasing(s: seq<nat>)
  {
    forall i, j :: 0 <= i < j < |s| ==> s[i] < s[j]
  }

  /** The pages `first`, `first + 1`, ..., `last`. */
  function Range(first: nat, last: nat): (r: seq<nat>)
    ensures |r| == if first <= last then last - first + 1 else 0
    ensures forall i :: 0 <= i < |r| ==> r[i] == first + i
    decreases last + 1 - first
  {
    if first > last then [] else [first] + Range(first + 1, last)
  }

  /** Reference description of the bar: which page numbers it shows. Every
      page when there are at most five; otherwise the current page and its
      neighbours within range, plus page 1 when the current page is past 2
      and the last page when the current page is before `total - 1`. */
  function ShownPages(current: nat, total: nat): seq<nat>
  {
    if total <= 5 then Range(1, total)
    else
      (if current > 2 then [1] else [])
      + (if current > 1 then [current - 1] else [])
      + [current]
      + (if current < total then [current + 1] else [])
      + (if current < total - 1 then [total] else [])
  }

  /** Page links for increasing page numbers, with an ellipsis wherever two
      neighbours are not consecutive. */
  function Decorate(ns: seq<nat>, current: nat): seq<PageItem>
  {
    if ns == [] then []
    else
      [PageLink(ns[0], ns[0] == current)]
      + (if |ns| > 1 && ns[0] + 1 < ns[1] then [Ellipsis] else [])
      + Decorate(ns[1..], current)
  }

  /** A well-formed bar: it starts and ends with a link, an ellipsis always
      stands between two links whose pages are not consecutive, and two
      adjacent links are consecutive pages. */
  predicate GapsMarked(items: seq<PageItem>)
  {
    && (|items| > 0 ==> items[0].PageLink? && items[|items| - 1].PageLink?)
    && (forall i :: 0 <= i < |items| && items[i].Ellipsis? ==>
          0 < i < |items| - 1 && items[i - 1].PageLink? && items[i + 1].PageLink?
          && items[i - 1].page + 1 < items[i + 1].page)
    && (forall i :: 0 <= i < |items| - 1 && items[i].PageLink? && items[i + 1].PageLink? ==>
          items[i + 1].page == items[i].page + 1)
  }

  /** Exactly the links to `current` are marked active. */
  predicate ActiveMarked(items: seq<PageItem>, current: nat)
  {
    forall i :: 0 <= i < |items| && items[i].PageLink? ==> (items[i].active <==> items[i].page == current)
  }

  /** Decorating page numbers offers exactly those numbers, marks exactly
      the current page active, and begins and ends with a link. */
  lemma {:induction false} DecorateNumbers(ns: seq<nat>, current: nat)
    ensures var d := Decorate(ns, current);
      && Numbers(d) == ns
      && ActiveMarked(d, current)
      && (ns != [] ==> d != [] && d[0] == PageLink(ns[0], ns[0] == current)
                       && d[|d| - 1] == PageLink(ns[|ns| - 1], ns[|ns| - 1] == current))
    decreases |ns|
  {
    if ns != [] {
      var rest := Decorate(ns[1..], current);
      DecorateNumbers(ns[1..], current);
      var gap := if |ns| > 1 && ns[0] + 1 < ns[1] then [Ellipsis] else [];
      var head := [PageLink(ns[0], ns[0] == current)] + gap;
      var d := Decorate(ns, current);
      assert d == head + rest;
      NumbersAppend(head, rest);
      assert Numbers(head) == [ns[0]] by {
        assert head[1..] == gap;
        if gap != [] { assert gap[1..] == []; }
      }
      assert ns == [ns[0]] + ns[1..];
      forall i | 0 <= i < |d| && d[i].PageLink?
        ensures d[i].active <==> d[i].page == current
      {
        if i >= |head| {
          assert d[i] == rest[i - |head|];
        }
      }
      if |ns| > 1 {
        assert d[|d| - 1] == rest[|rest| - 1];
      }
    }
  }

  /** Decorating increasing page numbers marks every gap with one ellipsis
      and nothing else. */
  lemma {:induction false} DecorateGaps(ns: seq<nat>, current: nat)
    requires StrictlyIncreasing(ns)
    ensures GapsMarked(Decorate(ns, current))
    decreases |ns|
  {
    if |ns| == 1 {
      assert Decorate(ns, current) == [PageLink(ns[0], ns[0] == current)];
    } else if |ns| > 1 {
      assert StrictlyIncreasing(ns[1..]) by {
        forall i, j | 0 <= i < j < |ns[1..]| ensures ns[1..][i] < ns[1..][j] {
          assert ns[1..][i] == ns[i + 1] && ns[1..][j] == ns[j + 1];
        }
      }
      DecorateGaps(ns[1..], current);
      DecorateNumbers(ns[1..], current);
      assert ns[0] < ns[1];
      GapsMarkedCons(PageLink(ns[0], ns[0] == current), Decorate(ns[1..], current));
    }
  }

  /** Putting a link to a smaller page in front of a well-formed bar, with
      an ellipsis between exactly when the pages are not consecutive, keeps
      the bar well-formed. */
  lemma GapsMarkedCons(link: PageItem, rest: seq<PageItem>)
    requires link.PageLink? && GapsMarked(rest) && rest != [] && rest[0].PageLink?
    requires link.page < rest[0].page
    ensures var gap := if link.page + 1 < rest[0].page then [Ellipsis] else [];
      GapsMarked([link] + gap + rest)
  {
    var gap := if link.page + 1 < rest[0].page then [Ellipsis] else [];
    var head := [link] + gap;
    var d := head + rest;
    assert d[|d| - 1] == rest[|rest| - 1];
    forall i | 0 <= i < |d| && d[i].Ellipsis?
      ensures 0 < i < |d| - 1 && d[i - 1].PageLink? && d[i + 1].PageLink?
        && d[i - 1].page + 1 < d[i + 1].page
    {
      if i >= |head| {
        assert d[i] == rest[i - |head|];
        assert d[i + 1] == rest[i + 1 - |head|];
        if i > |head| {
          assert d[i - 1] == rest[i - 1 - |head|];
        }
      } else {
        assert d[2] == rest[0];
      }
    }
    forall i | 0 <= i < |d| - 1 && d[i].PageLink? && d[i + 1].PageLink?
      ensures d[i + 1].page == d[i].page + 1
    {
      if i >= |head| {
        assert d[i] == rest[i - |head|];
        assert d[i + 1] == rest[i + 1 - |head|];
      } else if gap == [] {
        assert d[1] == rest[0];
      }
    }
  }

  lemma {:induction false} NumbersAppend(a: seq<PageItem>, b: seq<PageItem>)
    ensures Numbers(a + b) == Numbers(a) + Numbers(b)
    decreases |a|
  {
    if a == [] {
      assert a + b == b;
    } else {
      assert (a + b)[0] == a[0] && (a + b)[1..] == a[1..] + b;
      NumbersAppend(a[1..], b);
    }
  }

  /** With at most five pages the bar lists every page without a gap. */
  lemma {:induction false} EveryPageDecorated(current: nat, total: nat, from: nat)
    requires 1 <= from <= total + 1
    ensures EveryPage(current, total)[from - 1..] == Decorate(Range(from, total), current)
    decreases total + 1 - from
  {
    var e := EveryPage(current, total);
    if from <= total {
      EveryPageDecorated(current, total, from + 1);
      var r := Range(from, total);
      assert r[1..] == Range(from + 1, total);
      assert e[from - 1..] == [e[from - 1]] + e[from..];
    }
  }

  /** The bar as computed is the decoration of the reference page list. */
  lemma PageItemsDecorated(current: nat, total: nat)
    requires current >= 1 && (current == 1 || current <= total)
    ensures PageItems(current, total) == Decorate(ShownPages(current, total), current)
  {
    if total <= 5 {
      EveryPageDecorated(current, total, 1);
    } else if current <= 2 {
      NearFirstDecorated(current, total);
    } else if current >= total - 1 {
      NearLastDecorated(current, total);
    } else {
      MiddleDecorated(current, total);
    }
  }

  lemma NearFirstDecorated(current: nat, total: nat)
    requires 1 <= current <= 2 && total > 5
    ensures PageItems(current, total) == Decorate(ShownPages(current, total), current)
  {
    var ns := ShownPages(current, total);
    assert Decorate([total], current) == [PageLink(total, false)];
    if current == 1 {
      assert ns == [1, 2, total];
      assert ns[1..] == [2, total] && ns[2..] == [total];
      assert Decorate([2, total], current) == [PageLink(2, false), Ellipsis, PageLink(total, false)];
    } else {
      assert ns == [1, 2, 3, total];
      assert ns[1..] == [2, 3, total] && ns[2..] == [3, total] && ns[3..] == [total];
      assert Decorate([3, total], current) == [PageLink(3, false), Ellipsis, PageLink(total, false)];
    }
  }

  lemma NearLastDecorated(current: nat, total: nat)
    requires total - 1 <= current <= total && total > 5
    ensures PageItems(current, total) == Decorate(ShownPages(current, total), current)
  {
    var ns := ShownPages(current, total);
    if current == total {
      assert ns == [1, total - 1, total];
      assert ns[1..] == [total - 1, total] && ns[2..] == [total];
      assert Decorate([total], current) == [PageLink(total, true)];
      assert Decorate([total - 1, total], current) == [PageLink(total - 1, false), PageLink(total, true)];
    } else {
      assert ns == [1, total - 2, total - 1, total];
      assert ns[1..] == [total - 2, total - 1, total] && ns[2..] == [total - 1, total] && ns[3..] == [total];
      assert Decorate([total], current) == [PageLink(total, false)];
      assert Decorate([total - 1, total], current) == [PageLink(total - 1, true), PageLink(total, false)];
    }
  }

  lemma MiddleDecorated(current: nat, total: nat)
    requires 3 <= current < total - 1 && total > 5
    ensures PageItems(current, total) == Decorate(ShownPages(current, total), current)
  {
    var ns := ShownPages(current, total);
    assert ns == [1, current - 1, current, current + 1, total];
    assert ns[1..] == [current - 1, current, current + 1, total];
    assert ns[2..] == [current, current + 1, total];
    assert ns[3..] == [current + 1, total];
    assert ns[4..] == [total];
    var tail := (if current + 2 < total then [Ellipsis] else []) + [PageLink(total, false)];
    var mid := [PageLink(current - 1, false), PageLink(current, true), PageLink(current + 1, false)];
    assert Decorate([total], current) == [PageLink(total, false)];
    assert Decorate(ns[3..], current) == [PageLink(current + 1, false)] + tail;
    assert Decorate(ns[1..], current) == mid + tail;
    assert Neighbourhood(current, total) == mid;
  }

  /** The reference page list is increasing, runs from 1 to the last page
      and contains the current page. */
  lemma ShownPagesIncreasing(current: nat, total: nat)
    requires current >= 1 && (current == 1 || current <= total)
    ensures var ns := ShownPages(current, total);
      && StrictlyIncreasing(ns)
      && (forall n :: n in ns ==> 1 <= n <= total)
      && (total >= 1 ==> ns[0] == 1 && ns[|ns| - 1] == total && current in ns)
  {
    if total > 5 {
      var ns := ShownPages(current, total);
      if current == 1 {
        assert ns == [1, 2, total];
      } else if current == 2 {
        assert ns == [1, 2, 3, total];
      } else if current == total {
        assert ns == [1, total - 1, total];
      } else if current == total - 1 {
        assert ns == [1, total - 2, total - 1, total];
      } else {
        assert ns == [1, current - 1, current, current + 1, total];
      }
    } else if total >= 1 {
      assert Range(1, total)[current - 1] == current;
    }
  }

  /** The pagination bar: its page numbers only increase, so none repeats,
      they all lie between 1 and the last page, the bar runs from page 1 to
      the last page, exactly the current page is active, and every skipped
      range of pages is shown as one ellipsis. */
  lemma PageBarWellFormed(current: nat, total: nat)
    requires current >= 1 && (current == 1 || current <= total)
    ensures var items := PageItems(current, total);
      && Numbers(items) == ShownPages(current, total)
      && StrictlyIncreasing(Numbers(items))
      && (forall n :: n in Numbers(items) ==> 1 <= n <= total)
      && GapsMarked(items)
      && ActiveMarked(items, current)
      && (total >= 1 ==>
            && items[0] == PageLink(1, current == 1)
            && items[|items| - 1] == PageLink(total, current == total)
            && current in Numbers(items))
  {
    var ns := ShownPages(current, total);
    PageItemsDecorated(current, total);
    ShownPagesIncreasing(current, total);
    DecoratedWellFormed(ns, current, total);
  }

  /** Decorating an increasing list of pages from 1 to the last page that
      includes the current one gives a well-formed bar. */
  lemma DecoratedWellFormed(ns: seq<nat>, current: nat, total: nat)
    requires StrictlyIncreasing(ns) && (forall n :: n in ns ==> 1 <= n <= total)
    requires total >= 1 ==> ns != [] && ns[0] == 1 && ns[|ns| - 1] == total && current in ns
    ensures var items := Decorate(ns, current);
      && Numbers(items) == ns
      && GapsMarked(items)
      && ActiveMarked(items, current)
      && (total >= 1 ==>
            && items[0] == PageLink(1, current == 1)
            && items[|items| - 1] == PageLink(total, current == total))
  {
    DecorateNumbers(ns, current);
    DecorateGaps(ns, current);
  }

  /** "Showing {from} to {to} of {total} users". */
  datatype Summary = Summary(from: int, to: int, total: nat)

  function SummaryOf(filteredCount: nat, page: nat, perPage: nat): Summary
    requires page >= 1
  {
    var start := (page - 1) * perPage;
    var end := start + perPage;
    Summary(start + 1, if end < filteredCount then end else filteredCount, filteredCount)
  }

  /** The summary counts exactly the rows on screen when the page has any;
      with no matches at all it reads "Showing 1 to 0 of 0". */
  lemma SummaryCountsRows(filtered: seq<User>, page: nat, perPage: nat)
    requires page >= 1
    ensures var s := SummaryOf(|filtered|, page, perPage);
      && s.total == |filtered|
      && (PageRows(filtered, page, perPage) != [] ==> s.to - s.from + 1 == |PageRows(filtered, page, perPage)|)
      && (filtered == [] ==> s == Summary(1 + (page - 1) * perPage, 0, 0))
  {
  }

  /** The delete button's request: a destructive confirmation naming the
      user, whose action is the (simulated) deletion. */
  function DeleteRequest(u: User, deletion: ConfirmationModal.ActionId): (r: ConfirmationModal.Request)
    ensures r.variant == Some(ConfirmationModal.Destructive)
    ensures r.confirmText == Some("Delete") && r.cancelText == Some("Cancel")
    ensures r.title == "Delete User" && r.onConfirm == deletion
  {
    ConfirmationModal.Request("Delete User",
      "Are you sure you want to delete " + u.name + "? This action cannot be undone.",
      Some("Delete"), Some("Cancel"),
      Some(ConfirmationModal.Destructive), deletion)
  }

  /** The page's state. `users` is the fixed sample data. The page size is
      kept as the menu choice and "all" is resolved against the current
      matches (`PerPage`), the corrected behaviour; the source stores the
      match count at the moment "all" is chosen, which the as-written
      functions above model. */
  class UsersPage {
    const users: seq<User>
    const modal: ConfirmationModal.ModalHook
    var currentPage: nat
    var searchTerm: string
    var pageSize: PageSizeChoice

    function Filtered(): seq<User>
      reads this
    {
      Filter(users, searchTerm)
    }

    function RowsPerPage(): nat
      reads this
    {
      PerPage(pageSize, |Filtered()|)
    }

    function TotalPages(): nat
      reads this
    {
      CeilDiv(|Filtered()|, RowsPerPage())
    }

    /** `currentUsers`. */
    function CurrentUsers(): seq<User>
      reads this
      requires currentPage >= 1
    {
      PageRows(Filtered(), currentPage, RowsPerPage())
    }

    function Bar(): seq<PageItem>
      reads this
      requires currentPage >= 1
    {
      PageItems(currentPage, TotalPages())
    }

    /** The current page is a page number, and beyond page 1 it is one that
      exists. */
    ghost predicate Valid()
      reads this
    {
      currentPage >= 1 && (currentPage == 1 || currentPage <= TotalPages())
    }

    constructor (users: seq<User>, modal: ConfirmationModal.ModalHook)
      ensures this.users == users && this.modal == modal
      ensures currentPage == 1 && searchTerm == "" && pageSize == Ten
      ensures Valid()
    {
      this.users := users;
      this.modal := modal;
      currentPage := 1;
      searchTerm := "";
      pageSize := Ten;
    }

    /** Typing in the search box stores the term and goes back to page 1. */
    method SetSearchTerm(term: string)
      requires Valid()
      modifies this
      ensures searchTerm == term && currentPage == 1 && pageSize == old(pageSize)
      ensures Valid()
    {
      searchTerm := term;
      currentPage := 1;
    }

    /** Choosing a page size stores the choice (not a row count, see the
      class comment) and goes back to page 1. */
    method ChoosePageSize(c: PageSizeChoice)
      requires Valid()
      modifies this
      ensures pageSize == c && currentPage == 1 && searchTerm == old(searchTerm)
      ensures Valid()
    {
      pageSize := c;
      currentPage := 1;
    }

    /** A page link in the bar moves to its page. */
    method GoToPage(page: nat)
      requires Valid()
      requires page in Numbers(Bar())
      modifies this
      ensures currentPage == page && searchTerm == old(searchTerm) && pageSize == old(pageSize)
      ensures Valid()
    {
      PageBarWellFormed(currentPage, TotalPages());
      currentPage := page;
    }

    /** Previous moves back one page unless on page 1. */
    method Previous()
      requires Valid()
      modifies this
      ensures currentPage == if old(currentPage) > 1 then old(currentPage) - 1 else old(currentPage)
      ensures searchTerm == old(searchTerm) && pageSize == old(pageSize)
      ensures Valid()
    {
      if currentPage > 1 {
        currentPage := currentPage - 1;
      }
    }

    /** Next moves forward one page unless on the last page. */
    method Next()
      requires Valid()
      modifies this
      ensures currentPage == if old(currentPage) < old(TotalPages()) then old(currentPage) + 1 else old(currentPage)
      ensures searchTerm == old(searchTerm) && pageSize == old(pageSize)
      ensures Valid()
    {
      if currentPage < TotalPages() {
        currentPage := currentPage + 1;
      }
    }

    /** The delete button opens the shared confirmation dialog. */
    method DeleteUser(u: User, deletion: ConfirmationModal.ActionId)
      modifies modal
      ensures modal.modalState == ConfirmationModal.Opened(DeleteRequest(u, deletion))
      ensures modal.isLoading == old(modal.isLoading)
    {
      modal.ShowModal(DeleteRequest(u, deletion));
    }
  }

  /** A search matching nothing leaves an empty page and no page links, with
      Previous and Next both inert. */
  method NoMatchesEmptyPage(users: seq<User>, term: string)
    returns (rows: seq<User>, total: nat, bar: seq<PageItem>, afterNext: nat)
    requires Filter(users, term) == []
    ensures rows == [] && total == 0 && bar == [] && afterNext == 1
  {
    var modal := new ConfirmationModal.ModalHook();
    var page := new UsersPage(users, modal);
    page.SetSearchTerm(term);
    rows := page.CurrentUsers();
    total := page.TotalPages();
    bar := page.Bar();
    page.Next();
    afterNext := page.currentPage;
  }
}
