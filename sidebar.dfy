/**
 * The sidebar's menu state: the list of expanded menu names and the toggle
 * that the menu buttons call, plus the link each entry points to when the
 * sidebar is collapsed.
 */
module Sidebar {
  import opened Wrappers

  datatype SubItem = SubItem(name: string, href: string)

  /** A navigation entry; the icon is left out. */
  datatype NavItem = NavItem(name: string, href: string, subItems: Option<seq<SubItem>>)

  const Links: seq<NavItem> := [
    NavItem("Dashboard", "/", None),
    NavItem("Content", "#", Some([SubItem("Upload Video", "/videos/upload"), SubItem("Playlists", "/playlists")])),
    NavItem("Analytics", "#", Some([SubItem("Overview", "/analytics"), SubItem("Realtime", "/analytics/realtime")])),
    NavItem("Files", "/files", None)
  ]

  /** The menus expanded when the sidebar first renders. */
  const InitialExpanded: seq<string> := ["Content"]

  predicate NoDuplicates(s: seq<string>) {
    forall i, j | 0 <= i < j < |s| :: s[i] != s[j]
  }

  /** `prev.filter(item => item !== name)`. */
  function RemoveAll(s: seq<string>, name: string): (r: seq<string>)
    ensures name !in r
    ensures forall x | x != name :: x in r <==> x in s
    ensures |r| <= |s|
    decreases |s|
  {
    if s == [] then []
    else if s[0] == name then RemoveAll(s[1..], name)
    else [s[0]] + RemoveAll(s[1..], name)
  }

  /** Filtering keeps a list free of duplicates. */
  lemma {:induction false} RemoveAllKeepsNoDuplicates(s: seq<string>, name: string)
    requires NoDuplicates(s)
    ensures NoDuplicates(RemoveAll(s, name))
    decreases |s|
  {
    if s != [] {
      assert NoDuplicates(s[1..]) by {
        forall i, j | 0 <= i < j < |s[1..]| ensures s[1..][i] != s[1..][j] {
          assert s[1..][i] == s[i + 1] && s[1..][j] == s[j + 1];
        }
      }
      RemoveAllKeepsNoDuplicates(s[1..], name);
      if s[0] != name {
        var r := RemoveAll(s[1..], name);
        assert s[0] !in s[1..] by {
          forall k | 0 <= k < |s[1..]| ensures s[1..][k] != s[0] {
            assert s[1..][k] == s[k + 1];
          }
        }
        assert s[0] !in r;
        var c := [s[0]] + r;
        forall i, j | 0 <= i < j < |c| ensures c[i] != c[j] {
          if i == 0 {
            assert c[j] == r[j - 1];
          } else {
            assert c[i] == r[i - 1] && c[j] == r[j - 1];
          }
        }
      }
    }
  }

  /** Removing what is absent changes nothing. */
  lemma {:induction false} RemoveAbsent(s: seq<string>, name: string)
    requires name !in s
    ensures RemoveAll(s, name) == s
    decreases |s|
  {
    if s != [] {
      RemoveAbsent(s[1..], name);
      assert s == [s[0]] + s[1..];
    }
  }

  /** Filtering distributes over concatenation: the survivors keep their order. */
  lemma {:induction false} RemoveAllAppend(s: seq<string>, t: seq<string>, name: string)
    ensures RemoveAll(s + t, name) == RemoveAll(s, name) + RemoveAll(t, name)
    decreases |s|
  {
    if s == [] {
      assert s + t == t;
    } else {
      assert (s + t)[0] == s[0];
      assert (s + t)[1..] == s[1..] + t;
      RemoveAllAppend(s[1..], t, name);
    }
  }

  /** Exactly the occurrences of `name` go: every other name keeps its count. */
  lemma {:induction false} RemoveAllMultiset(s: seq<string>, name: string)
    ensures multiset(RemoveAll(s, name)) == multiset(s)[name := 0]
    decreases |s|
  {
    if s != [] {
      RemoveAllMultiset(s[1..], name);
      assert s == [s[0]] + s[1..];
    }
  }

  /** `toggleMenu(name)`: remove the name if present, otherwise append it. */
  function ToggleMenu(prev: seq<string>, name: string): (r: seq<string>)
    ensures name in r <==> name !in prev
    ensures forall x | x != name :: x in r <==> x in prev
  {
    if name in prev then RemoveAll(prev, name) else prev + [name]
  }

  /** Toggling keeps the list free of duplicates. */
  lemma ToggleKeepsNoDuplicates(prev: seq<string>, name: string)
    requires NoDuplicates(prev)
    ensures NoDuplicates(ToggleMenu(prev, name))
  {
    if name in prev {
      RemoveAllKeepsNoDuplicates(prev, name);
    } else {
      var r := prev + [name];
      forall i, j | 0 <= i < j < |r| ensures r[i] != r[j] {
        if j == |prev| {
          assert r[i] == prev[i];
        } else {
          assert r[i] == prev[i] && r[j] == prev[j];
        }
      }
    }
  }

  /** Toggling an absent name appends it after the earlier entries, in their order. */
  lemma ToggleAbsentAppends(prev: seq<string>, name: string)
    requires name !in prev
    ensures |ToggleMenu(prev, name)| == |prev| + 1
    ensures ToggleMenu(prev, name)[..|prev|] == prev
    ensures ToggleMenu(prev, name)[|prev|] == name
  {
  }

  /**
   * Toggling a present name removes every occurrence of it, keeps every
   * other name's count, and keeps the others' relative order.
   */
  lemma TogglePresentRemovesAll(prev: seq<string>, name: string, left: seq<string>, right: seq<string>)
    requires name in prev && prev == left + right
    ensures multiset(ToggleMenu(prev, name)) == multiset(prev)[name := 0]
    ensures ToggleMenu(prev, name) == RemoveAll(left, name) + RemoveAll(right, name)
  {
    RemoveAllMultiset(prev, name);
    RemoveAllAppend(left, right, name);
  }

  /** Toggling an absent name twice gives back the original list. */
  lemma ToggleTwiceRestores(prev: seq<string>, name: string)
    requires name !in prev
    ensures ToggleMenu(ToggleMenu(prev, name), name) == prev
  {
    RemoveAllAppend(prev, [name], name);
    RemoveAbsent(prev, name);
    assert RemoveAll([name], name) == [];
  }

  /**
   * Toggling a present name twice moves it to the end, after the other
   * entries in their original order.
   */
  lemma ToggleTwicePresent(prev: seq<string>, name: string)
    requires name in prev
    ensures ToggleMenu(ToggleMenu(prev, name), name) == RemoveAll(prev, name) + [name]
  {
  }

  lemma InitialExpandedWellFormed()
    ensures NoDuplicates(InitialExpanded)
    ensures exists k | 0 <= k < |Links| :: Links[k].name == InitialExpanded[0] && Links[k].subItems.Some?
  {
    assert Links[1].name == "Content";
  }

  // ---------------------------------------------------------------------
  // Collapsed mode

  /** A link counts as having sub-items when the list is present and not empty. */
  predicate HasSubItems(link: NavItem) {
    link.subItems.Some? && |link.subItems.value| > 0
  }

  /**
   * The collapsed-mode target as written: a present sub-item list selects
   * its first entry's `href`. An empty list is present (and truthy) too, so
   * reading its first entry fails; `None` stands for that failure.
   */
  function CollapsedTargetAsWritten(link: NavItem): (target: Option<string>)
    ensures link.subItems.None? ==> target == Some(link.href)
    ensures HasSubItems(link) ==> target == Some(link.subItems.value[0].href)
  {
    match link.subItems
    case None => Some(link.href)
    case Some(items) => if |items| > 0 then Some(items[0].href) else None
  }

  /** An entry with an empty sub-item list makes the collapsed sidebar fail. */
  lemma EmptySubItemsFail(name: string, href: string)
    ensures CollapsedTargetAsWritten(NavItem(name, href, Some([]))) == None
  {
  }

  /**
   * The corrected target, using the same test as the expanded sidebar:
   * the first sub-item when there is one, the entry's own `href` otherwise.
   */
  function CollapsedTarget(link: NavItem): (target: string)
    ensures HasSubItems(link) ==> target == link.subItems.value[0].href
    ensures !HasSubItems(link) ==> target == link.href
    ensures CollapsedTargetAsWritten(link).Some? ==> CollapsedTargetAsWritten(link) == Some(target)
  {
    if HasSubItems(link) then link.subItems.value[0].href else link.href
  }

  /** For the entries the sidebar ships, the code as written and the corrected target agree. */
  lemma ShippedLinksUnaffected()
    ensures forall k | 0 <= k < |Links| :: CollapsedTargetAsWritten(Links[k]) == Some(CollapsedTarget(Links[k]))
  {
  }
}
