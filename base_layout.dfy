/**
 * The basic layout: a side menu whose highlighted entry, and a breadcrumb,
 * are derived from the current path by string-prefix matching.
 */
module BaseLayout {
  import opened Wrappers
  import opened Seqs

  datatype MenuItem = MenuItem(key: string, title: string, path: string)

  /** The side menu, in declared order. */
  const MenuItems: seq<MenuItem> := [
    MenuItem("1", "首页", "/dashboard"),
    MenuItem("2", "用户管理", "/user"),
    MenuItem("3", "表单页面", "/form"),
    MenuItem("4", "系统设置", "/settings")
  ]

  /** The key highlighted when no menu path matches. */
  const DefaultKey: string := "1"

  /** `currentPath.startsWith(item.path)`. */
  predicate Matches(item: MenuItem, currentPath: string) {
    item.path <= currentPath
  }

  function MatchFilter(currentPath: string): MenuItem -> bool {
    item => Matches(item, currentPath)
  }

  /** `menuItems.find(...)?.key || '1'`. */
  function SelectedKey(currentPath: string): string {
    match Find(MatchFilter(currentPath), MenuItems)
    case Some(item) => if item.key != "" then item.key else DefaultKey
    case None => DefaultKey
  }

  /** The breadcrumb: the menu items whose path starts the current path, in declared order. */
  function Breadcrumb(currentPath: string): (r: seq<MenuItem>)
    ensures forall i :: 0 <= i < |r| ==> Matches(r[i], currentPath) && r[i] in MenuItems
    ensures forall i :: 0 <= i < |MenuItems| && Matches(MenuItems[i], currentPath) ==> MenuItems[i] in r
    ensures forall x :: multiset(r)[x] == if Matches(x, currentPath) then multiset(MenuItems)[x] else 0
  {
    FilterCount(MatchFilter(currentPath), MenuItems);
    Filter(MatchFilter(currentPath), MenuItems)
  }

  /** The breadcrumb keeps the menu's order. */
  lemma BreadcrumbIsSubsequence(currentPath: string)
    ensures IsSubsequence(Breadcrumb(currentPath), MenuItems)
  {
    FilterIsSubsequence(MatchFilter(currentPath), MenuItems);
  }

  /** The selected key is the key of the first matching item, or the default when none matches. */
  lemma SelectedKeyIsFirstMatch(currentPath: string)
    ensures (forall i :: 0 <= i < |MenuItems| ==> !Matches(MenuItems[i], currentPath)) ==>
              SelectedKey(currentPath) == DefaultKey
    ensures forall i :: 0 <= i < |MenuItems| && Matches(MenuItems[i], currentPath) &&
                        (forall j :: 0 <= j < i ==> !Matches(MenuItems[j], currentPath)) ==>
              SelectedKey(currentPath) == MenuItems[i].key
  {
    var found := Find(MatchFilter(currentPath), MenuItems);
    forall i | 0 <= i < |MenuItems| && Matches(MenuItems[i], currentPath) &&
               (forall j :: 0 <= j < i ==> !Matches(MenuItems[j], currentPath))
      ensures SelectedKey(currentPath) == MenuItems[i].key
    {
      var k :| 0 <= k < |MenuItems| && MenuItems[k] == found.value && Matches(MenuItems[k], currentPath) &&
               forall j :: 0 <= j < k ==> !Matches(MenuItems[j], currentPath);
      assert k == i;
    }
  }

  /** The highlighted key is always one of the declared keys. */
  lemma SelectedKeyIsDeclared(currentPath: string)
    ensures SelectedKey(currentPath) in ["1", "2", "3", "4"]
  {
    var found := Find(MatchFilter(currentPath), MenuItems);
    if found.Some? {
      var k :| 0 <= k < |MenuItems| && MenuItems[k] == found.value;
    }
  }

  /** The highlighted key is the breadcrumb's first key, or the default when the breadcrumb is empty. */
  lemma SelectedKeyIsBreadcrumbHead(currentPath: string)
    ensures Breadcrumb(currentPath) == [] ==> SelectedKey(currentPath) == DefaultKey
    ensures Breadcrumb(currentPath) != [] ==> SelectedKey(currentPath) == Breadcrumb(currentPath)[0].key
  {
    var p := MatchFilter(currentPath);
    FindIsHeadOfFilter(p, MenuItems);
    FoundKeyIsSet(currentPath);
  }

  /** An item `find` returns has a non-empty key, so the `|| '1'` fallback never replaces it. */
  lemma FoundKeyIsSet(currentPath: string)
    ensures var found := Find(MatchFilter(currentPath), MenuItems);
            found.Some? ==> found.value.key != "" && SelectedKey(currentPath) == found.value.key
  {
    var found := Find(MatchFilter(currentPath), MenuItems);
    if found.Some? {
      var k :| 0 <= k < |MenuItems| && MenuItems[k] == found.value;
    }
  }

  /** Two prefixes of one string are prefixes of each other. */
  lemma PrefixesAreComparable(a: string, b: string, c: string)
    requires a <= c && b <= c && |a| <= |b|
    ensures a <= b
  {
    assert a == c[..|a|] && b == c[..|b|];
    assert b[..|a|] == c[..|a|];
  }

  /** No declared menu path is a prefix of another. */
  lemma MenuPathsPrefixFree()
    ensures forall i, j :: 0 <= i < |MenuItems| && 0 <= j < |MenuItems| && i != j ==>
              !(MenuItems[i].path <= MenuItems[j].path)
  {
    assert MenuItems[0].path[1] == 'd' && MenuItems[1].path[1] == 'u' &&
           MenuItems[2].path[1] == 'f' && MenuItems[3].path[1] == 's';
  }

  /** Hence the breadcrumb has at most one entry. */
  lemma BreadcrumbAtMostOne(currentPath: string)
    ensures |Breadcrumb(currentPath)| <= 1
  {
    MenuPathsPrefixFree();
    var p := MatchFilter(currentPath);
    forall i, j | 0 <= i < j < |MenuItems| && p(MenuItems[i]) ensures !p(MenuItems[j]) {
      if p(MenuItems[j]) {
        var a, b := MenuItems[i].path, MenuItems[j].path;
        if |a| <= |b| { PrefixesAreComparable(a, b, currentPath); }
        else { PrefixesAreComparable(b, a, currentPath); }
      }
    }
    FilterAtMostOne(p, MenuItems);
  }

  /** The layout's state: the path it last saw. */
  class Layout {
    var currentPath: string

    constructor (pathname: string)
      ensures currentPath == pathname
    {
      currentPath := pathname;
    }

    /** The effect that follows `location.pathname`. */
    method OnLocationChange(pathname: string)
      modifies this
      ensures currentPath == pathname
    {
      currentPath := pathname;
    }

    function Selected(): (k: string)
      reads this
      ensures k in ["1", "2", "3", "4"]
    {
      SelectedKeyIsDeclared(currentPath);
      SelectedKey(currentPath)
    }

    function Crumbs(): (r: seq<MenuItem>)
      reads this
      ensures |r| <= 1
    {
      BreadcrumbAtMostOne(currentPath);
      Breadcrumb(currentPath)
    }
  }
}
