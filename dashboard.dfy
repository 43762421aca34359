/** The dashboard's side navigation: four tabs in a fixed order and the rule
    that highlights the tab of the current path. */
module Dashboard {
  import opened Common

  datatype Tab = Tab(name: string, path: string)

  const Tabs: seq<Tab> := [
    Tab("My Documents", "/dashboard"),
    Tab("My Templates", "/dashboard/templates"),
    Tab("Create With AI", "/create-with-ai"),
    Tab("Account Settings", "/dashboard/settings")
  ]

  /** `isTabActive`: the documents tab only on the dashboard's own path, any
      other tab on every path under its own. */
  function IsTabActive(pathname: string, tabPath: string): (r: bool)
    ensures tabPath == "/dashboard" ==> (r <==> pathname == "/dashboard" || pathname == "/dashboard/")
    ensures tabPath != "/dashboard" ==> (r <==> StartsWith(pathname, tabPath))
  {
    if tabPath == "/dashboard" then pathname == "/dashboard" || pathname == "/dashboard/"
    else StartsWith(pathname, tabPath)
  }

  lemma PrefixChar(p: string, prefix: string, k: nat)
    requires StartsWith(p, prefix) && k < |prefix|
    ensures p[k] == prefix[k]
  {
    assert p[..|prefix|][k] == p[k];
  }

  /** No path highlights two tabs. */
  lemma AtMostOneActive(pathname: string, i: nat, j: nat)
    requires i < |Tabs| && j < |Tabs| && i != j
    requires IsTabActive(pathname, Tabs[i].path)
    ensures !IsTabActive(pathname, Tabs[j].path)
  {
    var p := pathname;
    if IsTabActive(p, Tabs[j].path) {
      var a, b := if i < j then i else j, if i < j then j else i;
      assert IsTabActive(p, Tabs[a].path) && IsTabActive(p, Tabs[b].path);
      if a == 1 && b == 2 {
        PrefixChar(p, Tabs[1].path, 1);
        PrefixChar(p, Tabs[2].path, 1);
      } else if a == 1 && b == 3 {
        PrefixChar(p, Tabs[1].path, 11);
        PrefixChar(p, Tabs[3].path, 11);
      } else if a == 2 {
        PrefixChar(p, Tabs[2].path, 1);
        PrefixChar(p, Tabs[3].path, 1);
      }
      assert false;
    }
  }

  /** Following a tab's link highlights that tab and no other. */
  lemma OwnPathHighlightsOwnTab(i: nat)
    requires i < |Tabs|
    ensures forall j :: 0 <= j < |Tabs| ==> (IsTabActive(Tabs[i].path, Tabs[j].path) <==> j == i)
  {
    assert IsTabActive(Tabs[i].path, Tabs[i].path);
    forall j | 0 <= j < |Tabs| && j != i
      ensures !IsTabActive(Tabs[i].path, Tabs[j].path)
    {
      AtMostOneActive(Tabs[i].path, i, j);
    }
  }

  /** Under the templates page the templates tab is highlighted, not the
      documents tab. */
  lemma TemplatesPageHighlight(rest: string)
    ensures forall j :: 0 <= j < |Tabs| ==> (IsTabActive("/dashboard/templates" + rest, Tabs[j].path) <==> j == 1)
  {
    var p := "/dashboard/templates" + rest;
    assert p[..|Tabs[1].path|] == Tabs[1].path;
    assert IsTabActive(p, Tabs[1].path);
    forall j | 0 <= j < |Tabs| && j != 1
      ensures !IsTabActive(p, Tabs[j].path)
    {
      AtMostOneActive(p, 1, j);
    }
  }
}
