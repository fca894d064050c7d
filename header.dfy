/** The header menu's highlighted entry, chosen from the current path. */
module Header {

  /** `defaultSelectedKey`. */
  function SelectedKey(path: string): (key: string)
    ensures key == "issues" || key == "boards" || key == ""
  {
    if "/issues" <= path then "issues"
    else if "/boards" <= path || "/board/" <= path then "boards"
    else ""
  }

  /** Each key is chosen for exactly the paths with its prefixes, and the
      issues test wins: a path that starts with both prefixes is 'issues'. */
  lemma SelectedKeyCases(path: string)
    ensures SelectedKey(path) == "issues" <==> "/issues" <= path
    ensures SelectedKey(path) == "boards" <==> !("/issues" <= path) && ("/boards" <= path || "/board/" <= path)
    ensures SelectedKey(path) == "" <==> !("/issues" <= path || "/boards" <= path || "/board/" <= path)
  {
  }

  /** A board page's path, `/board/` and the board id, selects 'boards'; any
      extension of `/issues` selects 'issues'. */
  lemma BoardAndIssuesPaths(boardDigits: string, rest: string)
    ensures SelectedKey("/board/" + boardDigits) == "boards"
    ensures SelectedKey("/issues" + rest) == "issues"
  {
    assert "/board/" <= "/board/" + boardDigits;
    assert "/issues" <= "/issues" + rest;
    assert !("/issues" <= "/board/" + boardDigits) by {
      assert ("/board/" + boardDigits)[1] == 'b';
    }
  }
}
