/** The pagination control of components/LoadMore.tsx: which buttons it shows,
    and how pressing one rewrites the cursor parameters of the current query and
    builds the path the router is sent to.

    The browser is abstract: the parameters parsed from `window.location.search`
    and the current `pathname` are inputs, and the path handed to `router.push`
    is the result. */
module LoadMore {
  import opened CommonTypes
  import opened UrlEncoded
  import opened QueryParams

  /** The connection's page information the control receives as props. */
  datatype PageInfo = PageInfo(startCursor: string, endCursor: string, hasPreviousPage: bool, hasNextPage: bool)

  const StartCursor: string := "startcursor"
  const EndCursor: string := "endcursor"

  /** The two cursor parameters; every other parameter (such as `category`) is
      left alone by navigation. */
  function Cursors(): set<string>
  {
    {StartCursor, EndCursor}
  }

  /** The parameters after `handleNavigation(direction)` has edited them. */
  function Navigated(ps: seq<Pair>, direction: string, info: PageInfo): seq<Pair>
  {
    if direction == "next" && info.hasNextPage then
      SetParam(Deleted(ps, StartCursor), EndCursor, info.endCursor)
    else if direction == "first" && info.hasPreviousPage then
      SetParam(Deleted(ps, EndCursor), StartCursor, info.startCursor)
    else ps
  }

  /** "next" with a next page: no `startcursor` is left and there is exactly one
      `endcursor`, the connection's end cursor. */
  lemma NextPageCursors(ps: seq<Pair>, info: PageInfo)
    requires info.hasNextPage
    ensures ValuesOf(Navigated(ps, "next", info), StartCursor) == []
    ensures ValuesOf(Navigated(ps, "next", info), EndCursor) == [info.endCursor]
  {
    var deleted := Deleted(ps, StartCursor);
    DeletedValues(ps, StartCursor, EndCursor);
    SetValues(deleted, EndCursor, info.endCursor, StartCursor);
  }

  /** "first" with a previous page: no `endcursor` is left and there is exactly
      one `startcursor`, the connection's start cursor. */
  lemma FirstPageCursors(ps: seq<Pair>, info: PageInfo)
    requires info.hasPreviousPage
    ensures ValuesOf(Navigated(ps, "first", info), EndCursor) == []
    ensures ValuesOf(Navigated(ps, "first", info), StartCursor) == [info.startCursor]
  {
    var deleted := Deleted(ps, EndCursor);
    DeletedValues(ps, EndCursor, StartCursor);
    SetValues(deleted, StartCursor, info.startCursor, EndCursor);
  }

  /** Whatever the direction, the parameters other than the two cursors keep
      their values and their relative order. */
  lemma OtherParamsKept(ps: seq<Pair>, direction: string, info: PageInfo)
    ensures Without(Navigated(ps, direction, info), Cursors()) == Without(ps, Cursors())
  {
    if direction == "next" && info.hasNextPage {
      DeletedKeepsOthers(ps, StartCursor, Cursors());
      SetKeepsOthers(Deleted(ps, StartCursor), EndCursor, info.endCursor, Cursors());
    } else if direction == "first" && info.hasPreviousPage {
      DeletedKeepsOthers(ps, EndCursor, Cursors());
      SetKeepsOthers(Deleted(ps, EndCursor), StartCursor, info.startCursor, Cursors());
    }
  }

  /** With the direction's flag false, or an unknown direction, the parameters
      are not touched; pressing the same button twice gives the same parameters
      as pressing it once. */
  lemma NavigationStable(ps: seq<Pair>, direction: string, info: PageInfo)
    ensures !(direction == "next" && info.hasNextPage) && !(direction == "first" && info.hasPreviousPage) ==>
              Navigated(ps, direction, info) == ps
    ensures Navigated(Navigated(ps, direction, info), direction, info) == Navigated(ps, direction, info)
  {
    if direction == "next" && info.hasNextPage {
      var once := Navigated(ps, direction, info);
      NextPageCursors(ps, info);
      DeletedAbsent(once, StartCursor);
      SetIdempotent(Deleted(ps, StartCursor), EndCursor, info.endCursor);
    } else if direction == "first" && info.hasPreviousPage {
      var once := Navigated(ps, direction, info);
      FirstPageCursors(ps, info);
      DeletedAbsent(once, EndCursor);
      SetIdempotent(Deleted(ps, EndCursor), StartCursor, info.startCursor);
    }
  }

  /** `handleNavigation`: edit a `URLSearchParams` built from the current query
      in place, serialize it, and return the path given to `router.push`. The
      `?` is written even when no parameter is left. */
  method HandleNavigation(direction: string, info: PageInfo, pathname: string, current: seq<Pair>)
    returns (pushed: string)
    ensures pushed == pathname + "?" + Serialize(Navigated(current, direction, info))
  {
    var currentParams := new SearchParams(current);
    if direction == "next" && info.hasNextPage {
      currentParams.Delete(StartCursor);
      currentParams.Set(EndCursor, info.endCursor);
    } else if direction == "first" && info.hasPreviousPage {
      currentParams.Delete(EndCursor);
      currentParams.Set(StartCursor, info.startCursor);
    }
    var newSearchParams := currentParams.ToString();
    pushed := pathname + "?" + newSearchParams;
  }

  /** The query of the pushed path parses back to exactly the edited parameters. */
  lemma PushedQueryParsesBack(direction: string, info: PageInfo, pathname: string, current: seq<Pair>)
    ensures var pushed := pathname + "?" + Serialize(Navigated(current, direction, info));
            ParseQuery(pushed[|pathname| + 1..]) == Some(Navigated(current, direction, info))
  {
    var q := Serialize(Navigated(current, direction, info));
    assert (pathname + "?" + q)[|pathname| + 1..] == q;
    ParseSerialize(Navigated(current, direction, info));
  }

  /** A button of the control: its title and the direction it navigates in. */
  datatype Control = Control(title: string, direction: string)

  const FirstPage: Control := Control("First Page", "first")
  const NextPage: Control := Control("Next Page", "next")

  /** The buttons rendered, in order: "First Page" when there is a previous
      page, then "Next Page" when there is a next page. */
  function Controls(info: PageInfo): (cs: seq<Control>)
    ensures FirstPage in cs <==> info.hasPreviousPage
    ensures NextPage in cs <==> info.hasNextPage
    ensures forall c :: c in cs ==> c == FirstPage || c == NextPage
    ensures |cs| <= 2 && (|cs| == 2 ==> cs == [FirstPage, NextPage])
  {
    (if info.hasPreviousPage then [FirstPage] else []) + (if info.hasNextPage then [NextPage] else [])
  }

  /** Every rendered button passes the guard of `handleNavigation`: pressing it
      always moves the cursor. */
  lemma ShownControlsNavigate(ps: seq<Pair>, info: PageInfo, c: Control)
    requires c in Controls(info)
    ensures c.direction == "next" ==> ValuesOf(Navigated(ps, c.direction, info), EndCursor) == [info.endCursor]
    ensures c.direction == "first" ==> ValuesOf(Navigated(ps, c.direction, info), StartCursor) == [info.startCursor]
  {
    if c == NextPage {
      NextPageCursors(ps, info);
    } else {
      FirstPageCursors(ps, info);
    }
  }
}
