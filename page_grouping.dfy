/** Grouping of the pages of a test run by the test system they need, and the
    number of tests announced for the run.

    The runner partitions its input page list into a map from test-system
    descriptor to the ordered list of pages that test system will run, leaves
    out the pages marked as suite set-up or tear-down, lets the set-up/tear-down
    surrounder splice those back around each group, and announces the sum of
    the group sizes. */
module PageGrouping {

  /** A page scheduled to run. `serial` is the position in the input list the
      page was created for: it stands for the identity of the fresh test-page
      object the runner wraps each input page in. */
  datatype TestPage<W> = TestPage(source: W, serial: nat)

  /** The external policies the runner consults and does not define:
      whether a wiki page is a suite set-up or tear-down page, the descriptor of
      the test system a page needs (given the remote-debug setting), and the
      surrounder that inserts set-up and tear-down pages into one group. */
  datatype Policy<!W, D> = Policy(
    isSuiteSetupOrTearDown: W -> bool,
    descriptorOf: (W, bool) -> D,
    surround: seq<TestPage<W>> -> seq<TestPage<W>>)

  // ---------------------------------------------------------------------------
  // Building the map one page at a time
  // ---------------------------------------------------------------------------

  /** The list kept for `key`, creating an empty one when there is none yet. */
  function GetOrMakeListWithinMap<K(==), V>(m: map<K, seq<V>>, key: K): (r: (map<K, seq<V>>, seq<V>))
    ensures key in r.0 && r.0[key] == r.1
    ensures key in m ==> r.0 == m && r.1 == m[key]
    ensures key !in m ==> r.1 == [] && r.0.Keys == m.Keys + {key}
    ensures forall k :: k in m ==> k in r.0 && r.0[k] == m[k]
  {
    if key !in m then (m[key := []], []) else (m, m[key])
  }

  /** Appends one page at the tail of the list of its descriptor. */
  function AddPageToListWithinMap<W, D(==)>(m: map<D, seq<TestPage<W>>>, page: TestPage<W>, descriptor: D)
    : (r: map<D, seq<TestPage<W>>>)
    ensures r.Keys == m.Keys + {descriptor}
    ensures r[descriptor] == (if descriptor in m then m[descriptor] else []) + [page]
    ensures forall d :: d in m && d != descriptor ==> r[d] == m[d]
  {
    var (withList, list) := GetOrMakeListWithinMap(m, descriptor);
    withList[descriptor := list + [page]]
  }

  /** The map after the grouping loop has visited the first `n` input pages. */
  ghost function GroupedPrefix<W, D>(pages: seq<W>, n: nat, policy: Policy<W, D>, debug: bool)
    : map<D, seq<TestPage<W>>>
    requires n <= |pages|
  {
    if n == 0 then map[]
    else
      var m := GroupedPrefix(pages, n - 1, policy, debug);
      var p := pages[n - 1];
      if policy.isSuiteSetupOrTearDown(p) then m
      else AddPageToListWithinMap(m, TestPage(p, n - 1), policy.descriptorOf(p, debug))
  }

  ghost function Grouped<W, D>(pages: seq<W>, policy: Policy<W, D>, debug: bool): map<D, seq<TestPage<W>>>
  {
    GroupedPrefix(pages, |pages|, policy, debug)
  }

  /** The grouping loop: every page not marked as suite set-up or tear-down is
      appended to the list of its own descriptor. */
  method MapWithAllPagesButSuiteSetUpAndTearDown<W, D(==)>(testPagesToRun: seq<W>, policy: Policy<W, D>, debug: bool)
    returns (pagesByTestSystem: map<D, seq<TestPage<W>>>)
    ensures pagesByTestSystem == Grouped(testPagesToRun, policy, debug)
  {
    pagesByTestSystem := map[];
    for i := 0 to |testPagesToRun|
      invariant pagesByTestSystem == GroupedPrefix(testPagesToRun, i, policy, debug)
    {
      var testPage := testPagesToRun[i];
      if !policy.isSuiteSetupOrTearDown(testPage) {
        pagesByTestSystem := AddPageToListWithinMap(pagesByTestSystem, TestPage(testPage, i),
                                                    policy.descriptorOf(testPage, debug));
      }
    }
  }

  // ---------------------------------------------------------------------------
  // An independent, per-descriptor definition of the grouping
  // ---------------------------------------------------------------------------

  /** The pages among the first `n` that are not suite set-up or tear-down and
      need the test system `d`, in input order. */
  ghost function Column<W, D>(pages: seq<W>, n: nat, policy: Policy<W, D>, debug: bool, d: D): seq<TestPage<W>>
    requires n <= |pages|
  {
    if n == 0 then []
    else
      var p := pages[n - 1];
      var before := Column(pages, n - 1, policy, debug, d);
      if !policy.isSuiteSetupOrTearDown(p) && policy.descriptorOf(p, debug) == d
      then before + [TestPage(p, n - 1)]
      else before
  }

  /** The map built page by page holds exactly the non-empty columns. */
  lemma {:induction false} GroupedIsColumns<W, D>(pages: seq<W>, n: nat, policy: Policy<W, D>, debug: bool, d: D)
    requires n <= |pages|
    ensures d in GroupedPrefix(pages, n, policy, debug) <==> Column(pages, n, policy, debug, d) != []
    ensures d in GroupedPrefix(pages, n, policy, debug) ==>
              GroupedPrefix(pages, n, policy, debug)[d] == Column(pages, n, policy, debug, d)
  {
    if n > 0 {
      GroupedIsColumns(pages, n - 1, policy, debug, d);
    }
  }

  /** Every entry of a column is the page at its serial position, is not a
      suite set-up or tear-down page and needs the column's test system; the
      serials strictly increase along the column, so the column keeps input
      order and holds each input page at most once. */
  lemma {:induction false} ColumnShape<W, D>(pages: seq<W>, n: nat, policy: Policy<W, D>, debug: bool, d: D)
    requires n <= |pages|
    ensures forall k :: 0 <= k < |Column(pages, n, policy, debug, d)| ==>
              var tp := Column(pages, n, policy, debug, d)[k];
              tp.serial < n && pages[tp.serial] == tp.source &&
              !policy.isSuiteSetupOrTearDown(tp.source) && policy.descriptorOf(tp.source, debug) == d
    ensures forall j, k :: 0 <= j < k < |Column(pages, n, policy, debug, d)| ==>
              Column(pages, n, policy, debug, d)[j].serial < Column(pages, n, policy, debug, d)[k].serial
  {
    if n > 0 {
      ColumnShape(pages, n - 1, policy, debug, d);
    }
  }

  /** A page that is not a suite set-up or tear-down page is in the column of
      its own descriptor. */
  lemma {:induction false} ColumnComplete<W, D>(pages: seq<W>, n: nat, policy: Policy<W, D>, debug: bool, i: nat)
    requires i < n <= |pages|
    requires !policy.isSuiteSetupOrTearDown(pages[i])
    ensures TestPage(pages[i], i) in Column(pages, n, policy, debug, policy.descriptorOf(pages[i], debug))
  {
    if i < n - 1 {
      ColumnComplete(pages, n - 1, policy, debug, i);
    }
  }

  /** After grouping, a page that is not a suite set-up or tear-down page sits
      in the list of its own descriptor at exactly one position and in no other
      list; a suite set-up or tear-down page is in no list at all. */
  lemma GroupedPlacement<W, D>(pages: seq<W>, policy: Policy<W, D>, debug: bool, i: nat)
    requires i < |pages|
    ensures var g := Grouped(pages, policy, debug);
            var d := policy.descriptorOf(pages[i], debug);
            !policy.isSuiteSetupOrTearDown(pages[i]) ==>
              d in g && exists k :: 0 <= k < |g[d]| && g[d][k] == TestPage(pages[i], i)
    ensures var g := Grouped(pages, policy, debug);
            forall e, k :: e in g && 0 <= k < |g[e]| && g[e][k].serial == i ==>
              !policy.isSuiteSetupOrTearDown(pages[i]) && e == policy.descriptorOf(pages[i], debug) &&
              g[e][k] == TestPage(pages[i], i) &&
              forall k' :: 0 <= k' < |g[e]| && g[e][k'].serial == i ==> k' == k
  {
    var g: map<D, seq<TestPage<W>>> := Grouped(pages, policy, debug);
    var d := policy.descriptorOf(pages[i], debug);
    if !policy.isSuiteSetupOrTearDown(pages[i]) {
      ColumnComplete(pages, |pages|, policy, debug, i);
      GroupedIsColumns(pages, |pages|, policy, debug, d);
    }
    forall e, k | e in g && 0 <= k < |g[e]| && g[e][k].serial == i
      ensures !policy.isSuiteSetupOrTearDown(pages[i]) && e == policy.descriptorOf(pages[i], debug)
      ensures g[e][k] == TestPage(pages[i], i)
      ensures forall k' :: 0 <= k' < |g[e]| && g[e][k'].serial == i ==> k' == k
    {
      GroupedIsColumns(pages, |pages|, policy, debug, e);
      ColumnShape(pages, |pages|, policy, debug, e);
    }
  }

  /** Each group keeps the input's relative order. */
  lemma GroupedKeepsOrder<W, D>(pages: seq<W>, policy: Policy<W, D>, debug: bool, d: D)
    requires d in Grouped(pages, policy, debug)
    ensures var list := Grouped(pages, policy, debug)[d];
            |list| > 0 &&
            forall j, k :: 0 <= j < k < |list| ==> list[j].serial < list[k].serial
  {
    GroupedIsColumns(pages, |pages|, policy, debug, d);
    ColumnShape(pages, |pages|, policy, debug, d);
  }

  // ---------------------------------------------------------------------------
  // The surrounder
  // ---------------------------------------------------------------------------

  /** Every group's list after the surrounder has been applied to it. */
  ghost function Surrounded<W, D>(m: map<D, seq<TestPage<W>>>, surround: seq<TestPage<W>> -> seq<TestPage<W>>)
    : map<D, seq<TestPage<W>>>
  {
    map d | d in m :: surround(m[d])
  }

  /** The surrounder runs once for every group, in whatever order the map
      yields the groups, and not at all when the input page list was empty. */
  method AddSuiteSetUpAndTearDownToAllTestSystems<W, D(==)>(
    testPagesToRunCount: nat,
    pagesByTestSystem: map<D, seq<TestPage<W>>>,
    surround: seq<TestPage<W>> -> seq<TestPage<W>>)
    returns (r: map<D, seq<TestPage<W>>>, surroundCalls: nat)
    ensures testPagesToRunCount == 0 ==> r == pagesByTestSystem && surroundCalls == 0
    ensures testPagesToRunCount != 0 ==>
              r == Surrounded(pagesByTestSystem, surround) && surroundCalls == |pagesByTestSystem.Keys|
  {
    r, surroundCalls := pagesByTestSystem, 0;
    if testPagesToRunCount == 0 {
      return;
    }
    var todo := pagesByTestSystem.Keys;
    while todo != {}
      invariant todo <= pagesByTestSystem.Keys
      invariant r.Keys == pagesByTestSystem.Keys
      invariant forall d :: d in r ==>
                  r[d] == if d in todo then pagesByTestSystem[d] else surround(pagesByTestSystem[d])
      invariant surroundCalls + |todo| == |pagesByTestSystem.Keys|
      decreases |todo|
    {
      var d :| d in todo;
      r := r[d := surround(r[d])];
      surroundCalls := surroundCalls + 1;
      todo := todo - {d};
    }
  }

  /** The map the runner executes: the grouping, surrounded unless the input
      was empty. */
  ghost function PagesToRun<W, D>(pages: seq<W>, policy: Policy<W, D>, debug: bool): map<D, seq<TestPage<W>>>
  {
    if |pages| == 0 then Grouped(pages, policy, debug)
    else Surrounded(Grouped(pages, policy, debug), policy.surround)
  }

  method MakeMapOfPagesByTestSystem<W, D(==)>(testPagesToRun: seq<W>, policy: Policy<W, D>, debug: bool)
    returns (pagesByTestSystem: map<D, seq<TestPage<W>>>)
    ensures pagesByTestSystem == PagesToRun(testPagesToRun, policy, debug)
    ensures pagesByTestSystem.Keys == Grouped(testPagesToRun, policy, debug).Keys
  {
    var grouped := MapWithAllPagesButSuiteSetUpAndTearDown(testPagesToRun, policy, debug);
    var surroundCalls;
    pagesByTestSystem, surroundCalls := AddSuiteSetUpAndTearDownToAllTestSystems(|testPagesToRun|, grouped, policy.surround);
  }

  /** An empty run has no groups at all, so the surrounder has nothing to run on. */
  lemma EmptyRunHasNoGroups<W, D>(policy: Policy<W, D>, debug: bool)
    ensures PagesToRun([], policy, debug) == map[]
  {
  }

  // ---------------------------------------------------------------------------
  // The announced number of tests
  // ---------------------------------------------------------------------------

  /** The sum of the sizes of all lists in the map, independent of map order. */
  ghost function TotalSize<K, V>(m: map<K, seq<V>>): nat
    decreases |m.Keys|
  {
    if m.Keys == {} then 0
    else
      var k :| k in m.Keys;
      assert |(m - {k}).Keys| < |m.Keys| by { assert (m - {k}).Keys == m.Keys - {k}; }
      |m[k]| + TotalSize(m - {k})
  }

  /** TotalSize may take the groups in any order: removing any one key takes
      exactly its list's size off the total. */
  lemma {:induction false} TotalSizeRemove<K, V>(m: map<K, seq<V>>, k: K)
    requires k in m
    ensures TotalSize(m) == |m[k]| + TotalSize(m - {k})
    decreases |m.Keys|
  {
    var c :| c in m.Keys && TotalSize(m) == |m[c]| + TotalSize(m - {c});
    if c != k {
      assert (m - {c}).Keys == m.Keys - {c};
      assert (m - {k}).Keys == m.Keys - {k};
      TotalSizeRemove(m - {c}, k);
      TotalSizeRemove(m - {k}, c);
      assert m - {c} - {k} == m - {k} - {c};
    }
  }

  /** Replacing the list of one key changes the total by the difference in size. */
  lemma TotalSizeUpdate<K, V>(m: map<K, seq<V>>, k: K, v: seq<V>)
    ensures TotalSize(m[k := v]) + (if k in m then |m[k]| else 0) == TotalSize(m) + |v|
  {
    TotalSizeRemove(m[k := v], k);
    assert m[k := v] - {k} == m - {k};
    if k in m {
      TotalSizeRemove(m, k);
    } else {
      assert m - {k} == m;
    }
  }

  /** Growing no list makes the total no smaller. */
  lemma {:induction false} TotalSizeMonotone<K, V>(m: map<K, seq<V>>, m': map<K, seq<V>>)
    requires m.Keys == m'.Keys
    requires forall k :: k in m ==> |m[k]| <= |m'[k]|
    ensures TotalSize(m) <= TotalSize(m')
    decreases |m.Keys|
  {
    if m.Keys != {} {
      var k :| k in m.Keys;
      TotalSizeRemove(m, k);
      TotalSizeRemove(m', k);
      assert (m - {k}).Keys == m.Keys - {k};
      TotalSizeMonotone(m - {k}, m' - {k});
    }
  }

  /** The counting loop: the lists are visited in whatever order the map
      yields them and their sizes are summed. */
  method CountTests<K(==), V>(pagesByTestSystem: map<K, seq<V>>) returns (tests: nat)
    ensures tests == TotalSize(pagesByTestSystem)
  {
    tests := 0;
    var rest := pagesByTestSystem;
    while rest.Keys != {}
      invariant tests + TotalSize(rest) == TotalSize(pagesByTestSystem)
      decreases |rest.Keys|
    {
      var k :| k in rest.Keys;
      TotalSizeRemove(rest, k);
      tests := tests + |rest[k]|;
      assert (rest - {k}).Keys == rest.Keys - {k};
      rest := rest - {k};
    }
  }

  /** The number of the first `n` input pages that are not suite set-up or
      tear-down pages. */
  function CountUnflagged<W, D>(pages: seq<W>, n: nat, policy: Policy<W, D>): nat
    requires n <= |pages|
  {
    if n == 0 then 0
    else CountUnflagged(pages, n - 1, policy) + (if policy.isSuiteSetupOrTearDown(pages[n - 1]) then 0 else 1)
  }

  /** Before the surrounder runs, the groups hold exactly the pages that are
      not suite set-up or tear-down pages. */
  lemma {:induction false} GroupedTotal<W, D>(pages: seq<W>, n: nat, policy: Policy<W, D>, debug: bool)
    requires n <= |pages|
    ensures TotalSize(GroupedPrefix(pages, n, policy, debug)) == CountUnflagged(pages, n, policy)
  {
    if n > 0 {
      GroupedTotal(pages, n - 1, policy, debug);
      var m := GroupedPrefix(pages, n - 1, policy, debug);
      var p := pages[n - 1];
      if !policy.isSuiteSetupOrTearDown(p) {
        var d := policy.descriptorOf(p, debug);
        var list := (if d in m then m[d] else []) + [TestPage(p, n - 1)];
        var r := AddPageToListWithinMap(m, TestPage(p, n - 1), d);
        assert r == m[d := list];
        TotalSizeUpdate(m, d, list);
        assert TotalSize(r) == TotalSize(m) + 1;
      }
    }
  }

  /** The announced count is taken after the surrounder: it equals the number
      of pages that are not suite set-up or tear-down pages when the surrounder
      adds nothing, and is at least that number when it only adds pages. */
  lemma AnnouncedCount<W, D>(pages: seq<W>, policy: Policy<W, D>, debug: bool)
    ensures (forall s :: |policy.surround(s)| >= |s|) ==>
              TotalSize(PagesToRun(pages, policy, debug)) >= CountUnflagged(pages, |pages|, policy)
    ensures (forall s :: |policy.surround(s)| == |s|) ==>
              TotalSize(PagesToRun(pages, policy, debug)) == CountUnflagged(pages, |pages|, policy)
  {
    var g := Grouped(pages, policy, debug);
    GroupedTotal(pages, |pages|, policy, debug);
    if |pages| != 0 {
      var s := Surrounded(g, policy.surround);
      if forall l :: |policy.surround(l)| >= |l| {
        TotalSizeMonotone(g, s);
      }
      if forall l :: |policy.surround(l)| == |l| {
        TotalSizeMonotone(g, s);
        TotalSizeMonotone(s, g);
      }
    }
  }
}
