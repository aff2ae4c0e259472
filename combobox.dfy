/**
 * The nested combobox navigator: pre-order search for the path to a value,
 * the option level reached by following the current path, label filtering,
 * the "create new" condition, the modular keyboard highlight, inserting loaded
 * or created children into the tree, and the handlers that move along a path.
 *
 * Each handler is a transition `State -> State` (the properties are lemmas
 * about these), and the class `Combobox` mutates its fields step by step with
 * each method proved to perform its transition. The asynchronous callbacks
 * (`onLoadChildren`, `onCreateOption`) become outcome parameters.
 */
module Combobox {
  import opened Wrappers
  import opened Strings
  import opened Lists

  // ---------------------------------------------------------------- options

  /** `children?`: absent (not loaded yet) or a list, the empty list being truthy. */
  datatype Children = Unloaded | Loaded(items: seq<NestedOption>)

  /** An option of the tree (`labelText` is its `label`); an absent `hasChildren` is `false`. */
  datatype NestedOption = NestedOption(
    id: string,
    labelText: string,
    value: string,
    children: Children,
    hasChildren: bool)

  /** `o.children || []`. */
  function ItemsOf(c: Children): seq<NestedOption> {
    if c.Loaded? then c.items else []
  }

  /** `option.hasChildren || option.children`: the option can be entered. */
  predicate CanEnter(o: NestedOption) {
    o.hasChildren || o.children.Loaded?
  }

  // ---------------------------------------------------------------- path search

  /** `findOptionPath` over a list of siblings, below the chain `path`. */
  function FindPath(options: seq<NestedOption>, target: string, path: seq<NestedOption>): (r: seq<NestedOption>)
    ensures r != [] ==> |r| > |path| && r[..|path|] == path && r[|path|] in options && r[|r| - 1].value == target
    decreases options
  {
    if options == [] then []
    else
      var r := FindPathNode(options[0], target, path);
      if |r| > 0 then
        assert r[..|path|] == r[..|path| + 1][..|path|] && r[|path|] == r[..|path| + 1][|path|];
        r
      else FindPath(options[1..], target, path)
  }

  /** One iteration of `findOptionPath`'s loop: the option itself, then its loaded children. */
  function FindPathNode(o: NestedOption, target: string, path: seq<NestedOption>): (r: seq<NestedOption>)
    ensures r != [] ==> |r| > |path| && r[..|path| + 1] == path + [o] && r[|r| - 1].value == target
    ensures o.value == target ==> r == path + [o]
    decreases o
  {
    var newPath := path + [o];
    if o.value == target then newPath
    else if o.children.Loaded? then
      var r := FindPath(o.children.items, target, newPath);
      assert r != [] ==> r[..|path| + 1] == r[..|newPath|];
      r
    else []
  }

  /** Every chain from a root of `options` down loaded child links, in pre-order, each after `path`. */
  function Chains(options: seq<NestedOption>, path: seq<NestedOption>): seq<seq<NestedOption>>
    decreases options
  {
    if options == [] then [] else NodeChains(options[0], path) + Chains(options[1..], path)
  }

  /** The chain ending at `o` first, then the chains through its children. */
  function NodeChains(o: NestedOption, path: seq<NestedOption>): seq<seq<NestedOption>>
    decreases o
  {
    [path + [o]] + (if o.children.Loaded? then Chains(o.children.items, path + [o]) else [])
  }

  function Last(c: seq<NestedOption>): NestedOption
    requires c != []
  {
    c[|c| - 1]
  }

  predicate EndsAt(c: seq<NestedOption>, target: string) {
    c != [] && Last(c).value == target
  }

  /** The first chain that ends at an option with value `target`, or []. */
  function FirstMatch(chains: seq<seq<NestedOption>>, target: string): seq<NestedOption> {
    if chains == [] then []
    else if EndsAt(chains[0], target) then chains[0]
    else FirstMatch(chains[1..], target)
  }

  lemma {:induction false} FirstMatchAppend(a: seq<seq<NestedOption>>, b: seq<seq<NestedOption>>, target: string)
    ensures FirstMatch(a + b, target) == if FirstMatch(a, target) != [] then FirstMatch(a, target) else FirstMatch(b, target)
  {
    if a == [] {
      assert a + b == b;
    } else {
      assert (a + b)[1..] == a[1..] + b;
      FirstMatchAppend(a[1..], b, target);
    }
  }

  /** `FirstMatch` is [] exactly when no chain ends at the value, and otherwise the first one that does. */
  lemma {:induction false} FirstMatchSpec(chains: seq<seq<NestedOption>>, target: string)
    ensures FirstMatch(chains, target) == [] <==> forall c :: c in chains ==> !EndsAt(c, target)
    ensures FirstMatch(chains, target) != [] ==>
      exists k :: (0 <= k < |chains| && chains[k] == FirstMatch(chains, target) && EndsAt(chains[k], target)
        && forall j :: 0 <= j < k ==> !EndsAt(chains[j], target))
  {
    if chains != [] {
      FirstMatchSpec(chains[1..], target);
      assert chains == [chains[0]] + chains[1..];
      if !EndsAt(chains[0], target) && FirstMatch(chains, target) != [] {
        var k :| (0 <= k < |chains[1..]| && chains[1..][k] == FirstMatch(chains, target) && EndsAt(chains[1..][k], target)
          && forall j :: 0 <= j < k ==> !EndsAt(chains[1..][j], target));
        assert chains[k + 1] == chains[1..][k];
        forall j | 0 <= j < k + 1
          ensures !EndsAt(chains[j], target)
        {
          if j > 0 {
            assert chains[j] == chains[1..][j - 1];
          }
        }
      }
    }
  }

  lemma {:induction false} FindPathIsFirstMatch(options: seq<NestedOption>, target: string, path: seq<NestedOption>)
    ensures FindPath(options, target, path) == FirstMatch(Chains(options, path), target)
    decreases options
  {
    if options != [] {
      FindPathNodeIsFirstMatch(options[0], target, path);
      FindPathIsFirstMatch(options[1..], target, path);
      FirstMatchAppend(NodeChains(options[0], path), Chains(options[1..], path), target);
    }
  }

  lemma {:induction false} FindPathNodeIsFirstMatch(o: NestedOption, target: string, path: seq<NestedOption>)
    ensures FindPathNode(o, target, path) == FirstMatch(NodeChains(o, path), target)
    decreases o
  {
    var rest := if o.children.Loaded? then Chains(o.children.items, path + [o]) else [];
    FirstMatchAppend([path + [o]], rest, target);
    assert [path + [o]][1..] == [];
    if o.children.Loaded? {
      FindPathIsFirstMatch(o.children.items, target, path + [o]);
    }
  }

  /** `c` starts with `path`, continues with a root of `options`, and then follows loaded child links. */
  ghost predicate IsChainFrom(c: seq<NestedOption>, path: seq<NestedOption>, options: seq<NestedOption>) {
    && |c| > |path| && c[..|path|] == path && c[|path|] in options
    && forall i :: |path| <= i < |c| - 1 ==> c[i].children.Loaded? && c[i + 1] in c[i].children.items
  }

  lemma {:induction false} ChainsAreChains(options: seq<NestedOption>, path: seq<NestedOption>)
    ensures forall c :: c in Chains(options, path) ==> IsChainFrom(c, path, options)
    decreases options
  {
    if options != [] {
      NodeChainsAreChains(options[0], path);
      ChainsAreChains(options[1..], path);
      forall c | c in Chains(options, path)
        ensures IsChainFrom(c, path, options)
      {
        if c in NodeChains(options[0], path) {
          assert IsChainFrom(c, path, [options[0]]);
        } else {
          assert IsChainFrom(c, path, options[1..]);
        }
      }
    }
  }

  lemma {:induction false} NodeChainsAreChains(o: NestedOption, path: seq<NestedOption>)
    ensures forall c :: c in NodeChains(o, path) ==> IsChainFrom(c, path, [o])
    decreases o
  {
    var p := path + [o];
    assert p[..|path|] == path;
    if o.children.Loaded? {
      ChainsAreChains(o.children.items, p);
      forall c | c in Chains(o.children.items, p)
        ensures IsChainFrom(c, path, [o])
      {
        assert c[..|p|] == p;
        assert c[..|path|] == c[..|p|][..|path|];
        assert c[|path|] == c[..|p|][|path|] == o;
      }
    }
  }

  /**
   * `findOptionPath(options, v)` is [] exactly when no option of the tree has
   * value v; otherwise it is the first chain in pre-order (a parent before its
   * children, earlier siblings first) that ends at such an option, and that
   * chain runs from a root down loaded child links.
   */
  lemma FindOptionPathCorrect(options: seq<NestedOption>, target: string)
    ensures var r := FindPath(options, target, []);
      && (r == [] <==> forall c :: c in Chains(options, []) ==> !EndsAt(c, target))
      && (r != [] ==> IsChainFrom(r, [], options) && Last(r).value == target)
      && (r != [] ==> exists k :: (0 <= k < |Chains(options, [])| && Chains(options, [])[k] == r
            && forall j :: 0 <= j < k ==> !EndsAt(Chains(options, [])[j], target)))
  {
    FindPathIsFirstMatch(options, target, []);
    FirstMatchSpec(Chains(options, []), target);
    ChainsAreChains(options, []);
  }

  // ---------------------------------------------------------------- levels

  /** `current.find(o => o.id === id)`. */
  function FindById(cur: seq<NestedOption>, id: string): (r: Option<NestedOption>)
    ensures r.Some? ==> r.value in cur && r.value.id == id
    ensures r.None? ==> forall o :: o in cur ==> o.id != id
  {
    if cur == [] then None
    else if cur[0].id == id then Some(cur[0])
    else FindById(cur[1..], id)
  }

  /** One iteration of `getCurrentOptions`: the found option's loaded children, else []. */
  function Step(cur: seq<NestedOption>, id: string): seq<NestedOption> {
    var found := FindById(cur, id);
    if found.Some? && found.value.children.Loaded? then found.value.children.items else []
  }

  /** The level reached from `all` by following `path` by id. */
  function OptionsAt(all: seq<NestedOption>, path: seq<NestedOption>): (r: seq<NestedOption>)
    ensures path == [] ==> r == all
    ensures path != [] && r != [] ==>
      exists p :: p in OptionsAt(all, path[..|path| - 1]) && p.id == path[|path| - 1].id && p.children == Loaded(r)
    decreases |path|
  {
    if path == [] then all else Step(OptionsAt(all, path[..|path| - 1]), path[|path| - 1].id)
  }

  /** Once a step is missing or not loaded the level is [], and it stays [] along any longer path. */
  lemma {:induction false} OptionsAtStaysEmpty(all: seq<NestedOption>, path: seq<NestedOption>, more: seq<NestedOption>)
    requires OptionsAt(all, path) == []
    ensures OptionsAt(all, path + more) == []
    decreases |more|
  {
    if more == [] {
      assert path + more == path;
    } else {
      var init := more[..|more| - 1];
      assert (path + more)[..|path + more| - 1] == path + init;
      OptionsAtStaysEmpty(all, path, init);
      var x := (path + more)[|path + more| - 1].id;
      assert OptionsAt(all, path + more) == Step(OptionsAt(all, path + init), x);
      assert FindById([], x) == None;
    }
  }

  /** Entering an option shows its loaded children when it is on the current level; [] otherwise. */
  lemma OptionsAtEnter(all: seq<NestedOption>, path: seq<NestedOption>, o: NestedOption)
    ensures var level := OptionsAt(all, path);
      OptionsAt(all, path + [o]) ==
        (if FindById(level, o.id).Some? && FindById(level, o.id).value.children.Loaded?
         then FindById(level, o.id).value.children.items else [])
  {
    assert (path + [o])[..|path + [o]| - 1] == path;
  }

  // ---------------------------------------------------------------- filtering

  predicate LabelContains(o: NestedOption, lowerQuery: string) {
    Includes(Lower(o.labelText), lowerQuery)
  }

  /** `opt => opt.labelText.toLowerCase().includes(lowerQuery)`. */
  function LabelMatches(lowerQuery: string): NestedOption -> bool {
    o => LabelContains(o, lowerQuery)
  }

  /** The filter of `getFilteredOptions`: the whole level on an empty search. */
  function FilterByLabel(opts: seq<NestedOption>, search: string): (r: seq<NestedOption>)
    ensures |r| <= |opts|
    ensures search == "" ==> r == opts
    ensures search != "" ==> forall k :: 0 <= k < |r| ==> Includes(Lower(r[k].labelText), Lower(search))
  {
    if search == "" then opts else Filter(opts, LabelMatches(Lower(search)))
  }

  /** An option survives the filter exactly when its label contains the search, ignoring case. */
  lemma FilterByLabelSpec(opts: seq<NestedOption>, search: string, o: NestedOption)
    ensures search == "" ==> FilterByLabel(opts, search) == opts
    ensures search != "" ==> (o in FilterByLabel(opts, search) <==> o in opts && Includes(Lower(o.labelText), Lower(search)))
    ensures |FilterByLabel(opts, search)| <= |opts|
  {
    FilterMembers(opts, LabelMatches(Lower(search)), o);
  }

  /** The filter keeps the order of the level: it distributes over concatenation. */
  lemma FilterByLabelAppend(a: seq<NestedOption>, b: seq<NestedOption>, search: string)
    ensures FilterByLabel(a + b, search) == FilterByLabel(a, search) + FilterByLabel(b, search)
  {
    FilterAppend(a, b, LabelMatches(Lower(search)));
  }

  // ---------------------------------------------------------------- create new

  /** `filtered.some(opt => opt.labelText.toLowerCase() === q.toLowerCase())`. */
  predicate SomeLabelEquals(opts: seq<NestedOption>, q: string)
    ensures SomeLabelEquals(opts, q) <==> exists k :: 0 <= k < |opts| && Lower(opts[k].labelText) == Lower(q)
  {
    assert opts != [] ==> forall k :: 1 <= k < |opts| ==> opts[k] == opts[1..][k - 1];
    opts != [] && (Lower(opts[0].labelText) == Lower(q) || SomeLabelEquals(opts[1..], q))
  }

  /** The computed `canCreateNew`: compares the trimmed search. */
  predicate CanCreateNew(allowCreate: bool, search: string, filtered: seq<NestedOption>)
    ensures CanCreateNew(allowCreate, search, filtered) <==>
      (allowCreate && Trim(search) != "" && forall k :: 0 <= k < |filtered| ==> Lower(filtered[k].labelText) != Lower(Trim(search)))
  {
    allowCreate && |Trim(search)| > 0 && !SomeLabelEquals(filtered, Trim(search))
  }

  /** The copy inside `onKeyDown`: compares the untrimmed search. */
  predicate KeyboardCanCreateNew(allowCreate: bool, search: string, filtered: seq<NestedOption>)
    ensures KeyboardCanCreateNew(allowCreate, search, filtered) <==>
      (allowCreate && Trim(search) != "" && forall k :: 0 <= k < |filtered| ==> Lower(filtered[k].labelText) != Lower(search))
  {
    allowCreate && |Trim(search)| > 0 && !SomeLabelEquals(filtered, search)
  }

  /** Both need `allowCreate` and a search that is not blank. */
  lemma CreateNeedsSearch(allowCreate: bool, search: string, filtered: seq<NestedOption>)
    ensures (CanCreateNew(allowCreate, search, filtered) || KeyboardCanCreateNew(allowCreate, search, filtered))
      ==> allowCreate && Trim(search) != ""
  {
  }

  /** Without surrounding blanks the two conditions agree. */
  lemma CreateConditionsAgreeWhenTrimmed(allowCreate: bool, search: string, filtered: seq<NestedOption>)
    requires Trimmed(search)
    ensures CanCreateNew(allowCreate, search, filtered) == KeyboardCanCreateNew(allowCreate, search, filtered)
  {
    TrimOfTrimmed(search);
  }

  lemma TrimPaddedA()
    ensures Trim(" a") == "a"
  {
    var s := " a";
    assert IsWhitespace(s[0]) && !IsWhitespace(s[1]);
    assert s[1..] == "a";
    assert TrimStart(s) == TrimStart("a") == "a";
    assert TrimEnd("a") == "a";
  }

  lemma LowerOfA()
    ensures Lower("a") == "a" && Lower(" a") == " a"
  {
    assert LowerChar('a') == 'a' && LowerChar(' ') == ' ';
  }

  /** A level holding one option labelled `text`. */
  function LevelOf(id: string, text: string): seq<NestedOption> {
    [NestedOption(id, text, text, Unloaded, false)]
  }

  lemma SomeLabelEqualsOne(id: string, text: string, q: string)
    ensures SomeLabelEquals(LevelOf(id, text), q) <==> Lower(text) == Lower(q)
  {
    assert LevelOf(id, text)[1..] == [];
  }

  /** Searching `" a"` among `a`: the computed condition sees `a` and refuses; the keyboard offers it. */
  lemma PaddedSearchAmongPlain()
    ensures !CanCreateNew(true, " a", LevelOf("1", "a")) && KeyboardCanCreateNew(true, " a", LevelOf("1", "a"))
  {
    TrimPaddedA();
    LowerOfA();
    SomeLabelEqualsOne("1", "a", "a");
    SomeLabelEqualsOne("1", "a", " a");
  }

  /** Searching `" a"` among `" a"`: the computed condition offers it; the keyboard refuses. */
  lemma PaddedSearchAmongPadded()
    ensures CanCreateNew(true, " a", LevelOf("2", " a")) && !KeyboardCanCreateNew(true, " a", LevelOf("2", " a"))
  {
    TrimPaddedA();
    LowerOfA();
    SomeLabelEqualsOne("2", " a", "a");
    SomeLabelEqualsOne("2", " a", " a");
  }

  /** With surrounding blanks they can disagree, either way round. */
  lemma CreateConditionsDisagree()
    ensures exists search: string, level: seq<NestedOption> ::
      !CanCreateNew(true, search, level) && KeyboardCanCreateNew(true, search, level)
    ensures exists search: string, level: seq<NestedOption> ::
      CanCreateNew(true, search, level) && !KeyboardCanCreateNew(true, search, level)
  {
    PaddedSearchAmongPlain();
    PaddedSearchAmongPadded();
  }

  // ---------------------------------------------------------------- highlight

  /** A JavaScript number as far as the highlight index needs one. */
  datatype JsNumber = Num(i: int) | NaN

  /** JavaScript `a % n`: the remainder takes the dividend's sign, and `x % 0` is NaN. */
  function JsRem(a: int, n: nat): (r: JsNumber)
    ensures n == 0 <==> r.NaN?
    ensures n > 0 && a >= 0 ==> r == Num(a % n)
  {
    if n == 0 then NaN else if a >= 0 then Num(a % n) else Num(-((-a) % n))
  }

  /** ArrowDown: `(h + 1) % totalItems`. */
  function ArrowDown(h: JsNumber, total: nat): (r: JsNumber)
    ensures total == 0 || h.NaN? ==> r.NaN?
    ensures InRange(h, total) ==> r == Num(if h.i + 1 < total then h.i + 1 else 0)
  {
    if h.NaN? then NaN else JsRem(h.i + 1, total)
  }

  /** ArrowUp: `(h - 1 + totalItems) % totalItems`. */
  function ArrowUp(h: JsNumber, total: nat): (r: JsNumber)
    ensures total == 0 || h.NaN? ==> r.NaN?
    ensures InRange(h, total) ==> r == Num(if h.i >= 1 then h.i - 1 else total - 1)
  {
    if h.NaN? then NaN else JsRem(h.i - 1 + total, total)
  }

  predicate InRange(h: JsNumber, total: nat) {
    h.Num? && 0 <= h.i < total
  }

  /** On a non-empty list both arrows keep the highlight in range. */
  lemma ArrowsStayInRange(h: JsNumber, total: nat)
    requires total > 0 && InRange(h, total)
    ensures InRange(ArrowDown(h, total), total) && InRange(ArrowUp(h, total), total)
  {
  }

  /** The arrows undo each other on a non-empty list. */
  lemma ArrowsInverse(h: JsNumber, total: nat)
    requires total > 0 && InRange(h, total)
    ensures ArrowUp(ArrowDown(h, total), total) == h
    ensures ArrowDown(ArrowUp(h, total), total) == h
  {
    var i := h.i;
    var down := if i + 1 < total then i + 1 else 0;
    var up := if i >= 1 then i - 1 else total - 1;
    ModSmall(i + 1, total, down);
    ModSmall(i - 1 + total, total, up);
    ModSmall(down - 1 + total, total, i);
    ModSmall(up + 1, total, i);
  }

  /** `a % n` for a value at most one period above the result. */
  lemma ModSmall(a: int, n: nat, r: int)
    requires n > 0 && 0 <= r < n && (a == r || a == r + n)
    ensures a % n == r
  {
    if a == r + n {
      assert (r + n) % n == r % n;
    }
  }

  /** ArrowDown wraps from the last item to the first, ArrowUp from the first to the last. */
  lemma ArrowsWrap(total: nat)
    requires total > 0
    ensures ArrowDown(Num(total - 1), total) == Num(0)
    ensures ArrowUp(Num(0), total) == Num(total - 1)
  {
  }

  /** With no items the modulo is NaN, and NaN stays NaN. */
  lemma ArrowsOnEmpty(h: JsNumber, total: nat)
    ensures ArrowDown(h, 0).NaN? && ArrowUp(h, 0).NaN?
    ensures ArrowDown(NaN, total).NaN? && ArrowUp(NaN, total).NaN?
  {
  }

  /** The highlight is NaN or a non-negative integer: the arrows never make it negative. */
  predicate HighlightOk(h: JsNumber) {
    h.NaN? || h.i >= 0
  }

  lemma ArrowsKeepHighlightOk(h: JsNumber, total: nat)
    requires HighlightOk(h)
    ensures HighlightOk(ArrowDown(h, total)) && HighlightOk(ArrowUp(h, total))
  {
  }

  /** `h < n` in JavaScript: false for NaN. */
  predicate Below(h: JsNumber, n: nat) {
    h.Num? && h.i < n
  }

  // ---------------------------------------------------------------- tree edits

  /** What a handler writes into the option with a given id. */
  datatype Edit = LoadChildren(loaded: seq<NestedOption>) | AddChild(child: NestedOption)

  /** `{...opt, children, hasChildren: children.length > 0}` and `{...o, children: [...(o.children || []), newOpt], hasChildren: true}`. */
  function ApplyEdit(o: NestedOption, e: Edit): (r: NestedOption)
    ensures r.id == o.id && r.labelText == o.labelText && r.value == o.value && r.children.Loaded?
  {
    match e
    case LoadChildren(ch) => o.(children := Loaded(ch), hasChildren := |ch| > 0)
    case AddChild(c) => o.(children := Loaded(ItemsOf(o.children) + [c]), hasChildren := true)
  }

  /** The shared shape of `updateOptions` and `recurse`: edit every option with the id, descending elsewhere. */
  function MapById(opts: seq<NestedOption>, id: string, e: Edit): (r: seq<NestedOption>)
    ensures |r| == |opts|
    decreases opts
  {
    if opts == [] then [] else [MapNode(opts[0], id, e)] + MapById(opts[1..], id, e)
  }

  function MapNode(o: NestedOption, id: string, e: Edit): (r: NestedOption)
    ensures r.id == o.id && r.labelText == o.labelText && r.value == o.value
    decreases o
  {
    if o.id == id then ApplyEdit(o, e)
    else if o.children.Loaded? then o.(children := Loaded(MapById(o.children.items, id, e)))
    else o
  }

  /** `updateOptions` in `handleLoadChildren`. */
  function UpdateOptions(opts: seq<NestedOption>, id: string, loaded: seq<NestedOption>): (r: seq<NestedOption>)
    ensures |r| == |opts|
    ensures forall k :: 0 <= k < |opts| && opts[k].id == id ==>
      r[k].children == Loaded(loaded) && r[k].hasChildren == (|loaded| > 0)
    ensures forall k :: 0 <= k < |opts| ==> r[k].id == opts[k].id && r[k].value == opts[k].value
  {
    MapByIdRootsAll(opts, id, LoadChildren(loaded));
    MapById(opts, id, LoadChildren(loaded))
  }

  /** `recurse` in `handleCreateOption`. */
  function AppendUnder(opts: seq<NestedOption>, parentId: string, newOpt: NestedOption): (r: seq<NestedOption>)
    ensures |r| == |opts|
    ensures forall k :: 0 <= k < |opts| && opts[k].id == parentId ==>
      r[k].children == Loaded(ItemsOf(opts[k].children) + [newOpt]) && r[k].hasChildren
    ensures forall k :: 0 <= k < |opts| ==> r[k].id == opts[k].id && r[k].value == opts[k].value
  {
    MapByIdRootsAll(opts, parentId, AddChild(newOpt));
    MapById(opts, parentId, AddChild(newOpt))
  }

  lemma {:induction false} MapByIdIndex(opts: seq<NestedOption>, id: string, e: Edit, k: nat)
    requires k < |opts|
    ensures MapById(opts, id, e)[k] == MapNode(opts[k], id, e)
  {
    if k > 0 {
      MapByIdIndex(opts[1..], id, e, k - 1);
    }
  }

  /** Some option of the forest, at any depth below loaded children, has the id. */
  predicate ForestHasId(opts: seq<NestedOption>, id: string)
    decreases opts
  {
    opts != [] && (NodeHasId(opts[0], id) || ForestHasId(opts[1..], id))
  }

  predicate NodeHasId(o: NestedOption, id: string)
    decreases o
  {
    o.id == id || (o.children.Loaded? && ForestHasId(o.children.items, id))
  }

  /** Where no option has the id, the edit changes nothing at all. */
  lemma {:induction false} MapByIdAbsent(opts: seq<NestedOption>, id: string, e: Edit)
    requires !ForestHasId(opts, id)
    ensures MapById(opts, id, e) == opts
    decreases opts
  {
    if opts != [] {
      MapNodeAbsent(opts[0], id, e);
      MapByIdAbsent(opts[1..], id, e);
      assert opts == [opts[0]] + opts[1..];
    }
  }

  lemma {:induction false} MapNodeAbsent(o: NestedOption, id: string, e: Edit)
    requires !NodeHasId(o, id)
    ensures MapNode(o, id, e) == o
    decreases o
  {
    if o.children.Loaded? {
      MapByIdAbsent(o.children.items, id, e);
    }
  }

  /** Every root option keeps its position, id, label and value; the ones with the id are edited. */
  lemma MapByIdRoots(opts: seq<NestedOption>, id: string, e: Edit, k: nat)
    requires k < |opts|
    ensures var r := MapById(opts, id, e)[k];
      && r.id == opts[k].id && r.labelText == opts[k].labelText && r.value == opts[k].value
      && (opts[k].id == id ==> r == ApplyEdit(opts[k], e))
      && (opts[k].id != id && opts[k].children.Unloaded? ==> r == opts[k])
      && (opts[k].id != id ==> r.hasChildren == opts[k].hasChildren)
  {
    MapByIdIndex(opts, id, e, k);
  }

  lemma MapByIdRootsAll(opts: seq<NestedOption>, id: string, e: Edit)
    ensures forall k :: 0 <= k < |opts| ==> MapById(opts, id, e)[k] == MapNode(opts[k], id, e)
  {
    forall k | 0 <= k < |opts| {
      MapByIdIndex(opts, id, e, k);
    }
  }

  lemma {:induction false} FindByIdAfterMap(cur: seq<NestedOption>, id: string, e: Edit, x: string)
    ensures FindById(MapById(cur, id, e), x)
         == (if FindById(cur, x).Some? then Some(MapNode(FindById(cur, x).value, id, e)) else None)
  {
    if cur != [] {
      FindByIdAfterMap(cur[1..], id, e, x);
      assert MapById(cur, id, e)[1..] == MapById(cur[1..], id, e);
    }
  }

  lemma StepAfterMap(cur: seq<NestedOption>, id: string, e: Edit, x: string)
    requires x != id
    ensures Step(MapById(cur, id, e), x) == MapById(Step(cur, x), id, e)
  {
    FindByIdAfterMap(cur, id, e, x);
  }

  /** Along a path that avoids the id, the level after an edit is the edited level. */
  lemma {:induction false} OptionsAtAfterMap(all: seq<NestedOption>, id: string, e: Edit, path: seq<NestedOption>)
    requires forall k :: 0 <= k < |path| ==> path[k].id != id
    ensures OptionsAt(MapById(all, id, e), path) == MapById(OptionsAt(all, path), id, e)
    decreases |path|
  {
    if path != [] {
      var init := path[..|path| - 1];
      OptionsAtAfterMap(all, id, e, init);
      StepAfterMap(OptionsAt(all, init), id, e, path[|path| - 1].id);
    }
  }

  /**
   * After children are loaded for option `o`, entering `o` from the path it was
   * entered from shows exactly the loaded children.
   */
  lemma LoadedChildrenShown(all: seq<NestedOption>, path: seq<NestedOption>, o: NestedOption, loaded: seq<NestedOption>)
    requires forall k :: 0 <= k < |path| ==> path[k].id != o.id
    requires FindById(OptionsAt(all, path), o.id).Some?
    ensures OptionsAt(UpdateOptions(all, o.id, loaded), path + [o]) == loaded
  {
    var e := LoadChildren(loaded);
    assert (path + [o])[..|path + [o]| - 1] == path;
    OptionsAtAfterMap(all, o.id, e, path);
    FindByIdAfterMap(OptionsAt(all, path), o.id, e, o.id);
  }

  /** After creating an option under the last option of the path, the current level gains it at the end. */
  lemma CreatedOptionShown(all: seq<NestedOption>, path: seq<NestedOption>, newOpt: NestedOption)
    requires path != []
    requires forall k :: 0 <= k < |path| - 1 ==> path[k].id != Last(path).id
    requires FindById(OptionsAt(all, path[..|path| - 1]), Last(path).id).Some?
    ensures OptionsAt(AppendUnder(all, Last(path).id, newOpt), path) == OptionsAt(all, path) + [newOpt]
  {
    var init := path[..|path| - 1];
    var id := Last(path).id;
    var e := AddChild(newOpt);
    OptionsAtAfterMap(all, id, e, init);
    FindByIdAfterMap(OptionsAt(all, init), id, e, id);
  }

  // ---------------------------------------------------------------- handlers

  /** The props the composable reads; the callbacks only matter by being present. */
  datatype Config = Config(
    allowCreate: bool,
    maxDepth: int,
    hasLoadChildren: bool,
    hasCreateOption: bool,
    hasValueChange: bool)

  /** The refs the handlers change. */
  datatype State = State(
    searchValue: string,
    currentPath: seq<NestedOption>,
    allOptions: seq<NestedOption>,
    error: Option<string>,
    highlightedIndex: JsNumber)

  /** The settled outcome of an awaited callback: a value, a thrown `Error`, or another thrown value. */
  datatype Outcome<T> = Resolved(value: T) | ThrewError(message: string) | ThrewOther

  /** `onValueChange(value, path)` as reported by `handleSelect`. */
  datatype Report = Report(value: string, path: seq<NestedOption>)

  datatype Key = ArrowDownKey | ArrowUpKey | ArrowRightKey | ArrowLeftKey | EnterKey | EscapeKey | SlashKey | OtherKey

  const LoadFailed := "Failed to load options"
  const CreateFailed := "Failed to create option"

  /** The path never grows beyond `maxDepth`, and the highlight is never negative. */
  predicate StateValid(cfg: Config, s: State) {
    (|s.currentPath| == 0 || |s.currentPath| <= cfg.maxDepth) && HighlightOk(s.highlightedIndex)
  }

  function Initial(options: seq<NestedOption>): State {
    State("", [], options, None, Num(0))
  }

  /** The `watch` on path and search: a new path array or a changed search resets the highlight to 0. */
  function Settle(before: State, after: State, pathAssigned: bool): (r: State)
    ensures r.(highlightedIndex := after.highlightedIndex) == after
    ensures pathAssigned || after.searchValue != before.searchValue ==> r.highlightedIndex == Num(0)
    ensures !pathAssigned && after.searchValue == before.searchValue ==> r == after
  {
    if pathAssigned || after.searchValue != before.searchValue then after.(highlightedIndex := Num(0)) else after
  }

  /** The computed `filteredOptions`. */
  function Filtered(s: State): seq<NestedOption> {
    FilterByLabel(OptionsAt(s.allOptions, s.currentPath), s.searchValue)
  }

  function ErrorText(message: Option<string>, fallback: string): string {
    if message.Some? then message.value else fallback
  }

  /** `handleLoadChildren`, run to completion. */
  function LoadChildrenStep(cfg: Config, s: State, option: NestedOption, outcome: Outcome<seq<NestedOption>>): (r: State)
    ensures r.currentPath == s.currentPath && r.searchValue == s.searchValue && r.highlightedIndex == s.highlightedIndex
    ensures !cfg.hasLoadChildren || option.children.Loaded? ==> r == s
    ensures cfg.hasLoadChildren && option.children.Unloaded? ==>
      (r.error.None? <==> outcome.Resolved?)
      && (outcome.Resolved? ==> r.allOptions == UpdateOptions(s.allOptions, option.id, outcome.value))
      && (!outcome.Resolved? ==> r.allOptions == s.allOptions)
  {
    if !cfg.hasLoadChildren || option.children.Loaded? then s
    else match outcome
      case Resolved(ch) => s.(allOptions := UpdateOptions(s.allOptions, option.id, ch), error := None)
      case ThrewError(m) => s.(error := Some(m))
      case ThrewOther => s.(error := Some(LoadFailed))
  }

  /** `handleNavigateToChildren`, with the load it starts run to completion. */
  function NavigateStep(cfg: Config, s: State, option: NestedOption, load: Outcome<seq<NestedOption>>): (r: State)
    ensures r.currentPath == s.currentPath || r.currentPath == s.currentPath + [option]
    ensures r.currentPath == s.currentPath + [option] <==> |s.currentPath| < cfg.maxDepth && CanEnter(option)
  {
    if |s.currentPath| >= cfg.maxDepth || !CanEnter(option) then s
    else
      var moved := Settle(s, s.(currentPath := s.currentPath + [option], searchValue := "", error := None), true);
      if option.children.Unloaded? && cfg.hasLoadChildren then LoadChildrenStep(cfg, moved, option, load) else moved
  }

  /** The id `handleCreateOption` passes as parent: the last path option's, if any. */
  function ParentId(s: State): Option<string> {
    if |s.currentPath| > 0 then Some(Last(s.currentPath).id) else None
  }

  /** `handleCreateOption`, run to completion. */
  function CreateStep(cfg: Config, s: State, outcome: Outcome<NestedOption>): (r: State)
    ensures r.currentPath == s.currentPath
    ensures !outcome.Resolved? ==> r.allOptions == s.allOptions && r.searchValue == s.searchValue
    ensures r.allOptions != s.allOptions ==> cfg.hasCreateOption && cfg.allowCreate && outcome.Resolved?
  {
    if !cfg.hasCreateOption || !cfg.allowCreate then s
    else
      var cleared := s.(error := None);
      var parentId := ParentId(s);
      match outcome
      case Resolved(newOpt) =>
        var options := if parentId.None? || parentId.value == "" then s.allOptions + [newOpt]
                       else AppendUnder(s.allOptions, parentId.value, newOpt);
        Settle(s, cleared.(allOptions := options, searchValue := ""), false)
      case ThrewError(m) => cleared.(error := Some(m))
      case ThrewOther => cleared.(error := Some(CreateFailed))
  }

  /** `handleSelect`'s effect on the state. */
  function SelectStep(s: State): (r: State)
    ensures r == Initial(s.allOptions)
  {
    Settle(s, s.(searchValue := "", currentPath := [], error := None), true)
  }

  /** What `handleSelect` reports through `onValueChange`, when one is given. */
  function SelectReport(cfg: Config, s: State, option: NestedOption): Option<Report> {
    if cfg.hasValueChange then Some(Report(option.value, s.currentPath + [option])) else None
  }

  /** `slice(0, end)` of a path, a negative end counting from the back. */
  function SliceTo(p: seq<NestedOption>, end: int): (r: seq<NestedOption>)
    ensures |r| <= |p| && r == p[..|r|]
  {
    if end < 0 then (if |p| + end < 0 then [] else p[..|p| + end])
    else if end > |p| then p else p[..end]
  }

  /** `handleBack`. */
  function BackStep(s: State): (r: State)
    ensures |r.currentPath| == if s.currentPath == [] then 0 else |s.currentPath| - 1
    ensures r.currentPath == s.currentPath[..|r.currentPath|]
    ensures r.highlightedIndex == Num(0) && r.allOptions == s.allOptions
  {
    Settle(s, s.(currentPath := SliceTo(s.currentPath, -1), searchValue := "", error := None), true)
  }

  /** `handleBreadcrumbNavigate(index)`. */
  function BreadcrumbStep(s: State, index: int): (r: State)
    ensures |r.currentPath| <= |s.currentPath| && r.currentPath == s.currentPath[..|r.currentPath|]
    ensures r.error == None && r.highlightedIndex == Num(0) && r.allOptions == s.allOptions
  {
    var path := if index == -1 then [] else SliceTo(s.currentPath, index + 1);
    Settle(s, s.(searchValue := "", currentPath := path, error := None), true)
  }

  /** `handleRetry`: reloads the last path option when it has children that are not loaded. */
  function RetryStep(cfg: Config, s: State, load: Outcome<seq<NestedOption>>): (r: State)
    ensures r.currentPath == s.currentPath && r.searchValue == s.searchValue && r.highlightedIndex == s.highlightedIndex
    ensures !(|s.currentPath| > 0 && Last(s.currentPath).hasChildren && Last(s.currentPath).children.Unloaded?) ==>
      r == s.(error := None)
  {
    var cleared := s.(error := None);
    if |s.currentPath| > 0 && Last(s.currentPath).hasChildren && Last(s.currentPath).children.Unloaded?
    then LoadChildrenStep(cfg, cleared, Last(s.currentPath), load)
    else cleared
  }

  /** `handleClearAndRetry`. */
  function ClearAndRetryStep(s: State): (r: State)
    ensures r == Initial(s.allOptions)
  {
    Settle(s, s.(error := None, currentPath := [], searchValue := ""), true)
  }

  /** The items the keyboard counts: the filtered level, plus the "create" row. */
  function TotalItems(cfg: Config, s: State): nat {
    |Filtered(s)| + (if KeyboardCanCreateNew(cfg.allowCreate, s.searchValue, Filtered(s)) then 1 else 0)
  }

  /** The first filtered option whose label equals the search ignoring case. */
  function FirstLabelEqual(opts: seq<NestedOption>, q: string): (r: Option<NestedOption>)
    ensures r.Some? ==> r.value in opts && Lower(r.value.labelText) == Lower(q)
    ensures r.None? <==> !SomeLabelEquals(opts, q)
  {
    if opts == [] then None
    else if Lower(opts[0].labelText) == Lower(q) then Some(opts[0])
    else FirstLabelEqual(opts[1..], q)
  }

  /** ArrowRight: enter the highlighted option when it can be entered. */
  function ArrowRightStep(cfg: Config, s: State, load: Outcome<seq<NestedOption>>): (r: State)
    requires HighlightOk(s.highlightedIndex)
    ensures r != s ==> Below(s.highlightedIndex, |Filtered(s)|) && CanEnter(Filtered(s)[s.highlightedIndex.i])
  {
    var filtered := Filtered(s);
    var h := s.highlightedIndex;
    if Below(h, |filtered|) && CanEnter(filtered[h.i]) then NavigateStep(cfg, s, filtered[h.i], load) else s
  }

  /** Enter: select the highlighted option, or create one from the search on the "create" row. */
  function EnterStep(cfg: Config, s: State, create: Outcome<NestedOption>): (r: State)
    ensures Below(s.highlightedIndex, |Filtered(s)|) ==> r == Initial(s.allOptions)
    ensures r != s ==> Below(s.highlightedIndex, |Filtered(s)|) || KeyboardCanCreateNew(cfg.allowCreate, s.searchValue, Filtered(s))
  {
    var filtered := Filtered(s);
    if Below(s.highlightedIndex, |filtered|) then SelectStep(s)
    else if KeyboardCanCreateNew(cfg.allowCreate, s.searchValue, filtered) then CreateStep(cfg, s, create)
    else s
  }

  /** Escape: clear the search, else go back one level. */
  function EscapeStep(s: State): (r: State)
    ensures s.searchValue != "" ==> r.searchValue == "" && r.currentPath == s.currentPath
    ensures s.searchValue == "" ==> r.currentPath == SliceTo(s.currentPath, -1)
    ensures r.allOptions == s.allOptions
  {
    if s.searchValue != "" then Settle(s, s.(searchValue := ""), false)
    else if |s.currentPath| > 0 then BackStep(s)
    else s
  }

  /** "/": enter the option whose label is exactly the search, ignoring case. */
  function SlashStep(cfg: Config, s: State, ctrlOrMeta: bool, load: Outcome<seq<NestedOption>>): (r: State)
    ensures r != s ==> s.searchValue != "" && !ctrlOrMeta
    ensures r.currentPath == s.currentPath
      || (|r.currentPath| == |s.currentPath| + 1 && r.currentPath[..|s.currentPath|] == s.currentPath
          && Last(r.currentPath) in Filtered(s) && Lower(Last(r.currentPath).labelText) == Lower(s.searchValue))
  {
    var matched := FirstLabelEqual(Filtered(s), s.searchValue);
    if s.searchValue != "" && !ctrlOrMeta && matched.Some? && CanEnter(matched.value)
    then NavigateStep(cfg, s, matched.value, load)
    else s
  }

  /** `onKeyDown`. */
  function KeyDownStep(cfg: Config, s: State, key: Key, ctrlOrMeta: bool,
                       load: Outcome<seq<NestedOption>>, create: Outcome<NestedOption>): (r: State)
    requires HighlightOk(s.highlightedIndex)
    ensures key == OtherKey ==> r == s
    ensures key == ArrowDownKey || key == ArrowUpKey ==> r.(highlightedIndex := s.highlightedIndex) == s
    ensures key == ArrowLeftKey ==> r.currentPath == SliceTo(s.currentPath, -1) && r.allOptions == s.allOptions
  {
    match key
    case ArrowDownKey => s.(highlightedIndex := ArrowDown(s.highlightedIndex, TotalItems(cfg, s)))
    case ArrowUpKey => s.(highlightedIndex := ArrowUp(s.highlightedIndex, TotalItems(cfg, s)))
    case ArrowRightKey => ArrowRightStep(cfg, s, load)
    case ArrowLeftKey => if |s.currentPath| > 0 then BackStep(s) else s
    case EnterKey => EnterStep(cfg, s, create)
    case EscapeKey => EscapeStep(s)
    case SlashKey => SlashStep(cfg, s, ctrlOrMeta, load)
    case OtherKey => s
  }

  /** What a key press reports through `onValueChange`: only Enter on a listed option. */
  function KeyReport(cfg: Config, s: State, key: Key): Option<Report>
    requires HighlightOk(s.highlightedIndex)
  {
    var filtered := Filtered(s);
    if key == EnterKey && Below(s.highlightedIndex, |filtered|)
    then SelectReport(cfg, s, filtered[s.highlightedIndex.i])
    else None
  }

  // ---------------------------------------------------------------- handler properties

  /**
   * `handleNavigateToChildren` does nothing at `maxDepth` or on an option that
   * cannot be entered; otherwise it appends the option and clears the search.
   */
  lemma NavigateSpec(cfg: Config, s: State, option: NestedOption, load: Outcome<seq<NestedOption>>)
    ensures var r := NavigateStep(cfg, s, option, load);
      && (|s.currentPath| >= cfg.maxDepth || !CanEnter(option) ==> r == s)
      && (|s.currentPath| < cfg.maxDepth && CanEnter(option) ==>
            r.currentPath == s.currentPath + [option] && r.searchValue == "" && r.highlightedIndex == Num(0))
      && (|s.currentPath| < cfg.maxDepth && CanEnter(option) && (option.children.Loaded? || !cfg.hasLoadChildren) ==>
            r.error == None && r.allOptions == s.allOptions)
  {
  }

  /** Entering an option whose children arrive shows them as the new level. */
  lemma NavigateShowsLoadedChildren(cfg: Config, s: State, option: NestedOption, loaded: seq<NestedOption>)
    requires |s.currentPath| < cfg.maxDepth && option.children.Unloaded? && cfg.hasLoadChildren && CanEnter(option)
    requires forall k :: 0 <= k < |s.currentPath| ==> s.currentPath[k].id != option.id
    requires FindById(OptionsAt(s.allOptions, s.currentPath), option.id).Some?
    ensures var r := NavigateStep(cfg, s, option, Resolved(loaded));
      OptionsAt(r.allOptions, r.currentPath) == loaded && r.error == None
  {
    LoadedChildrenShown(s.allOptions, s.currentPath, option, loaded);
  }

  /** `handleBack` drops exactly the last path option, and leaves an empty path empty. */
  lemma BackSpec(s: State)
    ensures s.currentPath != [] ==> BackStep(s).currentPath == s.currentPath[..|s.currentPath| - 1]
    ensures s.currentPath == [] ==> BackStep(s).currentPath == []
    ensures BackStep(s).searchValue == "" && BackStep(s).error == None && BackStep(s).allOptions == s.allOptions
  {
  }

  /** `handleBreadcrumbNavigate(-1)` empties the path and `handleBreadcrumbNavigate(i)` keeps its first i+1 options. */
  lemma BreadcrumbSpec(s: State, index: int)
    ensures index == -1 ==> BreadcrumbStep(s, index).currentPath == []
    ensures 0 <= index < |s.currentPath| ==> BreadcrumbStep(s, index).currentPath == s.currentPath[..index + 1]
    ensures index >= |s.currentPath| - 1 ==> BreadcrumbStep(s, index).currentPath == s.currentPath
    ensures BreadcrumbStep(s, index).searchValue == "" && BreadcrumbStep(s, index).allOptions == s.allOptions
  {
  }

  /** `handleSelect` reports the option's value with the full path, then empties path and search. */
  lemma SelectSpec(cfg: Config, s: State, option: NestedOption)
    requires cfg.hasValueChange
    ensures SelectReport(cfg, s, option) == Some(Report(option.value, s.currentPath + [option]))
    ensures SelectStep(s).currentPath == [] && SelectStep(s).searchValue == "" && SelectStep(s).error == None
    ensures SelectStep(s).allOptions == s.allOptions
  {
  }

  /**
   * `handleCreateOption` is a no-op without `allowCreate` or the callback; on
   * success it appends at the root (empty path) or under the last path option,
   * and clears the search; on failure it keeps the tree and records the error.
   */
  lemma CreateSpec(cfg: Config, s: State, outcome: Outcome<NestedOption>)
    ensures !cfg.hasCreateOption || !cfg.allowCreate ==> CreateStep(cfg, s, outcome) == s
    ensures cfg.hasCreateOption && cfg.allowCreate && outcome.Resolved? && s.currentPath == [] ==>
      CreateStep(cfg, s, outcome).allOptions == s.allOptions + [outcome.value]
    ensures cfg.hasCreateOption && cfg.allowCreate && outcome.Resolved? && s.currentPath != [] && Last(s.currentPath).id != "" ==>
      CreateStep(cfg, s, outcome).allOptions == AppendUnder(s.allOptions, Last(s.currentPath).id, outcome.value)
    ensures cfg.hasCreateOption && cfg.allowCreate && outcome.Resolved? ==>
      CreateStep(cfg, s, outcome).searchValue == "" && CreateStep(cfg, s, outcome).error == None
    ensures cfg.hasCreateOption && cfg.allowCreate && !outcome.Resolved? ==>
      CreateStep(cfg, s, outcome).allOptions == s.allOptions && CreateStep(cfg, s, outcome).error.Some?
    ensures CreateStep(cfg, s, outcome).currentPath == s.currentPath
  {
  }

  /** A created option appears at the end of the current level. */
  lemma CreateShowsNewOption(cfg: Config, s: State, newOpt: NestedOption)
    requires cfg.hasCreateOption && cfg.allowCreate && s.currentPath != [] && Last(s.currentPath).id != ""
    requires forall k :: 0 <= k < |s.currentPath| - 1 ==> s.currentPath[k].id != Last(s.currentPath).id
    requires FindById(OptionsAt(s.allOptions, s.currentPath[..|s.currentPath| - 1]), Last(s.currentPath).id).Some?
    ensures var r := CreateStep(cfg, s, Resolved(newOpt));
      OptionsAt(r.allOptions, r.currentPath) == OptionsAt(s.allOptions, s.currentPath) + [newOpt]
  {
    CreatedOptionShown(s.allOptions, s.currentPath, newOpt);
  }

  /** At the root level a created option lands at the end of the root list. */
  lemma CreateAtRootShowsNewOption(cfg: Config, s: State, newOpt: NestedOption)
    requires cfg.hasCreateOption && cfg.allowCreate && s.currentPath == []
    ensures var r := CreateStep(cfg, s, Resolved(newOpt));
      OptionsAt(r.allOptions, r.currentPath) == s.allOptions + [newOpt]
  {
  }

  /** Every handler keeps the path within `maxDepth` and the highlight non-negative. */
  lemma HandlersKeepValid(cfg: Config, s: State, option: NestedOption, index: int,
                          load: Outcome<seq<NestedOption>>, create: Outcome<NestedOption>)
    requires StateValid(cfg, s)
    ensures StateValid(cfg, NavigateStep(cfg, s, option, load))
    ensures StateValid(cfg, LoadChildrenStep(cfg, s, option, load))
    ensures StateValid(cfg, CreateStep(cfg, s, create))
    ensures StateValid(cfg, SelectStep(s))
    ensures StateValid(cfg, BackStep(s))
    ensures StateValid(cfg, BreadcrumbStep(s, index))
    ensures StateValid(cfg, RetryStep(cfg, s, load))
    ensures StateValid(cfg, ClearAndRetryStep(s))
  {
  }

  /** So does every key press. */
  lemma KeyDownKeepsValid(cfg: Config, s: State, key: Key, ctrlOrMeta: bool,
                          load: Outcome<seq<NestedOption>>, create: Outcome<NestedOption>)
    requires StateValid(cfg, s)
    ensures StateValid(cfg, KeyDownStep(cfg, s, key, ctrlOrMeta, load, create))
  {
    var h := s.highlightedIndex;
    var none := NestedOption("", "", "", Unloaded, false);
    match key
    case ArrowDownKey => ArrowsKeepHighlightOk(h, TotalItems(cfg, s));
    case ArrowUpKey => ArrowsKeepHighlightOk(h, TotalItems(cfg, s));
    case ArrowRightKey => ArrowRightKeepsValid(cfg, s, load, create);
    case ArrowLeftKey => HandlersKeepValid(cfg, s, none, 0, load, create);
    case EnterKey => HandlersKeepValid(cfg, s, none, 0, load, create);
    case EscapeKey => HandlersKeepValid(cfg, s, none, 0, load, create);
    case SlashKey => SlashKeepsValid(cfg, s, ctrlOrMeta, load, create);
    case OtherKey =>
  }

  lemma ArrowRightKeepsValid(cfg: Config, s: State, load: Outcome<seq<NestedOption>>, create: Outcome<NestedOption>)
    requires StateValid(cfg, s)
    ensures StateValid(cfg, ArrowRightStep(cfg, s, load))
  {
    var filtered := Filtered(s);
    var h := s.highlightedIndex;
    if Below(h, |filtered|) {
      HandlersKeepValid(cfg, s, filtered[h.i], 0, load, create);
    }
  }

  lemma SlashKeepsValid(cfg: Config, s: State, ctrlOrMeta: bool, load: Outcome<seq<NestedOption>>,
                        create: Outcome<NestedOption>)
    requires StateValid(cfg, s)
    ensures StateValid(cfg, SlashStep(cfg, s, ctrlOrMeta, load))
  {
    var matched := FirstLabelEqual(Filtered(s), s.searchValue);
    if matched.Some? {
      HandlersKeepValid(cfg, s, matched.value, 0, load, create);
    }
  }

  /** The initial state (empty path, highlight 0) is valid for every configuration. */
  lemma InitialValid(cfg: Config, options: seq<NestedOption>)
    ensures StateValid(cfg, Initial(options))
  {
  }

  // ---------------------------------------------------------------- the composable

  class Combobox {
    const config: Config
    var searchValue: string
    var currentPath: seq<NestedOption>
    var allOptions: seq<NestedOption>
    var error: Option<string>
    var highlightedIndex: JsNumber

    function Snapshot(): State
      reads this
    {
      State(searchValue, currentPath, allOptions, error, highlightedIndex)
    }

    ghost predicate Valid()
      reads this
    {
      StateValid(config, Snapshot())
    }

    /** The composable's setup, with `allOptions` taken from `props.options`. */
    constructor (cfg: Config, options: seq<NestedOption>)
      ensures config == cfg && Snapshot() == Initial(options) && Valid()
    {
      config := cfg;
      searchValue := "";
      currentPath := [];
      allOptions := options;
      error := None;
      highlightedIndex := Num(0);
    }

    /** `getCurrentOptions`: follows `currentPath` level by level. */
    method GetCurrentOptions() returns (current: seq<NestedOption>)
      ensures current == OptionsAt(allOptions, currentPath)
    {
      current := allOptions;
      for i := 0 to |currentPath|
        invariant current == OptionsAt(allOptions, currentPath[..i])
      {
        assert currentPath[..i + 1][..i] == currentPath[..i];
        var found := FindById(current, currentPath[i].id);
        if found.Some? && found.value.children.Loaded? {
          current := found.value.children.items;
        } else {
          current := [];
        }
      }
      assert currentPath[..|currentPath|] == currentPath;
    }

    /** `getFilteredOptions`. */
    method GetFilteredOptions() returns (r: seq<NestedOption>)
      ensures r == Filtered(Snapshot())
    {
      var currentOpts := GetCurrentOptions();
      if searchValue == "" {
        return currentOpts;
      }
      r := Filter(currentOpts, LabelMatches(Lower(searchValue)));
    }

    /** The computed `canCreateNew`. */
    function CanCreate(): bool
      reads this
    {
      CanCreateNew(config.allowCreate, searchValue, Filtered(Snapshot()))
    }

    method HandleLoadChildren(option: NestedOption, outcome: Outcome<seq<NestedOption>>)
      requires Valid()
      modifies this
      ensures Snapshot() == LoadChildrenStep(config, old(Snapshot()), option, outcome)
      ensures Valid()
    {
      HandlersKeepValid(config, Snapshot(), option, 0, outcome, ThrewOther);
      if !config.hasLoadChildren || option.children.Loaded? {
        return;
      }
      error := None;
      match outcome {
        case Resolved(children) =>
          allOptions := UpdateOptions(allOptions, option.id, children);
        case ThrewError(m) =>
          error := Some(m);
        case ThrewOther =>
          error := Some(LoadFailed);
      }
    }

    method HandleCreateOption(outcome: Outcome<NestedOption>)
      requires Valid()
      modifies this
      ensures Snapshot() == CreateStep(config, old(Snapshot()), outcome)
      ensures Valid()
    {
      HandlersKeepValid(config, Snapshot(), NestedOption("", "", "", Unloaded, false), 0, ThrewOther, outcome);
      if !config.hasCreateOption || !config.allowCreate {
        return;
      }
      error := None;
      var parentId := if |currentPath| > 0 then Some(currentPath[|currentPath| - 1].id) else None;
      match outcome {
        case Resolved(newOpt) =>
          if parentId.None? || parentId.value == "" {
            allOptions := allOptions + [newOpt];
          } else {
            allOptions := AppendUnder(allOptions, parentId.value, newOpt);
          }
          if searchValue != "" {
            highlightedIndex := Num(0);
          }
          searchValue := "";
        case ThrewError(m) =>
          error := Some(m);
        case ThrewOther =>
          error := Some(CreateFailed);
      }
    }

    method HandleSelect(option: NestedOption) returns (report: Option<Report>)
      requires Valid()
      modifies this
      ensures report == SelectReport(config, old(Snapshot()), option)
      ensures Snapshot() == SelectStep(old(Snapshot()))
      ensures Valid()
    {
      HandlersKeepValid(config, Snapshot(), option, 0, ThrewOther, ThrewOther);
      var full := currentPath + [option];
      report := if config.hasValueChange then Some(Report(option.value, full)) else None;
      searchValue := "";
      currentPath := [];
      error := None;
      highlightedIndex := Num(0);
    }

    method HandleNavigateToChildren(option: NestedOption, load: Outcome<seq<NestedOption>>)
      requires Valid()
      modifies this
      ensures Snapshot() == NavigateStep(config, old(Snapshot()), option, load)
      ensures Valid()
    {
      HandlersKeepValid(config, Snapshot(), option, 0, load, ThrewOther);
      if |currentPath| >= config.maxDepth {
        return;
      }
      if CanEnter(option) {
        currentPath := currentPath + [option];
        searchValue := "";
        error := None;
        highlightedIndex := Num(0);
        if option.children.Unloaded? && config.hasLoadChildren {
          HandleLoadChildren(option, load);
        }
      }
    }

    method HandleBack()
      requires Valid()
      modifies this
      ensures Snapshot() == BackStep(old(Snapshot()))
      ensures Valid()
    {
      HandlersKeepValid(config, Snapshot(), NestedOption("", "", "", Unloaded, false), 0, ThrewOther, ThrewOther);
      currentPath := SliceTo(currentPath, -1);
      searchValue := "";
      error := None;
      highlightedIndex := Num(0);
    }

    method HandleBreadcrumbNavigate(index: int)
      requires Valid()
      modifies this
      ensures Snapshot() == BreadcrumbStep(old(Snapshot()), index)
      ensures Valid()
    {
      HandlersKeepValid(config, Snapshot(), NestedOption("", "", "", Unloaded, false), index, ThrewOther, ThrewOther);
      searchValue := "";
      if index == -1 {
        currentPath := [];
      } else {
        currentPath := SliceTo(currentPath, index + 1);
      }
      error := None;
      highlightedIndex := Num(0);
    }

    method HandleRetry(load: Outcome<seq<NestedOption>>)
      requires Valid()
      modifies this
      ensures Snapshot() == RetryStep(config, old(Snapshot()), load)
      ensures Valid()
    {
      HandlersKeepValid(config, Snapshot(), NestedOption("", "", "", Unloaded, false), 0, load, ThrewOther);
      error := None;
      if |currentPath| > 0 {
        var last := currentPath[|currentPath| - 1];
        if last.hasChildren && last.children.Unloaded? {
          HandleLoadChildren(last, load);
        }
      }
    }

    method HandleClearAndRetry()
      requires Valid()
      modifies this
      ensures Snapshot() == ClearAndRetryStep(old(Snapshot()))
      ensures Valid()
    {
      HandlersKeepValid(config, Snapshot(), NestedOption("", "", "", Unloaded, false), 0, ThrewOther, ThrewOther);
      error := None;
      currentPath := [];
      searchValue := "";
      highlightedIndex := Num(0);
    }

    /** The ArrowDown case of `onKeyDown`: the keyboard counts the "create" row too. */
    method PressArrowDown()
      requires Valid()
      modifies this
      ensures Snapshot() == old(Snapshot()).(highlightedIndex := ArrowDown(old(highlightedIndex), TotalItems(config, old(Snapshot()))))
      ensures Valid()
    {
      ArrowsKeepHighlightOk(highlightedIndex, TotalItems(config, Snapshot()));
      var filtered := GetFilteredOptions();
      var canCreateNew := KeyboardCanCreateNew(config.allowCreate, searchValue, filtered);
      highlightedIndex := ArrowDown(highlightedIndex, |filtered| + (if canCreateNew then 1 else 0));
    }

    /** The ArrowUp case of `onKeyDown`. */
    method PressArrowUp()
      requires Valid()
      modifies this
      ensures Snapshot() == old(Snapshot()).(highlightedIndex := ArrowUp(old(highlightedIndex), TotalItems(config, old(Snapshot()))))
      ensures Valid()
    {
      ArrowsKeepHighlightOk(highlightedIndex, TotalItems(config, Snapshot()));
      var filtered := GetFilteredOptions();
      var canCreateNew := KeyboardCanCreateNew(config.allowCreate, searchValue, filtered);
      highlightedIndex := ArrowUp(highlightedIndex, |filtered| + (if canCreateNew then 1 else 0));
    }

    /** The ArrowRight case of `onKeyDown`. */
    method PressArrowRight(load: Outcome<seq<NestedOption>>)
      requires Valid()
      modifies this
      ensures Snapshot() == ArrowRightStep(config, old(Snapshot()), load)
      ensures Valid()
    {
      ArrowRightKeepsValid(config, Snapshot(), load, ThrewOther);
      var filtered := GetFilteredOptions();
      if Below(highlightedIndex, |filtered|) {
        var option := filtered[highlightedIndex.i];
        if CanEnter(option) {
          HandleNavigateToChildren(option, load);
        }
      }
    }

    /** The Enter case of `onKeyDown`. */
    method PressEnter(create: Outcome<NestedOption>) returns (report: Option<Report>)
      requires Valid()
      modifies this
      ensures report == KeyReport(config, old(Snapshot()), EnterKey)
      ensures Snapshot() == EnterStep(config, old(Snapshot()), create)
      ensures Valid()
    {
      KeyDownKeepsValid(config, Snapshot(), EnterKey, false, ThrewOther, create);
      var filtered := GetFilteredOptions();
      var canCreateNew := KeyboardCanCreateNew(config.allowCreate, searchValue, filtered);
      report := None;
      if Below(highlightedIndex, |filtered|) {
        report := HandleSelect(filtered[highlightedIndex.i]);
      } else if canCreateNew {
        HandleCreateOption(create);
      }
    }

    /** The Escape case of `onKeyDown`. */
    method PressEscape()
      requires Valid()
      modifies this
      ensures Snapshot() == EscapeStep(old(Snapshot()))
      ensures Valid()
    {
      KeyDownKeepsValid(config, Snapshot(), EscapeKey, false, ThrewOther, ThrewOther);
      if searchValue != "" {
        searchValue := "";
        highlightedIndex := Num(0);
      } else if |currentPath| > 0 {
        HandleBack();
      }
    }

    /** The "/" case of `onKeyDown`. */
    method PressSlash(ctrlOrMeta: bool, load: Outcome<seq<NestedOption>>)
      requires Valid()
      modifies this
      ensures Snapshot() == SlashStep(config, old(Snapshot()), ctrlOrMeta, load)
      ensures Valid()
    {
      SlashKeepsValid(config, Snapshot(), ctrlOrMeta, load, ThrewOther);
      if searchValue != "" && !ctrlOrMeta {
        var filtered := GetFilteredOptions();
        var matched := FirstLabelEqual(filtered, searchValue);
        if matched.Some? && CanEnter(matched.value) {
          HandleNavigateToChildren(matched.value, load);
        }
      }
    }

    /** `onKeyDown`; `load` and `create` are the outcomes of the callbacks a key may start. */
    method OnKeyDown(key: Key, ctrlOrMeta: bool, load: Outcome<seq<NestedOption>>, create: Outcome<NestedOption>)
      returns (report: Option<Report>)
      requires Valid()
      modifies this
      ensures report == KeyReport(config, old(Snapshot()), key)
      ensures Snapshot() == KeyDownStep(config, old(Snapshot()), key, ctrlOrMeta, load, create)
      ensures Valid()
    {
      KeyDownKeepsValid(config, Snapshot(), key, ctrlOrMeta, load, create);
      report := None;
      match key {
        case ArrowDownKey =>
          PressArrowDown();
        case ArrowUpKey =>
          PressArrowUp();
        case ArrowRightKey =>
          PressArrowRight(load);
        case ArrowLeftKey =>
          if |currentPath| > 0 {
            HandleBack();
          }
        case EnterKey =>
          report := PressEnter(create);
        case EscapeKey =>
          PressEscape();
        case SlashKey =>
          PressSlash(ctrlOrMeta, load);
        case OtherKey =>
      }
    }
  }
}
