/**
 * The weather-condition classifier of the weather window: an OpenWeatherMap
 * condition id is mapped to one of ten icon categories by a chain of
 * inclusive range tests in which the first test that holds wins, and the
 * category is then looked up in the icon dictionary.
 */
module WeatherIcons {
  import opened Wrappers

  /** The ten icon categories; `Key` gives the dictionary key of each. */
  datatype Category =
    | Thunderstorm | Drizzle | Rain | Snow | Fog
    | Volcano | Wind | Tornado | Clear | Clouds

  /** The key under which the icon dictionary stores a category's icon. */
  function Key(c: Category): string
  {
    match c
    case Thunderstorm => "thunderstorm"
    case Drizzle => "drizzle"
    case Rain => "rain"
    case Snow => "snow"
    case Fog => "fog"
    case Volcano => "volcano"
    case Wind => "wind"
    case Tornado => "tornado"
    case Clear => "clear"
    case Clouds => "clouds"
  }

  /** No two categories share a dictionary key. */
  lemma KeysDistinct(c1: Category, c2: Category)
    requires Key(c1) == Key(c2)
    ensures c1 == c2
  {
  }

  /**
   * The classifier as written: the if/elif chain, first match wins,
   * `None` where the chain falls through to the empty path.
   */
  function Classify(id: int): (r: Option<Category>)
    ensures r == Some(Thunderstorm) <==> 200 <= id <= 232
    ensures r == Some(Drizzle) <==> 300 <= id <= 321
    ensures r == Some(Rain) <==> 500 <= id <= 531
    ensures r == Some(Snow) <==> 600 <= id <= 622
    ensures r == Some(Fog) <==> 701 <= id <= 741
    ensures r == Some(Volcano) <==> id == 762
    ensures r == Some(Wind) <==> id == 771
    ensures r == Some(Tornado) <==> id == 781
    ensures r == Some(Clear) <==> id == 800
    ensures r == Some(Clouds) <==> 801 <= id <= 804
  {
    if 200 <= id <= 232 then Some(Thunderstorm)
    else if 300 <= id <= 321 then Some(Drizzle)
    else if 500 <= id <= 531 then Some(Rain)
    else if 600 <= id <= 622 then Some(Snow)
    else if 701 <= id <= 741 then Some(Fog)
    else if id == 762 then Some(Volcano)
    else if id == 771 then Some(Wind)
    else if id == 781 then Some(Tornado)
    else if id == 800 then Some(Clear)
    else if 801 <= id <= 804 then Some(Clouds)
    else None
  }

  /** The boundary ids named by the ranges: each neighbour of a range is unclassified. */
  lemma ClassifyBoundaries()
    ensures Classify(199) == None && Classify(233) == None
    ensures Classify(299) == None && Classify(322) == None
    ensures Classify(700) == None && Classify(742) == None
    ensures Classify(805) == None
    ensures Classify(200) == Some(Thunderstorm) && Classify(232) == Some(Thunderstorm)
    ensures Classify(741) == Some(Fog) && Classify(801) == Some(Clouds) && Classify(804) == Some(Clouds)
  {
  }

  // ---------------------------------------------------------------------
  // The chain as a table of branches, and why the order of its branches
  // does not matter.
  // ---------------------------------------------------------------------

  /** One branch of the chain: an inclusive id range and the category it selects. */
  datatype Branch = Branch(lo: int, hi: int, category: Category)
  {
    predicate Matches(id: int)
    {
      lo <= id <= hi
    }
  }

  /** The branches of the classifier, in the order the chain tests them. */
  const Chain: seq<Branch> := [
    Branch(200, 232, Thunderstorm),
    Branch(300, 321, Drizzle),
    Branch(500, 531, Rain),
    Branch(600, 622, Snow),
    Branch(701, 741, Fog),
    Branch(762, 762, Volcano),
    Branch(771, 771, Wind),
    Branch(781, 781, Tornado),
    Branch(800, 800, Clear),
    Branch(801, 804, Clouds)
  ]

  /** Branch `i` is the first branch of `bs` whose range holds `id`. */
  ghost predicate SelectedAt(bs: seq<Branch>, id: int, i: int)
  {
    && 0 <= i < |bs|
    && bs[i].Matches(id)
    && forall j :: 0 <= j < i ==> !bs[j].Matches(id)
  }

  /** First-match evaluation of a branch table. */
  function FirstMatch(bs: seq<Branch>, id: int): (r: Option<Category>)
    ensures r.None? <==> forall i :: 0 <= i < |bs| ==> !bs[i].Matches(id)
    ensures r.Some? ==> exists i :: SelectedAt(bs, id, i) && bs[i].category == r.value
  {
    if bs == [] then None
    else if bs[0].Matches(id) then
      assert SelectedAt(bs, id, 0);
      Some(bs[0].category)
    else
      var r := FirstMatch(bs[1..], id);
      assert r.Some? ==> exists i :: SelectedAt(bs, id, i) && bs[i].category == r.value by {
        if r.Some? {
          var i :| SelectedAt(bs[1..], id, i) && bs[1..][i].category == r.value;
          assert SelectedAt(bs, id, i + 1);
        }
      }
      r
  }

  /** Two non-empty ranges that share at least one id. */
  predicate Overlap(a: Branch, b: Branch)
  {
    a.lo <= a.hi && b.lo <= b.hi && a.lo <= b.hi && b.lo <= a.hi
  }

  /** No id lies in the ranges of two different branches. */
  ghost predicate Disjoint(bs: seq<Branch>)
  {
    forall i, j :: 0 <= i < |bs| && 0 <= j < |bs| && i != j ==> !Overlap(bs[i], bs[j])
  }

  lemma ChainDisjoint()
    ensures Disjoint(Chain)
  {
  }

  /**
   * In a table whose ranges are pairwise disjoint, the branch whose range
   * holds the id is the one first-match evaluation selects, wherever it stands.
   */
  lemma DisjointFirstMatch(bs: seq<Branch>, id: int, k: int)
    requires Disjoint(bs)
    requires 0 <= k < |bs| && bs[k].Matches(id)
    ensures FirstMatch(bs, id) == Some(bs[k].category)
  {
  }

  /**
   * For a table whose ranges are pairwise disjoint, first-match evaluation
   * does not depend on the order of the branches.
   */
  lemma ReorderingPreservesFirstMatch(bs: seq<Branch>, perm: seq<Branch>, id: int)
    requires Disjoint(bs)
    requires multiset(perm) == multiset(bs)
    ensures FirstMatch(perm, id) == FirstMatch(bs, id)
  {
    if FirstMatch(bs, id).None? {
      forall i | 0 <= i < |perm|
        ensures !perm[i].Matches(id)
      {
        assert perm[i] in multiset(bs);
        var k :| 0 <= k < |bs| && bs[k] == perm[i];
      }
    } else {
      var i :| SelectedAt(bs, id, i) && bs[i].category == FirstMatch(bs, id).value;
      assert bs[i] in multiset(perm);
      assert FirstMatch(perm, id).Some?;
      var i' :| SelectedAt(perm, id, i') && perm[i'].category == FirstMatch(perm, id).value;
      assert perm[i'] in multiset(bs);
      var k :| 0 <= k < |bs| && bs[k] == perm[i'];
      DisjointFirstMatch(bs, id, k);
    }
  }

  /** The if/elif chain is first-match evaluation of `Chain`. */
  lemma ClassifyIsFirstMatch(id: int)
    ensures Classify(id) == FirstMatch(Chain, id)
  {
    ChainDisjoint();
    var r := Classify(id);
    if r.None? {
      forall i | 0 <= i < |Chain|
        ensures !Chain[i].Matches(id)
      {
      }
    } else {
      var k :=
        if 200 <= id <= 232 then 0 else if 300 <= id <= 321 then 1
        else if 500 <= id <= 531 then 2 else if 600 <= id <= 622 then 3
        else if 701 <= id <= 741 then 4 else if id == 762 then 5
        else if id == 771 then 6 else if id == 781 then 7
        else if id == 800 then 8 else 9;
      DisjointFirstMatch(Chain, id, k);
    }
  }

  /** Reordering the branches of the classifier's chain changes no result. */
  lemma ClassifyOrderIndependent(perm: seq<Branch>, id: int)
    requires multiset(perm) == multiset(Chain)
    ensures FirstMatch(perm, id) == Classify(id)
  {
    ChainDisjoint();
    ReorderingPreservesFirstMatch(Chain, perm, id);
    ClassifyIsFirstMatch(id);
  }

  // ---------------------------------------------------------------------
  // The icon dictionary
  // ---------------------------------------------------------------------

  /** The icon dictionary holds a path for every category's key. */
  predicate HasEveryIcon(icons: map<string, string>)
  {
    forall c: Category :: Key(c) in icons
  }

  /**
   * The icon path for a condition id: the dictionary entry of its category,
   * or the empty path when no range holds the id.
   */
  function IconPath(icons: map<string, string>, id: int): (path: string)
    requires HasEveryIcon(icons)
    ensures Classify(id).None? ==> path == ""
    ensures Classify(id).Some? ==> path == icons[Key(Classify(id).value)]
  {
    match Classify(id)
    case Some(c) => icons[Key(c)]
    case None => ""
  }

  /**
   * When no icon file path is empty, the empty path is returned exactly for
   * the ids that no range holds.
   */
  lemma EmptyPathOnlyForUnknown(icons: map<string, string>, id: int)
    requires HasEveryIcon(icons)
    requires forall k :: k in icons ==> icons[k] != ""
    ensures IconPath(icons, id) == "" <==> Classify(id) == None
  {
  }
}
