/**
 * Selector strategy chains: an ordered list of locators tried in turn,
 * where the first one that qualifies wins.  The scripts use three variants:
 *
 *  - FirstVisible: the first locator whose node exists and is displayed
 *    (the comment menu and delete-option chains, the error-banner probes);
 *  - PostMenuPick: the post menu chain, which stops at the first displayed
 *    node but otherwise keeps the LAST node it found, displayed or not;
 *  - FirstNonEmpty: the item enumerations, which accept the first locator
 *    whose `find_elements` list is non-empty, with no visibility check.
 *
 * Each variant is a recursive specification function with its meaning in
 * its contract, and a loop method, shaped like the scripts' `for` loops,
 * proved to compute it.
 */
module Selectors {
  import opened Wrappers
  import opened Dom

  /** The locator yields a node that reports itself displayed. */
  predicate VisibleAt(find: Locator -> Lookup, shown: Element -> bool, l: Locator) {
    find(l).Found? && shown(find(l).el)
  }

  /** The node of the first locator in `chain` that yields a displayed node. */
  function FirstVisible(find: Locator -> Lookup, shown: Element -> bool, chain: seq<Locator>): Option<Element>
    decreases |chain|
  {
    if |chain| == 0 then None
    else if VisibleAt(find, shown, chain[0]) then Some(find(chain[0]).el)
    else FirstVisible(find, shown, chain[1..])
  }

  /**
   * First-match determinism: the chain yields nothing exactly when no
   * locator yields a displayed node, and otherwise the node of the first
   * locator that does.
   */
  lemma {:induction false} FirstVisibleMeaning(find: Locator -> Lookup, shown: Element -> bool, chain: seq<Locator>)
    ensures FirstVisible(find, shown, chain).None? <==> forall k :: 0 <= k < |chain| ==> !VisibleAt(find, shown, chain[k])
    ensures FirstVisible(find, shown, chain).Some? ==>
              exists k :: 0 <= k < |chain| && VisibleAt(find, shown, chain[k])
                          && find(chain[k]).el == FirstVisible(find, shown, chain).value
                          && forall j :: 0 <= j < k ==> !VisibleAt(find, shown, chain[j])
    decreases |chain|
  {
    if |chain| > 0 && !VisibleAt(find, shown, chain[0]) {
      FirstVisibleMeaning(find, shown, chain[1..]);
      assert forall k :: 1 <= k < |chain| ==> chain[k] == chain[1..][k - 1];
      if FirstVisible(find, shown, chain).Some? {
        var k :| 0 <= k < |chain[1..]| && VisibleAt(find, shown, chain[1..][k])
                 && find(chain[1..][k]).el == FirstVisible(find, shown, chain).value
                 && forall j :: 0 <= j < k ==> !VisibleAt(find, shown, chain[1..][j]);
        assert chain[k + 1] == chain[1..][k];
        assert forall j :: 0 <= j < k + 1 ==> !VisibleAt(find, shown, chain[j]) by {
          forall j | 0 <= j < k + 1 ensures !VisibleAt(find, shown, chain[j]) {
            if j > 0 {
              assert chain[j] == chain[1..][j - 1];
            }
          }
        }
      }
    }
  }

  /** Strategies are a priority list, not a merge: a hit in an earlier part of the chain always wins. */
  lemma {:induction false} FirstVisibleAppend(find: Locator -> Lookup, shown: Element -> bool, a: seq<Locator>, b: seq<Locator>)
    ensures FirstVisible(find, shown, a + b) ==
            if FirstVisible(find, shown, a).Some? then FirstVisible(find, shown, a) else FirstVisible(find, shown, b)
    decreases |a|
  {
    if |a| == 0 {
      assert a + b == b;
    } else {
      assert (a + b)[0] == a[0];
      assert (a + b)[1..] == a[1..] + b;
      FirstVisibleAppend(find, shown, a[1..], b);
    }
  }

  /**
   * The loop of comments.py's chains: try each locator, keep the node only
   * if it is displayed, and stop at the first one kept.
   */
  method ResolveVisible(find: Locator -> Lookup, shown: Element -> bool, chain: seq<Locator>) returns (r: Option<Element>)
    ensures r == FirstVisible(find, shown, chain)
  {
    r := None;
    var i := 0;
    while i < |chain|
      invariant 0 <= i <= |chain|
      invariant r.None? ==> FirstVisible(find, shown, chain) == FirstVisible(find, shown, chain[i..])
      invariant r.Some? ==> r == FirstVisible(find, shown, chain)
    {
      var hit := find(chain[i]);
      if hit.Found? && shown(hit.el) {
        r := Some(hit.el);
        break;
      }
      assert chain[i..][1..] == chain[i + 1..];
      i := i + 1;
    }
    if r.None? {
      assert chain[i..] == [];
    }
  }

  /** The node yielded by the last locator of `chain` that yields one at all. */
  function LastFound(find: Locator -> Lookup, chain: seq<Locator>): Option<Element>
    decreases |chain|
  {
    if |chain| == 0 then None
    else
      var n := |chain| - 1;
      if find(chain[n]).Found? then Some(find(chain[n]).el) else LastFound(find, chain[..n])
  }

  /** The chain yields nothing exactly when no locator matches, and otherwise the node of the last one that does. */
  lemma {:induction false} LastFoundMeaning(find: Locator -> Lookup, chain: seq<Locator>)
    ensures LastFound(find, chain).None? <==> forall k :: 0 <= k < |chain| ==> find(chain[k]).Missing?
    ensures LastFound(find, chain).Some? ==>
              exists k :: 0 <= k < |chain| && find(chain[k]) == Found(LastFound(find, chain).value)
                          && forall j :: k < j < |chain| ==> find(chain[j]).Missing?
    decreases |chain|
  {
    if |chain| > 0 {
      var n := |chain| - 1;
      if find(chain[n]).Missing? {
        var init := chain[..n];
        LastFoundMeaning(find, init);
        assert forall k :: 0 <= k < n ==> chain[k] == init[k];
      }
    }
  }

  /**
   * posts.py's menu chain: the first displayed node if there is one;
   * otherwise the node of the last locator that matched, even though it is
   * not displayed; nothing only when no locator matched.
   */
  function PostMenuPick(find: Locator -> Lookup, shown: Element -> bool, chain: seq<Locator>): Option<Element> {
    var v := FirstVisible(find, shown, chain);
    if v.Some? then v else LastFound(find, chain)
  }

  lemma PostMenuPickMeaning(find: Locator -> Lookup, shown: Element -> bool, chain: seq<Locator>)
    ensures PostMenuPick(find, shown, chain).None? <==> forall k :: 0 <= k < |chain| ==> find(chain[k]).Missing?
    ensures FirstVisible(find, shown, chain).Some? ==> PostMenuPick(find, shown, chain) == FirstVisible(find, shown, chain)
    ensures FirstVisible(find, shown, chain).None? && PostMenuPick(find, shown, chain).Some? ==>
              var r := PostMenuPick(find, shown, chain).value;
              !shown(r) &&
              exists k :: 0 <= k < |chain| && find(chain[k]) == Found(r)
                          && forall j :: k < j < |chain| ==> find(chain[j]).Missing?
  {
    FirstVisibleMeaning(find, shown, chain);
    LastFoundMeaning(find, chain);
    var r := PostMenuPick(find, shown, chain);
    if FirstVisible(find, shown, chain).None? && r.Some? {
      var k :| 0 <= k < |chain| && find(chain[k]) == Found(r.value);
      assert !VisibleAt(find, shown, chain[k]);
    }
    if FirstVisible(find, shown, chain).Some? {
      var k :| 0 <= k < |chain| && VisibleAt(find, shown, chain[k]);
      assert find(chain[k]).Found?;
    }
  }

  /** One more locator of the post menu chain, seen from the front of the chain. */
  lemma PostMenuStep(find: Locator -> Lookup, shown: Element -> bool, chain: seq<Locator>, i: nat)
    requires i < |chain|
    ensures FirstVisible(find, shown, chain[..i + 1]) ==
            if FirstVisible(find, shown, chain[..i]).Some? then FirstVisible(find, shown, chain[..i])
            else FirstVisible(find, shown, [chain[i]])
    ensures LastFound(find, chain[..i + 1]) ==
            if find(chain[i]).Found? then Some(find(chain[i]).el) else LastFound(find, chain[..i])
  {
    FirstVisibleAppend(find, shown, chain[..i], [chain[i]]);
    assert chain[..i] + [chain[i]] == chain[..i + 1];
    assert chain[..i + 1][..i] == chain[..i];
  }

  /** A displayed match after a prefix with none decides the whole chain. */
  lemma PostMenuStop(find: Locator -> Lookup, shown: Element -> bool, chain: seq<Locator>, i: nat)
    requires i < |chain| && VisibleAt(find, shown, chain[i])
    requires FirstVisible(find, shown, chain[..i]).None?
    ensures PostMenuPick(find, shown, chain) == Some(find(chain[i]).el)
  {
    FirstVisibleAppend(find, shown, chain[..i], chain[i..]);
    assert chain[..i] + chain[i..] == chain;
    assert chain[i..][0] == chain[i];
  }

  /**
   * The loop of posts.py's menu chain: every match overwrites the candidate,
   * and a displayed match ends the search.
   */
  method ResolvePostMenu(find: Locator -> Lookup, shown: Element -> bool, chain: seq<Locator>) returns (r: Option<Element>)
    ensures r == PostMenuPick(find, shown, chain)
  {
    r := None;
    var stopped := false;
    var i := 0;
    while i < |chain|
      invariant 0 <= i <= |chain|
      invariant !stopped ==> FirstVisible(find, shown, chain[..i]).None? && r == LastFound(find, chain[..i])
      invariant stopped ==> r == PostMenuPick(find, shown, chain)
    {
      PostMenuStep(find, shown, chain, i);
      var hit := find(chain[i]);
      if hit.Found? {
        r := Some(hit.el);
        if shown(hit.el) {
          PostMenuStop(find, shown, chain, i);
          stopped := true;
          break;
        }
      }
      i := i + 1;
    }
    if !stopped {
      assert chain[..i] == chain;
    }
  }

  /** The list of the first locator whose `find_elements` result is non-empty, or the empty list. */
  function FirstNonEmpty<T>(findAll: Locator -> seq<T>, chain: seq<Locator>): seq<T>
    decreases |chain|
  {
    if |chain| == 0 then []
    else if |findAll(chain[0])| > 0 then findAll(chain[0])
    else FirstNonEmpty(findAll, chain[1..])
  }

  /** The enumeration is empty exactly when every locator finds nothing, and otherwise the list of the first that finds something. */
  lemma {:induction false} FirstNonEmptyMeaning<T>(findAll: Locator -> seq<T>, chain: seq<Locator>)
    ensures |FirstNonEmpty(findAll, chain)| == 0 <==> forall k :: 0 <= k < |chain| ==> |findAll(chain[k])| == 0
    ensures |FirstNonEmpty(findAll, chain)| > 0 ==>
              exists k :: 0 <= k < |chain| && FirstNonEmpty(findAll, chain) == findAll(chain[k])
                          && forall j :: 0 <= j < k ==> |findAll(chain[j])| == 0
    decreases |chain|
  {
    if |chain| > 0 && |findAll(chain[0])| == 0 {
      FirstNonEmptyMeaning(findAll, chain[1..]);
      assert forall k :: 1 <= k < |chain| ==> chain[k] == chain[1..][k - 1];
      if |FirstNonEmpty(findAll, chain)| > 0 {
        var k :| 0 <= k < |chain[1..]| && FirstNonEmpty(findAll, chain) == findAll(chain[1..][k])
                 && forall j :: 0 <= j < k ==> |findAll(chain[1..][j])| == 0;
        assert chain[k + 1] == chain[1..][k];
        assert forall j :: 0 <= j < k + 1 ==> |findAll(chain[j])| == 0 by {
          forall j | 0 <= j < k + 1 ensures |findAll(chain[j])| == 0 {
            if j > 0 {
              assert chain[j] == chain[1..][j - 1];
            }
          }
        }
      }
    }
  }

  /**
   * The enumeration loop of the bulk processors: each locator's result
   * replaces the list, and a non-empty one ends the search.
   */
  method Enumerate<T>(findAll: Locator -> seq<T>, chain: seq<Locator>) returns (items: seq<T>)
    ensures items == FirstNonEmpty(findAll, chain)
  {
    items := [];
    var i := 0;
    while i < |chain|
      invariant 0 <= i <= |chain|
      invariant |items| == 0
      invariant FirstNonEmpty(findAll, chain) == FirstNonEmpty(findAll, chain[i..])
    {
      assert chain[i..][0] == chain[i];
      items := findAll(chain[i]);
      if |items| > 0 {
        return;
      }
      assert chain[i..][1..] == chain[i + 1..];
      i := i + 1;
    }
    if |items| == 0 {
      assert chain[i..] == [];
    }
  }
}
