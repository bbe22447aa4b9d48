/**
 * posts.py: deleting one post through its "..." menu (`delete_post`) and
 * the bulk loop over the activity feed (`process_posts`).
 *
 * The browser is replaced by observations.  Each call of `delete_post`
 * sees a `PostView`: what the locators scoped to the post find, what the
 * page-wide locators find once the menu is open and once the delete control
 * was clicked, how elements behave, whether scrolling an element into
 * view raises, and whether the menu click navigated away.  The bulk loop sees one `PostRound` per pass of its `while True`
 * loop: what the post locators enumerate and the two page-height readings.
 */
module Posts {
  import opened Wrappers
  import opened Dom
  import opened Selectors
  import opened Engine
  import opened PostClassifier

  /**
   * The locator strings of posts.py, in order of first appearance.  Each
   * `Locator` below names its string by its index in this table; the model
   * never evaluates them, so only which string a locator carries matters.
   */
  const PostQueries: seq<string> := [
    "button[aria-label*='More actions']",
    "button[aria-label*='More']",
    "button[data-test-id*='more']",
    ".feed-shared-control-menu__trigger",
    "button[class*='control-menu']",
    ".feed-shared-control-menu button",
    ".option-delete .feed-shared-control-menu__headline",
    "//button[contains(text(), 'Delete') or contains(text(), 'Delete post') or contains(text(), 'Delete repost')]",
    "button.feed-components-shared-decision-modal__confirm-button.artdeco-button.artdeco-button--primary.artdeco-button--2",
    "//button[contains(@class, 'artdeco-button--primary')]",
    "//button[contains(text(), 'Delete')]",
    "//button[contains(text(), 'Confirm')]",
    "//button[contains(text(), 'Yes')]",
    "//button[contains(@class, 'confirm')]",
    "//div[@role='dialog']//button[contains(text(), 'Delete')]",
    "//div[contains(@class, 'modal')]//button[contains(text(), 'Delete')]",
    ".feed-shared-update-v2",
    "[data-test-id*='post']",
    ".feed-shared-update",
    ".occludable-update"]

  /** The "..." menu button, searched inside the post (posts.py:246-253). */
  const PostMenuSelectors: seq<Locator> := [Css(0), Css(1), Css(2), Css(3), Css(4), Css(5)]

  /** The delete control, searched page-wide once the menu is open (posts.py:316, 324). */
  const PostDeleteSelectors: seq<Locator> := [Css(6), XPath(7)]

  /** The confirmation button: the specific selector, then the fallbacks (posts.py:359, 368-376). */
  const PostConfirmSelectors: seq<Locator> := [Css(8), XPath(9), XPath(10), XPath(11), XPath(12), XPath(13), XPath(14), XPath(15)]

  /** The post enumeration (posts.py:454-459). */
  const PostItemSelectors: seq<Locator> := [Css(16), Css(17), Css(18), Css(19)]

  /** `max_retries` of process_posts. */
  const MaxRetries: nat := 2

  /** The consecutive-failure count at which process_posts refreshes. */
  const FailureThreshold: nat := 5

  /** What one call of `delete_post` observes. */
  datatype PostView = PostView(
    inPost: Locator -> Lookup,    // post_element.find_element
    menuOpen: Locator -> Lookup,  // driver.find_element after the menu click
    dialog: Locator -> Lookup,    // the confirmation lookups after the delete click
    ui: Behaviour,
    scrollRaises: Element -> bool, // the scrollIntoView script on the element raises
    urlChanged: bool)              // driver.current_url changed across the menu click

  /** The delete control: the first of the two lookups that finds a node; visibility is not checked. */
  function DeleteControl(v: PostView): Option<Element> {
    FirstVisible(v.menuOpen, (e: Element) => true, PostDeleteSelectors)
  }

  function MenuButton(v: PostView): Option<Element> {
    PostMenuPick(v.inPost, v.ui.shown, PostMenuSelectors)
  }

  /** The interactions of clicking the menu button. */
  function MenuActs(v: PostView): seq<Act>
    requires MenuButton(v).Some?
  {
    ClickWithFallback(v.ui, MenuButton(v).value).acts
  }

  /** The menu button was found and scrolled to, a click on it went through, and the page stayed where it was. */
  predicate MenuOpens(v: PostView) {
    MenuButton(v).Some? && !v.scrollRaises(MenuButton(v).value) && ClickWithFallback(v.ui, MenuButton(v).value).ok && !v.urlChanged
  }

  /** `delete_post` as a function of what it observes: the outcome and the page interactions. */
  function DeletePostRun(v: PostView): Run
  {
    match MenuButton(v)
    case None => Run(Failed, [])
    case Some(menu) =>
      if v.scrollRaises(menu) then Run(Failed, [])
      else
        var open := ClickWithFallback(v.ui, menu);
        if !open.ok then Run(Failed, open.acts)
        else if v.urlChanged then Run(Failed, open.acts + [NavigateBack])
        else match DeleteControl(v)
          case None => Run(Restricted, open.acts + [Blur])
          case Some(del) =>
            var press := ClickWithFallback(v.ui, del);
            if !press.ok then Run(Failed, open.acts + press.acts)
            else match FirstVisible(v.dialog, v.ui.shown, PostConfirmSelectors)
              case None => Run(Deleted, open.acts + press.acts)
              case Some(confirm) => Run(Deleted, open.acts + press.acts + ClickWithFallback(v.ui, confirm).acts)
  }

  /**
   * `delete_post` (posts.py:239-412), with its selector loops.  Beyond
   * agreeing with `DeletePostRun`, its contract is the outcome table of the
   * source: no menu button, a scroll to it that raises (caught by the
   * outer handler), a menu click that raises twice, or a navigation away
   * fail; a missing delete control is 'restricted' after blurring the
   * open menu; once the delete control has been clicked the result is True,
   * whatever the confirmation step finds.
   */
  method DeletePost(v: PostView) returns (outcome: Outcome, acts: seq<Act>)
    ensures Run(outcome, acts) == DeletePostRun(v)
    ensures MenuButton(v).None? ==> outcome == Failed && acts == []
    ensures MenuButton(v).Some? && v.scrollRaises(MenuButton(v).value) ==> outcome == Failed && acts == []
    ensures MenuButton(v).Some? && !v.scrollRaises(MenuButton(v).value) ==> MenuActs(v) <= acts
    ensures MenuButton(v).Some? && !v.scrollRaises(MenuButton(v).value) && !ClickWithFallback(v.ui, MenuButton(v).value).ok ==>
              outcome == Failed && acts == MenuActs(v)
    ensures MenuButton(v).Some? && !v.scrollRaises(MenuButton(v).value) && ClickWithFallback(v.ui, MenuButton(v).value).ok && v.urlChanged ==>
              outcome == Failed && acts == MenuActs(v) + [NavigateBack]
    ensures outcome == Restricted <==> MenuOpens(v) && DeleteControl(v).None?
    ensures outcome == Restricted ==> acts == MenuActs(v) + [Blur]
    ensures outcome == Deleted <==>
              MenuOpens(v) && DeleteControl(v).Some? && ClickWithFallback(v.ui, DeleteControl(v).value).ok
  {
    acts := [];
    var menu := ResolvePostMenu(v.inPost, v.ui.shown, PostMenuSelectors);
    if menu.None? || v.scrollRaises(menu.value) {
      return Failed, acts;
    }
    var open := ClickWithFallback(v.ui, menu.value);
    acts := open.acts;
    if !open.ok {
      return Failed, acts;
    }
    if v.urlChanged {
      return Failed, acts + [NavigateBack];
    }
    var del: Option<Element> := None;
    var hit := v.menuOpen(PostDeleteSelectors[0]);
    if hit.Found? {
      del := Some(hit.el);
    }
    if del.None? {
      hit := v.menuOpen(PostDeleteSelectors[1]);
      if hit.Found? {
        del := Some(hit.el);
      }
    }
    assert PostDeleteSelectors[1..][1..] == [];
    assert del == DeleteControl(v);
    if del.None? {
      return Restricted, acts + [Blur];
    }
    var press := ClickWithFallback(v.ui, del.value);
    acts := acts + press.acts;
    if !press.ok {
      return Failed, acts;
    }
    var confirm := ResolveVisible(v.dialog, v.ui.shown, PostConfirmSelectors);
    if confirm.Some? {
      acts := acts + ClickWithFallback(v.ui, confirm.value).acts;
    }
    outcome := Deleted;
  }

  /** A post as the bulk loop sees it: the view of its k-th `delete_post` call. */
  datatype PostItem = PostItem(attempt: nat -> PostView)

  /** What the k-th `delete_post` call on the item returns. */
  function AttemptOutcome(item: PostItem, k: nat): Outcome {
    DeletePostRun(item.attempt(k)).outcome
  }

  /**
   * The results of the retry loop of posts.py:498-521: a first call that
   * succeeds or is restricted is the only one; a failed first call is
   * followed by exactly one more.
   */
  function RetryResults(item: PostItem): (rs: seq<Outcome>)
    ensures RetryShape(rs) && |rs| <= MaxRetries
    ensures rs[0] == AttemptOutcome(item, 0)
    ensures |rs| == 2 ==> rs[1] == AttemptOutcome(item, 1)
  {
    var first := AttemptOutcome(item, 0);
    if first != Failed then [first] else [Failed, AttemptOutcome(item, 1)]
  }

  /** One `delete_post` call on the item, its page interactions dropped. */
  method Attempt(item: PostItem, k: nat) returns (outcome: Outcome)
    ensures outcome == AttemptOutcome(item, k)
  {
    var acts;
    outcome, acts := DeletePost(item.attempt(k));
  }

  /** The retry loop: at most `MaxRetries` calls, stopping at the first True or 'restricted'. */
  method DeleteWithRetry(item: PostItem) returns (results: seq<Outcome>)
    ensures results == RetryResults(item)
  {
    results := [];
    var retry := 0;
    assert MaxRetries == 2;
    while retry < MaxRetries
      invariant 0 <= retry <= MaxRetries
      invariant retry == 0 ==> results == []
      invariant retry == 1 ==> results == [Failed] && AttemptOutcome(item, 0) == Failed
      invariant retry == 2 ==> results == [Failed, AttemptOutcome(item, 1)] && AttemptOutcome(item, 0) == Failed
    {
      var result := Attempt(item, retry);
      results := results + [result];
      if result != Failed {
        assert retry == 0 ==> RetryResults(item) == [result];
        assert retry == 1 ==> RetryResults(item) == [Failed, result];
        return;
      }
      retry := retry + 1;
    }
  }

  /**
   * The visit of a batch item records what the item got: nothing for the
   * preserved first item, the retry loop's results for every other.
   */
  predicate VisitOf(batch: seq<PostItem>, v: Visit) {
    && v.index < |batch|
    && (v.index == 0 ==> v.results == [])
    && (v.index != 0 ==> v.results == RetryResults(batch[v.index]))
  }

  /**
   * One pass of the item loop's body (posts.py:481-544): the preserved first
   * post, or the retry loop followed by the breaker test on the failure
   * counter `c` it finds.
   */
  method VisitItem(batch: seq<PostItem>, i: nat, round: nat, c: nat) returns (v: Visit)
    requires i < |batch|
    ensures v.round == round && v.index == i && v.size == |batch| && !v.periodic
    ensures VisitOf(batch, v)
    ensures v.tripped <==> Trips(c, v, FailureThreshold)
  {
    if IsCommunityPost(batch[i], i) {
      return Visit(round, i, |batch|, [], false, false);
    }
    var results := DeleteWithRetry(batch[i]);
    var deleted := results[|results| - 1] == Deleted;
    var isRestricted := results[|results| - 1] == Restricted;
    var tripped := !deleted && !isRestricted && c + 1 >= FailureThreshold;
    v := Visit(round, i, |batch|, results, false, tripped);
  }

  lemma VisitsOfAppend(batch: seq<PostItem>, vs: seq<Visit>, v: Visit)
    requires forall k :: 0 <= k < |vs| ==> VisitOf(batch, vs[k]) && !vs[k].periodic
    requires VisitOf(batch, v) && !v.periodic
    ensures forall k :: 0 <= k < |vs| + 1 ==> VisitOf(batch, (vs + [v])[k]) && !(vs + [v])[k].periodic
  {
    forall k | 0 <= k < |vs| + 1
      ensures VisitOf(batch, (vs + [v])[k]) && !(vs + [v])[k].periodic
    {
      if k < |vs| {
        assert (vs + [v])[k] == vs[k];
      }
    }
  }

  /**
   * One item of the batch loop followed by the counter updates of
   * posts.py:523-544: the visit extends what the batch loop established.
   */
  method VisitAndRecord(batch: seq<PostItem>, vs: seq<Visit>, round: nat, t0: Tally, t: Tally, maxPosts: Option<int>)
    returns (v: Visit, t': Tally)
    requires |vs| < |batch| && !CapHit(maxPosts, t.processed)
    requires BatchKept(vs, round, |batch|, t0, t, maxPosts, FailureThreshold)
    requires forall k :: 0 <= k < |vs| ==> VisitOf(batch, vs[k]) && !vs[k].periodic
    ensures BatchTrace(vs + [v], round, |batch|)
    ensures t' == Replay(t0, vs + [v], FailureThreshold)
    ensures TripMarks(t0.consecutive, vs + [v], FailureThreshold)
    ensures UnderCap(maxPosts, t0.processed, |vs| + 1)
    ensures !v.tripped ==> BatchKept(vs + [v], round, |batch|, t0, t', maxPosts, FailureThreshold)
    ensures forall k :: 0 <= k < |vs| + 1 ==> VisitOf(batch, (vs + [v])[k]) && !(vs + [v])[k].periodic
  {
    v := VisitItem(batch, |vs|, round, t.consecutive);
    BatchStep(vs, v, round, |batch|, t0, t, maxPosts, FailureThreshold);
    VisitsOfAppend(batch, vs, v);
    t' := Record(t, v, FailureThreshold);
  }

  /**
   * The `for i, post in enumerate(posts)` loop of posts.py:476-561 over one
   * batch: the cap check before each item, the preserved first post, the
   * bounded retry, and the circuit breaker that abandons the batch.
   */
  method ProcessPostBatch(batch: seq<PostItem>, round: nat, maxPosts: Option<int>, t0: Tally)
    returns (t: Tally, vs: seq<Visit>, exit: BatchExit)
    ensures BatchTrace(vs, round, |batch|)
    ensures forall k :: 0 <= k < |vs| ==> VisitOf(batch, vs[k]) && !vs[k].periodic
    ensures t == Replay(t0, vs, FailureThreshold)
    ensures TripMarks(t0.consecutive, vs, FailureThreshold)
    ensures UnderCap(maxPosts, t0.processed, |vs|)
    ensures exit == Completed ==> |vs| == |batch|
    ensures exit == CapReturn ==> |vs| < |batch| && CapHit(maxPosts, t0.processed + |vs|)
    ensures exit == Abandoned ==> |vs| > 0 && vs[|vs| - 1].tripped
  {
    t, vs, exit := t0, [], Completed;
    var i := 0;
    while i < |batch|
      invariant 0 <= i <= |batch| && |vs| == i
      invariant BatchKept(vs, round, |batch|, t0, t, maxPosts, FailureThreshold)
      invariant forall k :: 0 <= k < i ==> VisitOf(batch, vs[k]) && !vs[k].periodic
    {
      ProcessedCount(t0, vs, FailureThreshold);
      if CapHit(maxPosts, t.processed) {
        exit := CapReturn;
        return;
      }
      var v;
      v, t := VisitAndRecord(batch, vs, round, t0, t, maxPosts);
      vs := vs + [v];
      i := i + 1;
      if v.tripped {
        exit := Abandoned;
        return;
      }
    }
  }

  /**
   * One pass of the `while True` loop of process_posts as observed: what the
   * post selectors enumerate, and the page height before and after the
   * second scroll to the bottom.
   */
  datatype PostRound = PostRound(findAll: Locator -> seq<PostItem>, heightBefore: int, heightAfter: int)

  /** The batch a round enumerates. */
  function BatchOf(r: PostRound): seq<PostItem> {
    FirstNonEmpty(r.findAll, PostItemSelectors)
  }

  /** The item enumeration of posts.py:454-469 for one round. */
  method EnumeratePosts(r: PostRound) returns (posts: seq<PostItem>)
    ensures posts == BatchOf(r)
  {
    posts := Enumerate(r.findAll, PostItemSelectors);
  }

  /** The visit is a visit of an item of the batch its round enumerated. */
  predicate Fits(rounds: seq<PostRound>, v: Visit) {
    && v.round < |rounds|
    && v.size == |BatchOf(rounds[v.round])|
    && VisitOf(BatchOf(rounds[v.round]), v)
    && !v.periodic
  }

  /** Every visit is a visit of an item of the batch its round enumerated. */
  predicate Traced(rounds: seq<PostRound>, vs: seq<Visit>) {
    forall k {:trigger Fits(rounds, vs[k])} :: 0 <= k < |vs| ==> Fits(rounds, vs[k])
  }

  lemma TracedAppend(rounds: seq<PostRound>, a: seq<Visit>, b: seq<Visit>, round: nat)
    requires Traced(rounds, a) && round < |rounds|
    requires BatchTrace(b, round, |BatchOf(rounds[round])|)
    requires forall k :: 0 <= k < |b| ==> VisitOf(BatchOf(rounds[round]), b[k]) && !b[k].periodic
    ensures Traced(rounds, a + b)
  {
    forall k | 0 <= k < |a + b|
      ensures Fits(rounds, (a + b)[k])
    {
      if k >= |a| {
        assert (a + b)[k] == b[k - |a|];
      } else {
        assert (a + b)[k] == a[k];
        assert Fits(rounds, a[k]);
      }
    }
  }

  /** The first `n` rounds each enumerated a batch and grew the page, so the loop went on. */
  predicate Continued(rounds: seq<PostRound>, n: nat)
    requires n <= |rounds|
  {
    forall r {:trigger GoesOn(rounds[r])} :: 0 <= r < n ==> GoesOn(rounds[r])
  }

  /** A round that enumerated a batch and after which the page grew. */
  predicate GoesOn(r: PostRound) {
    |BatchOf(r)| > 0 && r.heightBefore != r.heightAfter
  }

  lemma ContinuedStep(rounds: seq<PostRound>, n: nat)
    requires n < |rounds| && Continued(rounds, n)
    requires |BatchOf(rounds[n])| > 0 && rounds[n].heightBefore != rounds[n].heightAfter
    ensures Continued(rounds, n + 1)
  {
  }

  /**
   * What the bulk loop has established after its first `used` rounds: the
   * visits are in order, the counters are their replay, every visit passed
   * the cap test and is a visit of an item its round enumerated.
   */
  predicate PostsDone(rounds: seq<PostRound>, used: nat, visits: seq<Visit>, t: Tally, maxPosts: Option<int>) {
    && used <= |rounds|
    && RunKept(visits, t, maxPosts, FailureThreshold)
    && t.processed == |visits|
    && Traced(rounds, visits)
    && RoundsBelow(visits, used)
  }

  /**
   * Between rounds: the trace also begins at the first item of round 0, its
   * last visit ended the last round begun, and the cap was clear after each
   * round so far.
   */
  predicate PostsSoFar(rounds: seq<PostRound>, used: nat, visits: seq<Visit>, t: Tally, maxPosts: Option<int>) {
    && PostsDone(rounds, used, visits, t, maxPosts)
    && Begins(visits) && Closes(visits, used) && CapClear(visits, used, maxPosts)
  }

  /** A pass over the non-empty batch of the next round extends what the loop has established. */
  lemma PostsAdvance(rounds: seq<PostRound>, used: nat, visits: seq<Visit>, t: Tally, maxPosts: Option<int>,
                     batch: seq<PostItem>, vs: seq<Visit>, u: Tally, exit: BatchExit)
    requires used < |rounds| && PostsSoFar(rounds, used, visits, t, maxPosts)
    requires batch == BatchOf(rounds[used]) && |batch| > 0
    requires BatchTrace(vs, used, |batch|)
    requires forall k :: 0 <= k < |vs| ==> VisitOf(batch, vs[k]) && !vs[k].periodic
    requires u == Replay(t, vs, FailureThreshold) && TripMarks(t.consecutive, vs, FailureThreshold)
    requires UnderCap(maxPosts, t.processed, |vs|)
    requires exit == Completed ==> |vs| == |batch|
    requires exit == CapReturn ==> |vs| < |batch| && CapHit(maxPosts, t.processed + |vs|)
    requires exit == Abandoned ==> |vs| > 0 && vs[|vs| - 1].tripped
    ensures PostsDone(rounds, used + 1, visits + vs, u, maxPosts)
    ensures Begins(visits + vs) && CapClear(visits + vs, used, maxPosts)
    ensures exit == CapReturn ==> CapHit(maxPosts, u.processed)
    ensures exit != CapReturn ==> Closes(visits + vs, used + 1)
    ensures exit != CapReturn && !CapHit(maxPosts, u.processed) ==> PostsSoFar(rounds, used + 1, visits + vs, u, maxPosts)
  {
    RunStep(visits, vs, used, |batch|, t, u, maxPosts, FailureThreshold);
    TracedAppend(rounds, visits, vs, used);
    RoundsAppend(visits, vs, used, |batch|);
    BetweenStep(visits, vs, used, |batch|, maxPosts);
  }

  /**
   * The reason the loop gives for stopping after `used` rounds, and the
   * trace it leaves: the last round enumerated nothing, and the round before
   * it was closed; the cap was reached; the page height did not change after
   * a round that was closed under the cap; or no rounds were left to observe
   * after a round that was closed under the cap.  Either way the trace
   * begins at the first item of round 0 and the cap was clear after every
   * round but the last.
   */
  predicate StoppedAt(rounds: seq<PostRound>, used: nat, visits: seq<Visit>, t: Tally, maxPosts: Option<int>, stop: Stop) {
    && used <= |rounds|
    && Begins(visits)
    && (used > 0 ==> CapClear(visits, used - 1, maxPosts))
    && (stop == NoItems ==> used > 0 && |BatchOf(rounds[used - 1])| == 0 && Closes(visits, used - 1))
    && (stop == CapReached ==> used > 0 && CapHit(maxPosts, t.processed))
    && (stop == EndOfPage ==> used > 0 && rounds[used - 1].heightBefore == rounds[used - 1].heightAfter)
    && (stop == OutOfRounds ==> used == |rounds|)
    && (stop == EndOfPage || stop == OutOfRounds ==> Closes(visits, used) && (|visits| > 0 ==> !CapHit(maxPosts, t.processed)))
  }

  /** Before the first round nothing has been visited. */
  lemma PostsStart(rounds: seq<PostRound>, maxPosts: Option<int>)
    ensures PostsSoFar(rounds, 0, [], Start, maxPosts)
  {
  }

  /** Running out of observed rounds between rounds is a stop with a closed trace. */
  lemma PostsExhausted(rounds: seq<PostRound>, visits: seq<Visit>, t: Tally, maxPosts: Option<int>)
    requires PostsSoFar(rounds, |rounds|, visits, t, maxPosts)
    ensures StoppedAt(rounds, |rounds|, visits, t, maxPosts, OutOfRounds)
  {
    if |rounds| > 0 {
      ThroughAll(visits, |rounds| - 1);
    }
  }
}

module PostsLoop {
  import opened Wrappers
  import opened Dom
  import opened Selectors
  import opened Engine
  import opened PostClassifier
  import opened Posts

  /**
   * One pass of the `while True` loop of process_posts (posts.py:452-585):
   * enumerate, stop on an empty batch, run the batch, stop at the cap, then
   * scroll and stop when the page height did not change.  The pass appends
   * the visits of this round's batch, ending at its end, at the breaker or
   * at the cap.
   */
  method PostPass(rounds: seq<PostRound>, used: nat, visits: seq<Visit>, t: Tally, maxPosts: Option<int>)
    returns (visits': seq<Visit>, t': Tally, stop: Option<Stop>)
    requires used < |rounds| && PostsSoFar(rounds, used, visits, t, maxPosts)
    ensures |visits| <= |visits'| && visits'[..|visits|] == visits
    ensures BatchTrace(visits'[|visits|..], used, |BatchOf(rounds[used])|)
    ensures PostsDone(rounds, used + 1, visits', t', maxPosts)
    ensures Begins(visits') && CapClear(visits', used, maxPosts)
    ensures stop == Some(NoItems) <==> |BatchOf(rounds[used])| == 0
    ensures stop == Some(CapReached) <==> |BatchOf(rounds[used])| > 0 && CapHit(maxPosts, t'.processed)
    ensures stop == Some(EndOfPage) <==>
      |BatchOf(rounds[used])| > 0 && !CapHit(maxPosts, t'.processed) && rounds[used].heightBefore == rounds[used].heightAfter
    ensures stop != Some(OutOfRounds)
    ensures stop != Some(NoItems) && stop != Some(CapReached) ==> Closes(visits', used + 1)
    ensures stop.None? ==> PostsSoFar(rounds, used + 1, visits', t', maxPosts)
    ensures stop.Some? ==> StoppedAt(rounds, used + 1, visits', t', maxPosts, stop.value)
  {
    var posts := EnumeratePosts(rounds[used]);
    if |posts| == 0 {
      assert visits[|visits|..] == [];
      return visits, t, Some(NoItems);
    }
    var vs, exit;
    t', vs, exit := ProcessPostBatch(posts, used, maxPosts, t);
    PostsAdvance(rounds, used, visits, t, maxPosts, posts, vs, t', exit);
    visits' := visits + vs;
    assert visits'[..|visits|] == visits && visits'[|visits|..] == vs;
    if exit == CapReturn || CapHit(maxPosts, t'.processed) {
      stop := Some(CapReached);
    } else if rounds[used].heightBefore == rounds[used].heightAfter {
      stop := Some(EndOfPage);
    } else {
      stop := None;
    }
  }

  /**
   * process_posts (posts.py:435-587) over the observed rounds.  The visits
   * begin at the first item of round 0 and are in order, every one is a
   * visit of an item its round enumerated, the counters are their replay,
   * the cap held before every increment and after every round that let the
   * loop go on, the last round visited ended at its end or at the breaker
   * unless the cap stopped it, and the loop stops for exactly the reasons
   * the source has: a run that used up the observed rounds let every one
   * of them go on.
   */
  method ProcessPosts(rounds: seq<PostRound>, maxPosts: Option<int>) returns (t: Tally, visits: seq<Visit>, stop: Stop, used: nat)
    ensures PostsDone(rounds, used, visits, t, maxPosts)
    ensures StoppedAt(rounds, used, visits, t, maxPosts, stop)
    ensures used > 0 ==> Continued(rounds, used - 1)
    ensures stop == OutOfRounds ==> Continued(rounds, used)
  {
    t, visits, stop, used := Start, [], OutOfRounds, 0;
    PostsStart(rounds, maxPosts);
    while used < |rounds|
      invariant PostsSoFar(rounds, used, visits, t, maxPosts)
      invariant Continued(rounds, used)
    {
      var s;
      visits, t, s := PostPass(rounds, used, visits, t, maxPosts);
      if s.Some? {
        stop, used := s.value, used + 1;
        return;
      }
      ContinuedStep(rounds, used);
      used := used + 1;
    }
    PostsExhausted(rounds, visits, t, maxPosts);
  }
}
