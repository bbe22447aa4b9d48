/**
 * comments.py: deleting one comment through its overflow menu
 * (`delete_comment`) and the bulk loop over the comments page
 * (`process_comments`).
 *
 * As for posts, the browser is replaced by observations: each call of
 * `delete_comment` sees a `CommentView`, and each pass of the bulk loop's
 * `while True` sees a `CommentRound`.  Unlike the post deleter, every chain
 * here accepts only displayed nodes, the menu click has no navigation check,
 * and a successful deletion that brings `deleted_count` to a multiple of
 * 200 refreshes the page without leaving the batch.
 */
module Comments {
  import opened Wrappers
  import opened Dom
  import opened Selectors
  import opened Engine

  /**
   * The locator strings of comments.py, in order of first appearance.  Each
   * `Locator` below names its string by its index in this table; the model
   * never evaluates them, so only which string a locator carries matters.
   */
  const CommentQueries: seq<string> := [
    "button[aria-label*='Open options'][aria-label*='comment']",
    "button[aria-label*='options'][aria-label*='comment']",
    ".//button[contains(@aria-label, 'options') and contains(@aria-label, 'comment')]",
    ".//button[.//svg[@data-test-icon='overflow-web-ios-small']]",
    "button.comment-options-dropdown__dropdown-trigger",
    ".comment-options-dropdown__trigger, .comment-options-dropdown__trigger-icon",
    ".artdeco-dropdown__content button[data-control-name='delete_comment']",
    ".artdeco-dropdown__content button[data-control-name='delete']",
    "[role='menu'] button[data-control-name='delete_comment']",
    "[role='menu'] button[data-control-name='delete']",
    "//div[@class='artdeco-dropdown__content']//button[contains(., 'Delete')]",
    "//div[@role='menu']//button[contains(., 'Delete')]",
    "//button[contains(., 'Delete comment')]",
    "//button[contains(., 'Delete')]",
    "//button[contains(@aria-label, 'Delete')]",
    "//*[contains(., 'Delete') and (self::button or self::a or self::div[@role='button'])]",
    "button.feed-components-shared-decision-modal__confirm-button.artdeco-button.artdeco-button--primary.artdeco-button--2",
    "//div[@role='dialog']//button[contains(@class, 'artdeco-button--primary') and (contains(., 'Delete') or contains(., 'Confirm') or contains(., 'Yes'))]",
    "li.comments-comments-list__comment-item",
    "article.comments-comment-item",
    "div.comments-comment-item",
    "div.update-components-comment",
    "[data-test-id*='comment']",
    "[data-id*='comment']"]

  /** The overflow menu button, searched inside the comment (comments.py:93-100). */
  const CommentMenuSelectors: seq<Locator> := [Css(0), Css(1), XPath(2), XPath(3), Css(4), Css(5)]

  /** The delete option, searched page-wide once the menu is open (comments.py:136-151). */
  const CommentDeleteSelectors: seq<Locator> := [Css(6), Css(7), Css(8), Css(9), XPath(10), XPath(11), XPath(12), XPath(13), XPath(14), XPath(15)]

  /** The confirmation button of the decision modal (comments.py:200-203). */
  const CommentConfirmSelectors: seq<Locator> := [Css(16), XPath(17)]

  /** The comment enumeration (comments.py:254-261). */
  const CommentItemSelectors: seq<Locator> := [Css(18), Css(19), Css(20), Css(21), Css(22), Css(23)]

  /** `max_retries` of process_comments. */
  const MaxRetries: nat := 2

  /** The consecutive-failure count at which process_comments refreshes and abandons the batch. */
  const FailureThreshold: nat := 5

  /** `refresh_interval`: the page is refreshed whenever `deleted_count` reaches a multiple of it. */
  const RefreshInterval: nat := 200

  /** The periodic refresh is due at this deletion count. */
  predicate RefreshDue(deleted: nat) {
    deleted % RefreshInterval == 0
  }

  /** What one call of `delete_comment` observes. */
  datatype CommentView = CommentView(
    inComment: Locator -> Lookup,  // comment_element.find_element
    menuOpen: Locator -> Lookup,   // driver.find_element once the menu was clicked
    dialog: Locator -> Lookup,     // the clickable-element waits of the confirmation step
    ui: Behaviour,
    scrollRaises: Element -> bool) // the scrollIntoView script on the element raises

  /** The menu button: the first menu locator whose node is displayed. */
  function MenuButton(v: CommentView): Option<Element> {
    FirstVisible(v.inComment, v.ui.shown, CommentMenuSelectors)
  }

  /** The delete option: the first delete locator whose node is displayed. */
  function DeleteOption(v: CommentView): Option<Element> {
    FirstVisible(v.menuOpen, v.ui.shown, CommentDeleteSelectors)
  }

  /** The confirmation button: the first confirm locator whose wait finds a displayed node. */
  function ConfirmButton(v: CommentView): Option<Element> {
    FirstVisible(v.dialog, v.ui.shown, CommentConfirmSelectors)
  }

  /** The interactions of clicking the menu button. */
  function MenuActs(v: CommentView): seq<Act>
    requires MenuButton(v).Some?
  {
    ClickWithFallback(v.ui, MenuButton(v).value).acts
  }

  /** The menu button was found and scrolled to, and one of the two clicks on it went through. */
  predicate MenuOpens(v: CommentView) {
    MenuButton(v).Some? && !v.scrollRaises(MenuButton(v).value) && ClickWithFallback(v.ui, MenuButton(v).value).ok
  }

  /** `delete_comment` as a function of what it observes: the outcome and the page interactions. */
  function DeleteCommentRun(v: CommentView): Run {
    match MenuButton(v)
    case None => Run(Failed, [])
    case Some(menu) =>
      if v.scrollRaises(menu) then Run(Failed, [])
      else
        var open := ClickWithFallback(v.ui, menu);
        if !open.ok then Run(Failed, open.acts)
        else match DeleteOption(v)
          case None => Run(Restricted, open.acts + [Blur, ClickBody])
          case Some(del) =>
            if v.scrollRaises(del) then Run(Failed, open.acts)
            else
              var press := ClickWithFallback(v.ui, del);
              if !press.ok then Run(Failed, open.acts + press.acts)
              else match ConfirmButton(v)
                case None => Run(Deleted, open.acts + press.acts)
                case Some(confirm) => Run(Deleted, open.acts + press.acts + ClickWithFallback(v.ui, confirm).acts)
  }

  /**
   * `delete_comment` (comments.py:87-229), with its three selector loops.
   * Beyond agreeing with `DeleteCommentRun`, its contract is the outcome
   * table of the source: no displayed menu button, a scroll to it that
   * raises, or a menu click whose JavaScript fallback raises too, fail; no
   * displayed delete option is 'restricted' after the blur and the body
   * click, with no confirmation step; a scroll to the delete option that
   * raises, or a delete click that raises twice, fails; once the delete
   * option is clicked the result is True, confirmed or not.  A raising
   * scroll is caught by the outer handler, which returns False.
   */
  method DeleteComment(v: CommentView) returns (outcome: Outcome, acts: seq<Act>)
    ensures Run(outcome, acts) == DeleteCommentRun(v)
    ensures MenuButton(v).None? ==> outcome == Failed && acts == []
    ensures MenuButton(v).Some? && v.scrollRaises(MenuButton(v).value) ==> outcome == Failed && acts == []
    ensures MenuButton(v).Some? && !v.scrollRaises(MenuButton(v).value) ==> MenuActs(v) <= acts
    ensures MenuButton(v).Some? && !v.scrollRaises(MenuButton(v).value) && !MenuOpens(v) ==> outcome == Failed && acts == MenuActs(v)
    ensures outcome == Restricted <==> MenuOpens(v) && DeleteOption(v).None?
    ensures outcome == Restricted ==> acts == MenuActs(v) + [Blur, ClickBody]
    ensures MenuOpens(v) && DeleteOption(v).Some? && v.scrollRaises(DeleteOption(v).value) ==> outcome == Failed && acts == MenuActs(v)
    ensures outcome == Deleted <==>
              MenuOpens(v) && DeleteOption(v).Some? && !v.scrollRaises(DeleteOption(v).value) &&
              ClickWithFallback(v.ui, DeleteOption(v).value).ok
    ensures outcome == Deleted && ConfirmButton(v).None? ==>
              acts == MenuActs(v) + ClickWithFallback(v.ui, DeleteOption(v).value).acts
  {
    acts := [];
    var menu := ResolveVisible(v.inComment, v.ui.shown, CommentMenuSelectors);
    if menu.None? || v.scrollRaises(menu.value) {
      return Failed, acts;
    }
    var open := ClickWithFallback(v.ui, menu.value);
    acts := open.acts;
    if !open.ok {
      return Failed, acts;
    }
    var del := ResolveVisible(v.menuOpen, v.ui.shown, CommentDeleteSelectors);
    if del.None? {
      return Restricted, acts + [Blur, ClickBody];
    }
    if v.scrollRaises(del.value) {
      return Failed, acts;
    }
    var press := ClickWithFallback(v.ui, del.value);
    acts := acts + press.acts;
    if !press.ok {
      return Failed, acts;
    }
    var confirm := ResolveVisible(v.dialog, v.ui.shown, CommentConfirmSelectors);
    if confirm.Some? {
      acts := acts + ClickWithFallback(v.ui, confirm.value).acts;
    }
    outcome := Deleted;
  }

  /** A comment as the bulk loop sees it: the view of its k-th `delete_comment` call. */
  datatype CommentItem = CommentItem(attempt: nat -> CommentView)

  /** What the k-th `delete_comment` call on the item returns. */
  function AttemptOutcome(item: CommentItem, k: nat): Outcome {
    DeleteCommentRun(item.attempt(k)).outcome
  }

  /**
   * The results of the retry loop of comments.py:290-327: a first call that
   * succeeds or is restricted is the only one; a failed first call is
   * followed by exactly one more.
   */
  function RetryResults(item: CommentItem): (rs: seq<Outcome>)
    ensures RetryShape(rs) && |rs| <= MaxRetries
    ensures rs[0] == AttemptOutcome(item, 0)
    ensures |rs| == 2 ==> rs[1] == AttemptOutcome(item, 1)
  {
    var first := AttemptOutcome(item, 0);
    if first != Failed then [first] else [Failed, AttemptOutcome(item, 1)]
  }

  /** One `delete_comment` call on the item, its page interactions dropped. */
  method Attempt(item: CommentItem, k: nat) returns (outcome: Outcome)
    ensures outcome == AttemptOutcome(item, k)
  {
    var acts;
    outcome, acts := DeleteComment(item.attempt(k));
  }

  /**
   * The retry loop, with the deletion count `deleted` it finds: at most
   * `MaxRetries` calls, stopping at the first True or 'restricted'.  A
   * success that brings the count to a multiple of `RefreshInterval`
   * refreshes the page and leaves the retry loop by the same early exit as
   * any other success, so the periodic refresh never ends the batch.
   */
  method DeleteWithRetry(item: CommentItem, deleted: nat) returns (results: seq<Outcome>, periodic: bool)
    ensures results == RetryResults(item)
    ensures periodic <==> results[|results| - 1] == Deleted && RefreshDue(deleted + 1)
  {
    results, periodic := [], false;
    var retry := 0;
    assert MaxRetries == 2;
    while retry < MaxRetries
      invariant 0 <= retry <= MaxRetries && !periodic
      invariant retry == 0 ==> results == []
      invariant retry == 1 ==> results == [Failed] && AttemptOutcome(item, 0) == Failed
      invariant retry == 2 ==> results == [Failed, Failed] && AttemptOutcome(item, 0) == Failed && AttemptOutcome(item, 1) == Failed
    {
      var result := Attempt(item, retry);
      results := results + [result];
      if result == Deleted {
        var deletedCount := deleted + 1;
        if RefreshDue(deletedCount) {
          periodic := true;
        }
      }
      if result != Failed {
        assert retry == 0 ==> RetryResults(item) == [result];
        assert retry == 1 ==> RetryResults(item) == [Failed, result];
        return;
      }
      retry := retry + 1;
    }
  }

  /**
   * The visit of a batch item records what the item got: nothing for the
   * preserved first comment, the retry loop's results for every other.
   */
  predicate VisitOf(batch: seq<CommentItem>, v: Visit) {
    && v.index < |batch|
    && (v.index == 0 ==> v.results == [])
    && (v.index != 0 ==> v.results == RetryResults(batch[v.index]))
  }

  /** A successful deletion after which the running deletion count makes the refresh due. */
  predicate RefreshesAt(v: Visit, deletedSoFar: nat) {
    EndOf(v) == Ended(Deleted) && RefreshDue(deletedSoFar)
  }

  /**
   * Exactly the successful deletions after which the running deletion count
   * (starting from `d0`, and counting the deletion itself) makes the refresh
   * due are marked as causing the periodic refresh.
   */
  predicate PeriodicMarks(d0: nat, vs: seq<Visit>)
    decreases |vs|
  {
    |vs| == 0 ||
    (PeriodicMarks(d0, vs[..|vs| - 1]) &&
     (vs[|vs| - 1].periodic <==> RefreshesAt(vs[|vs| - 1], d0 + Count(vs, Ended(Deleted)))))
  }

  /** The marks read position by position: the k-th visit refreshes exactly when the count up to it makes the refresh due. */
  lemma {:induction false} PeriodicMarksAt(d0: nat, vs: seq<Visit>, k: nat)
    requires PeriodicMarks(d0, vs) && k < |vs|
    ensures vs[k].periodic <==> RefreshesAt(vs[k], d0 + Count(vs[..k + 1], Ended(Deleted)))
    decreases |vs|
  {
    if k == |vs| - 1 {
      assert vs[..k + 1] == vs;
    } else {
      var init := vs[..|vs| - 1];
      PeriodicMarksAt(d0, init, k);
      assert init[..k + 1] == vs[..k + 1];
    }
  }

  /** Marks of `a` from `d0`, then marks of `b` from the count after `a`, are the marks of `a + b`. */
  lemma {:induction false} PeriodicMarksAppend(d0: nat, a: seq<Visit>, d: nat, b: seq<Visit>)
    requires PeriodicMarks(d0, a) && d == d0 + Count(a, Ended(Deleted)) && PeriodicMarks(d, b)
    ensures PeriodicMarks(d0, a + b)
    decreases |b|
  {
    if |b| == 0 {
      assert a + b == a;
    } else {
      var init := b[..|b| - 1];
      PeriodicMarksAppend(d0, a, d, init);
      assert (a + b)[..|a + b| - 1] == a + init;
      assert (a + b)[|a + b| - 1] == b[|b| - 1];
      CountAppend(a, b, Ended(Deleted));
    }
  }

  /** The marks of a run and those of the batch after it, counted from the run's deletions, are the marks of both. */
  lemma PeriodicJoin(visits: seq<Visit>, t: Tally, vs: seq<Visit>)
    requires t == Replay(Start, visits, FailureThreshold)
    requires PeriodicMarks(0, visits) && PeriodicMarks(t.deleted, vs)
    ensures PeriodicMarks(0, visits + vs)
  {
    DeletedCount(Start, visits, FailureThreshold);
    PeriodicMarksAppend(0, visits, t.deleted, vs);
  }

  /**
   * One more visit keeps the periodic marks when it is marked by the
   * running deletion count `d` it finds, with its own deletion counted.
   */
  lemma PeriodicStep(d0: nat, vs: seq<Visit>, d: nat, v: Visit)
    requires PeriodicMarks(d0, vs) && d == d0 + Count(vs, Ended(Deleted))
    requires v.periodic <==> RefreshesAt(v, DeletedAfter(d, v))
    ensures PeriodicMarks(d0, vs + [v])
  {
    assert (vs + [v])[..|vs|] == vs;
    assert Count(vs + [v], Ended(Deleted)) == Count(vs, Ended(Deleted)) + (if EndOf(v) == Ended(Deleted) then 1 else 0);
  }


  /** The deletion count once the visit's deletion, if any, is counted. */
  function DeletedAfter(d: nat, v: Visit): nat {
    d + (if EndOf(v) == Ended(Deleted) then 1 else 0)
  }

  /**
   * One pass of the item loop's body (comments.py:278-346): the preserved
   * first comment, or the retry loop followed by the breaker test on the
   * failure counter `c` it finds; `d` is the deletion count it finds.
   */
  method VisitItem(batch: seq<CommentItem>, i: nat, round: nat, c: nat, d: nat) returns (v: Visit)
    requires i < |batch|
    ensures v.round == round && v.index == i && v.size == |batch|
    ensures VisitOf(batch, v)
    ensures v.periodic <==> RefreshesAt(v, DeletedAfter(d, v))
    ensures v.tripped <==> Trips(c, v, FailureThreshold)
  {
    if i == 0 {
      return Visit(round, i, |batch|, [], false, false);
    }
    var results, periodic := DeleteWithRetry(batch[i], d);
    var deleted := results[|results| - 1] == Deleted;
    var isRestricted := results[|results| - 1] == Restricted;
    var tripped := !deleted && !isRestricted && c + 1 >= FailureThreshold;
    v := Visit(round, i, |batch|, results, periodic, tripped);
  }

  lemma VisitsOfAppend(batch: seq<CommentItem>, vs: seq<Visit>, v: Visit)
    requires forall k :: 0 <= k < |vs| ==> VisitOf(batch, vs[k])
    requires VisitOf(batch, v)
    ensures forall k :: 0 <= k < |vs| + 1 ==> VisitOf(batch, (vs + [v])[k])
  {
    forall k | 0 <= k < |vs| + 1
      ensures VisitOf(batch, (vs + [v])[k])
    {
      if k < |vs| {
        assert (vs + [v])[k] == vs[k];
      }
    }
  }

  /**
   * What a pass over a batch has done after the visits `vs`: they are the
   * visits of the batch's first items in order, each as `VisitOf` says, the
   * counters are their replay from `t0`, the breaker and the periodic
   * refreshes fall exactly where the counts say, and the cap held before
   * every increment.
   */
  predicate CommentBatchRan(batch: seq<CommentItem>, vs: seq<Visit>, round: nat, t0: Tally, t: Tally, cap: Option<int>) {
    && BatchTrace(vs, round, |batch|)
    && (forall k :: 0 <= k < |vs| ==> VisitOf(batch, vs[k]))
    && t == Replay(t0, vs, FailureThreshold)
    && TripMarks(t0.consecutive, vs, FailureThreshold)
    && PeriodicMarks(t0.deleted, vs)
    && UnderCap(cap, t0.processed, |vs|)
  }

  /** What the batch loop has established: a pass in which the breaker has not tripped. */
  predicate CommentBatchKept(batch: seq<CommentItem>, vs: seq<Visit>, round: nat, t0: Tally, t: Tally, cap: Option<int>) {
    && BatchKept(vs, round, |batch|, t0, t, cap, FailureThreshold)
    && CommentBatchRan(batch, vs, round, t0, t, cap)
  }

  /**
   * One item of the batch loop followed by the counter updates of
   * comments.py:295-343: the visit extends what the batch loop established.
   */
  method VisitAndRecord(batch: seq<CommentItem>, vs: seq<Visit>, round: nat, t0: Tally, t: Tally, maxComments: Option<int>)
    returns (v: Visit, t': Tally)
    requires |vs| < |batch| && !CapHit(maxComments, t.processed)
    requires CommentBatchKept(batch, vs, round, t0, t, maxComments)
    ensures CommentBatchRan(batch, vs + [v], round, t0, t', maxComments)
    ensures !v.tripped ==> CommentBatchKept(batch, vs + [v], round, t0, t', maxComments)
  {
    v := VisitItem(batch, |vs|, round, t.consecutive, t.deleted);
    BatchStep(vs, v, round, |batch|, t0, t, maxComments, FailureThreshold);
    DeletedCount(t0, vs, FailureThreshold);
    PeriodicStep(t0.deleted, vs, t.deleted, v);
    VisitsOfAppend(batch, vs, v);
    t' := Record(t, v, FailureThreshold);
  }

  /**
   * The `for i, comment in enumerate(comments)` loop of comments.py:274-351
   * over one batch: the cap check before each item, the preserved first
   * comment, the bounded retry, the periodic refresh that lets the batch go
   * on, and the circuit breaker that abandons it.  The batch ends early only
   * at the cap or at the breaker.
   */
  method ProcessCommentBatch(batch: seq<CommentItem>, round: nat, maxComments: Option<int>, t0: Tally)
    returns (t: Tally, vs: seq<Visit>, exit: BatchExit)
    ensures CommentBatchRan(batch, vs, round, t0, t, maxComments)
    ensures exit == Completed ==> |vs| == |batch|
    ensures exit == CapReturn ==> |vs| < |batch| && CapHit(maxComments, t0.processed + |vs|)
    ensures exit == Abandoned ==> |vs| > 0 && vs[|vs| - 1].tripped
  {
    t, vs, exit := t0, [], Completed;
    var i := 0;
    while i < |batch|
      invariant 0 <= i <= |batch| && |vs| == i
      invariant CommentBatchKept(batch, vs, round, t0, t, maxComments)
    {
      ProcessedCount(t0, vs, FailureThreshold);
      if CapHit(maxComments, t.processed) {
        exit := CapReturn;
        return;
      }
      var v;
      v, t := VisitAndRecord(batch, vs, round, t0, t, maxComments);
      vs := vs + [v];
      i := i + 1;
      if v.tripped {
        exit := Abandoned;
        return;
      }
    }
  }

  /**
   * One pass of the `while True` loop of process_comments as observed: what
   * the comment selectors enumerate, and the page height before and after
   * the second scroll to the bottom.
   */
  datatype CommentRound = CommentRound(findAll: Locator -> seq<CommentItem>, heightBefore: int, heightAfter: int)

  /** The batch a round enumerates. */
  function BatchOf(r: CommentRound): seq<CommentItem> {
    FirstNonEmpty(r.findAll, CommentItemSelectors)
  }

  /** The comment enumeration of comments.py:253-270 for one round. */
  method EnumerateComments(r: CommentRound) returns (comments: seq<CommentItem>)
    ensures comments == BatchOf(r)
  {
    comments := Enumerate(r.findAll, CommentItemSelectors);
  }

  /** The visit is a visit of an item of the batch its round enumerated. */
  predicate Fits(rounds: seq<CommentRound>, v: Visit) {
    && v.round < |rounds|
    && v.size == |BatchOf(rounds[v.round])|
    && VisitOf(BatchOf(rounds[v.round]), v)
  }

  /** Every visit is a visit of an item of the batch its round enumerated. */
  predicate Traced(rounds: seq<CommentRound>, vs: seq<Visit>) {
    forall k {:trigger Fits(rounds, vs[k])} :: 0 <= k < |vs| ==> Fits(rounds, vs[k])
  }

  lemma TracedAppend(rounds: seq<CommentRound>, a: seq<Visit>, b: seq<Visit>, round: nat)
    requires Traced(rounds, a) && round < |rounds|
    requires BatchTrace(b, round, |BatchOf(rounds[round])|)
    requires forall k :: 0 <= k < |b| ==> VisitOf(BatchOf(rounds[round]), b[k])
    ensures Traced(rounds, a + b)
  {
    forall k | 0 <= k < |a + b|
      ensures Fits(rounds, (a + b)[k])
    {
      if k >= |a| {
        assert (a + b)[k] == b[k - |a|];
      } else {
        assert (a + b)[k] == a[k];
        assert Fits(rounds, a[k]);
      }
    }
  }

  /** A round that enumerated a batch and after which the page grew. */
  predicate GoesOn(r: CommentRound) {
    |BatchOf(r)| > 0 && r.heightBefore != r.heightAfter
  }

  /** The first `n` rounds each enumerated a batch and grew the page, so the loop went on. */
  predicate Continued(rounds: seq<CommentRound>, n: nat)
    requires n <= |rounds|
  {
    forall r {:trigger GoesOn(rounds[r])} :: 0 <= r < n ==> GoesOn(rounds[r])
  }

  lemma ContinuedStep(rounds: seq<CommentRound>, n: nat)
    requires n < |rounds| && Continued(rounds, n)
    requires GoesOn(rounds[n])
    ensures Continued(rounds, n + 1)
  {
  }

  /**
   * What the bulk loop has established after its first `used` rounds: the
   * visits are in order, the counters are their replay, the breaker and
   * periodic-refresh marks are right, every visit passed the cap test and
   * is a visit of an item its round enumerated.  The shared `Tally` also
   * counts skipped items; comments.py keeps no such counter (the preserved
   * first comment is passed over with `continue`), so here `skipped` only
   * counts the index-0 visits and nothing depends on it.
   */
  predicate CommentsDone(rounds: seq<CommentRound>, used: nat, visits: seq<Visit>, t: Tally, maxComments: Option<int>) {
    && used <= |rounds|
    && RunKept(visits, t, maxComments, FailureThreshold)
    && PeriodicMarks(0, visits)
    && t.processed == |visits|
    && Traced(rounds, visits)
    && RoundsBelow(visits, used)
  }

  /**
   * Between rounds: the trace also begins at the first item of round 0, its
   * last visit ended the last round begun, and the cap was clear after each
   * round so far.
   */
  predicate CommentsSoFar(rounds: seq<CommentRound>, used: nat, visits: seq<Visit>, t: Tally, maxComments: Option<int>) {
    && CommentsDone(rounds, used, visits, t, maxComments)
    && Begins(visits) && Closes(visits, used) && CapClear(visits, used, maxComments)
  }

  /** A pass over the non-empty batch of the next round extends what the loop has established. */
  lemma CommentsAdvance(rounds: seq<CommentRound>, used: nat, visits: seq<Visit>, t: Tally, maxComments: Option<int>,
                        batch: seq<CommentItem>, vs: seq<Visit>, u: Tally, exit: BatchExit)
    requires used < |rounds| && CommentsSoFar(rounds, used, visits, t, maxComments)
    requires batch == BatchOf(rounds[used]) && |batch| > 0
    requires CommentBatchRan(batch, vs, used, t, u, maxComments)
    requires exit == Completed ==> |vs| == |batch|
    requires exit == CapReturn ==> |vs| < |batch| && CapHit(maxComments, t.processed + |vs|)
    requires exit == Abandoned ==> |vs| > 0 && vs[|vs| - 1].tripped
    ensures CommentsDone(rounds, used + 1, visits + vs, u, maxComments)
    ensures Begins(visits + vs) && CapClear(visits + vs, used, maxComments)
    ensures exit == CapReturn ==> CapHit(maxComments, u.processed)
    ensures exit != CapReturn ==> Closes(visits + vs, used + 1)
    ensures exit != CapReturn && !CapHit(maxComments, u.processed) ==> CommentsSoFar(rounds, used + 1, visits + vs, u, maxComments)
  {
    RunStep(visits, vs, used, |batch|, t, u, maxComments, FailureThreshold);
    TracedAppend(rounds, visits, vs, used);
    PeriodicJoin(visits, t, vs);
    RoundsAppend(visits, vs, used, |batch|);
    BetweenStep(visits, vs, used, |batch|, maxComments);
  }

  /**
   * The reason the loop gives for stopping after `used` rounds, and the
   * trace it leaves: the last round enumerated nothing, and the round before
   * it was closed; the cap was reached; the page height did not change after
   * a round that was closed under the cap; or no rounds were left to observe
   * after a round that was closed under the cap.  Either way the trace
   * begins at the first item of round 0 and the cap was clear after every
   * round but the last.
   */
  predicate StoppedAt(rounds: seq<CommentRound>, used: nat, visits: seq<Visit>, t: Tally, maxComments: Option<int>, stop: Stop) {
    && used <= |rounds|
    && Begins(visits)
    && (used > 0 ==> CapClear(visits, used - 1, maxComments))
    && (stop == NoItems ==> used > 0 && |BatchOf(rounds[used - 1])| == 0 && Closes(visits, used - 1))
    && (stop == CapReached ==> used > 0 && CapHit(maxComments, t.processed))
    && (stop == EndOfPage ==> used > 0 && rounds[used - 1].heightBefore == rounds[used - 1].heightAfter)
    && (stop == OutOfRounds ==> used == |rounds|)
    && (stop == EndOfPage || stop == OutOfRounds ==> Closes(visits, used) && (|visits| > 0 ==> !CapHit(maxComments, t.processed)))
  }

  /** Before the first round nothing has been visited. */
  lemma CommentsStart(rounds: seq<CommentRound>, maxComments: Option<int>)
    ensures CommentsSoFar(rounds, 0, [], Start, maxComments)
  {
  }

  /** Running out of observed rounds between rounds is a stop with a closed trace. */
  lemma CommentsExhausted(rounds: seq<CommentRound>, visits: seq<Visit>, t: Tally, maxComments: Option<int>)
    requires CommentsSoFar(rounds, |rounds|, visits, t, maxComments)
    ensures StoppedAt(rounds, |rounds|, visits, t, maxComments, OutOfRounds)
  {
    if |rounds| > 0 {
      ThroughAll(visits, |rounds| - 1);
    }
  }

  /** A round that enumerates nothing stops the loop and leaves the trace as it was. */
  lemma CommentsNoItems(rounds: seq<CommentRound>, used: nat, visits: seq<Visit>, t: Tally, maxComments: Option<int>)
    requires used < |rounds| && CommentsSoFar(rounds, used, visits, t, maxComments)
    requires |BatchOf(rounds[used])| == 0
    ensures visits[..|visits|] == visits && BatchTrace(visits[|visits|..], used, 0)
    ensures CommentsDone(rounds, used + 1, visits, t, maxComments)
    ensures StoppedAt(rounds, used + 1, visits, t, maxComments, NoItems)
  {
    assert visits[|visits|..] == [];
  }
}

module CommentsLoop {
  import opened Wrappers
  import opened Dom
  import opened Selectors
  import opened Engine
  import opened Comments

  /**
   * One pass of the `while True` loop of process_comments
   * (comments.py:253-366): enumerate, stop on an empty batch, run the batch,
   * stop at the cap, then scroll and stop when the page height did not
   * change.  The pass appends the visits of this round's batch, ending at
   * its end, at the breaker or at the cap.
   */
  method CommentPass(rounds: seq<CommentRound>, used: nat, visits: seq<Visit>, t: Tally, maxComments: Option<int>)
    returns (visits': seq<Visit>, t': Tally, stop: Option<Stop>)
    requires used < |rounds| && CommentsSoFar(rounds, used, visits, t, maxComments)
    ensures |visits| <= |visits'| && visits'[..|visits|] == visits
    ensures BatchTrace(visits'[|visits|..], used, |BatchOf(rounds[used])|)
    ensures CommentsDone(rounds, used + 1, visits', t', maxComments)
    ensures Begins(visits') && CapClear(visits', used, maxComments)
    ensures stop == Some(NoItems) <==> |BatchOf(rounds[used])| == 0
    ensures stop == Some(CapReached) <==> |BatchOf(rounds[used])| > 0 && CapHit(maxComments, t'.processed)
    ensures stop == Some(EndOfPage) <==>
      |BatchOf(rounds[used])| > 0 && !CapHit(maxComments, t'.processed) && rounds[used].heightBefore == rounds[used].heightAfter
    ensures stop != Some(OutOfRounds)
    ensures stop != Some(NoItems) && stop != Some(CapReached) ==> Closes(visits', used + 1)
    ensures stop.None? ==> CommentsSoFar(rounds, used + 1, visits', t', maxComments) && GoesOn(rounds[used])
    ensures stop.Some? ==> StoppedAt(rounds, used + 1, visits', t', maxComments, stop.value)
  {
    var comments := EnumerateComments(rounds[used]);
    if |comments| == 0 {
      CommentsNoItems(rounds, used, visits, t, maxComments);
      return visits, t, Some(NoItems);
    }
    var vs, exit;
    t', vs, exit := ProcessCommentBatch(comments, used, maxComments, t);
    CommentsAdvance(rounds, used, visits, t, maxComments, comments, vs, t', exit);
    visits' := visits + vs;
    assert visits'[..|visits|] == visits && visits'[|visits|..] == vs;
    if exit == CapReturn || CapHit(maxComments, t'.processed) {
      stop := Some(CapReached);
    } else if rounds[used].heightBefore == rounds[used].heightAfter {
      stop := Some(EndOfPage);
    } else {
      stop := None;
    }
  }

  /**
   * process_comments (comments.py:243-367) over the observed rounds.  The
   * visits begin at the first item of round 0 and are in order, every one
   * is a visit of an item its round enumerated, the counters are their
   * replay, the periodic refreshes fall exactly on the deletions that reach
   * a multiple of 200, the cap held before every increment and after every
   * round that let the loop go on, the last round visited ended at its end
   * or at the breaker unless the cap stopped it, and the loop stops for
   * exactly the reasons the source has: a run that used up the observed
   * rounds let every one of them go on.
   */
  method ProcessComments(rounds: seq<CommentRound>, maxComments: Option<int>)
    returns (t: Tally, visits: seq<Visit>, stop: Stop, used: nat)
    ensures CommentsDone(rounds, used, visits, t, maxComments)
    ensures StoppedAt(rounds, used, visits, t, maxComments, stop)
    ensures used > 0 ==> Continued(rounds, used - 1)
    ensures stop == OutOfRounds ==> Continued(rounds, used)
  {
    t, visits, stop, used := Start, [], OutOfRounds, 0;
    CommentsStart(rounds, maxComments);
    while used < |rounds|
      invariant CommentsSoFar(rounds, used, visits, t, maxComments)
      invariant Continued(rounds, used)
    {
      var s;
      visits, t, s := CommentPass(rounds, used, visits, t, maxComments);
      if s.Some? {
        stop, used := s.value, used + 1;
        return;
      }
      ContinuedStep(rounds, used);
      used := used + 1;
    }
    CommentsExhausted(rounds, visits, t, maxComments);
  }
}
