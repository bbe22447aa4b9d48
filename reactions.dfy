/**
 * reactions.py: withdrawing likes from posts and comments.  One pass of
 * `process_reactions` enumerates the liked toggles, or, when there are
 * none, checks for an error or empty page and runs the three content
 * loaders; otherwise it unlikes every post toggle and then every comment
 * toggle once each, with the item cap, the periodic refresh every 50
 * successful unlikes, and the 10-failure refresh checked after both loops.
 *
 * As for posts and comments, the browser is replaced by observations: each
 * pass sees a `ReactionRound`, telling what the locators find at each step
 * and how the elements behave.
 */
module Reactions {
  import opened Wrappers
  import opened Dom
  import opened Selectors
  import opened Engine
  import opened Text

  /**
   * The locator strings of reactions.py, in order of first appearance.
   * Each `Locator` below names its string by its index in this table; the
   * model never evaluates them, so only which string a locator carries
   * matters.
   */
  const ReactionQueries: seq<string> := [
    "//*[contains(text(), 'Error with your network')]",
    "//*[contains(text(), 'Something went wrong')]",
    "//*[contains(text(), 'Please try again')]",
    "//*[contains(text(), 'Network error')]",
    "//*[contains(text(), 'Connection error')]",
    "//*[contains(text(), 'There was an issue')]",
    "//*[contains(text(), 'Try again')]",
    ".feed-shared-error-message",
    "[data-test-id*='error']",
    ".error-message",
    ".error-page",
    ".error-container",
    ".feed-shared-update-v2",
    ".feed-shared-update",
    ".comments-comments-list__comment-item",
    ".comments-comment-item",
    "[data-test-id*='post']",
    "[data-test-id*='comment']",
    ".button.comments-comments-list__show-previous-button",
    "button.show-prev-replies",
    "button[data-control-name='comment_count']",
    ".social-counts-comments__count",
    ".social-counts__item--comments button",
    ".feed-shared-social-action-bar__action-button[data-control-name='comment_count']",
    "//button[contains(., 'comment') and contains(., 'Show')]",
    "//button[contains(., 'comment') and contains(text(), 'Show')]",
    "//a[contains(., 'comment') and contains(text(), 'Show')]",
    ".react-button__trigger.artdeco-button[aria-pressed='true']",
    "button[data-control-name='like_toggle'][aria-pressed='true']",
    ".feed-shared-social-action-bar__action-button[aria-pressed='true']",
    ".comments-comment-social-bar__like-action-button[aria-pressed='true']",
    ".comment-social-bar__like-button[aria-pressed='true']",
    "button[data-control-name='comment_like_toggle'][aria-pressed='true']"]

  /**
   * The error banners of check_for_network_error (reactions.py:56-70); a
   * string starting with "//" is evaluated as XPath, any other as CSS.  The
   * source lists "Something went wrong" twice.
   */
  const ErrorSelectors: seq<Locator> := [
    XPath(0), XPath(1), XPath(2), XPath(3), XPath(4), XPath(5), XPath(1), XPath(6),
    Css(7), Css(8), Css(9), Css(10), Css(11)]

  /** The content probes of check_for_empty_page (reactions.py:96-103). */
  const ContentSelectors: seq<Locator> := [Css(12), Css(13), Css(14), Css(15), Css(16), Css(17)]

  /** The "Show previous comments" buttons of load_more_comments (reactions.py:200). */
  const MoreCommentsButtons: Locator := Css(18)

  /** The "Show previous replies" buttons of load_previous_replies (reactions.py:225). */
  const PreviousRepliesButtons: Locator := Css(19)

  /** The comment-count links of expand_comment_sections (reactions.py:251-259). */
  const CommentLinkSelectors: seq<Locator> := [Css(20), Css(21), Css(22), Css(23), XPath(24), XPath(25), XPath(26)]

  /** The liked post toggles (reactions.py:345-349). */
  const PostLikeSelectors: seq<Locator> := [Css(27), Css(28), Css(29)]

  /** The liked comment toggles (reactions.py:363-367). */
  const CommentLikeSelectors: seq<Locator> := [Css(30), Css(31), Css(32)]

  /** `refresh_interval`: the page is refreshed whenever the unlike total reaches a multiple of it. */
  const RefreshInterval: nat := 50

  /** The consecutive-failure count at which the pass ends with a refresh. */
  const FailureThreshold: nat := 10

  /** What the reactions script observes about element handles. */
  datatype Controls = Controls(
    ui: Behaviour,                       // is_displayed, click, the JavaScript click
    pressed: Element -> Option<string>,  // get_attribute("aria-pressed"); None when absent or when reading raises
    scrollRaises: Element -> bool,       // the scrollIntoView script raises
    text: Element -> Option<string>)     // element.text; None when reading raises

  // ---------------------------------------------------------------------
  // unlike_post / unlike_comment
  // ---------------------------------------------------------------------

  /**
   * `unlike_post` and `unlike_comment`, which differ only in their log
   * messages: a toggle whose `aria-pressed` is not "true" is left alone, and
   * otherwise it is scrolled into view and clicked, with the JavaScript
   * click when the direct one raises.
   */
  function UnlikeRun(c: Controls, b: Element): (r: Clicked)
    ensures r.ok <==> c.pressed(b) == Some("true") && !c.scrollRaises(b) && (!c.ui.clickRaises(b) || !c.ui.scriptClickRaises(b))
    ensures c.pressed(b) != Some("true") || c.scrollRaises(b) ==> r.acts == []
    ensures r.acts != [] ==> r.acts[0] == Click(b) && (|r.acts| == 2 <==> c.ui.clickRaises(b))
  {
    if c.pressed(b) != Some("true") || c.scrollRaises(b) then Clicked([], false)
    else ClickWithFallback(c.ui, b)
  }

  /** Whether the unlike call on the toggle returns True. */
  predicate Unliked(c: Controls, b: Element) {
    UnlikeRun(c, b).ok
  }

  // ---------------------------------------------------------------------
  // check_for_network_error / check_for_empty_page
  // ---------------------------------------------------------------------

  /**
   * check_for_network_error (reactions.py:54-90): probe the banners in
   * order and report an error at the first one found and displayed.
   */
  method CheckForNetworkError(find: Locator -> Lookup, shown: Element -> bool) returns (error: bool)
    ensures error <==> exists k :: 0 <= k < |ErrorSelectors| && VisibleAt(find, shown, ErrorSelectors[k])
    ensures error <==> FirstVisible(find, shown, ErrorSelectors).Some?
  {
    var banner := ResolveVisible(find, shown, ErrorSelectors);
    FirstVisibleMeaning(find, shown, ErrorSelectors);
    error := banner.Some?;
  }

  /**
   * check_for_empty_page (reactions.py:92-127): the page is empty, and is
   * refreshed, exactly when none of the content probes finds anything.
   */
  method CheckForEmptyPage(findAll: Locator -> seq<Element>) returns (empty: bool)
    ensures empty <==> forall k :: 0 <= k < |ContentSelectors| ==> |findAll(ContentSelectors[k])| == 0
  {
    var hasContent := false;
    var i := 0;
    while i < |ContentSelectors|
      invariant 0 <= i <= |ContentSelectors|
      invariant !hasContent
      invariant forall k :: 0 <= k < i ==> |findAll(ContentSelectors[k])| == 0
    {
      if |findAll(ContentSelectors[i])| > 0 {
        hasContent := true;
        break;
      }
      i := i + 1;
    }
    empty := !hasContent;
  }

  // ---------------------------------------------------------------------
  // load_more_comments / load_previous_replies / expand_comment_sections
  // ---------------------------------------------------------------------

  /**
   * The comment-link test of reactions.py:274-275: the lower-cased text
   * mentions "comment", "show" or "reply" and holds a digit.
   */
  predicate IsCommentLink(text: string) {
    var t := Lower(text);
    (Contains(t, "comment") || Contains(t, "show") || Contains(t, "reply")) && HasDigit(t)
  }

  /** What the loaders act on: plain load buttons, or comment-count links that must pass the text test. */
  datatype Target = LoadButton | CommentLink

  /**
   * The loaders click an element only when it is displayed and, for a
   * comment link, its text can be read and passes the test.
   */
  predicate Wanted(c: Controls, target: Target, e: Element) {
    c.ui.shown(e) && (target == CommentLink ==> c.text(e).Some? && IsCommentLink(c.text(e).value))
  }

  /** The click is issued: the element is wanted and the scroll before the click went through. */
  predicate Attempted(c: Controls, target: Target, e: Element) {
    Wanted(c, target, e) && !c.scrollRaises(e)
  }

  /** The clicks the loaders issue on the elements, in order. */
  function LoaderActs(c: Controls, target: Target, es: seq<Element>): seq<Act>
    decreases |es|
  {
    if |es| == 0 then []
    else LoaderActs(c, target, es[..|es| - 1]) + (if Attempted(c, target, es[|es| - 1]) then [Click(es[|es| - 1])] else [])
  }

  /** The number of clicks issued that did not raise: the loaders' return value. */
  function LoaderCount(c: Controls, target: Target, es: seq<Element>): nat
    decreases |es|
  {
    if |es| == 0 then 0
    else LoaderCount(c, target, es[..|es| - 1]) + (if Attempted(c, target, es[|es| - 1]) && !c.ui.clickRaises(es[|es| - 1]) then 1 else 0)
  }

  /**
   * What the loaders do, stated without the fold: the clicks go to wanted
   * elements only, are at most one per element, and the count is at most
   * the number of clicks, so at most the number of elements found; it is 0
   * exactly when no wanted element could be clicked.
   */
  lemma {:induction false} LoaderMeaning(c: Controls, target: Target, es: seq<Element>)
    ensures forall k :: 0 <= k < |LoaderActs(c, target, es)| ==>
              LoaderActs(c, target, es)[k].Click? && Wanted(c, target, LoaderActs(c, target, es)[k].el)
    ensures LoaderCount(c, target, es) <= |LoaderActs(c, target, es)| <= |es|
    ensures LoaderCount(c, target, es) == 0 <==>
              forall k :: 0 <= k < |es| ==> !Attempted(c, target, es[k]) || c.ui.clickRaises(es[k])
    decreases |es|
  {
    if |es| > 0 {
      var init := es[..|es| - 1];
      LoaderMeaning(c, target, init);
      assert forall k :: 0 <= k < |init| ==> init[k] == es[k];
    }
  }

  /** Counting over two lists in turn is counting over their concatenation. */
  lemma {:induction false} LoaderAppend(c: Controls, target: Target, a: seq<Element>, b: seq<Element>)
    ensures LoaderActs(c, target, a + b) == LoaderActs(c, target, a) + LoaderActs(c, target, b)
    ensures LoaderCount(c, target, a + b) == LoaderCount(c, target, a) + LoaderCount(c, target, b)
    decreases |b|
  {
    if |b| == 0 {
      assert a + b == a;
    } else {
      LoaderAppend(c, target, a, b[..|b| - 1]);
      assert (a + b)[..|a + b| - 1] == a + b[..|b| - 1];
      assert (a + b)[|a + b| - 1] == b[|b| - 1];
    }
  }

  /**
   * The per-element loop shared by the three loaders (reactions.py:203-213,
   * 228-238, 270-284): each wanted element is scrolled into view and
   * clicked, and the count goes up when neither raised.
   */
  method ClickEach(c: Controls, target: Target, es: seq<Element>) returns (count: nat, acts: seq<Act>)
    ensures count == LoaderCount(c, target, es) && acts == LoaderActs(c, target, es)
  {
    count, acts := 0, [];
    var i := 0;
    while i < |es|
      invariant 0 <= i <= |es|
      invariant count == LoaderCount(c, target, es[..i]) && acts == LoaderActs(c, target, es[..i])
    {
      var e := es[i];
      assert es[..i + 1][..i] == es[..i] && es[..i + 1][i] == e;
      if Wanted(c, target, e) && !c.scrollRaises(e) {
        acts := acts + [Click(e)];
        if !c.ui.clickRaises(e) {
          count := count + 1;
        }
      }
      i := i + 1;
    }
    assert es[..i] == es;
  }

  /** load_more_comments (reactions.py:195-218). */
  method LoadMoreComments(findAll: Locator -> seq<Element>, c: Controls) returns (clicked: nat, acts: seq<Act>)
    ensures clicked == LoaderCount(c, LoadButton, findAll(MoreCommentsButtons))
    ensures acts == LoaderActs(c, LoadButton, findAll(MoreCommentsButtons))
  {
    clicked, acts := ClickEach(c, LoadButton, findAll(MoreCommentsButtons));
  }

  /** load_previous_replies (reactions.py:220-243). */
  method LoadPreviousReplies(findAll: Locator -> seq<Element>, c: Controls) returns (clicked: nat, acts: seq<Act>)
    ensures clicked == LoaderCount(c, LoadButton, findAll(PreviousRepliesButtons))
    ensures acts == LoaderActs(c, LoadButton, findAll(PreviousRepliesButtons))
  {
    clicked, acts := ClickEach(c, LoadButton, findAll(PreviousRepliesButtons));
  }

  /**
   * Every locator's matches, locator after locator: expand_comment_sections
   * runs over all of its locators, so an element two of them match is
   * visited twice.
   */
  function AllMatches(findAll: Locator -> seq<Element>, chain: seq<Locator>): seq<Element>
    decreases |chain|
  {
    if |chain| == 0 then [] else AllMatches(findAll, chain[..|chain| - 1]) + findAll(chain[|chain| - 1])
  }

  /** expand_comment_sections (reactions.py:245-292): the loop over the link locators, each running the element loop. */
  method ExpandCommentSections(findAll: Locator -> seq<Element>, c: Controls) returns (expanded: nat, acts: seq<Act>)
    ensures expanded == LoaderCount(c, CommentLink, AllMatches(findAll, CommentLinkSelectors))
    ensures acts == LoaderActs(c, CommentLink, AllMatches(findAll, CommentLinkSelectors))
  {
    expanded, acts := 0, [];
    var i := 0;
    while i < |CommentLinkSelectors|
      invariant 0 <= i <= |CommentLinkSelectors|
      invariant expanded == LoaderCount(c, CommentLink, AllMatches(findAll, CommentLinkSelectors[..i]))
      invariant acts == LoaderActs(c, CommentLink, AllMatches(findAll, CommentLinkSelectors[..i]))
    {
      var n, more := ClickEach(c, CommentLink, findAll(CommentLinkSelectors[i]));
      assert CommentLinkSelectors[..i + 1][..i] == CommentLinkSelectors[..i];
      LoaderAppend(c, CommentLink, AllMatches(findAll, CommentLinkSelectors[..i]), findAll(CommentLinkSelectors[i]));
      expanded, acts := expanded + n, acts + more;
      i := i + 1;
    }
    assert CommentLinkSelectors[..i] == CommentLinkSelectors;
  }

  /**
   * Any text holding a digit and, in any case, one of the keywords is a
   * comment link ("Show 3 replies", "12 Comments"); a text without a digit
   * never is.
   */
  lemma CommentLinkByParts(text: string, keyword: string, i: nat)
    requires keyword in ["comment", "show", "reply"]
    requires i + |keyword| <= |text| && Lower(text)[i..i + |keyword|] == keyword
    ensures HasDigit(text) <==> IsCommentLink(text)
  {
    ContainsAt(Lower(text), keyword, i);
    LowerKeepsDigits(text);
  }

  /** The link test ignores case. */
  lemma CommentLinkIgnoresCase(text: string)
    ensures IsCommentLink(Lower(text)) <==> IsCommentLink(text)
  {
    LowerIdempotent(text);
  }

  // ---------------------------------------------------------------------
  // The two unlike loops of process_reactions
  // ---------------------------------------------------------------------

  /** Which toggles a loop unlikes, and so which counter a success bumps. */
  datatype Kind = PostToggle | CommentToggle

  /** `processed_count`, `unliked_posts`, `unliked_comments` and `consecutive_failures`. */
  datatype Counters = Counters(processed: nat, unlikedPosts: nat, unlikedComments: nat, failures: nat)

  /** The counters when process_reactions starts. */
  const Zero := Counters(0, 0, 0, 0)

  /** The successful unlikes of both kinds, the quantity the periodic refresh looks at. */
  function Total(c: Counters): nat {
    c.unlikedPosts + c.unlikedComments
  }

  /** How a toggle loop ended: it ran out of toggles, broke out after the periodic refresh, or returned at the cap. */
  datatype LoopEnd = Finished | Refreshed | CapStop

  /** The counters after the loop, how it ended, how many toggles it attempted, and the browser actions it took. */
  datatype LoopResult = LoopResult(c: Counters, end: LoopEnd, visited: nat, acts: seq<Act>)

  /** The counters after one unlike attempt on a toggle of `kind` that returned `ok`. */
  function Bump(c: Counters, kind: Kind, ok: bool): Counters {
    if !ok then c.(processed := c.processed + 1, failures := c.failures + 1)
    else if kind == PostToggle then c.(processed := c.processed + 1, unlikedPosts := c.unlikedPosts + 1, failures := 0)
    else c.(processed := c.processed + 1, unlikedComments := c.unlikedComments + 1, failures := 0)
  }

  /** The number of toggles whose unlike returns True. */
  function Successes(ctl: Controls, bs: seq<Element>): nat
    decreases |bs|
  {
    if |bs| == 0 then 0 else (if Unliked(ctl, bs[0]) then 1 else 0) + Successes(ctl, bs[1..])
  }

  /** The actions of one unlike call per toggle, in order. */
  function UnlikeActs(ctl: Controls, bs: seq<Element>): seq<Act>
    decreases |bs|
  {
    if |bs| == 0 then [] else UnlikeRun(ctl, bs[0]).acts + UnlikeActs(ctl, bs[1..])
  }

  /**
   * One of the `for i, like_button in enumerate(...)` loops of
   * reactions.py:410-448 and 451-489.  Before each toggle the cap is tested
   * and the whole of process_reactions returns when it is reached; every
   * toggle then counts as processed and gets exactly one unlike call, with
   * no retry; a success bumps the kind's counter and clears the failure
   * streak, and when it brings the total to a multiple of 50 the page is
   * refreshed and the loop is left; a failure extends the streak, which is
   * not tested here.
   */
  function ToggleLoop(ctl: Controls, kind: Kind, bs: seq<Element>, c: Counters, cap: Option<int>): LoopResult
    decreases |bs|
  {
    if |bs| == 0 then LoopResult(c, Finished, 0, [])
    else if CapHit(cap, c.processed) then LoopResult(c, CapStop, 0, [])
    else
      var ok := Unliked(ctl, bs[0]);
      var c1 := Bump(c, kind, ok);
      if ok && Total(c1) % RefreshInterval == 0 then LoopResult(c1, Refreshed, 1, UnlikeRun(ctl, bs[0]).acts)
      else Later(ToggleLoop(ctl, kind, bs[1..], c1, cap), 1, UnlikeRun(ctl, bs[0]).acts)
  }

  /** The counter of `kind` went up by `n` and the other counter did not move. */
  predicate Credited(kind: Kind, c: Counters, d: Counters, n: nat) {
    if kind == PostToggle then d.unlikedPosts == c.unlikedPosts + n && d.unlikedComments == c.unlikedComments
    else d.unlikedComments == c.unlikedComments + n && d.unlikedPosts == c.unlikedPosts
  }

  /** How far a toggle loop from counters `c` over `bs` got, and why it stopped. */
  predicate LoopShape(ctl: Controls, bs: seq<Element>, c: Counters, cap: Option<int>, r: LoopResult) {
    && r.visited <= |bs| && r.c.processed == c.processed + r.visited
    && UnderCap(cap, c.processed, r.visited)
    && (r.end == Finished ==> r.visited == |bs|)
    && (r.end == CapStop ==> r.visited < |bs| && CapHit(cap, r.c.processed))
    && (r.end == Refreshed ==> r.visited > 0 && Unliked(ctl, bs[r.visited - 1]) && Total(r.c) % RefreshInterval == 0)
  }

  /**
   * The loop attempts a prefix of the toggles, one processed count each,
   * never past the cap; it stops early only at the cap or right after a
   * success that brings the total to a multiple of 50.
   */
  lemma {:induction false} ToggleLoopShape(ctl: Controls, kind: Kind, bs: seq<Element>, c: Counters, cap: Option<int>)
    ensures LoopShape(ctl, bs, c, cap, ToggleLoop(ctl, kind, bs, c, cap))
    decreases |bs|
  {
    if |bs| > 0 && !CapHit(cap, c.processed) {
      var ok := Unliked(ctl, bs[0]);
      var c1 := Bump(c, kind, ok);
      if !(ok && Total(c1) % RefreshInterval == 0) {
        var r := ToggleLoop(ctl, kind, bs[1..], c1, cap);
        ToggleLoopShape(ctl, kind, bs[1..], c1, cap);
        assert r.visited > 0 ==> bs[r.visited] == bs[1..][r.visited - 1];
      }
    }
  }

  /**
   * The other direction of the periodic refresh: every attempted toggle
   * whose unlike succeeds and brings the total of both counters to a
   * multiple of 50 is the last one the loop attempts, and the loop ends
   * there with the refresh.
   */
  lemma {:induction false} ToggleLoopRefreshFirst(ctl: Controls, kind: Kind, bs: seq<Element>, c: Counters, cap: Option<int>)
    ensures ToggleLoop(ctl, kind, bs, c, cap).visited <= |bs|
    ensures var r := ToggleLoop(ctl, kind, bs, c, cap);
            forall k :: 0 <= k < r.visited && Unliked(ctl, bs[k]) && (Total(c) + Successes(ctl, bs[..k + 1])) % RefreshInterval == 0
              ==> k == r.visited - 1 && r.end == Refreshed
    decreases |bs|
  {
    ToggleLoopShape(ctl, kind, bs, c, cap);
    var r := ToggleLoop(ctl, kind, bs, c, cap);
    if |bs| > 0 && !CapHit(cap, c.processed) {
      var ok := Unliked(ctl, bs[0]);
      var c1 := Bump(c, kind, ok);
      assert bs[..1] == [bs[0]] && bs[..1][1..] == [];
      assert Total(c1) == Total(c) + Successes(ctl, bs[..1]);
      if !(ok && Total(c1) % RefreshInterval == 0) {
        ToggleLoopRefreshFirst(ctl, kind, bs[1..], c1, cap);
        forall k | 0 <= k < r.visited && Unliked(ctl, bs[k]) && (Total(c) + Successes(ctl, bs[..k + 1])) % RefreshInterval == 0
          ensures k == r.visited - 1 && r.end == Refreshed
        {
          if k > 0 {
            assert bs[..k + 1][1..] == bs[1..][..k];
            assert bs[k] == bs[1..][k - 1];
          }
        }
      }
    }
  }

  /** The kind's counter rises by the successes among the attempted toggles and the other counter stays. */
  lemma {:induction false} ToggleLoopCredit(ctl: Controls, kind: Kind, bs: seq<Element>, c: Counters, cap: Option<int>)
    ensures ToggleLoop(ctl, kind, bs, c, cap).visited <= |bs|
    ensures var r := ToggleLoop(ctl, kind, bs, c, cap);
            Credited(kind, c, r.c, Successes(ctl, bs[..r.visited]))
    decreases |bs|
  {
    ToggleLoopShape(ctl, kind, bs, c, cap);
    if |bs| > 0 && !CapHit(cap, c.processed) {
      var ok := Unliked(ctl, bs[0]);
      var c1 := Bump(c, kind, ok);
      assert bs[..1] == [bs[0]] && bs[..1][1..] == [];
      if !(ok && Total(c1) % RefreshInterval == 0) {
        var r := ToggleLoop(ctl, kind, bs[1..], c1, cap);
        ToggleLoopCredit(ctl, kind, bs[1..], c1, cap);
        assert bs[..r.visited + 1][1..] == bs[1..][..r.visited];
      }
    }
  }

  /** The toggles that failed since the last success: the longest suffix of `bs` whose unlikes all fail. */
  function FailedSince(ctl: Controls, bs: seq<Element>): nat
    decreases |bs|
  {
    if |bs| == 0 || Unliked(ctl, bs[|bs| - 1]) then 0 else FailedSince(ctl, bs[..|bs| - 1]) + 1
  }

  /** Counting successes from the back agrees with counting them from the front. */
  lemma {:induction false} SuccessesSnoc(ctl: Controls, bs: seq<Element>, b: Element)
    ensures Successes(ctl, bs + [b]) == Successes(ctl, bs) + (if Unliked(ctl, b) then 1 else 0)
    decreases |bs|
  {
    if |bs| > 0 {
      assert (bs + [b])[1..] == bs[1..] + [b];
      SuccessesSnoc(ctl, bs[1..], b);
    }
  }

  /**
   * A toggle in front of `bs` changes the failures since the last success
   * only when `bs` has no success, in which case all of `bs` failed.
   */
  lemma {:induction false} FailedSinceCons(ctl: Controls, b: Element, bs: seq<Element>)
    ensures FailedSince(ctl, [b] + bs) ==
      if Successes(ctl, bs) > 0 then FailedSince(ctl, bs) else |bs| + (if Unliked(ctl, b) then 0 else 1)
    decreases |bs|
  {
    if |bs| > 0 {
      var p, x := bs[..|bs| - 1], bs[|bs| - 1];
      assert bs == p + [x];
      assert ([b] + bs)[..|bs|] == [b] + p;
      SuccessesSnoc(ctl, p, x);
      FailedSinceCons(ctl, b, p);
    }
  }

  /**
   * `consecutive_failures` after the loop is the number of toggles that
   * failed since the last success, plus the streak it started with when no
   * toggle succeeded; in particular it grows by one per toggle while none
   * succeeds and is zero right after a success.
   */
  lemma {:induction false} ToggleLoopStreak(ctl: Controls, kind: Kind, bs: seq<Element>, c: Counters, cap: Option<int>)
    ensures ToggleLoop(ctl, kind, bs, c, cap).visited <= |bs|
    ensures var r := ToggleLoop(ctl, kind, bs, c, cap);
            r.c.failures == FailedSince(ctl, bs[..r.visited]) + (if Successes(ctl, bs[..r.visited]) == 0 then c.failures else 0)
    decreases |bs|
  {
    if |bs| > 0 && !CapHit(cap, c.processed) {
      var ok := Unliked(ctl, bs[0]);
      var c1 := Bump(c, kind, ok);
      if ok && Total(c1) % RefreshInterval == 0 {
        assert bs[..1] == [bs[0]] + [];
        FailedSinceCons(ctl, bs[0], []);
      } else {
        var r1 := ToggleLoop(ctl, kind, bs[1..], c1, cap);
        ToggleLoopStreak(ctl, kind, bs[1..], c1, cap);
        var rest := bs[1..][..r1.visited];
        assert bs[..r1.visited + 1] == [bs[0]] + rest;
        FailedSinceCons(ctl, bs[0], rest);
        if Successes(ctl, rest) == 0 {
          FailedSinceNone(ctl, rest);
        }
      }
    }
  }

  /** With no success the streak grows by one per attempted toggle, and it is zero right after a success. */
  lemma ToggleLoopStreakCases(ctl: Controls, kind: Kind, bs: seq<Element>, c: Counters, cap: Option<int>)
    ensures ToggleLoop(ctl, kind, bs, c, cap).visited <= |bs|
    ensures var r := ToggleLoop(ctl, kind, bs, c, cap);
            && (Successes(ctl, bs[..r.visited]) == 0 ==> r.c.failures == c.failures + r.visited)
            && (r.visited > 0 && Unliked(ctl, bs[r.visited - 1]) ==> r.c.failures == 0)
  {
    ToggleLoopStreak(ctl, kind, bs, c, cap);
    var r := ToggleLoop(ctl, kind, bs, c, cap);
    FailedSinceBound(ctl, bs[..r.visited]);
    if Successes(ctl, bs[..r.visited]) == 0 {
      FailedSinceNone(ctl, bs[..r.visited]);
    }
    if r.visited > 0 && Unliked(ctl, bs[r.visited - 1]) {
      assert bs[..r.visited] == bs[..r.visited - 1] + [bs[r.visited - 1]];
      SuccessesSnoc(ctl, bs[..r.visited - 1], bs[r.visited - 1]);
    }
  }

  /** With no success every toggle failed since the (absent) last success. */
  lemma {:induction false} FailedSinceNone(ctl: Controls, bs: seq<Element>)
    requires Successes(ctl, bs) == 0
    ensures FailedSince(ctl, bs) == |bs|
    decreases |bs|
  {
    if |bs| > 0 {
      FailedSinceCons(ctl, bs[0], bs[1..]);
      assert bs == [bs[0]] + bs[1..];
    }
  }

  /** The failures since the last success are at most all of them, and none when the last toggle succeeded. */
  lemma {:induction false} FailedSinceBound(ctl: Controls, bs: seq<Element>)
    ensures FailedSince(ctl, bs) <= |bs|
    ensures |bs| > 0 && Unliked(ctl, bs[|bs| - 1]) ==> FailedSince(ctl, bs) == 0
    decreases |bs|
  {
    if |bs| > 0 && !Unliked(ctl, bs[|bs| - 1]) {
      FailedSinceBound(ctl, bs[..|bs| - 1]);
    }
  }

  /** The browser sees exactly one unlike call per attempted toggle, in order, with no retry. */
  lemma {:induction false} ToggleLoopActs(ctl: Controls, kind: Kind, bs: seq<Element>, c: Counters, cap: Option<int>)
    ensures ToggleLoop(ctl, kind, bs, c, cap).visited <= |bs|
    ensures ToggleLoop(ctl, kind, bs, c, cap).acts == UnlikeActs(ctl, bs[..ToggleLoop(ctl, kind, bs, c, cap).visited])
    decreases |bs|
  {
    ToggleLoopShape(ctl, kind, bs, c, cap);
    if |bs| > 0 && !CapHit(cap, c.processed) {
      var ok := Unliked(ctl, bs[0]);
      var c1 := Bump(c, kind, ok);
      assert bs[..1][1..] == [];
      if !(ok && Total(c1) % RefreshInterval == 0) {
        var r := ToggleLoop(ctl, kind, bs[1..], c1, cap);
        ToggleLoopActs(ctl, kind, bs[1..], c1, cap);
        assert bs[..r.visited + 1][1..] == bs[1..][..r.visited];
      }
    }
  }

  /** One toggle's worth of the loop: the step the loop method takes. */
  lemma ToggleStep(ctl: Controls, kind: Kind, bs: seq<Element>, c: Counters, cap: Option<int>)
    requires |bs| > 0 && !CapHit(cap, c.processed)
    ensures var c1 := Bump(c, kind, Unliked(ctl, bs[0]));
            ToggleLoop(ctl, kind, bs, c, cap) ==
              if Unliked(ctl, bs[0]) && Total(c1) % RefreshInterval == 0 then LoopResult(c1, Refreshed, 1, UnlikeRun(ctl, bs[0]).acts)
              else Later(ToggleLoop(ctl, kind, bs[1..], c1, cap), 1, UnlikeRun(ctl, bs[0]).acts)
  {
  }

  /** Shifting a shifted loop result twice is shifting once by the sums. */
  lemma LaterTwice(r: LoopResult, i: nat, a: seq<Act>, b: seq<Act>)
    ensures Later(Later(r, 1, b), i, a) == Later(r, i + 1, a + b)
  {
    assert a + (b + r.acts) == (a + b) + r.acts;
  }

  /** The loop method: `ToggleLoop` computed as the source does, counter by counter. */
  method UnlikeToggles(ctl: Controls, kind: Kind, bs: seq<Element>, c0: Counters, cap: Option<int>) returns (r: LoopResult)
    ensures r == ToggleLoop(ctl, kind, bs, c0, cap)
  {
    var c := c0;
    var i := 0;
    var acts: seq<Act> := [];
    while i < |bs|
      invariant 0 <= i <= |bs|
      invariant ToggleLoop(ctl, kind, bs, c0, cap) == Later(ToggleLoop(ctl, kind, bs[i..], c, cap), i, acts)
    {
      assert bs[i..][0] == bs[i] && bs[i..][1..] == bs[i + 1..];
      ghost var before := c;
      ghost var actsBefore := acts;
      if CapHit(cap, c.processed) {
        return LoopResult(c, CapStop, i, acts);
      }
      ToggleStep(ctl, kind, bs[i..], c, cap);
      c := c.(processed := c.processed + 1);
      var attempt := UnlikeRun(ctl, bs[i]);
      acts := acts + attempt.acts;
      if attempt.ok {
        if kind == PostToggle {
          c := c.(unlikedPosts := c.unlikedPosts + 1);
        } else {
          c := c.(unlikedComments := c.unlikedComments + 1);
        }
        c := c.(failures := 0);
        if Total(c) % RefreshInterval == 0 {
          return LoopResult(c, Refreshed, i + 1, acts);
        }
      } else {
        c := c.(failures := c.failures + 1);
      }
      assert c == Bump(before, kind, Unliked(ctl, bs[i]));
      LaterTwice(ToggleLoop(ctl, kind, bs[i + 1..], c, cap), i, actsBefore, attempt.acts);
      i := i + 1;
    }
    assert bs[i..] == [];
    r := LoopResult(c, Finished, i, acts);
  }

  /** A loop result over a suffix, seen from the start of the list: `i` more toggles were attempted, with actions `acts`. */
  function Later(r: LoopResult, i: nat, acts: seq<Act>): LoopResult {
    r.(visited := r.visited + i, acts := acts + r.acts)
  }

  // ---------------------------------------------------------------------
  // One `while True` iteration of process_reactions, and the whole run
  // ---------------------------------------------------------------------

  /**
   * The page as one iteration of the `while True` loop sees it: the
   * element lists at the top of the iteration (toggles and content
   * containers), the error probes, the lists each loader finds once the
   * previous loaders have clicked, and the behaviour of the elements.
   */
  datatype ReactionPage = ReactionPage(
    findAll: Locator -> seq<Element>,
    errorFind: Locator -> Lookup,
    commentsFind: Locator -> seq<Element>,
    repliesFind: Locator -> seq<Element>,
    linksFind: Locator -> seq<Element>,
    controls: Controls)

  /** The liked post toggles the iteration enumerates. */
  function PostToggles(p: ReactionPage): seq<Element> {
    FirstNonEmpty(p.findAll, PostLikeSelectors)
  }

  /** The liked comment toggles the iteration enumerates. */
  function CommentToggles(p: ReactionPage): seq<Element> {
    FirstNonEmpty(p.findAll, CommentLikeSelectors)
  }

  /** `total_reactions == 0`. */
  predicate Idle(p: ReactionPage) {
    |PostToggles(p)| + |CommentToggles(p)| == 0
  }

  /** What check_for_network_error answers on this page. */
  predicate NetworkError(p: ReactionPage) {
    FirstVisible(p.errorFind, p.controls.ui.shown, ErrorSelectors).Some?
  }

  /** What check_for_empty_page answers on this page. */
  predicate EmptyPage(p: ReactionPage) {
    forall k :: 0 <= k < |ContentSelectors| ==> |p.findAll(ContentSelectors[k])| == 0
  }

  /** The clicks of the three loaders together. */
  function Loads(p: ReactionPage): nat {
    LoaderCount(p.controls, LoadButton, p.commentsFind(MoreCommentsButtons))
      + LoaderCount(p.controls, LoadButton, p.repliesFind(PreviousRepliesButtons))
      + LoaderCount(p.controls, CommentLink, AllMatches(p.linksFind, CommentLinkSelectors))
  }

  /**
   * How an iteration ends: re-enumerate after an error or an empty page,
   * stop because nothing more loads, go on after loading, go on after
   * both toggle loops, or end the run at the cap.
   */
  datatype PassEnd = Recheck | Exhausted | Loaded | Swept | CapStopped

  datatype Pass = Pass(c: Counters, end: PassEnd)

  /**
   * One iteration, reactions.py:345-505.  With no toggles the error probe
   * runs, and the empty-page probe only when it finds nothing; otherwise
   * the loaders run and decide between stopping and going on.  With
   * toggles the post loop runs, then, unless it returned at the cap, the
   * comment loop, even after a refresh ended the post loop; the cap is
   * tested once more, and ten or more consecutive failures reset the
   * streak.
   */
  function PassOf(p: ReactionPage, c: Counters, cap: Option<int>): Pass {
    if Idle(p) then
      if NetworkError(p) || EmptyPage(p) then Pass(c, Recheck)
      else if Loads(p) == 0 then Pass(c, Exhausted)
      else Pass(c, Loaded)
    else
      var r1 := ToggleLoop(p.controls, PostToggle, PostToggles(p), c, cap);
      if r1.end == CapStop then Pass(r1.c, CapStopped)
      else
        var r2 := ToggleLoop(p.controls, CommentToggle, CommentToggles(p), r1.c, cap);
        if r2.end == CapStop || CapHit(cap, r2.c.processed) then Pass(r2.c, CapStopped)
        else if r2.c.failures >= FailureThreshold then Pass(r2.c.(failures := 0), Swept)
        else Pass(r2.c, Swept)
  }

  /** What one iteration from counters `c` promises about its result `r`. */
  predicate PassFacts(p: ReactionPage, c: Counters, cap: Option<int>, r: Pass) {
    && c.processed <= r.c.processed
    && Total(r.c) + c.processed <= Total(c) + r.c.processed
    && UnderCap(cap, c.processed, r.c.processed - c.processed)
    && (Idle(p) ==> r.c == c && r.end != Swept && r.end != CapStopped)
    && (r.end == Recheck <==> Idle(p) && (NetworkError(p) || EmptyPage(p)))
    && (r.end == Exhausted <==> Idle(p) && !NetworkError(p) && !EmptyPage(p) && Loads(p) == 0)
    && (r.end == Loaded <==> Idle(p) && !NetworkError(p) && !EmptyPage(p) && Loads(p) > 0)
    && (r.end == CapStopped ==> CapHit(cap, r.c.processed))
    && (r.end == Swept ==> !CapHit(cap, r.c.processed) && r.c.failures < FailureThreshold)
  }

  /** A loop never credits more unlikes than it attempts. */
  lemma {:induction false} SuccessesBound(ctl: Controls, bs: seq<Element>)
    ensures Successes(ctl, bs) <= |bs|
    decreases |bs|
  {
    if |bs| > 0 {
      SuccessesBound(ctl, bs[1..]);
    }
  }

  /** One toggle loop, seen through the counters only. */
  lemma LoopStep(ctl: Controls, kind: Kind, bs: seq<Element>, c: Counters, cap: Option<int>)
    ensures var r := ToggleLoop(ctl, kind, bs, c, cap);
      && c.processed <= r.c.processed
      && Total(r.c) + c.processed <= Total(c) + r.c.processed
      && UnderCap(cap, c.processed, r.c.processed - c.processed)
      && (r.end == CapStop ==> CapHit(cap, r.c.processed))
  {
    var r := ToggleLoop(ctl, kind, bs, c, cap);
    ToggleLoopShape(ctl, kind, bs, c, cap);
    ToggleLoopCredit(ctl, kind, bs, c, cap);
    SuccessesBound(ctl, bs[..r.visited]);
  }

  /**
   * An iteration moves the counters forward only through the toggle
   * loops, where the unlikes never outgrow the processed count and no
   * count passes the cap; it re-enumerates exactly when there were no
   * toggles and an error or an empty page showed, stops for good exactly
   * when nothing loads either, and after both loops the streak is below
   * ten.
   */
  lemma PassMeaning(p: ReactionPage, c: Counters, cap: Option<int>)
    ensures PassFacts(p, c, cap, PassOf(p, c, cap))
  {
    if !Idle(p) {
      var r1 := ToggleLoop(p.controls, PostToggle, PostToggles(p), c, cap);
      LoopStep(p.controls, PostToggle, PostToggles(p), c, cap);
      if r1.end != CapStop {
        LoopStep(p.controls, CommentToggle, CommentToggles(p), r1.c, cap);
        UnderCapJoin(cap, c.processed, r1.c.processed - c.processed,
                     ToggleLoop(p.controls, CommentToggle, CommentToggles(p), r1.c, cap).c.processed - r1.c.processed);
      }
    }
  }

  /**
   * A refresh that ends the post loop does not end the iteration: when
   * comment toggles were found and the cap still allows, the comment loop
   * attempts at least one of them.
   */
  lemma CommentsAfterPostRefresh(p: ReactionPage, c: Counters, cap: Option<int>)
    requires ToggleLoop(p.controls, PostToggle, PostToggles(p), c, cap).end == Refreshed
    requires |CommentToggles(p)| > 0
    requires !CapHit(cap, ToggleLoop(p.controls, PostToggle, PostToggles(p), c, cap).c.processed)
    ensures PassOf(p, c, cap).c.processed > ToggleLoop(p.controls, PostToggle, PostToggles(p), c, cap).c.processed
  {
    var r1 := ToggleLoop(p.controls, PostToggle, PostToggles(p), c, cap);
    ToggleLoopShape(p.controls, PostToggle, PostToggles(p), c, cap);
    assert !Idle(p);
    var r2 := ToggleLoop(p.controls, CommentToggle, CommentToggles(p), r1.c, cap);
    ToggleLoopShape(p.controls, CommentToggle, CommentToggles(p), r1.c, cap);
    assert r2.visited > 0;
  }

  /** The iteration method: `PassOf` computed as the source does. */
  method ReactionPass(p: ReactionPage, c: Counters, cap: Option<int>) returns (r: Pass)
    ensures r == PassOf(p, c, cap)
  {
    var likedPosts := Enumerate(p.findAll, PostLikeSelectors);
    var likedComments := Enumerate(p.findAll, CommentLikeSelectors);
    if |likedPosts| + |likedComments| == 0 {
      var error := CheckForNetworkError(p.errorFind, p.controls.ui.shown);
      var empty := false;
      if !error {
        empty := CheckForEmptyPage(p.findAll);
      }
      if error || empty {
        return Pass(c, Recheck);
      }
      var commentsLoaded, a1 := LoadMoreComments(p.commentsFind, p.controls);
      var repliesLoaded, a2 := LoadPreviousReplies(p.repliesFind, p.controls);
      var expanded, a3 := ExpandCommentSections(p.linksFind, p.controls);
      if commentsLoaded == 0 && repliesLoaded == 0 && expanded == 0 {
        return Pass(c, Exhausted);
      }
      return Pass(c, Loaded);
    }
    var r1 := UnlikeToggles(p.controls, PostToggle, likedPosts, c, cap);
    if r1.end == CapStop {
      return Pass(r1.c, CapStopped);
    }
    var r2 := UnlikeToggles(p.controls, CommentToggle, likedComments, r1.c, cap);
    if r2.end == CapStop || CapHit(cap, r2.c.processed) {
      return Pass(r2.c, CapStopped);
    }
    var d := r2.c;
    if d.failures >= FailureThreshold {
      d := d.(failures := 0);
    }
    r := Pass(d, Swept);
  }

  /** Why process_reactions stopped: nothing more to load, the cap, or (in the model) no pages left to observe. */
  datatype ReactionStop = NothingToLoad | LimitReached | RoundsOver

  /** The counters at the end, why the run stopped, and how many iterations it used. */
  datatype ReactionRun = ReactionRun(c: Counters, stop: ReactionStop, used: nat)

  /** The `while True` loop over the pages its iterations see, from counters `c`. */
  function RunReactions(pages: seq<ReactionPage>, c: Counters, cap: Option<int>): ReactionRun
    decreases |pages|
  {
    if |pages| == 0 then ReactionRun(c, RoundsOver, 0)
    else
      var r := PassOf(pages[0], c, cap);
      if r.end == Exhausted then ReactionRun(r.c, NothingToLoad, 1)
      else if r.end == CapStopped then ReactionRun(r.c, LimitReached, 1)
      else LaterRun(RunReactions(pages[1..], r.c, cap), 1)
  }

  /** A run over a suffix of the pages, seen from the start: `i` more iterations were used. */
  function LaterRun(r: ReactionRun, i: nat): ReactionRun {
    r.(used := r.used + i)
  }

  /** The iteration that ends the run for lack of content: no toggles, no error, no empty page, nothing loaded. */
  predicate Stalled(p: ReactionPage) {
    Idle(p) && !NetworkError(p) && !EmptyPage(p) && Loads(p) == 0
  }

  /** What a run from counters `c` promises about its result `r`. */
  predicate RunFacts(pages: seq<ReactionPage>, c: Counters, cap: Option<int>, r: ReactionRun) {
    && r.used <= |pages|
    && c.processed <= r.c.processed
    && Total(r.c) + c.processed <= Total(c) + r.c.processed
    && UnderCap(cap, c.processed, r.c.processed - c.processed)
    && (r.stop == RoundsOver ==> r.used == |pages|)
    && (r.stop == LimitReached ==> r.used > 0 && CapHit(cap, r.c.processed))
    && (r.stop == NothingToLoad ==> r.used > 0 && Stalled(pages[r.used - 1]))
    && (c.failures < FailureThreshold && r.stop != LimitReached ==> r.c.failures < FailureThreshold)
  }

  /**
   * The run never credits more unlikes than it processes and no processed
   * count passes the cap; it stops only at the cap or on an iteration with
   * no toggles, no error, no empty page and nothing loaded; and the
   * failure streak never reaches ten except where the run ends at the cap.
   */
  lemma {:induction false} RunMeaning(pages: seq<ReactionPage>, c: Counters, cap: Option<int>)
    ensures RunFacts(pages, c, cap, RunReactions(pages, c, cap))
    decreases |pages|
  {
    if |pages| > 0 {
      var r := PassOf(pages[0], c, cap);
      PassMeaning(pages[0], c, cap);
      if r.end == Exhausted || r.end == CapStopped {
        RunEnds(pages, c, cap, r);
      } else {
        var rest := RunReactions(pages[1..], r.c, cap);
        RunMeaning(pages[1..], r.c, cap);
        RunGoesOn(pages, c, cap, r, rest);
      }
    }
  }

  /** A run that ends on its first iteration keeps the facts of that iteration. */
  lemma RunEnds(pages: seq<ReactionPage>, c: Counters, cap: Option<int>, r: Pass)
    requires |pages| > 0 && PassFacts(pages[0], c, cap, r)
    requires r.end == Exhausted || r.end == CapStopped
    ensures RunFacts(pages, c, cap, ReactionRun(r.c, if r.end == Exhausted then NothingToLoad else LimitReached, 1))
  {
  }

  /** The facts of a first iteration that goes on and of the run after it make the facts of the whole run. */
  lemma RunGoesOn(pages: seq<ReactionPage>, c: Counters, cap: Option<int>, r: Pass, rest: ReactionRun)
    requires |pages| > 0 && PassFacts(pages[0], c, cap, r)
    requires r.end != Exhausted && r.end != CapStopped
    requires RunFacts(pages[1..], r.c, cap, rest)
    ensures RunFacts(pages, c, cap, LaterRun(rest, 1))
  {
    UnderCapJoin(cap, c.processed, r.c.processed - c.processed, rest.c.processed - r.c.processed);
    assert rest.used > 0 ==> pages[rest.used] == pages[1..][rest.used - 1];
  }

  /**
   * The loop never passes over a stalled iteration: the run stops at the
   * first iteration with no toggles, no error, no empty page and nothing
   * loaded, or earlier at the cap.
   */
  lemma {:induction false} RunStopsAtFirstStall(pages: seq<ReactionPage>, c: Counters, cap: Option<int>)
    ensures RunReactions(pages, c, cap).used <= |pages|
    ensures forall k :: 0 <= k < |pages| && Stalled(pages[k]) ==>
              RunReactions(pages, c, cap).used <= k + 1 && RunReactions(pages, c, cap).stop != RoundsOver
    decreases |pages|
  {
    RunMeaning(pages, c, cap);
    if |pages| > 0 {
      var p := PassOf(pages[0], c, cap);
      PassMeaning(pages[0], c, cap);
      if p.end != Exhausted && p.end != CapStopped {
        RunStopsAtFirstStall(pages[1..], p.c, cap);
        forall k | 0 <= k < |pages| && Stalled(pages[k])
          ensures RunReactions(pages, c, cap).used <= k + 1 && RunReactions(pages, c, cap).stop != RoundsOver
        {
          if k > 0 { assert pages[k] == pages[1..][k - 1]; }
        }
      }
    }
  }

  /** With a positive `max_reactions`, `processed_count` never exceeds it. */
  lemma ReactionsWithinCap(pages: seq<ReactionPage>, cap: Option<int>)
    requires cap.Some? && cap.value > 0
    ensures RunReactions(pages, Zero, cap).c.processed <= cap.value
  {
    var n := RunReactions(pages, Zero, cap).c.processed;
    RunMeaning(pages, Zero, cap);
    CapBound(cap, n);
  }

  /** process_reactions after the call setup: the `while True` loop with its counters from zero. */
  method ProcessReactions(pages: seq<ReactionPage>, cap: Option<int>) returns (r: ReactionRun)
    ensures r == RunReactions(pages, Zero, cap)
  {
    var c := Zero;
    var i := 0;
    while i < |pages|
      invariant 0 <= i <= |pages|
      invariant RunReactions(pages, Zero, cap) == LaterRun(RunReactions(pages[i..], c, cap), i)
    {
      assert pages[i..][0] == pages[i] && pages[i..][1..] == pages[i + 1..];
      var pass := ReactionPass(pages[i], c, cap);
      if pass.end == Exhausted {
        return ReactionRun(pass.c, NothingToLoad, i + 1);
      }
      if pass.end == CapStopped {
        return ReactionRun(pass.c, LimitReached, i + 1);
      }
      c := pass.c;
      i := i + 1;
    }
    assert pages[i..] == [];
    r := ReactionRun(c, RoundsOver, i);
  }
}
