# LinkedIn activity reset, modelled in Dafny

Three Selenium scripts clean up a LinkedIn account's activity feed:

- posts.py deletes the user's posts;
- comments.py deletes the user's comments;
- reactions.py withdraws the user's likes.

Each script walks the feed in a `while True` loop. On every pass it
enumerates the items with a chain of CSS/XPath locators and runs a
per-item browser state machine on each one: `delete_post`,
`delete_comment`, `unlike_post`/`unlike_comment`. It keeps counters as it
goes — processed, deleted or unliked, skipped, restricted, and consecutive
failures — and decides from them when to refresh the page and when to
stop.

This project models the decision logic of the three scripts, with the
browser replaced by an oracle. Each place where the code asks the browser
something becomes a function-valued input of the model:

- `Locator -> Lookup` answers `find_element`;
- `Locator -> seq<Element>` answers `find_elements`;
- `Element -> bool` answers `is_displayed`, and separately whether a
  direct click or a JavaScript click raises;
- `Element -> Option<string>` answers `get_attribute("aria-pressed")` and
  `.text`;
- one boolean per pass says whether the URL changed, and two integers per
  pass are the page heights.

Locators are kept abstract: each names its query by the query's index in
the table of the module that declares it. The order of every locator
chain is kept exactly.

Files:

- `dom.dfy`: elements, lookups, the browser actions, and the
  click-then-JavaScript-fallback pattern.
- `selectors.dfy`: the four first-match chain variants, each as a
  specification function with its meaning and a loop method proved equal
  to it.
- `text.dfy`: lower-casing, substring search, and digits.
- `classifier.dfy`: `is_community_post` and `get_repost_type`.
- `engine.dfy`: what posts.py and comments.py share:
  - the item cap;
  - per-item visit records and the counters they replay to;
  - the consecutive-failure streak with its refresh;
  - the shape of a batch and of the whole run.
- `posts.dfy`: `delete_post` and `process_posts`.
- `comments.dfy`: `delete_comment` and `process_comments`, including the
  periodic refresh.
- `reactions.dfy`:
  - `unlike_post`/`unlike_comment`;
  - the network-error and empty-page probes;
  - the three loaders and the comment-link predicate;
  - the two unlike loops, one iteration of `process_reactions`, and the
    whole run.

The unbounded `while True` loops are modelled over a finite sequence of
per-pass observations. The model adds one stop reason of its own, for
when that sequence runs out.

Two points about the code are worth stating, because a reader might
expect otherwise:

- In reactions.py the 10-failure refresh is tested only after both toggle
  loops (reactions.py:497-505). It never abandons a batch midway, as the
  breakers of posts.py and comments.py do.
- posts.py and comments.py stop on two equal height readings alone
  (posts.py:578-585, comments.py:360-366). They do not also check for
  expandable sections.

## Model

| member | source | states |
|---|---|---|
| Dom.ClickWithFallback | reactions.py:144-156 | The direct click comes first. The JavaScript click happens exactly when the direct click raised. The element counts as clicked unless both raise. |
| Selectors.FirstVisibleMeaning | comments.py:101-115 | The visible-hit chain finds nothing exactly when no locator finds a displayed node. Otherwise it returns the node of the first locator that does; every earlier locator either missed or found a hidden node. |
| Selectors.FirstVisibleAppend | comments.py:153-166 | Running the visible-hit chain over two lists one after the other is the same as consulting the second only when the first finds nothing. |
| Selectors.ResolveVisible | comments.py:101-112 | The `for strategy, selector in ...` loop with its `break` returns exactly the chain's first visible hit. |
| Selectors.LastFoundMeaning | posts.py:255-262 | The last-found scan finds nothing exactly when every locator misses. Otherwise it returns the node of the last locator that found one. |
| Selectors.PostMenuPickMeaning | posts.py:255-266 | The posts menu loop returns nothing exactly when every locator misses. A displayed hit always wins. When no hit is displayed, the result is a hidden node: the last one found. |
| Selectors.PostMenuStep | posts.py:255-262 | One more iteration of the posts menu loop extends the first-visible and last-found values the way the loop updates `menu_button`. |
| Selectors.PostMenuStop | posts.py:258-260 | The `break` on the first displayed hit settles the loop's result: that displayed node. |
| Selectors.ResolvePostMenu | posts.py:246-262 | The posts menu loop returns exactly the pick that PostMenuPickMeaning characterises. |
| Selectors.FirstNonEmptyMeaning | posts.py:454-469 | An item enumeration is empty exactly when every locator returns no elements. Otherwise it is the complete list of the first locator that returns any. |
| Selectors.Enumerate | reactions.py:350-360 | The enumeration loop, which stops at the first non-empty `find_elements`, returns the first non-empty list. |
| Text.LowerChar | posts.py:130 | `str.lower` on one character: upper-case ASCII letters move down by 32 and every other character is kept, so the result is never an upper-case letter and is a lower-case letter exactly when the input was a letter of either case. |
| Text.Lower | reactions.py:274 | Lower-casing keeps the length and lowers each character in place. |
| Text.LowerIdempotent | posts.py:130 | Lower-casing a lower-cased text changes nothing. |
| Text.LowerKeepsDigits | reactions.py:275 | A text holds a digit exactly when its lower-cased form does. |
| PostClassifier.IsCommunityPost | posts.py:110-122 | A post is preserved exactly when its batch index is 0, whatever the element. |
| PostClassifier.MatchIndicators | posts.py:133-169 | The phrase sets are tried in priority order. Any repost-of-repost phrase wins. A simple-repost phrase wins only when no repost-of-repost phrase matches. No match happens only when none of the three sets matches. The answer is never `regular`. |
| PostClassifier.ClassifySubElements | posts.py:172-206 | The first sub-element that is not passed over decides: its indicator tag when its text matched, `regular` when its text could not be read. If every sub-element text matches no phrase, the result is `regular`. A non-regular result is the indicator tag of some sub-element text. |
| PostClassifier.GetRepostType | posts.py:124-206 | Missing post text gives `regular`. A repost-of-repost phrase in the post text always wins. Any other phrase match in the post text decides. Only when the post text matches nothing are the sub-elements consulted. |
| PostClassifier.SharedAndAddedMyThoughtsIsRepostOfRepost | posts.py:133-145 | Text containing "shared and added my thoughts" is classified `repost_of_repost`, whatever the sub-elements hold: the first set's "shared and added" matches it before the with-my-thoughts set is reached. |
| PostClassifier.RepostedAndAddedMyThoughtsIsRepostOfRepost | posts.py:133-145 | Text containing "reposted and added my thoughts" is classified `repost_of_repost`. |
| Engine.CapBound | posts.py:477-481 | Because the cap is tested before the increment, a processed count that passed the test is at most a positive cap. A negative cap admits nothing. |
| Engine.EndOf | posts.py:491-494 | An item ends as preserved exactly when no delete attempt was made on it. |
| Engine.Count | posts.py:446-449 | A counter of visits of one kind never exceeds the number of visits. |
| Engine.CountAppend | posts.py:446-449 | Counting over two stretches of visits adds up. |
| Engine.CountsPartition | posts.py:493-528 | Every processed item is exactly one of skipped, deleted, restricted or failed. |
| Engine.StreakStep | posts.py:508-542 | A success or a restricted item resets `consecutive_failures` to 0. A preserved item leaves it alone. A terminal failure increments it, and reaching the threshold resets it to 0. |
| Engine.StreakBelow | posts.py:532-542 | The failure streak stays below the threshold after every item. |
| Engine.StreakAppend | posts.py:527-542 | The streak after two stretches of visits is the second stretch's streak, started from the first's. |
| Engine.ReplayMeaning | posts.py:446-528 | Replaying visits makes processed grow by one per visit. Deleted, skipped and restricted grow by the visits that ended that way. The failure counter is the streak. |
| Engine.ReplayAppend | posts.py:476-547 | Counters replayed over two stretches equal the second replay started from the first. |
| Engine.TraceStep | posts.py:527-544 | When a visit's trip mark agrees with the streak, recording it is one step of the replay, and its mark stays consistent. |
| Engine.BatchStep | posts.py:476-481 | One more item keeps the batch trace: indices in order, under the cap, the counters replayed, no earlier trip. |
| Engine.RunStep | posts.py:452-585 | Appending a batch's visits to the run keeps the whole run ordered, replayed from zero and under the cap. The processed count equals the number of visits. |
| Engine.RunWithinCap | posts.py:477-481 | Over a whole run, `processed_count` is at most a positive cap, and 0 under a negative cap. |
| Engine.Through | posts.py:476-481 | The visits made in passes up to a given one are at most all of them. |
| Engine.ThroughAppend | posts.py:476-481 | Counting the visits up to a pass over two stretches adds up. |
| Engine.ThroughAll | posts.py:476-481 | When every visit lies in the first n passes, all of them count as made through pass n-1. |
| Engine.BetweenStep | posts.py:452-566 | Appending the next pass's batch trace to a closed run keeps it beginning at pass 0, keeps the cap clear after earlier passes, and closes it again when the batch's last visit ends the pass. |
| Engine.TrippedResets | posts.py:532-542 | Right after a visit that tripped the breaker, the failure streak is 0. |
| Posts.DeletePost | posts.py:239-412 | `delete_post`'s outcomes: no menu button, or a scroll to it that raises, fails with no action; a menu click that raises twice fails; navigating away fails after going back; no delete control gives `'restricted'` after blurring; once a delete click goes through the result is True, whatever the confirmation finds. The actions always start with the menu click. |
| Posts.RetryResults | posts.py:498-521 | At most 2 calls of `delete_post` per item. Calls stop at the first True or `'restricted'`. A second call happens only after a False. |
| Posts.Attempt | posts.py:503 | The method's result is the outcome of that call of `delete_post`. |
| Posts.DeleteWithRetry | posts.py:498-521 | The retry loop's results are exactly the retry sequence. |
| Posts.VisitItem | posts.py:481-547 | An item's visit record: the preserved item at index 0 makes no delete call; any other item makes its retry sequence. The record's trip mark is set exactly when this failure brings the streak to 5. |
| Posts.VisitAndRecord | posts.py:476-547 | Processing one more item keeps the batch trace, the counters equal to the replay of the visits, and the cap. |
| Posts.ProcessPostBatch | posts.py:476-561 | The batch loop visits a prefix of the batch in order, each item at most once. It ends in one of three ways: after every item; at the cap, before an item; or right after the item that tripped the breaker, abandoning the rest. |
| Posts.EnumeratePosts | posts.py:454-469 | A pass's batch is the first non-empty enumeration. |
| Posts.ContinuedStep | posts.py:471-585 | A pass with a non-empty batch and two different height readings lets the loop go on. |
| Posts.PostsAdvance | posts.py:476-566 | A batch appended to the run keeps the run's invariants. A cap return reports the cap as reached. |
| Posts.PostsExhausted | posts.py:452-585 | When the observed passes run out between passes, the run stops with its trace closed: every visit lies in a pass already made. |
| PostsLoop.PostPass | posts.py:452-585 | One pass appends exactly its batch's trace: the visits of a prefix of the batch, in order, each with that item's retry results. It stops for no items exactly when the batch is empty. It stops at the cap exactly when the batch is non-empty and `processed_count` reached the cap. It stops at the end of the page exactly when neither holds and the heights are equal. Unless it stopped for no items or the cap, its last visit ended the batch, at its end or at the breaker. Otherwise it goes on. |
| PostsLoop.ProcessPosts | posts.py:435-587 | `process_posts`: the visits begin at the first post of pass 0 and follow each other in order. Every visit is of a post its pass enumerated, with that post's retry results. The counters replay the visits, and `processed_count` stays within the cap. The cap was clear after every pass that let the loop go on. Unless the cap stopped it, the last pass visited ended at its batch's end or at the breaker. The loop stops exactly for its stated reasons, and every earlier pass went on. A run that used up the observed passes let every one of them go on, so it never hides an empty batch, the cap or equal heights. |
| Comments.DeleteComment | comments.py:87-229 | `delete_comment`'s outcomes: no displayed menu button, or a scroll to it that raises, fails with no action; no visible delete option gives `'restricted'` after blur and body click, skipping confirmation; a scroll to the delete option that raises fails after the menu click; a direct and a JavaScript click that both raise fail; after a delete click the result is True, with or without a confirm button. |
| Comments.RetryResults | comments.py:290-327 | At most 2 calls of `delete_comment` per comment. Calls stop at the first True or `'restricted'`. |
| Comments.Attempt | comments.py:294 | The method's result is the outcome of that call of `delete_comment`. |
| Comments.DeleteWithRetry | comments.py:290-327 | The retry loop's results are the retry sequence. The periodic refresh fires exactly when the comment ends deleted and `deleted_count` becomes a multiple of 200. |
| Comments.PeriodicMarksAt | comments.py:302-313 | A visit is marked periodic exactly when it deleted its comment and the running `deleted_count` after it is a multiple of 200. |
| Comments.PeriodicMarksAppend | comments.py:302-315 | The periodic marks of two stretches of visits join when the second starts from the first's deleted count. |
| Comments.PeriodicJoin | comments.py:252-315 | A batch's periodic marks, started from the run's deleted count, extend the run's marks. |
| Comments.PeriodicStep | comments.py:302-315 | A visit marked by the 200-multiple rule extends the periodic marks. |
| Comments.VisitItem | comments.py:274-343 | Index 0 makes no delete call but counts as processed. Other comments make their retry sequence. The periodic and trip marks follow the counters. |
| Comments.VisitAndRecord | comments.py:274-343 | One more comment keeps the batch record: the trace, the replayed counters, the cap, and the consistent trip and periodic marks. |
| Comments.ProcessCommentBatch | comments.py:274-351 | The batch loop visits a prefix in order. It ends after every comment, at the cap, or right after the 5th consecutive failure. A periodic refresh does not end the batch. |
| Comments.EnumerateComments | comments.py:254-270 | A pass's batch is the first non-empty enumeration. |
| Comments.ContinuedStep | comments.py:271-366 | A pass with comments and a height change lets the loop go on. |
| Comments.CommentsAdvance | comments.py:274-354 | A batch appended to the run keeps the run's invariants, including the periodic marks. |
| Comments.CommentsNoItems | comments.py:271-273 | A pass that finds no comments stops the loop and leaves the trace as it was. |
| Comments.CommentsExhausted | comments.py:253-366 | When the observed passes run out between passes, the run stops with its trace closed: every visit lies in a pass already made. |
| CommentsLoop.CommentPass | comments.py:253-366 | One pass appends exactly its batch's trace: the visits of a prefix of the batch, in order, each with that comment's retry results. It stops for no comments exactly when the batch is empty. It stops at the cap exactly when the batch is non-empty and `processed_count` reached the cap. It stops at the end of the page exactly when neither holds and the heights are equal. Unless it stopped for no comments or the cap, its last visit ended the batch, at its end or at the breaker. Otherwise it goes on. |
| CommentsLoop.ProcessComments | comments.py:243-367 | `process_comments`: the visits begin at the first comment of pass 0 and follow each other in order. Every visit is of a comment its pass enumerated, with that comment's retry results. The counters replay the visits, the cap holds, and the periodic marks follow the 200 rule. The cap was clear after every pass that let the loop go on. Unless the cap stopped it, the last pass visited ended at its batch's end or at the breaker. The loop stops exactly for its stated reasons, and every earlier pass went on. A run that used up the observed passes let every one of them go on, so it never hides an empty batch, the cap or equal heights. |
| Reactions.UnlikeRun | reactions.py:129-193 | `unlike_post`/`unlike_comment` return True exactly when `aria-pressed` is "true", scrolling succeeds, and one of the two clicks goes through. When the toggle is not pressed, or scrolling raises, nothing is clicked. The JavaScript click is tried only after the direct click raised. |
| Reactions.CheckForNetworkError | reactions.py:54-90 | An error is reported exactly when one of the 13 error locators finds a displayed node, which is exactly when the first-visible chain over them finds one. |
| Reactions.CheckForEmptyPage | reactions.py:92-127 | The page is reported empty exactly when no content locator matches any element. |
| Reactions.LoaderMeaning | reactions.py:200-215 | Every click the loaders make is on an element they wanted: displayed and, for comment links, with the right text. The count never exceeds the clicks, and the clicks never exceed the elements found. The count is 0 exactly when no wanted element took a non-raising click. |
| Reactions.LoaderAppend | reactions.py:263-284 | Clicks and counts over two element lists add up. |
| Reactions.ClickEach | reactions.py:203-213 | The per-element loop computes exactly the loader's click count and actions. |
| Reactions.LoadMoreComments | reactions.py:195-218 | The result is the number of displayed "previous comments" buttons whose click went through. |
| Reactions.LoadPreviousReplies | reactions.py:220-243 | The result is the number of displayed "previous replies" buttons whose click went through. |
| Reactions.ExpandCommentSections | reactions.py:245-292 | Over all seven locators in order, the result counts the displayed comment links whose text passes the keyword and digit test and whose click went through. |
| Reactions.CommentLinkByParts | reactions.py:272-281 | When the lower-cased text contains "comment", "show" or "reply", the text is a comment link exactly when it holds a digit. |
| Reactions.CommentLinkIgnoresCase | reactions.py:274 | The comment-link test gives the same answer on a text and on its lower-cased form. |
| Reactions.ToggleLoopShape | reactions.py:410-448 | A toggle loop attempts a prefix of the toggles, adding one to `processed_count` per attempt and never past the cap. It stops early only at the cap, or right after a success that brings `unliked_posts + unliked_comments` to a multiple of 50. |
| Reactions.ToggleLoopRefreshFirst | reactions.py:430-437 | Every attempted toggle whose unlike succeeds and brings `unliked_posts + unliked_comments` to a multiple of 50 is the last toggle the loop attempts, and the loop ends there with the refresh. The comment loop (reactions.py:471-478) is the same function with the other kind. With ToggleLoopShape this makes the refresh an if-and-only-if. |
| Reactions.ToggleLoopCredit | reactions.py:426-428 | The loop's own counter rises by the number of attempted toggles that unliked. The other kind's counter does not move. |
| Reactions.FailedSinceCons | reactions.py:427-441 | A toggle in front changes the failures since the last success only when the rest has no success, and then all of the rest failed. |
| Reactions.FailedSinceNone | reactions.py:427-441 | Without a success, every attempted toggle counts as failed since the last success. |
| Reactions.FailedSinceBound | reactions.py:427-441 | The failures since the last success are at most the attempted toggles, and none when the last toggle succeeded. |
| Reactions.ToggleLoopStreak | reactions.py:427-441 | After the loop, `consecutive_failures` is the number of attempted toggles that failed since the last success, plus the starting streak when no toggle succeeded. |
| Reactions.ToggleLoopStreakCases | reactions.py:427-441 | With no success, `consecutive_failures` grows by one per attempted toggle. Right after a success it is 0. |
| Reactions.ToggleLoopActs | reactions.py:451-489 | The browser sees exactly one unlike call per attempted toggle, in order, with no retry. |
| Reactions.UnlikeToggles | reactions.py:410-448 | The `for i, like_button in enumerate(...)` loop computes exactly the toggle loop's result. |
| Reactions.SuccessesSnoc | reactions.py:426-428 | Counting successful unlikes from the back agrees with counting them from the front. |
| Reactions.SuccessesBound | reactions.py:426-441 | Successful unlikes never outnumber the attempted toggles. |
| Reactions.LoopStep | reactions.py:410-489 | One toggle loop never credits more unlikes than it processes, and stays under the cap. |
| Reactions.PassMeaning | reactions.py:345-505 | One iteration re-enumerates exactly when there were no toggles and an error or empty page showed. It stops for good exactly when nothing loaded either. Without toggles the counters do not change. With toggles they change only through the two loops, under the cap. After both loops the streak is below 10. |
| Reactions.CommentsAfterPostRefresh | reactions.py:430-457 | A refresh that ends the post loop does not end the iteration: when comment toggles were found and the cap allows, the comment loop still attempts one. |
| Reactions.ReactionPass | reactions.py:345-505 | The loop body computes exactly the modelled iteration (`PassOf`), whose guarantees PassMeaning states. It does this with the enumeration loops, the two probes, the three loaders and the two toggle loops. |
| Reactions.RunMeaning | reactions.py:343-507 | The run never credits more unlikes than it processes, and never passes the cap. It stops only at the cap or on an iteration with no toggles, no error, no empty page and nothing loaded. The failure streak is below 10 except where the run ends at the cap. |
| Reactions.RunStopsAtFirstStall | reactions.py:382-407 | The `while True` loop never goes past an iteration with no toggles, no error, no empty page and nothing loaded: the run stops at the first such iteration, or earlier at the cap. |
| Reactions.RunEnds | reactions.py:395-402 | A run that stops on its first iteration, for lack of content or at the cap, keeps that iteration's guarantees. |
| Reactions.RunGoesOn | reactions.py:343-505 | An iteration that goes on, followed by the rest of the run, keeps the run's guarantees. |
| Reactions.ReactionsWithinCap | reactions.py:411-415 | With a positive `max_reactions`, `processed_count` never exceeds it. |
| Reactions.ProcessReactions | reactions.py:326-507 | The `while True` loop with counters from zero computes exactly the modelled run. |

## Left out

- `setup_driver`, `run`, `main` and `navigate_to_recent_activity`: driver construction, prompts, exit codes and URL heuristics are I/O.
- `wait_for_page_load`, `WebDriverWait` and every `time.sleep`: timing is not modelled. A wait is modelled only as "found or not found", and an `element_to_be_clickable` wait as the element being displayed.
- `initial_scroll_loading` and the feed scrolling between passes: their only effect on the decisions is which elements the next lookups find, which the per-pass observations already supply. The `scrollIntoView` calls inside `delete_post` and `delete_comment` are different: one that raises ends the call in its outer handler with False, and the model observes that per element.
- Refresh side effects: the refreshes after a network error, after the breaker, after the periodic interval and after an empty page only change the page. Later observations carry what the refreshed page shows.
- The `check_for_network_error` calls inside the per-item loops of all three scripts only log and refresh. Their answers decide nothing there, so only the reactions probe that does decide (reactions.py:386) is modelled. The posts and comments probes (posts.py:66-108, comments.py:54-85) search the same kind of chain over a shorter list.
- Reactions.CheckForNetworkError: an `is_displayed` call that raises something other than `NoSuchElementException` ends the source's probe with False without trying the remaining locators. The model treats every lookup result as displayed or not.
- Real CSS/XPath evaluation, JavaScript, `get_attribute` and `.text`: these are oracle inputs. Locators carry only an index into the query table of the module that declares them.
- Text.LowerChar, Text.Lower: only ASCII letters are lowered, and `isdigit` is modelled as '0'..'9'. Python's Unicode case mapping and Unicode digits are not modelled.
- The `except Exception` branches of the per-item loops (posts.py:556-561, comments.py:347-351, reactions.py:445-448, 486-489): the model never enters them. They are reached when a call inside the `try` raises without catching it itself: `driver.refresh()` (posts.py:534, comments.py:304, 335, reactions.py:432, 473), the scrolling script of `initial_scroll_loading` (reactions.py:302), or `wait_for_page_load` on anything but a timeout (posts.py:57-64). The source then goes on with the next item. In posts.py and comments.py a raising breaker refresh skips the reset and the `break`, so the streak stays at 5 or more and the batch goes on; a raising periodic refresh in comments.py also goes on with the batch. In reactions.py a raising refresh after a success adds one to `consecutive_failures` and the toggle loop goes on instead of ending. The model treats every refresh and page-load call as succeeding.
- `delete_post`'s result is computed from observations alone. The `repost_type` value computed at posts.py:295 is never used to choose a control, so `delete_post` does not consult the classifier.
- Posts.DeletePost: the delete control is taken as soon as one of its two lookups finds a node, without a visibility test, as the source does.
- Posts.DeletePost: an `is_displayed` call in the menu loop (posts.py:258) that raises something other than `NoSuchElementException`, and any other driver call that raises unexpectedly, such as reading `current_url`, reach the outer handler (posts.py:410-412), which returns False. The model treats every such call as answered and observes only raising clicks and raising scrolls.
- Comments.DeleteComment: an `is_displayed` call in the menu or delete-option loop (comments.py:107, 160) that raises something other than `NoSuchElementException`, and any other driver call that raises unexpectedly, reach the outer handler (comments.py:227-229), which returns False. The model treats every such call as answered and observes only raising clicks and raising scrolls.
- Comments.ProcessComments: the shared counter record has a `skipped` field, but comments.py keeps no skipped counter; the preserved first comment is only passed over with `continue` (comments.py:285-287). In the comments model `skipped` counts those index-0 visits and nothing reads it.
- Each loader in `process_reactions` sees the page as left by the loaders before it. The model gives each its own observed element lists.
- Reactions.ToggleLoopShape: after a periodic refresh ends the post loop, the source still holds the comment toggles found before the refresh. The model gives them the same controls as the rest of the iteration, so a stale element is just one whose unlike fails.
- Reactions.ProcessReactions: `while True` may never end on a real page, for instance when the error or empty-page probe keeps firing. The model runs over a finite sequence of observed iterations and reports `RoundsOver` when it runs out. The same holds for `process_posts` and `process_comments` with `OutOfRounds`.
- Logging and every message text.
