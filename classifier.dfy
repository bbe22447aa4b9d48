/**
 * The pure text helpers of posts.py: the first-post preservation rule and
 * the repost classifier, which matches a post's lower-cased text against
 * three phrase lists in priority order.
 */
module PostClassifier {
  import opened Wrappers
  import opened Text

  /**
   * posts.py's preservation rule: keep exactly the post at position 0 of the
   * enumerated batch, whatever the post is.  The position test is the whole
   * rule: the source never inspects the element, so the contract can only
   * name the one position that is kept.
   */
  function IsCommunityPost<E>(post: E, postIndex: int): (preserve: bool)
    ensures preserve <==> postIndex == 0
  {
    postIndex == 0
  }

  /** The four tags of `get_repost_type`. */
  datatype RepostType = SimpleRepost | RepostWithThoughts | RepostOfRepost | Regular

  /** Indicators of a repost of someone else's repost with thoughts (checked first). */
  const RepostOfRepostIndicators: seq<string> := [
    "reposted with thoughts", "shared with thoughts", "reposted and added",
    "shared and added", "reposted with comment", "shared with comment"]

  /** Indicators of a simple repost (checked second). */
  const SimpleRepostIndicators: seq<string> := ["reposted this", "shared this"]

  /** Indicators of a repost with the user's own thoughts (checked last). */
  const RepostWithThoughtsIndicators: seq<string> := [
    "reposted with my thoughts", "shared with my thoughts",
    "reposted and added my thoughts", "shared and added my thoughts"]

  /** Some phrase of the list occurs in `t`. */
  predicate AnyIndicator(t: string, phrases: seq<string>) {
    exists k :: 0 <= k < |phrases| && Contains(t, phrases[k])
  }

  /** The tag of the first phrase list with an occurrence in `t`, in the scripts' priority order. */
  function MatchIndicators(t: string): (r: Option<RepostType>)
    ensures r != Some(Regular)
    ensures r == Some(RepostOfRepost) <==> AnyIndicator(t, RepostOfRepostIndicators)
    ensures r == Some(SimpleRepost) <==>
              !AnyIndicator(t, RepostOfRepostIndicators) && AnyIndicator(t, SimpleRepostIndicators)
    ensures r == None <==>
              !AnyIndicator(t, RepostOfRepostIndicators) && !AnyIndicator(t, SimpleRepostIndicators)
              && !AnyIndicator(t, RepostWithThoughtsIndicators)
  {
    if AnyIndicator(t, RepostOfRepostIndicators) then Some(RepostOfRepost)
    else if AnyIndicator(t, SimpleRepostIndicators) then Some(SimpleRepost)
    else if AnyIndicator(t, RepostWithThoughtsIndicators) then Some(RepostWithThoughts)
    else None
  }

  /**
   * What the classifier can read from a post: its own text and the texts of
   * its repost sub-elements; `None` where reading `.text` raises.
   */
  datatype PostTexts = PostTexts(text: Option<string>, subTexts: seq<Option<string>>)

  /** A sub-element whose text was read and matched none of the phrase lists. */
  predicate PassedOver(sub: Option<string>) {
    sub.Some? && MatchIndicators(Lower(sub.value)).None?
  }

  /**
   * The sub-element pass: elements are tried in order, each against all
   * three phrase lists; a text that cannot be read ends the whole
   * classification in the exception handler, which answers `Regular`.
   * The answer is decided by the first element that is not passed over:
   * its tag when it matched, `Regular` when its text could not be read,
   * and `Regular` when every element is passed over.
   */
  function ClassifySubElements(subs: seq<Option<string>>): (r: RepostType)
    ensures (forall k :: 0 <= k < |subs| ==> PassedOver(subs[k])) ==> r == Regular
    ensures forall k :: 0 <= k < |subs| && !PassedOver(subs[k]) && (forall j :: 0 <= j < k ==> PassedOver(subs[j])) ==>
      r == (if subs[k].None? then Regular else MatchIndicators(Lower(subs[k].value)).value)
    ensures r != Regular ==> exists k :: 0 <= k < |subs| && subs[k].Some? && MatchIndicators(Lower(subs[k].value)) == Some(r)
    decreases |subs|
  {
    if |subs| == 0 then Regular
    else if subs[0].None? then Regular
    else match MatchIndicators(Lower(subs[0].value))
      case Some(tag) => tag
      case None =>
        var r := ClassifySubElements(subs[1..]);
        assert forall k :: 1 <= k < |subs| ==> subs[k] == subs[1..][k - 1];
        r
  }

  /** `get_repost_type`: the post text first, then the sub-elements, else `Regular`. */
  function GetRepostType(post: PostTexts): (r: RepostType)
    ensures post.text.None? ==> r == Regular
    ensures post.text.Some? && AnyIndicator(Lower(post.text.value), RepostOfRepostIndicators) ==> r == RepostOfRepost
    ensures post.text.Some? && MatchIndicators(Lower(post.text.value)).None? ==> r == ClassifySubElements(post.subTexts)
    ensures post.text.Some? && MatchIndicators(Lower(post.text.value)).Some? ==> r == MatchIndicators(Lower(post.text.value)).value
  {
    if post.text.None? then Regular
    else match MatchIndicators(Lower(post.text.value))
      case Some(tag) => tag
      case None => ClassifySubElements(post.subTexts)
  }

  /**
   * Priority shadows two of the "my thoughts" phrases: a text containing
   * "shared and added my thoughts" also contains "shared and added", so it
   * is classified as a repost of a repost.
   */
  lemma SharedAndAddedMyThoughtsIsRepostOfRepost(text: string, subs: seq<Option<string>>)
    requires Contains(Lower(text), "shared and added my thoughts")
    ensures GetRepostType(PostTexts(Some(text), subs)) == RepostOfRepost
  {
    assert "shared and added my thoughts" == "shared and added" + " my thoughts";
    ContainsPrefix(Lower(text), "shared and added", " my thoughts");
    assert RepostOfRepostIndicators[3] == "shared and added";
  }

  /** The same holds for "reposted and added my thoughts". */
  lemma RepostedAndAddedMyThoughtsIsRepostOfRepost(text: string, subs: seq<Option<string>>)
    requires Contains(Lower(text), "reposted and added my thoughts")
    ensures GetRepostType(PostTexts(Some(text), subs)) == RepostOfRepost
  {
    assert "reposted and added my thoughts" == "reposted and added" + " my thoughts";
    ContainsPrefix(Lower(text), "reposted and added", " my thoughts");
    assert RepostOfRepostIndicators[2] == "reposted and added";
  }
}
