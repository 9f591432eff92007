/**
 * The hot-topic list of the landing page (frontend/src/lib/hotTopicService.ts):
 * each row of the `hot_topics_view` becomes a topic linking to the tutoring
 * page, opened on the tab of the topic's category.
 */
module HotTopics {
  import opened Wrappers
  import opened Text

  /** A row of `hot_topics_view`; the category may be `null`. */
  datatype TopicRow = TopicRow(id: string, title: string, description: string, category: Option<string>, img: string)

  datatype HotTopic = HotTopic(id: string, title: string, description: string, category: Option<string>, img: string, link: string)

  const BimbelPath := "/bimbel"
  const TabQuery := "?tab="

  /** The link of a topic: the tab of the lower-cased category, or the plain page without a category. */
  function LinkFor(category: Option<string>): (link: string)
    ensures StartsWith(link, BimbelPath)
    ensures Truthy(category) ==> link == BimbelPath + TabQuery + Lower(category.value)
    ensures !Truthy(category) ==> link == BimbelPath
  {
    if Truthy(category) then BimbelPath + TabQuery + Lower(category.value) else BimbelPath
  }

  /** The tab a link opens, read back from its query string. */
  function TabOf(link: string): Option<string>
  {
    var prefix := BimbelPath + TabQuery;
    if StartsWith(link, prefix) then Some(link[|prefix|..]) else None
  }

  /** The link opens the tab named by the category, up to case, and no tab when there is no category. */
  lemma LinkNamesTheCategory(category: Option<string>)
    ensures Truthy(category) ==> TabOf(LinkFor(category)) == Some(Lower(category.value))
    ensures Truthy(category) ==> TabOf(LinkFor(category)).value != ""
    ensures !Truthy(category) ==> TabOf(LinkFor(category)) == None
  {
    var prefix := BimbelPath + TabQuery;
    if Truthy(category) {
      assert LinkFor(category)[..|prefix|] == prefix;
      assert LinkFor(category)[|prefix|..] == Lower(category.value);
    }
  }

  /** Two categories that differ only in case open the same tab. */
  lemma CaseOfCategoryDoesNotMatter(a: string, b: string)
    requires EqualsIgnoreCase(a, b)
    ensures LinkFor(Some(a)) == LinkFor(Some(b))
  {
    assert |a| == |Lower(a)| == |Lower(b)| == |b|;
  }

  function ToTopic(row: TopicRow): (t: HotTopic)
    ensures t.id == row.id && t.title == row.title && t.description == row.description
    ensures t.category == row.category && t.img == row.img
    ensures t.link == LinkFor(row.category)
  {
    HotTopic(row.id, row.title, row.description, row.category, row.img, LinkFor(row.category))
  }

  /** `getActiveHotTopics`: a failed query (`None`) gives no topics, otherwise one topic per row, in order. */
  function ActiveHotTopics(data: Option<seq<TopicRow>>): (topics: seq<HotTopic>)
    ensures data.None? ==> topics == []
    ensures data.Some? ==> |topics| == |data.value|
    ensures data.Some? ==> forall i :: 0 <= i < |topics| ==> topics[i] == ToTopic(data.value[i])
  {
    if data.None? then []
    else seq(|data.value|, i requires 0 <= i < |data.value| => ToTopic(data.value[i]))
  }
}
