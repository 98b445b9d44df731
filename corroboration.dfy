/**
 * The corroboration support (corroborationSupport.ts): two tables keyed
 * by story id, one of supporting documents and one of mentioned links,
 * and the lookups that give an empty list for a story the table does not
 * hold. A table is the function from a story id to its entry, `None`
 * where the record has no such key. The items' markdown bodies are opaque: each is a token naming
 * the body of one item.
 */
module Corroboration {
  import opened Wrappers
  import opened ArrayOps

  /** 'document' | 'link'. */
  datatype SupportType = Document | Link

  datatype SupportItem = SupportItem(
    id: string,
    title: string,
    kind: SupportType,
    content: Markdown,
    date: Option<string>,
    source: Option<string>)

  /** The markdown body of the `n`-th item of a table, by its position in the source. */
  datatype Markdown = Body(n: nat)

  function Doc(id: string, title: string, body: nat, date: string, source: string): (r: SupportItem)
    ensures r.id == id && r.kind == Document
  {
    SupportItem(id, title, Document, Body(body), Some(date), Some(source))
  }

  function Lnk(id: string, title: string, body: nat, date: string, source: string): (r: SupportItem)
    ensures r.id == id && r.kind == Link
  {
    SupportItem(id, title, Link, Body(body), Some(date), Some(source))
  }

  /** `supportingDocs`: two documents for story 3, one each for stories 4 and 5. */
  function SupportingDocs(storyId: int): Option<seq<SupportItem>> {
    match storyId
    case 3 => Some([
        Doc("doc-1", "Business Registration Certificate", 1,
            "2022-03-15", "Business Registry Office"),
        Doc("doc-2", "Financial Statement 2022", 2,
            "2023-01-30", "Ernst & Young")])
    case 4 => Some([
        Doc("doc-3", "Company Ownership Structure", 3,
            "2022-11-10", "Company Registry")])
    case 5 => Some([
        Doc("doc-4", "Audit Report 2022", 4,
            "2023-03-20", "Global Audit Partners")])
    case _ => None
  }

  /** `mentionedLinks`: two links for story 3, one for story 4, two for story 5. */
  function MentionedLinks(storyId: int): Option<seq<SupportItem>> {
    match storyId
    case 3 => Some([
        Lnk("link-1", "Company Official Website", 1,
            "2023-02-10", "Corporate Website"),
        Lnk("link-2", "Industry Association Membership", 2,
            "2023-01-15", "International Aero Engine Association")])
    case 4 => Some([
        Lnk("link-3", "Regulatory Filing Database", 3,
            "2023-02-25", "Government Regulatory Database")])
    case 5 => Some([
        Lnk("link-4", "Business Press Coverage", 4,
            "2023-01-05", "Multiple Business Publications"),
        Lnk("link-5", "Industry Conference Presentations", 5,
            "2022-09-15", "Industry Conference Archives")])
    case _ => None
  }

  /** `table[storyId] || []`: the stored list, or an empty one for a story the table lacks. */
  function Lookup(entry: Option<seq<SupportItem>>): seq<SupportItem> {
    entry.GetOr([])
  }

  /** `getSupportingDocuments`. */
  function GetSupportingDocuments(storyId: int): (r: seq<SupportItem>)
    ensures storyId != 3 && storyId != 4 && storyId != 5 ==> r == []
    ensures |r| == (if storyId == 3 then 2 else if storyId == 4 || storyId == 5 then 1 else 0)
    ensures forall i :: 0 <= i < |r| ==> r[i].kind == Document
  {
    Lookup(SupportingDocs(storyId))
  }

  /** `getMentionedLinks`. */
  function GetMentionedLinks(storyId: int): (r: seq<SupportItem>)
    ensures storyId != 3 && storyId != 4 && storyId != 5 ==> r == []
    ensures |r| == (if storyId == 3 || storyId == 5 then 2 else if storyId == 4 then 1 else 0)
    ensures forall i :: 0 <= i < |r| ==> r[i].kind == Link
  {
    Lookup(MentionedLinks(storyId))
  }

  /** The documents and links of a story together. */
  datatype Support = Support(documents: seq<SupportItem>, links: seq<SupportItem>)

  /** `getCorroborationSupport`. */
  function GetCorroborationSupport(storyId: int): (r: Support)
    ensures r.documents == GetSupportingDocuments(storyId)
    ensures r.links == GetMentionedLinks(storyId)
  {
    Support(GetSupportingDocuments(storyId), GetMentionedLinks(storyId))
  }

  /** The ids of the items of a list. */
  function ItemIds(items: seq<SupportItem>): seq<string> {
    Map(items, ItemIdOf)
  }

  /** `item => item.id`. */
  function ItemIdOf(item: SupportItem): string {
    item.id
  }

  /** The ids of all items in both tables, in table order. */
  function AllItemIds(): seq<string> {
    ItemIds(GetSupportingDocuments(3)) + ItemIds(GetSupportingDocuments(4)) + ItemIds(GetSupportingDocuments(5))
      + ItemIds(GetMentionedLinks(3)) + ItemIds(GetMentionedLinks(4)) + ItemIds(GetMentionedLinks(5))
  }

  /** Both tables hold stories 3, 4 and 5 and no other. */
  lemma TableKeys(storyId: int)
    ensures SupportingDocs(storyId).Some? <==> storyId == 3 || storyId == 4 || storyId == 5
    ensures MentionedLinks(storyId).Some? <==> storyId == 3 || storyId == 4 || storyId == 5
  {
  }

  /** The documents of stories 3, 4 and 5 are doc-1 and doc-2, doc-3, and doc-4. */
  lemma DocumentIds()
    ensures ItemIds(GetSupportingDocuments(3)) == ["doc-1", "doc-2"]
    ensures ItemIds(GetSupportingDocuments(4)) == ["doc-3"]
    ensures ItemIds(GetSupportingDocuments(5)) == ["doc-4"]
  {
  }

  /** The links of stories 3, 4 and 5 are link-1 and link-2, link-3, and link-4 and link-5. */
  lemma LinkIds()
    ensures ItemIds(GetMentionedLinks(3)) == ["link-1", "link-2"]
    ensures ItemIds(GetMentionedLinks(4)) == ["link-3"]
    ensures ItemIds(GetMentionedLinks(5)) == ["link-4", "link-5"]
  {
  }

  /** No item id occurs twice across the two tables. */
  lemma ItemIdsDistinct()
    ensures AllItemIds() == ["doc-1", "doc-2", "doc-3", "doc-4", "link-1", "link-2", "link-3", "link-4", "link-5"]
    ensures forall i, j :: 0 <= i < j < |AllItemIds()| ==> AllItemIds()[i] != AllItemIds()[j]
  {
    DocumentIds();
    LinkIds();
  }
}
