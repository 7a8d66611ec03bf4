/**
 * The data-shaping part of the store client: the records it builds before an insert and the
 * way it turns a store response into a value or a thrown error. The query-builder calls
 * themselves go to the remote store and are represented here only by their responses.
 */
module SupabaseClient {
  import opened Wrappers
  import opened Js

  type ItemId = int
  type TagId = int

  /** A row of the `taglink` table. */
  datatype TagLink = TagLink(item_id: ItemId, tag_id: TagId)

  /** The fields `addItem` inserts into the `item` table. */
  datatype ItemFields = ItemFields(title: string, text: string)

  /** The joined tag of a link row, `tag:tag_id(tag_id, tag)`. */
  datatype TagSummary = TagSummary(tag_id: TagId, tag: string)

  /** A row of the `getItemTags` query: one link row carrying its joined tag. */
  datatype LinkRow = LinkRow(tag: TagSummary)

  /** A row of the `tag` table as stored. */
  datatype StoredTag = StoredTag(tag_id: TagId, tag: string, level: int)

  /** A tag as the client hands it to the components; `level` is absent when the query did not select it. */
  datatype TagRow = TagRow(tag_id: TagId, tag: string, level: Option<int>)

  datatype StoreError = StoreError(message: string)

  /** What a query resolves to: `{ data, error }`, either of which may be null. */
  datatype Response<T> = Response(data: Option<T>, error: Option<StoreError>)

  // ---------------------------------------------------------------------------------------
  // Building the insert payloads

  /** The payload of `addTagLinks(itemId, tagIds)`: `tagIds.map(tagId => ({ item_id: itemId, tag_id: tagId }))`. */
  function TagLinks(itemId: ItemId, tagIds: seq<TagId>): (links: seq<TagLink>)
    ensures |links| == |tagIds|
    ensures forall i :: 0 <= i < |links| ==> links[i].item_id == itemId && links[i].tag_id == tagIds[i]
  {
    if tagIds == [] then [] else [TagLink(itemId, tagIds[0])] + TagLinks(itemId, tagIds[1..])
  }

  /** The tag ids of a list of links, in order. */
  function TagIdsOf(links: seq<TagLink>): seq<TagId> {
    if links == [] then [] else [links[0].tag_id] + TagIdsOf(links[1..])
  }

  /** Reading the tag ids back out of the payload gives the input list unchanged: same ids, same order, duplicates kept. */
  lemma {:induction false} TagLinksRoundTrip(itemId: ItemId, tagIds: seq<TagId>)
    ensures TagIdsOf(TagLinks(itemId, tagIds)) == tagIds
  {
    if tagIds != [] {
      TagLinksRoundTrip(itemId, tagIds[1..]);
      assert TagLinks(itemId, tagIds)[1..] == TagLinks(itemId, tagIds[1..]);
    }
  }

  /** Duplicates are not removed: a tag id listed n times gives n identical link records. */
  lemma {:induction false} TagLinksKeepDuplicates(itemId: ItemId, tagIds: seq<TagId>, t: TagId)
    ensures multiset(TagLinks(itemId, tagIds))[TagLink(itemId, t)] == multiset(tagIds)[t]
  {
    if tagIds != [] {
      TagLinksKeepDuplicates(itemId, tagIds[1..], t);
      assert tagIds == [tagIds[0]] + tagIds[1..];
    }
  }

  /** The payload of `addItem(title, text)`: both fields are trimmed before the insert. */
  function NewItem(title: string, text: string): (r: ItemFields)
    ensures Trimmed(r.title) && Trimmed(r.text)
    ensures r.title == Trim(title) && r.text == Trim(text)
  {
    ItemFields(Trim(title), Trim(text))
  }

  /** Submitting an already submitted item again sends the same fields: trimming is idempotent. */
  lemma NewItemStable(title: string, text: string)
    ensures var r := NewItem(title, text); NewItem(r.title, r.text) == r
  {
    TrimIdempotent(title);
    TrimIdempotent(text);
  }

  // ---------------------------------------------------------------------------------------
  // Turning responses into results: `if (error) throw error`

  /** `getItem` and `addItem`: a store error is thrown; otherwise `data` is returned as is, possibly null. */
  function SingleResult<T>(resp: Response<T>): (r: Result<Option<T>, StoreError>)
    ensures r.Failure? <==> resp.error.Some?
    ensures r.Failure? ==> r.error == resp.error.value
    ensures r.Success? ==> r.value == resp.data
  {
    if resp.error.Some? then Failure(resp.error.value) else Success(resp.data)
  }

  /** `getItems` and `getAllTags`: a store error is thrown; otherwise `data || []`. */
  function ListResult<T>(resp: Response<seq<T>>): (r: Result<seq<T>, StoreError>)
    ensures r.Failure? <==> resp.error.Some?
    ensures r.Failure? ==> r.error == resp.error.value
    ensures r.Success? && resp.data.Some? ==> r.value == resp.data.value
    ensures r.Success? && resp.data.None? ==> r.value == []
  {
    if resp.error.Some? then Failure(resp.error.value)
    else if resp.data.Some? then Success(resp.data.value)
    else Success([])
  }

  /** `data?.map(t => t.tag) || []`: the joined tag of each row in row order, or `[]` when no data came back. */
  function ItemTags(data: Option<seq<LinkRow>>): (tags: seq<TagSummary>)
    ensures data.None? ==> tags == []
    ensures data.Some? ==> |tags| == |data.value| && forall i :: 0 <= i < |tags| ==> tags[i] == data.value[i].tag
  {
    match data
    case None => []
    case Some(rows) => TagsOf(rows)
  }

  /** The joined tags of a list of link rows, in order. */
  function TagsOf(rows: seq<LinkRow>): (tags: seq<TagSummary>)
    ensures |tags| == |rows|
    ensures forall i :: 0 <= i < |rows| ==> tags[i] == rows[i].tag
  {
    if rows == [] then [] else [rows[0].tag] + TagsOf(rows[1..])
  }

  /** `getItemTags`: a store error is thrown; otherwise the flattened joined tags. */
  function ItemTagsResult(resp: Response<seq<LinkRow>>): (r: Result<seq<TagSummary>, StoreError>)
    ensures r.Failure? <==> resp.error.Some?
    ensures r.Failure? ==> r.error == resp.error.value
    ensures r.Success? ==> r.value == ItemTags(resp.data)
  {
    if resp.error.Some? then Failure(resp.error.value) else Success(ItemTags(resp.data))
  }

  /** `addTagLinks` after the insert: a store error is thrown, otherwise nothing is returned. */
  function InsertResult(error: Option<StoreError>): (r: Result<(), StoreError>)
    ensures r.Failure? <==> error.Some?
    ensures r.Failure? ==> r.error == error.value
  {
    if error.Some? then Failure(error.value) else Success(())
  }

  // ---------------------------------------------------------------------------------------
  // The rows `getAllTags` hands to the tag-management form

  /** As written: the query selects `tag_id, tag` only, so every row reaches the form without a level. */
  function AllTagsRow(t: StoredTag): (r: TagRow)
    ensures r.tag_id == t.tag_id && r.tag == t.tag
    ensures r.level.None?
  {
    TagRow(t.tag_id, t.tag, None)
  }

  /** Corrected: the query also selects `level`, so each row carries the stored level. */
  function AllTagsRowWithLevel(t: StoredTag): (r: TagRow)
    ensures r.tag_id == t.tag_id && r.tag == t.tag
    ensures r.level == Some(t.level)
  {
    TagRow(t.tag_id, t.tag, Some(t.level))
  }
}
