/** The tag fixture: 25 tags named after their index, persisted in order. */
module TagFixtures {
  import Decimal
  import opened Entities

  const TagCount: nat := 25

  /** `sprintf('Tag %d', $index)`. */
  function TagName(index: int): string {
    "Tag " + Decimal.FromInt(index)
  }

  /** `array_map(..., range(0, 24))`: tag `i` sits at position `i`. */
  function AllTags(): (tags: seq<Tag>)
    ensures |tags| == TagCount
    ensures forall i :: 0 <= i < |tags| ==> tags[i].name == TagName(i)
  {
    seq(TagCount, i requires 0 <= i => Tag(TagName(i)))
  }

  /** No two fixture tags share a name. */
  lemma TagNamesDistinct()
    ensures forall i, j :: 0 <= i < j < |AllTags()| ==> AllTags()[i].name != AllTags()[j].name
  {
    forall i, j | 0 <= i < j < |AllTags()|
      ensures AllTags()[i].name != AllTags()[j].name
    {
      if AllTags()[i].name == AllTags()[j].name {
        Decimal.FramedInjective("Tag ", "", i, j);
      }
    }
  }

  function TagEntities(tags: seq<Tag>): (entities: seq<Entity>)
    ensures |entities| == |tags|
  {
    if |tags| == 0 then [] else TagEntities(tags[..|tags| - 1]) + [TagEntity(tags[|tags| - 1])]
  }

  /** The `foreach` of `load`: one persist per tag, in order. */
  method PersistTags(manager: ObjectManager, tags: seq<Tag>)
    modifies manager
    ensures manager.log == old(manager.log) + PersistAll(TagEntities(tags))
  {
    for k := 0 to |tags|
      invariant manager.log == old(manager.log) + PersistAll(TagEntities(tags[..k]))
    {
      manager.Persist(TagEntity(tags[k]));
      assert tags[..k + 1][..k] == tags[..k];
    }
    assert tags[..|tags|] == tags;
  }

  /** `load`: persists every tag once, in index order, then flushes once. */
  method Load(manager: ObjectManager) returns (tags: seq<Tag>)
    modifies manager
    ensures tags == AllTags()
    ensures manager.log == old(manager.log) + PersistAll(TagEntities(tags)) + [Flush]
  {
    tags := AllTags();
    PersistTags(manager, tags);
    manager.Flush();
  }
}
