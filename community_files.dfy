/** The bookkeeping of the files downloaded from Constellab Community, shared by
    `CommunityResourceFilesManagerService` and `CommunityDownloadService` (the two services
    hold the same logic; the second one takes its tag-key list as a parameter). The data
    lab's resource store and tag service are modelled by `ResourceStore`: the known tag keys
    with their labels, and the stored resources with their tag lists, in the order a search
    returns them. */
module CommunityFiles {
  import opened Wrappers
  import opened Seqs
  import opened TagStore
  import PyDict
  import RagResource

  const SEND_TO_RAG_TAG_KEY: string := "send_to_rag"
  const COMMUNITY_BRICK_NAME_TAG_KEY: string := "community_brick_name"
  const COMMUNITY_DOCUMENTATION_ID_TAG_KEY: string := "community_documentation_id"
  const COMMUNITY_TECHNICAL_DOCUMENTATION_ID_TAG_KEY: string := "community_technical_documentation_id"
  const COMMUNITY_TECH_DOC_TYPE_TAG_KEY: string := "community_tech_doc_type"
  const COMMUNITY_STORY_ID_TAG_KEY: string := "community_story_id"
  const COMMUNITY_LAST_MODIFICATED_AT_TAG_KEY: string := "community_last_modificated_at"
  const DELETE_IN_NEXT_SYNC_TAG_KEY: string := "delete_in_next_sync"
  const DELETE_IN_NEXT_SYNC_TAG_VALUE: string := "True"

  /** The (key, label) pairs the manager service makes sure exist. */
  const TAG_KEYS: seq<(string, string)> := [
    (SEND_TO_RAG_TAG_KEY, "Send to RAG"),
    (COMMUNITY_BRICK_NAME_TAG_KEY, "Community Brick Name"),
    (COMMUNITY_DOCUMENTATION_ID_TAG_KEY, "Community Documentation ID"),
    (COMMUNITY_TECHNICAL_DOCUMENTATION_ID_TAG_KEY, "Community Technical Documentation ID"),
    (COMMUNITY_TECH_DOC_TYPE_TAG_KEY, "Community Tech Doc Type"),
    (COMMUNITY_STORY_ID_TAG_KEY, "Community Story ID"),
    (COMMUNITY_LAST_MODIFICATED_AT_TAG_KEY, "Community Last Modified At"),
    (DELETE_IN_NEXT_SYNC_TAG_KEY, "Delete in Next Sync")
  ]

  /** The tag that marks a resource for deletion at the next sync. */
  const DeleteTag: Tag := Tag(DELETE_IN_NEXT_SYNC_TAG_KEY, DELETE_IN_NEXT_SYNC_TAG_VALUE)

  /** The RAG link keys of `RagResource`, in the order the tags are copied. */
  function RagTagKeys(): (r: seq<string>)
    ensures |r| == 3
  {
    [RagResource.RAG_RESOURCE_KEYS.doc, RagResource.RAG_RESOURCE_KEYS.dataset, RagResource.RAG_RESOURCE_KEYS.sync]
  }

  /** For each key in turn, the first tag with that key, when the list has one. Defined from
      the end so that the copying loop extends it one key at a time. */
  function CopiedTags(tags: seq<Tag>, keys: seq<string>): seq<Tag>
    decreases |keys|
  {
    if |keys| == 0 then []
    else
      var k := keys[|keys| - 1];
      CopiedTags(tags, keys[..|keys| - 1]) + (match FirstValue(tags, k) case Some(v) => [Tag(k, v)] case None => [])
  }

  /** The copy holds at most one tag per key, each the first tag of its key in the list, and
      one for every listed key the list holds. */
  lemma {:induction false} CopiedTagsSound(tags: seq<Tag>, keys: seq<string>)
    ensures |CopiedTags(tags, keys)| <= |keys|
    ensures forall t :: t in CopiedTags(tags, keys) ==> t.key in keys && FirstValue(tags, t.key) == Some(t.value)
    ensures forall k :: k in keys && HasKey(tags, k) ==> Tag(k, FirstValue(tags, k).value) in CopiedTags(tags, keys)
    decreases |keys|
  {
    if |keys| > 0 {
      var init, k := keys[..|keys| - 1], keys[|keys| - 1];
      CopiedTagsSound(tags, init);
      var extra := match FirstValue(tags, k) case Some(v) => [Tag(k, v)] case None => [];
      assert CopiedTags(tags, keys) == CopiedTags(tags, init) + extra;
      assert keys == init + [k];
      forall t | t in CopiedTags(tags, keys)
        ensures t.key in keys && FirstValue(tags, t.key) == Some(t.value)
      {
        if t !in CopiedTags(tags, init) {
          assert t in extra;
        }
      }
      forall key | key in keys && HasKey(tags, key)
        ensures Tag(key, FirstValue(tags, key).value) in CopiedTags(tags, keys)
      {
        if key !in init {
          assert key == k;
        }
      }
    }
  }

  /** A resource without tags passes none on. */
  lemma {:induction false} CopiedTagsOfNone(keys: seq<string>)
    ensures CopiedTags([], keys) == []
    decreases |keys|
  {
    if |keys| > 0 {
      CopiedTagsOfNone(keys[..|keys| - 1]);
      assert FirstValue([], keys[|keys| - 1]).None?;
    }
  }

  /** `_copy_rag_tags` / `copy_rag_tags`: the RAG document, dataset and sync tags of an
      existing resource, at most three, only for the keys it has, in that key order. */
  method CopyRagTags(tags: seq<Tag>) returns (r: seq<Tag>)
    ensures r == CopiedTags(tags, RagTagKeys())
    ensures |r| <= 3
  {
    var keys := RagTagKeys();
    r := [];
    var i := 0;
    while i < |keys|
      invariant 0 <= i <= |keys|
      invariant r == CopiedTags(tags, keys[..i])
    {
      var found := FirstValue(tags, keys[i]);
      if found.Some? {
        r := r + [Tag(keys[i], found.value)];
      }
      PrefixSnoc(keys, i);
      i := i + 1;
    }
    assert keys[..|keys|] == keys;
    CopiedTagsSound(tags, keys);
  }

  /** A Python string given as `str | None` that is truthy. */
  predicate Truthy(s: Option<string>)
  {
    s.Some? && s.value != ""
  }

  /** `should_update_resource`: given the tags of the existing resource (None when there is
      none) and the new modification date, whether to download, and the RAG tags the new file
      must take over. */
  function ShouldUpdateResource(existing: Option<seq<Tag>>, newDate: Option<string>): (r: (bool, Option<seq<Tag>>))
    ensures !r.0 <==>
              existing.Some? && Truthy(newDate)
              && FirstValue(existing.value, COMMUNITY_LAST_MODIFICATED_AT_TAG_KEY) == newDate
    ensures r.1.Some? <==> r.0 && existing.Some?
    ensures r.1.Some? ==> r.1.value == CopiedTags(existing.value, RagTagKeys())
  {
    if existing.None? then (true, None)
    else
      var stored := FirstValue(existing.value, COMMUNITY_LAST_MODIFICATED_AT_TAG_KEY);
      if stored.Some? && Truthy(newDate) then
        if stored.value == newDate.value then (false, None)
        else (true, Some(CopiedTags(existing.value, RagTagKeys())))
      else (true, Some(CopiedTags(existing.value, RagTagKeys())))
  }

  /** A resource that is already there is skipped exactly when its stored date equals the
      (non-empty) new one; every other existing resource is replaced and passes its RAG tags
      on, and a document without an existing resource is always downloaded. */
  lemma ShouldUpdateCases(existing: Option<seq<Tag>>, newDate: Option<string>)
    ensures existing.None? ==> ShouldUpdateResource(existing, newDate) == (true, None)
    ensures existing.Some? && Truthy(newDate)
            && FirstValue(existing.value, COMMUNITY_LAST_MODIFICATED_AT_TAG_KEY) == newDate ==>
              ShouldUpdateResource(existing, newDate) == (false, None)
    ensures existing.Some? && FirstValue(existing.value, COMMUNITY_LAST_MODIFICATED_AT_TAG_KEY) != newDate ==>
              ShouldUpdateResource(existing, newDate) == (true, Some(CopiedTags(existing.value, RagTagKeys())))
    ensures existing.Some? && !Truthy(newDate) ==>
              ShouldUpdateResource(existing, newDate) == (true, Some(CopiedTags(existing.value, RagTagKeys())))
  {
  }

  /** The first search result, or None. */
  function FirstResult<T>(results: seq<T>): (r: Option<T>)
    ensures r.None? <==> |results| == 0
    ensures r.Some? ==> r.value == results[0]
  {
    if |results| > 0 then Some(results[0]) else None
  }

  /** The resource origin `save_resource_with_context` records. */
  datatype ResourceOrigin = Generated | Uploaded

  /** `save_resource_with_context`: a resource saved inside a scenario run by a task is
      generated by it; otherwise it counts as uploaded. */
  function SaveOrigin(hasScenario: bool, hasTaskModel: bool): (r: ResourceOrigin)
    ensures r == Generated <==> hasScenario && hasTaskModel
  {
    if hasScenario && hasTaskModel then Generated else Uploaded
  }

  /** The tag-key registry after creating, in order, every listed key it does not know yet. */
  function WithTagKeys(registry: map<string, string>, keys: seq<(string, string)>): map<string, string>
    decreases |keys|
  {
    if |keys| == 0 then registry
    else
      var r := WithTagKeys(registry, keys[..|keys| - 1]);
      var (key, caption) := keys[|keys| - 1];
      if key in r then r else r[key := caption]
  }

  /** Known keys keep their labels, every listed key ends up known, and a key that was created
      carries a label listed with it. */
  lemma {:induction false} WithTagKeysSound(registry: map<string, string>, keys: seq<(string, string)>)
    ensures forall k :: k in registry ==> k in WithTagKeys(registry, keys) && WithTagKeys(registry, keys)[k] == registry[k]
    ensures forall i :: 0 <= i < |keys| ==> keys[i].0 in WithTagKeys(registry, keys)
    ensures forall k :: k in WithTagKeys(registry, keys) && k !in registry ==>
              exists i :: 0 <= i < |keys| && keys[i] == (k, WithTagKeys(registry, keys)[k])
    decreases |keys|
  {
    if |keys| > 0 {
      var init := keys[..|keys| - 1];
      WithTagKeysSound(registry, init);
      var r := WithTagKeys(registry, init);
      var n := |keys| - 1;
      forall i | 0 <= i < |keys|
        ensures keys[i].0 in WithTagKeys(registry, keys)
      {
        if i < n {
          assert keys[i] == init[i];
        }
      }
      forall k | k in WithTagKeys(registry, keys) && k !in registry
        ensures exists i :: 0 <= i < |keys| && keys[i] == (k, WithTagKeys(registry, keys)[k])
      {
        if k in r {
          var i :| 0 <= i < |init| && init[i] == (k, r[k]);
          assert keys[i] == init[i];
        } else {
          assert keys[n] == (k, WithTagKeys(registry, keys)[k]);
        }
      }
    }
  }

  /** The stored resources after `mark_resources_for_deletion(ids)`: every listed id that
      exists gets the deletion tag added, once per listing; ids that do not exist raise in the
      lookup and are skipped. */
  function Marked(d: PyDict.Dict<seq<Tag>>, ids: seq<string>): (r: PyDict.Dict<seq<Tag>>)
    ensures r.keys == d.keys && r.entries.Keys == d.entries.Keys
    decreases |ids|
  {
    if |ids| == 0 then d else MarkOne(Marked(d, ids[..|ids| - 1]), ids[|ids| - 1])
  }

  /** Tags one resource for deletion when it exists. */
  function MarkOne(m: PyDict.Dict<seq<Tag>>, id: string): (r: PyDict.Dict<seq<Tag>>)
    ensures r.keys == m.keys && r.entries.Keys == m.entries.Keys
    ensures id in m.entries ==> r.entries[id] == m.entries[id] + [DeleteTag]
  {
    if id in m.entries then PyDict.Dict(m.keys, m.entries[id := m.entries[id] + [DeleteTag]]) else m
  }

  /** Marking one more id of the list: the count grows when that resource exists. */
  lemma MarkStep(d: PyDict.Dict<seq<Tag>>, ids: seq<string>, i: nat)
    requires i < |ids|
    ensures Marked(d, ids[..i + 1]) == MarkOne(Marked(d, ids[..i]), ids[i])
    ensures |Filter(ids[..i + 1], Known(d))| == |Filter(ids[..i], Known(d))| + (if ids[i] in d.entries then 1 else 0)
  {
    PrefixSnoc(ids, i);
    FilterSnoc(ids, Known(d), i);
  }

  /** Every listed resource that exists carries the deletion tag after its own tags; the
      others are untouched. */
  lemma {:induction false} MarkedSound(d: PyDict.Dict<seq<Tag>>, ids: seq<string>)
    ensures forall id :: id in d.entries && id in ids ==>
              DeleteTag in Marked(d, ids).entries[id]
              && |d.entries[id]| <= |Marked(d, ids).entries[id]|
              && Marked(d, ids).entries[id][..|d.entries[id]|] == d.entries[id]
    ensures forall id :: id in d.entries && id !in ids ==> Marked(d, ids).entries[id] == d.entries[id]
    decreases |ids|
  {
    if |ids| > 0 {
      var init := ids[..|ids| - 1];
      MarkedSound(d, init);
      assert ids == init + [ids[|ids| - 1]];
      var m := Marked(d, init);
      var last := ids[|ids| - 1];
      forall id | id in d.entries && id in ids
        ensures DeleteTag in Marked(d, ids).entries[id]
        ensures |d.entries[id]| <= |Marked(d, ids).entries[id]|
        ensures Marked(d, ids).entries[id][..|d.entries[id]|] == d.entries[id]
      {
        if id == last {
          var before := m.entries[id];
          assert Marked(d, ids).entries[id] == before + [DeleteTag];
          assert (before + [DeleteTag])[..|d.entries[id]|] == before[..|d.entries[id]|];
          if id !in init {
            assert before == d.entries[id];
          }
        }
      }
    }
  }

  /** The loop of `mark_resources_for_deletion` over the listed ids: the marked store and how
      many of the ids exist in it. */
  method MarkEach(d: PyDict.Dict<seq<Tag>>, ids: seq<string>) returns (marked: PyDict.Dict<seq<Tag>>, count: nat)
    ensures marked == Marked(d, ids)
    ensures count == |Filter(ids, Known(d))|
  {
    marked := d;
    count := 0;
    var i := 0;
    while i < |ids|
      invariant 0 <= i <= |ids|
      invariant marked == Marked(d, ids[..i])
      invariant count == |Filter(ids[..i], Known(d))|
    {
      var id := ids[i];
      MarkStep(d, ids, i);
      if id in marked.entries {
        count := count + 1;
      }
      marked := MarkOne(marked, id);
      i := i + 1;
    }
    assert ids[..|ids|] == ids;
  }

  /** The test `id in d`. */
  function Known(d: PyDict.Dict<seq<Tag>>): string -> bool
  {
    id => id in d.entries
  }

  /** The test "the resource carries every wanted tag". */
  function Carries(d: PyDict.Dict<seq<Tag>>, wanted: seq<Tag>): string -> bool
  {
    id => id in d.entries && forall t :: t in wanted ==> t in d.entries[id]
  }

  /** A `ResourceSearchBuilder` search with tag filters: the resources carrying every wanted
      tag, in store order. */
  function Search(d: PyDict.Dict<seq<Tag>>, wanted: seq<Tag>): seq<string>
  {
    Filter(d.keys, Carries(d, wanted))
  }

  /** A search returns exactly the stored resources that carry every wanted tag, each once. */
  lemma SearchSound(d: PyDict.Dict<seq<Tag>>, wanted: seq<Tag>)
    requires PyDict.Valid(d)
    ensures forall id :: id in Search(d, wanted) <==> id in d.entries && forall t :: t in wanted ==> t in d.entries[id]
    ensures forall i, j :: 0 <= i < j < |Search(d, wanted)| ==> Search(d, wanted)[i] != Search(d, wanted)[j]
  {
    forall id
      ensures id in Search(d, wanted) <==> id in d.entries && forall t :: t in wanted ==> t in d.entries[id]
    {
      FilterMembers(d.keys, Carries(d, wanted), id);
    }
    PyDict.FilterDistinct(d.keys, Carries(d, wanted));
  }

  /** `find_existing_resource_by_tag`: the first stored resource carrying the tag, or None. */
  function FindByTag(d: PyDict.Dict<seq<Tag>>, key: string, value: string): Option<string>
  {
    FirstResult(Search(d, [Tag(key, value)]))
  }

  /** A found resource exists and carries the tag; None means no stored resource carries it. */
  lemma FindByTagSound(d: PyDict.Dict<seq<Tag>>, key: string, value: string)
    requires PyDict.Valid(d)
    ensures FindByTag(d, key, value).Some? ==>
              FindByTag(d, key, value).value in d.entries && Tag(key, value) in d.entries[FindByTag(d, key, value).value]
    ensures FindByTag(d, key, value).None? ==> forall id :: id in d.entries ==> Tag(key, value) !in d.entries[id]
  {
    SearchSound(d, [Tag(key, value)]);
    var s := Search(d, [Tag(key, value)]);
    if |s| > 0 {
      assert s[0] in s;
    }
  }

  /** `get_existing_brick_files`: the stored files sent to the RAG under a value and tagged
      with the brick. */
  function BrickFiles(d: PyDict.Dict<seq<Tag>>, sendToRagValue: string, brickName: string): seq<string>
  {
    Search(d, [Tag(SEND_TO_RAG_TAG_KEY, sendToRagValue), Tag(COMMUNITY_BRICK_NAME_TAG_KEY, brickName)])
  }

  /** The data lab's resource store and tag service, as far as the Community downloads use
      them. A saved resource gets the next id of `uuid`, which never repeats. */
  class ResourceStore {
    /** The tag keys the tag service knows, with their labels. */
    var tagKeys: map<string, string>
    /** The stored, unarchived resources by id, in search order, with their tag lists. */
    var resources: PyDict.Dict<seq<Tag>>
    /** The id generator and how many ids it has handed out. */
    const uuid: nat -> string
    var issued: nat

    ghost predicate Valid()
      reads this
    {
      && PyDict.Valid(resources)
      && (forall a, b :: a != b ==> uuid(a) != uuid(b))
      && (forall n :: n >= issued ==> uuid(n) !in resources.entries)
    }

    constructor (tagKeys: map<string, string>, uuid: nat -> string)
      requires forall a, b :: a != b ==> uuid(a) != uuid(b)
      ensures Valid()
      ensures this.tagKeys == tagKeys && resources == PyDict.Empty() && this.uuid == uuid && issued == 0
    {
      this.tagKeys := tagKeys;
      resources := PyDict.Empty();
      this.uuid := uuid;
      issued := 0;
    }

    /** `ResourceModel.save_from_resource`: stores a new resource with its tags under a fresh
        id. */
    method Save(tags: seq<Tag>) returns (id: string)
      requires Valid()
      modifies this
      ensures Valid()
      ensures id !in old(resources).entries
      ensures resources == PyDict.Put(old(resources), id, tags)
      ensures issued == old(issued) + 1 && id == uuid(old(issued))
      ensures tagKeys == old(tagKeys)
    {
      id := uuid(issued);
      resources := PyDict.Put(resources, id, tags);
      issued := issued + 1;
    }

    /** `delete_instance`: the resource leaves the store. */
    method Delete(id: string)
      requires Valid()
      modifies this
      ensures Valid()
      ensures resources == PyDict.Remove(old(resources), id)
      ensures issued == old(issued) && tagKeys == old(tagKeys)
    {
      resources := PyDict.Remove(resources, id);
    }

    /** `ensure_tag_keys_exist`: creates, with its label, each listed key the tag service does
        not know; known keys and the resources are left alone. */
    method EnsureTagKeysExist(keys: seq<(string, string)>)
      modifies this
      ensures tagKeys == WithTagKeys(old(tagKeys), keys)
      ensures resources == old(resources) && issued == old(issued)
    {
      var i := 0;
      while i < |keys|
        invariant 0 <= i <= |keys|
        invariant tagKeys == WithTagKeys(old(tagKeys), keys[..i])
        invariant resources == old(resources) && issued == old(issued)
      {
        var (key, caption) := keys[i];
        if key !in tagKeys {
          tagKeys := tagKeys[key := caption];
        }
        PrefixSnoc(keys, i);
        i := i + 1;
      }
      assert keys[..|keys|] == keys;
    }

    /** `mark_resources_for_deletion`: tags each listed resource that exists for deletion and
        returns how many were marked; an id that does not exist makes its lookup raise, which
        is logged and skipped. */
    method MarkResourcesForDeletion(ids: seq<string>) returns (count: nat)
      requires Valid()
      modifies this
      ensures Valid()
      ensures resources == Marked(old(resources), ids)
      ensures tagKeys == old(tagKeys) && issued == old(issued)
      ensures count == |Filter(ids, Known(old(resources)))|
      ensures count <= |ids|
    {
      var marked;
      marked, count := MarkEach(resources, ids);
      PyDict.SameShapeValid(resources, marked);
      resources := marked;
    }

    /** `handle_no_documentation_case`: with nothing left in Community, every existing
        resource is marked for deletion. */
    method HandleNoDocumentationCase(existingIds: seq<string>)
      requires Valid()
      modifies this
      ensures Valid()
      ensures resources == Marked(old(resources), existingIds)
      ensures tagKeys == old(tagKeys) && issued == old(issued)
    {
      if |existingIds| > 0 {
        var _ := MarkResourcesForDeletion(existingIds);
      }
    }

    /** `copy_rag_tags_from_resource_id`: the RAG tags of a stored resource (an unknown id has
        no tags). */
    method CopyRagTagsFromResourceId(id: string) returns (r: seq<Tag>)
      ensures id in resources.entries ==> r == CopiedTags(resources.entries[id], RagTagKeys())
      ensures id !in resources.entries ==> r == []
    {
      var tags := if id in resources.entries then resources.entries[id] else [];
      r := CopyRagTags(tags);
      CopiedTagsOfNone(RagTagKeys());
    }
  }
}
