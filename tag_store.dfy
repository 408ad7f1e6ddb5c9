/** The tag list of a resource (gws_core's `EntityTagList`) as far as the RAG bookkeeping uses
    it: lookup by key, `replace_tags` (tags with the keys of the new tags are removed, then
    the new tags are added) and `delete_tags` (the listed tags are removed). */
module TagStore {
  import opened Wrappers

  datatype Tag = Tag(key: string, value: string)

  /** `get_tags_by_key`: the tags with that key, in list order. */
  function TagsByKey(tags: seq<Tag>, key: string): (r: seq<Tag>)
    ensures |r| <= |tags|
    ensures forall t :: t in r ==> t in tags && t.key == key
    ensures forall t :: t in tags && t.key == key ==> t in r
    decreases |tags|
  {
    if |tags| == 0 then []
    else (if tags[0].key == key then [tags[0]] else []) + TagsByKey(tags[1..], key)
  }

  /** `has_tag_key`. */
  predicate HasKey(tags: seq<Tag>, key: string)
  {
    exists t :: t in tags && t.key == key
  }

  /** The value of the first tag with the key (`get_tags_by_key(key)[0].tag_value`), or None
      when `has_tag_key` is false. */
  function FirstValue(tags: seq<Tag>, key: string): (r: Option<string>)
    ensures r.Some? <==> HasKey(tags, key)
    ensures r.Some? ==> Tag(key, r.value) in tags
  {
    var found := TagsByKey(tags, key);
    if |found| == 0 then None else Some(found[0].value)
  }

  /** The tags whose key is not in `keys`, in order. */
  function WithoutKeys(tags: seq<Tag>, keys: set<string>): (r: seq<Tag>)
    ensures forall t :: t in r <==> t in tags && t.key !in keys
    decreases |tags|
  {
    if |tags| == 0 then []
    else (if tags[0].key in keys then [] else [tags[0]]) + WithoutKeys(tags[1..], keys)
  }

  function KeysOf(tags: seq<Tag>): set<string>
  {
    set t | t in tags :: t.key
  }

  /** `replace_tags(added)`. */
  function Replace(tags: seq<Tag>, added: seq<Tag>): seq<Tag>
  {
    WithoutKeys(tags, KeysOf(added)) + added
  }

  /** `delete_tags(deleted)`: every tag equal to a listed one goes. */
  function Delete(tags: seq<Tag>, deleted: seq<Tag>): (r: seq<Tag>)
    ensures forall t :: t in r <==> t in tags && t !in deleted
    decreases |tags|
  {
    if |tags| == 0 then []
    else (if tags[0] in deleted then [] else [tags[0]]) + Delete(tags[1..], deleted)
  }

  lemma {:induction false} TagsByKeyAppend(a: seq<Tag>, b: seq<Tag>, key: string)
    ensures TagsByKey(a + b, key) == TagsByKey(a, key) + TagsByKey(b, key)
    decreases |a|
  {
    if |a| > 0 {
      var head := if a[0].key == key then [a[0]] else [];
      assert (a + b)[0] == a[0];
      assert (a + b)[1..] == a[1..] + b;
      TagsByKeyAppend(a[1..], b, key);
      var x, y := TagsByKey(a[1..], key), TagsByKey(b, key);
      assert TagsByKey(a + b, key) == head + (x + y);
      assert TagsByKey(a, key) == head + x;
      assert head + (x + y) == (head + x) + y;
    } else {
      assert a + b == b;
    }
  }

  /** Removing some keys does not touch the tags of any other key, and leaves none of the
      removed keys. */
  lemma {:induction false} TagsByKeyWithout(tags: seq<Tag>, keys: set<string>, key: string)
    ensures key !in keys ==> TagsByKey(WithoutKeys(tags, keys), key) == TagsByKey(tags, key)
    ensures key in keys ==> TagsByKey(WithoutKeys(tags, keys), key) == []
    decreases |tags|
  {
    if |tags| > 0 {
      TagsByKeyWithout(tags[1..], keys, key);
      var head := if tags[0].key in keys then [] else [tags[0]];
      TagsByKeyAppend(head, WithoutKeys(tags[1..], keys), key);
    }
  }

  /** After `replace_tags(added)`, a key of `added` has exactly the new tags, and every other key
      keeps exactly its old tags. */
  lemma ReplaceByKey(tags: seq<Tag>, added: seq<Tag>, key: string)
    ensures key in KeysOf(added) ==> TagsByKey(Replace(tags, added), key) == TagsByKey(added, key)
    ensures key !in KeysOf(added) ==> TagsByKey(Replace(tags, added), key) == TagsByKey(tags, key)
  {
    TagsByKeyAppend(WithoutKeys(tags, KeysOf(added)), added, key);
    TagsByKeyWithout(tags, KeysOf(added), key);
    if key !in KeysOf(added) {
      TagsByKeyOfAbsentKey(added, key);
    }
  }

  lemma TagsByKeyOfAbsentKey(tags: seq<Tag>, key: string)
    requires key !in KeysOf(tags)
    ensures TagsByKey(tags, key) == []
  {
  }

  lemma {:induction false} WithoutKeysAppend(a: seq<Tag>, b: seq<Tag>, keys: set<string>)
    ensures WithoutKeys(a + b, keys) == WithoutKeys(a, keys) + WithoutKeys(b, keys)
    decreases |a|
  {
    if |a| > 0 {
      var head := if a[0].key in keys then [] else [a[0]];
      assert (a + b)[0] == a[0];
      assert (a + b)[1..] == a[1..] + b;
      WithoutKeysAppend(a[1..], b, keys);
      var x, y := WithoutKeys(a[1..], keys), WithoutKeys(b, keys);
      assert WithoutKeys(a + b, keys) == head + (x + y);
      assert WithoutKeys(a, keys) == head + x;
      assert head + (x + y) == (head + x) + y;
    } else {
      assert a + b == b;
    }
  }

  lemma {:induction false} WithoutKeysTwice(tags: seq<Tag>, first: set<string>, second: set<string>)
    requires first <= second
    ensures WithoutKeys(WithoutKeys(tags, first), second) == WithoutKeys(tags, second)
    decreases |tags|
  {
    if |tags| > 0 {
      WithoutKeysTwice(tags[1..], first, second);
      var head := if tags[0].key in first then [] else [tags[0]];
      WithoutKeysAppend(head, WithoutKeys(tags[1..], first), second);
    }
  }

  lemma {:induction false} WithoutOwnKeys(tags: seq<Tag>, keys: set<string>)
    requires KeysOf(tags) <= keys
    ensures WithoutKeys(tags, keys) == []
    decreases |tags|
  {
    if |tags| > 0 {
      assert tags[0].key in KeysOf(tags);
      assert KeysOf(tags[1..]) <= KeysOf(tags) by {
        forall k | k in KeysOf(tags[1..]) ensures k in KeysOf(tags) {
          var t :| t in tags[1..] && t.key == k;
          assert t in tags;
        }
      }
      WithoutOwnKeys(tags[1..], keys);
    }
  }

  /** Replacing twice, the second time with at least the same keys, is replacing once with
      the second tags: a re-sync leaves no trace of the previous one. */
  lemma ReplaceTwice(tags: seq<Tag>, first: seq<Tag>, second: seq<Tag>)
    requires KeysOf(first) <= KeysOf(second)
    ensures Replace(Replace(tags, first), second) == Replace(tags, second)
  {
    WithoutKeysAppend(WithoutKeys(tags, KeysOf(first)), first, KeysOf(second));
    WithoutKeysTwice(tags, KeysOf(first), KeysOf(second));
    WithoutOwnKeys(first, KeysOf(second));
  }

  /** Deleting a list that holds exactly the tags of some keys is removing those keys. */
  lemma {:induction false} DeleteIsWithoutKeys(tags: seq<Tag>, deleted: seq<Tag>, keys: set<string>)
    requires forall t :: t in tags ==> (t in deleted <==> t.key in keys)
    ensures Delete(tags, deleted) == WithoutKeys(tags, keys)
    decreases |tags|
  {
    if |tags| > 0 {
      assert tags[0] in tags;
      forall t | t in tags[1..] ensures t in deleted <==> t.key in keys {
        assert t in tags;
      }
      DeleteIsWithoutKeys(tags[1..], deleted, keys);
    }
  }
}
