/** The tag lists being edited in the add form (`currentTags`) and in the detail
    view (`detailTags`): an add skips a tag already present, a remove filters
    every occurrence out. */
module Tags {
  import opened Collections

  /** The list after `if (!tags.includes(tag)) tags.push(tag)`. */
  function WithTag(tags: seq<string>, tag: string): (r: seq<string>)
    ensures tag in r
    ensures forall t :: t in r <==> t in tags || t == tag
    ensures tags <= r && |r| <= |tags| + 1
    ensures tag in tags ==> r == tags
    ensures NoDuplicates(tags) ==> NoDuplicates(r)
  {
    if tag in tags then tags else tags + [tag]
  }

  /** `tags.filter(t => t !== tag)`. */
  function WithoutTag(tags: seq<string>, tag: string): (r: seq<string>)
    ensures tag !in r
    ensures forall t :: t != tag ==> (t in r <==> t in tags)
    ensures |r| <= |tags|
  {
    Filter(tags, (t: string) => t != tag)
  }

  /** Removing a tag keeps the list free of duplicates. */
  lemma {:induction false} WithoutTagNoDuplicates(tags: seq<string>, tag: string)
    requires NoDuplicates(tags)
    ensures NoDuplicates(WithoutTag(tags, tag))
  {
    if tags != [] {
      var rest := tags[1..];
      assert NoDuplicates(rest) by {
        forall i, j | 0 <= i < j < |rest| ensures rest[i] != rest[j] {
          assert rest[i] == tags[i + 1] && rest[j] == tags[j + 1];
        }
      }
      WithoutTagNoDuplicates(rest, tag);
      assert tags == [tags[0]] + rest;
      if tags[0] != tag {
        assert WithoutTag(tags, tag) == [tags[0]] + WithoutTag(rest, tag);
        assert tags[0] !in rest;
        ConsNoDuplicates(tags[0], WithoutTag(rest, tag));
      }
    }
  }

  lemma ConsNoDuplicates(head: string, rest: seq<string>)
    requires NoDuplicates(rest) && head !in rest
    ensures NoDuplicates([head] + rest)
  {
    var s := [head] + rest;
    forall i, j | 0 <= i < j < |s| ensures s[i] != s[j] {
      assert s[j] == rest[j - 1];
      if i > 0 {
        assert s[i] == rest[i - 1];
      }
    }
  }

  /** Adding a new tag and removing it again gives back the list. */
  lemma {:induction false} AddThenRemoveTag(tags: seq<string>, tag: string)
    requires tag !in tags
    ensures WithoutTag(WithTag(tags, tag), tag) == tags
  {
    var keep := (t: string) => t != tag;
    FilterAppend(tags, [tag], keep);
    FilterKeepsAll(tags, keep);
    assert Filter([tag], keep) == [];
  }
}
