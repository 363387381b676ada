/**
 * The edits the builder page applies to its form state: adding and removing
 * tags, appending and deleting entries, and changing one key of one entry.
 */
module RecordEdits {
  import opened Wrappers
  import opened Json
  import opened Text
  import opened Sequences
  import opened ResumeRecord

  /** `addTag`: append the trimmed input to list `t`, unless it is blank. */
  function AddTag(r: Resume, t: TagList, input: string): (r': Resume)
    ensures AllSpace(input) ==> r' == r
    ensures !AllSpace(input) ==> Tags(r', t) == Tags(r, t) + [Trim(input)] && Trim(input) != ""
    ensures r' == WithTags(r, t, Tags(r', t))
  {
    if Trim(input) != "" then WithTags(r, t, Tags(r, t) + [Trim(input)]) else r
  }

  /** `removeTag`: drop every element of list `t` equal to `value`, keeping the others in order. */
  function RemoveTag(r: Resume, t: TagList, value: string): (r': Resume)
    ensures value !in Tags(r', t)
    ensures forall x :: x in Tags(r', t) <==> x in Tags(r, t) && x != value
    ensures multiset(Tags(r', t)) == multiset(Tags(r, t))[value := 0]
    ensures IsSubsequence(Tags(r', t), Tags(r, t))
    ensures r' == WithTags(r, t, Tags(r', t))
  {
    var kept := Without(Tags(r, t), value);
    assert forall x :: x in kept <==> x in Tags(r, t) && x != value by {
      forall x
        ensures x in kept <==> x in Tags(r, t) && x != value
      {
        assert x in kept <==> x in multiset(kept);
        assert x in Tags(r, t) <==> x in multiset(Tags(r, t));
      }
    }
    WithTags(r, t, kept)
  }

  /** `addItem`: append one entry to list `f`. */
  function AddItem(r: Resume, f: ItemList, item: Item): (r': Resume)
    ensures Items(r', f) == Items(r, f) + [item]
    ensures r' == WithItems(r, f, Items(r', f))
  {
    WithItems(r, f, Items(r, f) + [item])
  }

  /** `deleteItem`: copy list `f`, splice one element out at `index`, store the copy. */
  method DeleteItem(r: Resume, f: ItemList, index: int) returns (r': Resume)
    ensures r' == WithItems(r, f, Spliced(Items(r, f), index))
    ensures 0 <= index < |Items(r, f)| ==> |Items(r', f)| == |Items(r, f)| - 1
    ensures index >= |Items(r, f)| ==> r' == r
  {
    var updated := Items(r, f);
    var k := SpliceStart(|updated|, index);
    if k < |updated| {
      updated := updated[..k] + updated[k + 1..];
    }
    r' := WithItems(r, f, updated);
  }

  /**
   * `handleNestedChange`: set key `key` of entry `index` of list `f` to `value`.
   * An index outside the list makes the page throw (no entry to write into).
   */
  method HandleNestedChange(r: Resume, f: ItemList, index: int, key: string, value: string)
    returns (r': Option<Resume>)
    ensures r'.Some? <==> 0 <= index < |Items(r, f)|
    ensures r'.Some? ==>
      var s, s' := Items(r, f), Items(r'.value, f);
      && r'.value == WithItems(r, f, s')
      && |s'| == |s|
      && (forall j :: 0 <= j < |s| && j != index ==> s'[j] == s[j])
      && s'[index].Keys == s[index].Keys + {key}
      && s'[index][key] == JStr(value)
      && (forall k :: k in s[index] && k != key ==> s'[index][k] == s[index][k])
  {
    var updated := Items(r, f);
    if !(0 <= index < |updated|) {
      return None;
    }
    updated := updated[index := updated[index][key := JStr(value)]];
    r' := Some(WithItems(r, f, updated));
  }
}

module RecordEditProperties {
  import opened Text
  import opened Sequences
  import opened ResumeRecord
  import opened RecordEdits

  /** Removing a freshly added tag restores the record. */
  lemma RemoveUndoesAdd(r: Resume, t: TagList, input: string)
    requires !AllSpace(input) && Trim(input) !in Tags(r, t)
    ensures RemoveTag(AddTag(r, t, input), t, Trim(input)) == r
  {
    var s := Tags(r, t);
    var v := Trim(input);
    WithoutAppend(s, [v], v);
    WithoutAbsent(s, v);
    assert Without([v], v) == [];
  }

  /** Removing the same tag twice is the same as removing it once. */
  lemma RemoveTagIdempotent(r: Resume, t: TagList, value: string)
    ensures RemoveTag(RemoveTag(r, t, value), t, value) == RemoveTag(r, t, value)
  {
    WithoutAbsent(Tags(RemoveTag(r, t, value), t), value);
  }

  /**
   * Deleting the entry just appended restores the record: the state
   * `DeleteItem` stores after `AddItem`, at the index the new entry got.
   */
  lemma DeleteUndoesAdd(r: Resume, f: ItemList, item: Item)
    ensures var added := AddItem(r, f, item);
      WithItems(added, f, Spliced(Items(added, f), |Items(r, f)|)) == r
  {
    var s := Items(r, f);
    assert (s + [item])[..|s|] == s;
  }
}
