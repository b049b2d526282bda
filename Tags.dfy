/**
 * The tag list of the idea form and of the post editor: Enter adds the
 * trimmed input unless it is blank or already present; the x button removes
 * a tag.
 */
module Tags {
  import opened Text
  import opened Lists

  /** The tags after Enter with `input` in the tag field. */
  function AddTag(tags: seq<string>, input: string): (r: seq<string>)
    ensures |tags| <= |r| <= |tags| + 1
    ensures r[..|tags|] == tags
    ensures forall i :: 0 <= i < |r| ==> r[i] in tags || r[i] == Trim(input)
    ensures !IsBlank(input) ==> Trim(input) in r
    ensures IsBlank(input) ==> r == tags
    ensures Trim(input) in tags ==> r == tags
    ensures NoDuplicates(tags) ==> NoDuplicates(r)
  {
    var tag := Trim(input);
    if tag != [] && tag !in tags then tags + [tag] else tags
  }

  /** The tags after removing `tag`: every entry equal to it goes, the rest stay in order. */
  function RemoveTag(tags: seq<string>, tag: string): (r: seq<string>)
    ensures tag !in r
    ensures forall i :: 0 <= i < |tags| && tags[i] != tag ==> tags[i] in r
    ensures forall i :: 0 <= i < |r| ==> r[i] in tags
    ensures Subsequence(r, tags)
    ensures NoDuplicates(tags) ==> NoDuplicates(r)
    ensures forall x :: x != tag ==> multiset(r)[x] == multiset(tags)[x]
  {
    var keep := (t: string) => t != tag;
    FilterMultiset(tags, keep);
    FilterIsSubsequence(tags, keep);
    FilterMembers(tags, keep);
    if NoDuplicates(tags) then FilterNoDuplicates(tags, keep); Filter(tags, keep) else Filter(tags, keep)
  }

  /** Adding a tag that was not there and then removing it gives the old list back. */
  lemma {:induction false} RemoveUndoesAdd(tags: seq<string>, input: string)
    requires Trim(input) !in tags
    ensures RemoveTag(AddTag(tags, input), Trim(input)) == tags
  {
    var tag := Trim(input);
    var keep := (t: string) => t != tag;
    FilterAllPass(tags, keep);
    if tag != [] {
      FilterAppend(tags, [tag], keep);
      assert Filter([tag], keep) == [];
    }
  }

  /** Pressing Enter twice with the same input adds the tag at most once. */
  lemma AddTagIdempotent(tags: seq<string>, input: string)
    ensures AddTag(AddTag(tags, input), input) == AddTag(tags, input)
  {
  }
}
