/** Tag normalisation: `normalizeTags` in src/data/caseStore.ts and src/tools/case.ts. */
module Tags {
  import opened Wrappers
  import opened Seqs
  import opened Text
  import opened Sorting

  /** Tags as the store keeps them: trimmed, non-empty, ascending and free of repetitions. */
  predicate NormalTags(tags: seq<string>) {
    && (forall i :: 0 <= i < |tags| ==> tags[i] != "" && IsTrimmed(tags[i]))
    && SortedStrings(tags)
    && Distinct(tags)
  }

  function NonEmpty(): string -> bool {
    (t: string) => |t| > 0
  }

  /** The trimmed non-empty tags, first occurrences only, in input order. */
  function CleanTags(ts: seq<string>): (r: seq<string>)
    ensures Distinct(r)
    ensures forall i :: 0 <= i < |r| ==> r[i] != "" && IsTrimmed(r[i])
    ensures forall i :: 0 <= i < |r| ==> exists j :: 0 <= j < |ts| && Trim(ts[j]) == r[i]
    ensures forall j :: 0 <= j < |ts| && Trim(ts[j]) != "" ==> Trim(ts[j]) in r
  {
    var trimmed := MapSeq(ts, Trim);
    var kept := Filter(trimmed, NonEmpty());
    var r := Dedupe(kept);
    assert forall j :: 0 <= j < |ts| && Trim(ts[j]) != "" ==> Trim(ts[j]) in r by {
      forall j | 0 <= j < |ts| && Trim(ts[j]) != "" ensures Trim(ts[j]) in r {
        assert trimmed[j] in kept;
      }
    }
    r
  }

  /** The clean tags in ascending order. */
  function SortedCleanTags(ts: seq<string>): (r: seq<string>)
    ensures NormalTags(r)
    ensures forall i :: 0 <= i < |r| ==> exists j :: 0 <= j < |ts| && Trim(ts[j]) == r[i]
    ensures forall j :: 0 <= j < |ts| && Trim(ts[j]) != "" ==> Trim(ts[j]) in r
  {
    var unique := CleanTags(ts);
    var r := SortStrings(unique);
    DistinctPermutation(unique, r);
    SortedKeepsElements(unique, r);
    r
  }

  /** Trim every tag, drop the empty ones, keep one copy of each and sort; a missing list
      gives `[]`. The result holds exactly the non-empty trimmed input tags. */
  function NormalizeTags(tags: Option<seq<string>>): (r: seq<string>)
    ensures NormalTags(r)
    ensures tags.None? ==> r == []
    ensures tags.Some? ==> forall i :: 0 <= i < |r| ==> exists j :: 0 <= j < |tags.value| && Trim(tags.value[j]) == r[i]
    ensures tags.Some? ==> forall j :: 0 <= j < |tags.value| && Trim(tags.value[j]) != "" ==> Trim(tags.value[j]) in r
  {
    if tags.None? then [] else SortedCleanTags(tags.value)
  }

  /** Normal tags are a fixed point, so normalising twice is normalising once. */
  lemma NormalizeNormalTags(tags: seq<string>)
    requires NormalTags(tags)
    ensures NormalizeTags(Some(tags)) == tags
  {
    var trimmed := MapSeq(tags, Trim);
    assert trimmed == tags by {
      forall i | 0 <= i < |tags| ensures trimmed[i] == tags[i] {
        TrimOfTrimmed(tags[i]);
      }
    }
    FilterAll(trimmed, NonEmpty());
    DedupeOfDistinct(trimmed);
    SortStringsOfSorted(trimmed);
  }

  lemma NormalizeTagsIdempotent(tags: Option<seq<string>>)
    ensures NormalizeTags(Some(NormalizeTags(tags))) == NormalizeTags(tags)
  {
    NormalizeNormalTags(NormalizeTags(tags));
  }

  /** Normal tags are determined by their elements. */
  lemma NormalTagsUnique(a: seq<string>, b: seq<string>)
    requires NormalTags(a) && NormalTags(b)
    requires forall i :: 0 <= i < |a| ==> a[i] in b
    requires forall i :: 0 <= i < |b| ==> b[i] in a
    ensures a == b
  {
    DistinctSameElements(a, b);
    SortedUnique(a, b);
  }

  /** Each trimmed tag of `b` is also a trimmed tag of `a`. */
  predicate Covers(a: seq<string>, b: seq<string>) {
    forall j :: 0 <= j < |b| ==> exists i :: 0 <= i < |a| && Trim(a[i]) == Trim(b[j])
  }

  lemma CleanTagsCovered(a: seq<string>, b: seq<string>)
    requires Covers(a, b)
    ensures forall k :: 0 <= k < |SortedCleanTags(b)| ==> SortedCleanTags(b)[k] in SortedCleanTags(a)
  {
    var ra, rb := SortedCleanTags(a), SortedCleanTags(b);
    forall k | 0 <= k < |rb| ensures rb[k] in ra {
      var j :| 0 <= j < |b| && Trim(b[j]) == rb[k];
      var i :| 0 <= i < |a| && Trim(a[i]) == Trim(b[j]);
      assert Trim(a[i]) != "";
    }
  }

  /** The order, repetition and surrounding white space of the input tags do not matter:
      inputs with the same trimmed tags normalise alike. */
  lemma NormalizeTagsIgnoresOrder(a: seq<string>, b: seq<string>)
    requires Covers(a, b) && Covers(b, a)
    ensures NormalizeTags(Some(a)) == NormalizeTags(Some(b))
  {
    CleanTagsCovered(a, b);
    CleanTagsCovered(b, a);
    NormalTagsUnique(SortedCleanTags(a), SortedCleanTags(b));
  }
}
