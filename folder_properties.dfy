/**
 * The folder list of a knowledge tool: toggling a folder twice restores the
 * list, selecting never repeats a folder, and the search box appears only
 * for many folders holding many documents.
 */
module FolderProperties {
  import opened EditorState

  /** Removing a value the list does not hold changes nothing. */
  lemma {:induction false} WithoutAbsent(xs: seq<string>, x: string)
    requires x !in xs
    ensures Without(xs, x) == xs
  {
    if xs != [] {
      WithoutAbsent(xs[1..], x);
      assert xs == [xs[0]] + xs[1..];
    }
  }

  /** Removing the value just appended to a list that did not hold it gives the list back. */
  lemma {:induction false} WithoutLast(xs: seq<string>, x: string)
    requires x !in xs
    ensures Without(xs + [x], x) == xs
  {
    if xs == [] {
      assert Without([x], x) == [] + Without([], x);
    } else {
      assert (xs + [x])[1..] == xs[1..] + [x];
      WithoutLast(xs[1..], x);
      assert xs == [xs[0]] + xs[1..];
    }
  }

  /** Removing a value keeps a list free of repeats. */
  lemma {:induction false} WithoutKeepsDistinct(xs: seq<string>, x: string)
    requires NoDuplicates(xs)
    ensures NoDuplicates(Without(xs, x))
  {
    if xs != [] {
      assert NoDuplicates(xs[1..]) by {
        forall i, k | 0 <= i < k < |xs[1..]| ensures xs[1..][i] != xs[1..][k] {
          assert xs[1..][i] == xs[i + 1] && xs[1..][k] == xs[k + 1];
        }
      }
      WithoutKeepsDistinct(xs[1..], x);
      var rest := Without(xs[1..], x);
      assert xs[0] !in rest;
      var head := if xs[0] == x then [] else [xs[0]];
      assert Without(xs, x) == head + rest;
      forall i, k | 0 <= i < k < |head + rest| ensures (head + rest)[i] != (head + rest)[k] {
        if head != [] && i == 0 {
          assert (head + rest)[k] == rest[k - 1];
          assert rest[k - 1] in rest;
        } else {
          assert (head + rest)[i] == rest[i - |head|] && (head + rest)[k] == rest[k - |head|];
        }
      }
    }
  }

  /** Dropping repeats from a list whose values are all new keeps it as it is. */
  lemma {:induction false} DedupAfterDistinct(seen: seq<string>, xs: seq<string>)
    requires NoDuplicates(seen) && NoDuplicates(seen + xs)
    ensures DedupAfter(seen, xs) == seen + xs
    decreases |xs|
  {
    if xs != [] {
      forall i | 0 <= i < |seen| ensures seen[i] != xs[0] {
        assert seen[i] == (seen + xs)[i] && xs[0] == (seen + xs)[|seen|];
      }
      assert (seen + [xs[0]]) + xs[1..] == seen + xs;
      assert NoDuplicates(seen + [xs[0]]) by {
        forall i, k | 0 <= i < k < |seen + [xs[0]]| ensures (seen + [xs[0]])[i] != (seen + [xs[0]])[k] {
          assert (seen + [xs[0]])[i] == (seen + xs)[i] && (seen + [xs[0]])[k] == (seen + xs)[k];
        }
      }
      DedupAfterDistinct(seen + [xs[0]], xs[1..]);
    }
  }

  /** Expanding a collapsed folder and collapsing it again restores the list exactly. */
  lemma ExpandTwiceRestores(xs: seq<string>, id: string)
    requires id !in xs
    ensures ToggleExpanded(xs, id) == xs + [id]
    ensures ToggleExpanded(ToggleExpanded(xs, id), id) == xs
  {
    WithoutLast(xs, id);
  }

  /**
   * Selecting a folder appends it to a selection without repeats, and
   * deselecting it again restores the selection exactly.
   */
  lemma SelectTwiceRestores(xs: seq<string>, id: string)
    requires NoDuplicates(xs) && id !in xs
    ensures ToggleSelected(xs, id) == xs + [id]
    ensures ToggleSelected(ToggleSelected(xs, id), id) == xs
  {
    assert NoDuplicates([] + (xs + [id])) by {
      assert [] + (xs + [id]) == xs + [id];
    }
    DedupAfterDistinct([], xs + [id]);
    assert [] + (xs + [id]) == xs + [id];
    WithoutLast(xs, id);
  }

  /** A selection free of repeats stays so whatever folder is toggled. */
  lemma SelectionStaysDistinct(xs: seq<string>, id: string)
    requires NoDuplicates(xs)
    ensures NoDuplicates(ToggleSelected(xs, id))
  {
    if id in xs {
      WithoutKeepsDistinct(xs, id);
    }
  }

  /** `filter` keeps order: filtering a concatenation filters each part. */
  lemma {:induction false} WithoutConcat(a: seq<string>, b: seq<string>, x: string)
    ensures Without(a + b, x) == Without(a, x) + Without(b, x)
  {
    if a == [] {
      assert a + b == b;
    } else {
      assert (a + b)[1..] == a[1..] + b;
      WithoutConcat(a[1..], b, x);
    }
  }

  /** `filter` keeps multiplicity: every other value occurs as often as before, the removed one not at all. */
  lemma {:induction false} WithoutCounts(xs: seq<string>, x: string)
    ensures multiset(Without(xs, x)) == multiset(xs)[x := 0]
  {
    if xs != [] {
      assert xs == [xs[0]] + xs[1..];
      WithoutCounts(xs[1..], x);
    }
  }

  /** Deduplicating a concatenation deduplicates the second part after the first. */
  lemma {:induction false} DedupAfterConcat(seen: seq<string>, a: seq<string>, b: seq<string>)
    requires NoDuplicates(seen)
    ensures DedupAfter(seen, a + b) == DedupAfter(DedupAfter(seen, a), b)
    decreases |a|
  {
    if a == [] {
      assert a + b == b;
    } else {
      assert (a + b)[0] == a[0] && (a + b)[1..] == a[1..] + b;
      if a[0] in seen {
        DedupAfterConcat(seen, a[1..], b);
      } else {
        assert NoDuplicates(seen + [a[0]]) by {
          forall i, k | 0 <= i < k < |seen + [a[0]]| ensures (seen + [a[0]])[i] != (seen + [a[0]])[k] {
            if k == |seen| { assert (seen + [a[0]])[i] == seen[i]; }
          }
        }
        DedupAfterConcat(seen + [a[0]], a[1..], b);
      }
    }
  }

  /** One more value is appended exactly when it has not been seen. */
  lemma DedupAfterSingleton(seen: seq<string>, x: string)
    requires NoDuplicates(seen)
    ensures DedupAfter(seen, [x]) == if x in seen then seen else seen + [x]
  {
    assert [x][1..] == [];
  }

  /**
   * `[...new Set(xs)]` keeps the first occurrence of each value, in order:
   * a value at the end is kept exactly when it did not occur before.
   */
  lemma DedupFirstOccurrence(xs: seq<string>, x: string)
    ensures Dedup(xs + [x]) == if x in xs then Dedup(xs) else Dedup(xs) + [x]
  {
    DedupAfterConcat([], xs, [x]);
    DedupAfterSingleton(Dedup(xs), x);
  }

  /** The document total of two groups of folders is the sum of their totals. */
  lemma {:induction false} TotalFilesConcat(a: seq<KnowledgeGroup>, b: seq<KnowledgeGroup>)
    ensures TotalFiles(a + b) == TotalFiles(a) + TotalFiles(b)
    decreases |b|
  {
    if b == [] {
      assert a + b == a;
    } else {
      var n := |b| - 1;
      assert (a + b)[..|a + b| - 1] == a + b[..n];
      TotalFilesConcat(a, b[..n]);
    }
  }

  /** With every folder holding at least `lo` documents, the total is at least `lo` times their number. */
  lemma {:induction false} TotalFilesAtLeast(groups: seq<KnowledgeGroup>, lo: nat)
    requires forall i :: 0 <= i < |groups| ==> lo <= groups[i].documentCount
    ensures lo * |groups| <= TotalFiles(groups)
  {
    if groups != [] {
      TotalFilesAtLeast(groups[..|groups| - 1], lo);
    }
  }

  /** With every folder holding at most `hi` documents, the total is at most `hi` times their number. */
  lemma {:induction false} TotalFilesAtMost(groups: seq<KnowledgeGroup>, hi: nat)
    requires forall i :: 0 <= i < |groups| ==> groups[i].documentCount <= hi
    ensures TotalFiles(groups) <= hi * |groups|
  {
    if groups != [] {
      TotalFilesAtMost(groups[..|groups| - 1], hi);
    }
  }

  /** Adding folders never hides a search box that was shown. */
  lemma SearchStaysShown(groups: seq<KnowledgeGroup>, more: seq<KnowledgeGroup>)
    requires ShouldShowSearch(groups)
    ensures ShouldShowSearch(groups + more)
  {
    TotalFilesConcat(groups, more);
  }

  /**
   * The search box needs more than five folders and more than ten documents
   * in all: five folders never show it, six or more of at least two
   * documents each always do, and up to ten folders of at most one document
   * each never do.
   */
  lemma SearchThresholds(groups: seq<KnowledgeGroup>)
    ensures |groups| <= 5 ==> !ShouldShowSearch(groups)
    ensures |groups| > 5 && (forall i :: 0 <= i < |groups| ==> groups[i].documentCount >= 2) ==>
      ShouldShowSearch(groups)
    ensures |groups| <= 10 && (forall i :: 0 <= i < |groups| ==> groups[i].documentCount <= 1) ==>
      !ShouldShowSearch(groups)
  {
    if forall i :: 0 <= i < |groups| ==> groups[i].documentCount >= 2 {
      TotalFilesAtLeast(groups, 2);
    }
    if forall i :: 0 <= i < |groups| ==> groups[i].documentCount <= 1 {
      TotalFilesAtMost(groups, 1);
    }
  }
}
