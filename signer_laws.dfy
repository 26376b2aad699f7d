/** Properties of the signing pipeline: the sorted-join rule of
    CombineResults, that the order in which items arrive on a channel does not
    change what the next stage amounts to, the end-to-end result of the
    SingleHash -> MultiHash -> CombineResults pipeline, and what the
    never-fed first channel implies. */
module SignerLaws {
  import opened Strings
  import opened Signer

  // ---------------------------------------------------------------------------
  // CombineResults

  /** CombineResults' result is the received strings in ascending order,
      joined with "_", whatever sorted arrangement one picks; no strings give "". */
  lemma CombinedIsSortedJoin(strs: seq<string>, arranged: seq<string>)
    requires Sorted(arranged) && multiset(arranged) == multiset(strs)
    ensures Combined(strs) == Join(arranged, "_")
    ensures strs == [] ==> Combined(strs) == ""
  {
    SortProperties(strs);
    SortedUnique(Sort(strs), arranged);
  }

  /** CombineResults' result does not depend on the order the strings arrived in. */
  lemma CombinedPermutationInvariant(a: seq<string>, b: seq<string>)
    requires multiset(a) == multiset(b)
    ensures Combined(a) == Combined(b)
  {
    SortPermutationInvariant(a, b);
  }

  // ---------------------------------------------------------------------------
  // Arrival order

  /** Lists with the same elements have the same elements at some index. */
  lemma Occurs<A>(a: seq<A>, b: seq<A>, k: nat)
    requires multiset(a) == multiset(b) && k < |b|
    ensures exists i :: 0 <= i < |a| && a[i] == b[k]
  {
    assert b[k] in multiset(a);
  }

  /** Removing the element at `j` removes one occurrence of it. */
  lemma RemoveAt<A>(s: seq<A>, j: nat)
    requires j < |s|
    ensures multiset(s) == multiset(s[..j] + s[j + 1..]) + multiset{s[j]}
    ensures multiset(s[..j] + s[j + 1..]) == multiset(s) - multiset{s[j]}
  {
    assert s == s[..j] + [s[j]] + s[j + 1..];
    assert multiset(s) == multiset(s[..j]) + multiset{s[j]} + multiset(s[j + 1..]);
  }

  lemma RemoveAtIndex<A>(s: seq<A>, j: nat, k: nat)
    requires j < |s| && k < |s| - 1
    ensures (s[..j] + s[j + 1..])[k] == if k < j then s[k] else s[k + 1]
  {
  }

  /** `fs` holds the image under `f` of each element of `s`, at the same index. */
  ghost predicate Pointwise<A, B>(s: seq<A>, fs: seq<B>, f: A -> B)
  {
    |fs| == |s| && forall k :: 0 <= k < |s| ==> fs[k] == f(s[k])
  }

  /** Removing the same index from a list and from its images keeps them pointwise. */
  lemma PointwiseRemove<A, B>(s: seq<A>, fs: seq<B>, f: A -> B, j: nat)
    requires Pointwise(s, fs, f) && j < |s|
    ensures Pointwise(s[..j] + s[j + 1..], fs[..j] + fs[j + 1..], f)
  {
    var s', fs' := s[..j] + s[j + 1..], fs[..j] + fs[j + 1..];
    forall k | 0 <= k < |s'| ensures fs'[k] == f(s'[k]) {
      RemoveAtIndex(s, j, k);
      RemoveAtIndex(fs, j, k);
    }
  }

  /** Pointwise images of two lists with the same elements have the same elements. */
  lemma {:induction false} ImagesPermute<A, B>(a: seq<A>, b: seq<A>, fa: seq<B>, fb: seq<B>, f: A -> B)
    requires multiset(a) == multiset(b)
    requires Pointwise(a, fa, f) && Pointwise(b, fb, f)
    ensures multiset(fa) == multiset(fb)
  {
    if |a| == 0 {
      assert |b| == |multiset(b)| == 0;
    } else {
      assert a[0] in multiset(b);
      var j :| 0 <= j < |b| && b[j] == a[0];
      RemoveAt(a, 0);
      RemoveAt(b, j);
      RemoveAt(fa, 0);
      RemoveAt(fb, j);
      PointwiseRemove(a, fa, f, 0);
      PointwiseRemove(b, fb, f, j);
      ImagesPermute(a[..0] + a[1..], b[..j] + b[j + 1..], fa[..0] + fa[1..], fb[..j] + fb[j + 1..], f);
      assert fa[0] == fb[j];
    }
  }

  /** For SingleHash and MultiHash, a reordered input gives a reordered output:
      the same panic, or the same results with their counts, and the same closing. */
  lemma HashingOrderIrrelevant(a: Channel, b: Channel, h: Hasher, d: Digests)
    requires multiset(a.items) == multiset(b.items) && a.closed == b.closed
    ensures HashingSent(a, h, d).Panicked? <==> HashingSent(b, h, d).Panicked?
    ensures HashingSent(a, h, d).Done? ==>
      HashingSent(a, h, d).value.closed == HashingSent(b, h, d).value.closed
      && multiset(HashingSent(a, h, d).value.items) == multiset(HashingSent(b, h, d).value.items)
  {
    var ra, rb := PerItem(a.items, h, d), PerItem(b.items, h, d);
    if ra.Done? {
      forall k | 0 <= k < |b.items| ensures Normalize(b.items[k]).Some? {
        Occurs(a.items, b.items, k);
      }
    }
    if rb.Done? {
      forall k | 0 <= k < |a.items| ensures Normalize(a.items[k]).Some? {
        Occurs(b.items, a.items, k);
      }
    }
    if ra.Done? {
      var f := (i: Item) => match Normalize(i) case Some(v) => Str(Hashed(h, v, d)) case None => Other;
      ImagesPermute(a.items, b.items, ra.value, rb.value, f);
    }
  }

  /** CombineResults sends exactly the same thing however its input was ordered. */
  lemma CombiningOrderIrrelevant(a: Channel, b: Channel)
    requires multiset(a.items) == multiset(b.items) && a.closed == b.closed
    ensures CombiningSent(a) == CombiningSent(b)
  {
    var ra, rb := Collected(a.items), Collected(b.items);
    if ra.Done? {
      forall k | 0 <= k < |b.items| ensures b.items[k].Str? {
        Occurs(a.items, b.items, k);
      }
    }
    if rb.Done? {
      forall k | 0 <= k < |a.items| ensures a.items[k].Str? {
        Occurs(b.items, a.items, k);
      }
    }
    if ra.Done? {
      var f := (i: Item) => if i.Str? then i.text else "";
      ImagesPermute(a.items, b.items, ra.value, rb.value, f);
      CombinedPermutationInvariant(ra.value, rb.value);
    }
  }

  // ---------------------------------------------------------------------------
  // Whole runs

  /** One step of the wiring: job k runs on the channel the earlier jobs left. */
  lemma WiredStep(jobs: seq<Job>, k: nat, d: Digests, w: Wiring, c: Channel)
    requires k < |jobs| && Wired(jobs, k, d) == Done(w) && Sent(jobs[k], w.feed, d) == Done(c)
    ensures Wired(jobs, k + 1, d)
         == Done(Wiring(Buffered(c, NextDrains(jobs, k)), w.allReturned && Buffered(c, NextDrains(jobs, k)).closed))
  {
  }

  /** MultiHash applied to SingleHash's results gives the signature of each item. */
  lemma HashedTwice(items: seq<Item>, d: Digests, signatures: seq<string>)
    requires PerItem(items, SingleHasher, d).Done?
    requires |signatures| == |items|
    requires forall k :: 0 <= k < |items| ==> signatures[k] == Fanout(Composite(Normalize(items[k]).value, d), d)
    ensures PerItem(PerItem(items, SingleHasher, d).value, MultiHasher, d).Done?
    ensures Collected(PerItem(PerItem(items, SingleHasher, d).value, MultiHasher, d).value) == Done(signatures)
  {
    var s1 := PerItem(items, SingleHasher, d).value;
    assert forall k :: 0 <= k < |s1| ==> Normalize(s1[k]) == Some(Composite(Normalize(items[k]).value, d));
    var s2 := PerItem(s1, MultiHasher, d).value;
    assert Collected(s2).value == signatures;
  }

  /** The wiring of Emit -> SingleHash -> MultiHash -> CombineResults, given what each stage sends. */
  lemma SignerWiring(items: seq<Item>, completion: int -> seq<int>, d: Digests, s1: seq<Item>, s2: seq<Item>, result: string)
    requires HashingSent(Channel(items, true), SingleHasher, d) == Done(Channel(s1, true))
    requires HashingSent(Channel(s1, true), MultiHasher, d) == Done(Channel(s2, true))
    requires CombiningSent(Channel(s2, true)) == Done(Channel([Str(result)], true))
    ensures PipelineRun([Emit(items), SingleHashJob, MultiHashJob(completion), CombineResultsJob], d) == Returned([Str(result)])
  {
    var jobs := [Emit(items), SingleHashJob, MultiHashJob(completion), CombineResultsJob];
    var c0, c1, c2 := Channel(items, true), Channel(s1, true), Channel(s2, true);
    var c3 := Channel([Str(result)], true);
    assert Wired(jobs, 1, d) == Done(Wiring(c0, true)) by {
      assert Sent(jobs[0], Channel([], false), d) == Done(c0);
      assert NextDrains(jobs, 0);
      WiredStep(jobs, 0, d, Wiring(Channel([], false), true), c0);
    }
    assert Wired(jobs, 2, d) == Done(Wiring(c1, true)) by {
      assert Sent(jobs[1], c0, d) == Done(c1);
      assert NextDrains(jobs, 1);
      WiredStep(jobs, 1, d, Wiring(c0, true), c1);
    }
    assert Wired(jobs, 3, d) == Done(Wiring(c2, true)) by {
      assert Sent(jobs[2], c1, d) == Done(c2);
      assert NextDrains(jobs, 2);
      WiredStep(jobs, 2, d, Wiring(c1, true), c2);
    }
    assert Wired(jobs, 4, d) == Done(Wiring(c3, true)) by {
      assert Sent(jobs[3], c2, d) == Done(c3);
      assert Buffered(c3, NextDrains(jobs, 3)) == c3;
      WiredStep(jobs, 3, d, Wiring(c2, true), c3);
    }
  }

  /** The signing pipeline fed with `items`: the last channel holds one string,
      the signatures crc32-fanout(crc32(v) ~ crc32(md5(v))) of the items, sorted
      and joined with "_". The MultiHash completion orders do not matter. */
  lemma SignerPipeline(items: seq<Item>, completion: int -> seq<int>, d: Digests, signatures: seq<string>)
    requires forall k :: 0 <= k < |items| ==> Normalize(items[k]).Some?
    requires |signatures| == |items|
    requires forall k :: 0 <= k < |items| ==> signatures[k] == Fanout(Composite(Normalize(items[k]).value, d), d)
    ensures PipelineRun([Emit(items), SingleHashJob, MultiHashJob(completion), CombineResultsJob], d)
            == Returned([Str(Combined(signatures))])
  {
    var s1 := PerItem(items, SingleHasher, d).value;
    HashedTwice(items, d, signatures);
    var s2 := PerItem(s1, MultiHasher, d).value;
    SignerWiring(items, completion, d, s1, s2, Combined(signatures));
  }

  /** Feeding the signing pipeline the same items in another order gives the same result. */
  lemma SignerPipelineDeterministic(a: seq<Item>, b: seq<Item>, ca: int -> seq<int>, cb: int -> seq<int>, d: Digests)
    requires multiset(a) == multiset(b)
    requires forall k :: 0 <= k < |a| ==> Normalize(a[k]).Some?
    ensures PipelineRun([Emit(a), SingleHashJob, MultiHashJob(ca), CombineResultsJob], d)
         == PipelineRun([Emit(b), SingleHashJob, MultiHashJob(cb), CombineResultsJob], d)
  {
    forall k | 0 <= k < |b| ensures Normalize(b[k]).Some? {
      Occurs(a, b, k);
    }
    var sa := seq(|a|, k requires 0 <= k < |a| => Fanout(Composite(Normalize(a[k]).value, d), d));
    var sb := seq(|b|, k requires 0 <= k < |b| => Fanout(Composite(Normalize(b[k]).value, d), d));
    SignerPipeline(a, ca, d, sa);
    SignerPipeline(b, cb, d, sb);
    var f := (i: Item) => if Normalize(i).Some? then Fanout(Composite(Normalize(i).value, d), d) else "";
    ImagesPermute(a, b, sa, sb, f);
    CombinedPermutationInvariant(sa, sb);
  }

  /** The channels between the stages may deliver in any order: whatever order
      SingleHash's results reach MultiHash in, and whatever order MultiHash's
      results reach CombineResults in, CombineResults sends the same string. */
  lemma ChannelOrderIrrelevant(items: seq<Item>, s1: seq<Item>, s2: seq<Item>, d: Digests)
    requires PerItem(items, SingleHasher, d).Done?
    requires multiset(s1) == multiset(PerItem(items, SingleHasher, d).value)
    requires PerItem(s1, MultiHasher, d).Done?
    requires multiset(s2) == multiset(PerItem(s1, MultiHasher, d).value)
    ensures PerItem(PerItem(items, SingleHasher, d).value, MultiHasher, d).Done?
    ensures CombiningSent(Channel(s2, true))
         == CombiningSent(Channel(PerItem(PerItem(items, SingleHasher, d).value, MultiHasher, d).value, true))
  {
    var inOrder := PerItem(items, SingleHasher, d).value;
    HashingOrderIrrelevant(Channel(s1, true), Channel(inOrder, true), MultiHasher, d);
    var out := PerItem(inOrder, MultiHasher, d).value;
    CombiningOrderIrrelevant(Channel(s2, true), Channel(out, true));
  }

  /** With a job that reads its input first, some job never returns: the
      first channel is never closed. */
  lemma {:induction false} StillWaiting(jobs: seq<Job>, k: nat, d: Digests)
    requires 1 <= k <= |jobs| && Drains(jobs[0]) && Wired(jobs, k, d).Done?
    ensures !Wired(jobs, k, d).value.allReturned
  {
    if k > 1 {
      StillWaiting(jobs, k - 1, d);
    }
  }

  /** A pipeline whose first job reads its input never returns normally. */
  lemma DrainingFirstJobNeverReturns(jobs: seq<Job>, d: Digests)
    requires |jobs| > 0 && Drains(jobs[0])
    ensures !PipelineRun(jobs, d).Returned?
  {
    if Wired(jobs, |jobs|, d).Done? {
      StillWaiting(jobs, |jobs|, d);
    }
  }

  /** Once some job has not returned, the run never returns normally. */
  lemma {:induction false} StaysWaiting(jobs: seq<Job>, m: nat, n: nat, d: Digests)
    requires m <= n <= |jobs| && Wired(jobs, m, d).Done? && !Wired(jobs, m, d).value.allReturned
    requires Wired(jobs, n, d).Done?
    ensures !Wired(jobs, n, d).value.allReturned
    decreases n - m
  {
    if n > m {
      StaysWaiting(jobs, m, n - 1, d);
    }
  }

  /** A channel followed by a job that ignores its input (an `Emit`) is read by
      nobody either: a job that sends more than `Capacity` items on it never
      returns, and neither does the run. */
  lemma UnreadInnerChannel(jobs: seq<Job>, k: nat, d: Digests, w: Wiring, c: Channel)
    requires k + 1 < |jobs| && jobs[k + 1].Emit?
    requires Wired(jobs, k, d) == Done(w) && Sent(jobs[k], w.feed, d) == Done(c)
    requires |c.items| > Capacity
    ensures !PipelineRun(jobs, d).Returned?
  {
    assert !NextDrains(jobs, k);
    assert Wired(jobs, k + 1, d) == Done(Wiring(Buffered(c, false), w.allReturned && Buffered(c, false).closed));
    if Wired(jobs, |jobs|, d).Done? {
      StaysWaiting(jobs, k + 1, |jobs|, d);
    }
  }

  /** Nobody reads the last channel: once every earlier job has returned, a
      last job that returns with at most `Capacity` items sent lets the run
      return with them, and one that sends more blocks on its next send and
      never returns. */
  lemma UnreadLastChannel(jobs: seq<Job>, d: Digests, w: Wiring, c: Channel)
    requires |jobs| > 0 && Wired(jobs, |jobs| - 1, d) == Done(w) && w.allReturned
    requires Sent(jobs[|jobs| - 1], w.feed, d) == Done(c) && c.closed
    ensures PipelineRun(jobs, d) == if |c.items| <= Capacity then Returned(c.items) else Blocked
  {
    assert !NextDrains(jobs, |jobs| - 1);
    WiredStep(jobs, |jobs| - 1, d, w, c);
  }
}
