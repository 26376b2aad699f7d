/** The hash-signing pipeline of hw2_signer/signer.go: the stages SingleHash,
    MultiHash and CombineResults, and ExecutePipeline, which wires jobs
    together through channels.

    Goroutines are not modelled. Each stage runs its loop once over the items
    that arrived on its input channel; the order in which concurrent work
    finishes is either a parameter (the six MultiHash slots) or shown not to
    matter (SignerLaws.HashingOrderIrrelevant). */
module Signer {
  import opened Strings

  /** A value sent on a job channel (`interface{}` in Go): a string, an int,
      or a value of any other dynamic type. */
  datatype Item = Str(text: string) | Int(number: int) | Other

  /** The two digest services, `DataSignerMd5` and `DataSignerCrc32`. Their
      code is not part of this model, so they are passed in as functions. */
  datatype Digests = Digests(md5: string -> string, crc32: string -> string)

  /** A stage either runs to the end or panics; a panic ends the whole process. */
  datatype Outcome<T> = Done(value: T) | Panicked

  /** How SingleHash and MultiHash read an item: a string as it is, an int
      through `strconv.Itoa`; for anything else the assertion `i.(int)` fails. */
  function Normalize(i: Item): Option<string>
  {
    match i
    case Str(s) => Some(s)
    case Int(n) => Some(Itoa(n))
    case Other => None
  }

  // ---------------------------------------------------------------------------
  // What one stage sends for one value

  /** SingleHash's result for `v`: the crc32 of `v`, a '~', then the crc32 of the md5 of `v`. */
  function Composite(v: string, d: Digests): string
  {
    d.crc32(v) + "~" + d.crc32(d.md5(v))
  }

  /** Number of crc32 slots MultiHash fills per value. */
  const Width: nat := 6

  /** MultiHash's result for `v`: the six crc32 digests of "0"+v, ..., "5"+v, in that order. */
  function Fanout(v: string, d: Digests): string
  {
    d.crc32("0" + v) + d.crc32("1" + v) + d.crc32("2" + v)
      + d.crc32("3" + v) + d.crc32("4" + v) + d.crc32("5" + v)
  }

  /** The two stages that send one string per value they receive. */
  datatype Hasher = SingleHasher | MultiHasher

  function Hashed(h: Hasher, v: string, d: Digests): string
  {
    match h
    case SingleHasher => Composite(v, d)
    case MultiHasher => Fanout(v, d)
  }

  /** What a per-value stage sends for `items`, in the order they arrived, or a
      panic when one of them is neither a string nor an int. */
  function PerItem(items: seq<Item>, h: Hasher, d: Digests): (r: Outcome<seq<Item>>)
    ensures r.Done? <==> forall k :: 0 <= k < |items| ==> Normalize(items[k]).Some?
    ensures r.Done? ==> |r.value| == |items|
    ensures r.Done? ==> forall k :: 0 <= k < |items| ==> r.value[k] == Str(Hashed(h, Normalize(items[k]).value, d))
  {
    if |items| == 0 then Done([])
    else
      var last := items[|items| - 1];
      match PerItem(items[..|items| - 1], h, d)
      case Panicked => Panicked
      case Done(sent) =>
        match Normalize(last)
        case None => Panicked
        case Some(v) => Done(sent + [Str(Hashed(h, v, d))])
  }

  /** The strings CombineResults collects, or a panic when an item is not a
      string (the assertion `i.(string)` fails, for ints too). */
  function Collected(items: seq<Item>): (r: Outcome<seq<string>>)
    ensures r.Done? <==> forall k :: 0 <= k < |items| ==> items[k].Str?
    ensures r.Done? ==> |r.value| == |items|
    ensures r.Done? ==> forall k :: 0 <= k < |items| ==> r.value[k] == items[k].text
  {
    if |items| == 0 then Done([])
    else
      match Collected(items[..|items| - 1])
      case Panicked => Panicked
      case Done(strs) =>
        match items[|items| - 1]
        case Str(s) => Done(strs + [s])
        case _ => Panicked
  }

  /** CombineResults' single result: the strings sorted ascending, joined with "_". */
  function Combined(strs: seq<string>): string
  {
    Join(Sort(strs), "_")
  }

  // ---------------------------------------------------------------------------
  // Channels and jobs

  /** A channel as the next job sees it: everything ever sent on it, and
      whether it was closed (the sending job returned). */
  datatype Channel = Channel(items: seq<Item>, closed: bool)

  /** A job of the pipeline. `Emit` is a job that ignores its input and sends
      fixed items (callers feed the pipeline this way, as its first channel is
      never fed). `MultiHashJob` carries the order in which the six slot
      goroutines of the value with index k finish, `completion(k)`. */
  datatype Job =
    | Emit(items: seq<Item>)
    | SingleHashJob
    | MultiHashJob(completion: int -> seq<int>)
    | CombineResultsJob

  /** A scheduling of the six MultiHash slot goroutines: every slot index occurs. */
  predicate IsCompletionOrder(order: seq<int>)
  {
    |order| == Width
    && (forall j :: 0 <= j < |order| ==> 0 <= order[j] < Width)
    && (forall t :: 0 <= t < Width ==> t in order)
  }

  ghost predicate ValidJob(j: Job)
  {
    j.MultiHashJob? ==> forall k :: IsCompletionOrder(j.completion(k))
  }

  /** Whether a job reads its input channel (`for i := range in`). */
  predicate Drains(j: Job)
  {
    !j.Emit?
  }

  /** What SingleHash or MultiHash sends: one result per value received. It
      returns, closing its output, only once its input is closed. */
  function HashingSent(input: Channel, h: Hasher, d: Digests): Outcome<Channel>
  {
    match PerItem(input.items, h, d)
    case Panicked => Panicked
    case Done(out) => Done(Channel(out, input.closed))
  }

  /** What CombineResults sends: nothing until its input is closed, then the
      single combined string. */
  function CombiningSent(input: Channel): Outcome<Channel>
  {
    match Collected(input.items)
    case Panicked => Panicked
    case Done(strs) =>
      if input.closed then Done(Channel([Str(Combined(strs))], true))
      else Done(Channel([], false))
  }

  /** What a job sends on its output channel, given its input channel. */
  function Sent(j: Job, input: Channel, d: Digests): Outcome<Channel>
  {
    match j
    case Emit(items) => Done(Channel(items, true))
    case SingleHashJob => HashingSent(input, SingleHasher, d)
    case MultiHashJob(_) => HashingSent(input, MultiHasher, d)
    case CombineResultsJob => CombiningSent(input)
  }

  /** Buffer size of every channel ExecutePipeline makes. */
  const Capacity: nat := 100

  /** A job's output channel once buffering is taken into account: when no job
      reads that channel, a job that sends more than `Capacity` items blocks on
      the next send and never returns. */
  function Buffered(c: Channel, drainedByNext: bool): Channel
  {
    if !drainedByNext && |c.items| > Capacity then Channel(c.items[..Capacity], false) else c
  }

  /** Whether the job after job k reads job k's output. */
  predicate NextDrains(jobs: seq<Job>, k: nat)
  {
    k + 1 < |jobs| && Drains(jobs[k + 1])
  }

  /** The state of the wiring after the first k jobs: the channel job k reads,
      and whether every one of those jobs returned. The first channel is made
      but never written to or closed. */
  datatype Wiring = Wiring(feed: Channel, allReturned: bool)

  function Wired(jobs: seq<Job>, k: nat, d: Digests): Outcome<Wiring>
    requires k <= |jobs|
  {
    if k == 0 then Done(Wiring(Channel([], false), true))
    else
      match Wired(jobs, k - 1, d)
      case Panicked => Panicked
      case Done(w) =>
        match Sent(jobs[k - 1], w.feed, d)
        case Panicked => Panicked
        case Done(c) =>
          var out := Buffered(c, NextDrains(jobs, k - 1));
          Done(Wiring(out, w.allReturned && out.closed))
  }

  /** How a run of ExecutePipeline ends: it returns (with what the last job sent
      on the channel nobody reads), the process panics, or it never returns
      (some job is blocked for good). */
  datatype Run = Returned(last: seq<Item>) | Crashed | Blocked

  function PipelineRun(jobs: seq<Job>, d: Digests): Run
  {
    match Wired(jobs, |jobs|, d)
    case Panicked => Crashed
    case Done(w) => if w.allReturned then Returned(w.feed.items) else Blocked
  }

  // ---------------------------------------------------------------------------
  // The stages

  /** SingleHash: for each value v received, sends crc32(v) + "~" + crc32(md5(v)). */
  method SingleHash(input: Channel, d: Digests) returns (out: Outcome<Channel>)
    ensures out == HashingSent(input, SingleHasher, d)
  {
    var sent: seq<Item> := [];
    for k := 0 to |input.items|
      invariant PerItem(input.items[..k], SingleHasher, d) == Done(sent)
    {
      assert input.items[..k + 1][..k] == input.items[..k];
      var value: string;
      match input.items[k] {
        case Str(s) => value := s;
        case Int(n) => value := Itoa(n);
        case Other => return Panicked;
      }
      var md5Hash := d.md5(value);
      var md5Crc32Hash := d.crc32(md5Hash);
      var crc32Hash := d.crc32(value);
      sent := sent + [Str(crc32Hash + "~" + md5Crc32Hash)];
    }
    assert input.items[..|input.items|] == input.items;
    out := Done(Channel(sent, input.closed));
  }

  /** Join of a six-element list with no separator. */
  lemma JoinSix(s: seq<string>)
    requires |s| == 6
    ensures Join(s, "") == s[0] + s[1] + s[2] + s[3] + s[4] + s[5]
  {
    assert s[1..][1..] == s[2..] && s[2..][1..] == s[3..];
    assert s[3..][1..] == s[4..] && s[4..][1..] == s[5..];
    assert Join(s[5..], "") == s[5];
    assert Join(s[4..], "") == s[4] + s[5];
    assert Join(s[3..], "") == s[3] + (s[4] + s[5]);
    assert Join(s[2..], "") == s[2] + (s[3] + (s[4] + s[5]));
    assert Join(s[1..], "") == s[1] + (s[2] + (s[3] + (s[4] + s[5])));
  }

  /** MultiHash for one value: six goroutines, finishing in the given order,
      each write the crc32 of Itoa(th) + v into slot th; the slots are then
      joined in index order, so the order of completion does not matter. */
  method MultiHashValue(v: string, d: Digests, order: seq<int>) returns (res: string)
    requires IsCompletionOrder(order)
    ensures res == Fanout(v, d)
  {
    var hashSlice := new string[Width];
    for j := 0 to |order|
      invariant forall t :: 0 <= t < Width && t in order[..j] ==> hashSlice[t] == d.crc32(Itoa(t) + v)
    {
      var th := order[j];
      assert order[..j + 1] == order[..j] + [th];
      hashSlice[th] := d.crc32(Itoa(th) + v);
    }
    assert order[..|order|] == order;
    assert Itoa(0) == "0" && Itoa(1) == "1" && Itoa(2) == "2";
    assert Itoa(3) == "3" && Itoa(4) == "4" && Itoa(5) == "5";
    JoinSix(hashSlice[..]);
    res := Join(hashSlice[..], "");
  }

  /** MultiHash: for each value received, sends its six index-ordered crc32 digests. */
  method MultiHash(input: Channel, d: Digests, completion: int -> seq<int>) returns (out: Outcome<Channel>)
    requires forall k :: IsCompletionOrder(completion(k))
    ensures out == HashingSent(input, MultiHasher, d)
  {
    var sent: seq<Item> := [];
    for k := 0 to |input.items|
      invariant PerItem(input.items[..k], MultiHasher, d) == Done(sent)
    {
      assert input.items[..k + 1][..k] == input.items[..k];
      var value: string;
      match input.items[k] {
        case Str(s) => value := s;
        case Int(n) => value := Itoa(n);
        case Other => return Panicked;
      }
      var res := MultiHashValue(value, d, completion(k));
      sent := sent + [Str(res)];
    }
    assert input.items[..|input.items|] == input.items;
    out := Done(Channel(sent, input.closed));
  }

  /** CombineResults: collects every string received and, once its input is
      closed, sends them sorted and joined with "_". */
  method CombineResults(input: Channel) returns (out: Outcome<Channel>)
    ensures out == CombiningSent(input)
  {
    var hashSlice: seq<string> := [];
    for k := 0 to |input.items|
      invariant Collected(input.items[..k]) == Done(hashSlice)
    {
      assert input.items[..k + 1][..k] == input.items[..k];
      match input.items[k] {
        case Str(s) => hashSlice := hashSlice + [s];
        case _ => return Panicked;
      }
    }
    assert input.items[..|input.items|] == input.items;
    if !input.closed {
      // `range in` never ends: nothing is sent and the job never returns
      return Done(Channel([], false));
    }
    var sorted := Sort(hashSlice);
    var res := Join(sorted, "_");
    out := Done(Channel([Str(res)], true));
  }

  /** Once a job panics the process is gone: no later job changes that. */
  lemma PanicIsFinal(jobs: seq<Job>, k: nat, d: Digests)
    requires k <= |jobs| && Wired(jobs, k, d).Panicked?
    ensures Wired(jobs, |jobs|, d).Panicked?
    decreases |jobs| - k
  {
    if k < |jobs| {
      PanicIsFinal(jobs, k + 1, d);
    }
  }

  /** Runs one job on its input channel: `j(in, out)`. */
  method RunJob(j: Job, input: Channel, d: Digests) returns (sent: Outcome<Channel>)
    requires ValidJob(j)
    ensures sent == Sent(j, input, d)
  {
    match j {
      case Emit(items) => sent := Done(Channel(items, true));
      case SingleHashJob => sent := SingleHash(input, d);
      case MultiHashJob(completion) => sent := MultiHash(input, d, completion);
      case CombineResultsJob => sent := CombineResults(input);
    }
  }

  /** ExecutePipeline: job k reads the channel job k-1 writes; the first
      channel is never fed or closed; each output channel is closed once its job
      returns; the call returns only when every job has returned. */
  method ExecutePipeline(jobs: seq<Job>, d: Digests) returns (r: Run)
    requires forall k :: 0 <= k < |jobs| ==> ValidJob(jobs[k])
    ensures r == PipelineRun(jobs, d)
  {
    var input := Channel([], false);
    var returned := true;
    for k := 0 to |jobs|
      invariant Wired(jobs, k, d) == Done(Wiring(input, returned))
    {
      var sent := RunJob(jobs[k], input, d);
      if sent.Panicked? {
        PanicIsFinal(jobs, k + 1, d);
        return Crashed;
      }
      var out := sent.value;
      if !NextDrains(jobs, k) && |out.items| > Capacity {
        out := Channel(out.items[..Capacity], false);
      }
      returned := returned && out.closed;
      input := out;
    }
    r := if returned then Returned(input.items) else Blocked;
  }
}
