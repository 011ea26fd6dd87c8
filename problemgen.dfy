/** evoselfcode/datagen/preprocess/problemgen.py, `ProblemGenerator.generate`:
    sample problem descriptions until `num_samples` have been requested,
    in batches of at most `max_concurrent` prompts, deduplicating by content
    hash and flushing the buffer every `batch_write_size` records. The
    base prompt is built once, before any request; its text goes only to
    the service, whose replies are given. */
module ProblemGen {
  import opened Text
  import opened Json
  import opened Sequences
  import opened Engine
  import PromptBuilding

  /** A record as problemgen builds it from a response: the stripped,
      non-empty text under both `problem_description` and `raw_text`, its
      hash as uid, and the mode as source. */
  predicate WellFormed(r: Record, mode: string, h: string -> Uid) {
    r.Problem? && r.rawText != [] && Strip(r.rawText) == r.rawText &&
    r.problemDescription == r.rawText && r.uid == h(r.rawText) && r.source == Str(mode)
  }

  /** The offer one response text makes: none when it is blank. */
  function TextOffers(text: string, mode: string, h: string -> Uid): (os: seq<Offer>)
    ensures |os| <= 1
  {
    var t := Strip(text);
    if t == [] then [] else [Offer(Problem(h(t), t, Str(mode), t), true)]
  }

  /** A blank text makes no offer; any other makes one admissible,
      well-formed offer of its stripped text. */
  lemma TextOffersShape(text: string, mode: string, h: string -> Uid)
    ensures TextOffers(text, mode, h) == [] <==> IsBlank(text)
    ensures forall o :: o in TextOffers(text, mode, h) ==>
      o.admissible && WellFormed(o.rec, mode, h) && o.rec.rawText == Strip(text)
  {
    StripEmptyIffBlank(text);
    StripProperties(text);
  }

  /** What each text of a reply offers; the list a text is in does not matter. */
  function Texts(mode: string, h: string -> Uid): (nat, string) -> seq<Offer> {
    (i: nat, text: string) => TextOffers(text, mode, h)
  }

  /** `min(max_concurrent, num_samples - total_generated)` */
  function BatchSize(n: int, k: nat, total: int): (size: int)
    ensures size <= k && size <= n - total
    ensures size == k || size == n - total
  {
    if k <= n - total then k else n - total
  }

  /** The batch sizes requested from batch `b` of `nb` on, `total` having
      been generated: a batch whose reply fails does not count as generated. */
  function Requested(n: int, k: nat, replies: seq<Reply>, nb: nat, b: nat, total: int): seq<int>
    decreases nb - b
  {
    var size := BatchSize(n, k, total);
    if b >= nb || size <= 0 then []
    else [size] + Requested(n, k, replies, nb, b + 1, if ReplyAt(replies, b).Replied? then total + size else total)
  }

  /** `total_generated` at the end of the loop. */
  function Generated(n: int, k: nat, replies: seq<Reply>, nb: nat, b: nat, total: int): int
    decreases nb - b
  {
    var size := BatchSize(n, k, total);
    if b >= nb || size <= 0 then total
    else Generated(n, k, replies, nb, b + 1, if ReplyAt(replies, b).Replied? then total + size else total)
  }

  /** All offers the loop makes from batch `b` on, in order, `f` giving
      what each text offers. */
  function Offers(n: int, k: nat, replies: seq<Reply>, nb: nat, b: nat, total: int,
                  f: (nat, string) -> seq<Offer>): seq<Offer>
    decreases nb - b
  {
    var size := BatchSize(n, k, total);
    if b >= nb || size <= 0 then []
    else
      var reply := ReplyAt(replies, b);
      (if reply.Replied? then ReplyOffers(f, reply.lists, |reply.lists|) else [])
      + Offers(n, k, replies, nb, b + 1, if reply.Replied? then total + size else total, f)
  }

  /** The offers of one run of `generate`. */
  function RunOffers(n: int, k: nat, replies: seq<Reply>, mode: string, h: string -> Uid): seq<Offer>
    requires k > 0
  {
    Offers(n, k, replies, CeilDiv(n, k), 0, 0, Texts(mode, h))
  }

  /** Every batch asks for between 1 and `k` prompts, and the batches that
      were answered never add up to more than `num_samples`. */
  lemma {:induction false} RequestedBounds(n: int, k: nat, replies: seq<Reply>, nb: nat, b: nat, total: int)
    requires 0 <= total
    ensures forall i :: 0 <= i < |Requested(n, k, replies, nb, b, total)| ==>
      1 <= Requested(n, k, replies, nb, b, total)[i] <= k
    ensures total <= Generated(n, k, replies, nb, b, total) <= if n > total then n else total
    decreases nb - b
  {
    var size := BatchSize(n, k, total);
    if b < nb && size > 0 {
      RequestedBounds(n, k, replies, nb, b + 1, if ReplyAt(replies, b).Replied? then total + size else total);
    }
  }

  /** With every reply answered, the batches are the planned ones (all full
      but the last), `total_generated` reaches `num_samples`, and so the
      sizes add up to it over `ceil(num_samples / k)` batches. */
  lemma {:induction false} NoFailuresFollowsPlan(n: int, k: nat, replies: seq<Reply>, nb: nat, b: nat, total: int)
    requires k > 0 && total <= n
    requires CeilDiv(n - total, k) <= nb - b
    requires forall i :: b <= i < nb ==> ReplyAt(replies, i).Replied?
    ensures Requested(n, k, replies, nb, b, total) == Planned(n - total, k)
    ensures Generated(n, k, replies, nb, b, total) == n
    decreases nb - b
  {
    var size := BatchSize(n, k, total);
    if b < nb && size > 0 {
      NoFailuresFollowsPlan(n, k, replies, nb, b + 1, total + size);
    }
  }

  /** The schedule of a whole run with every reply answered. */
  lemma RunWithoutFailures(n: int, k: nat, replies: seq<Reply>)
    requires k > 0 && n >= 0
    requires forall i :: 0 <= i < CeilDiv(n, k) ==> ReplyAt(replies, i).Replied?
    ensures Requested(n, k, replies, CeilDiv(n, k), 0, 0) == Planned(n, k)
    ensures Sum(Requested(n, k, replies, CeilDiv(n, k), 0, 0)) == n
    ensures |Requested(n, k, replies, CeilDiv(n, k), 0, 0)| == CeilDiv(n, k)
    ensures Generated(n, k, replies, CeilDiv(n, k), 0, 0) == n
  {
    NoFailuresFollowsPlan(n, k, replies, CeilDiv(n, k), 0, 0);
    PlannedShape(n, k);
  }

  /** A property of every offer any text makes holds of every offer of the run. */
  lemma {:induction false} OffersAll(n: int, k: nat, replies: seq<Reply>, nb: nat, b: nat, total: int,
                                     f: (nat, string) -> seq<Offer>, ok: Offer -> bool)
    requires forall i: nat, text: string, o :: o in f(i, text) ==> ok(o)
    ensures forall o :: o in Offers(n, k, replies, nb, b, total, f) ==> ok(o)
    decreases nb - b
  {
    var size := BatchSize(n, k, total);
    if b < nb && size > 0 {
      var reply := ReplyAt(replies, b);
      if reply.Replied? {
        ReplyOffersAll(f, reply.lists, |reply.lists|, ok);
      }
      OffersAll(n, k, replies, nb, b + 1, if reply.Replied? then total + size else total, f, ok);
    }
  }

  /** Every offer of a run is an admissible, well-formed problem record. */
  lemma RunOffersWellFormed(n: int, k: nat, replies: seq<Reply>, mode: string, h: string -> Uid)
    requires k > 0
    ensures forall o :: o in RunOffers(n, k, replies, mode, h) ==> o.admissible && WellFormed(o.rec, mode, h)
  {
    var ok := (o: Offer) => o.admissible && WellFormed(o.rec, mode, h);
    forall i: nat, text: string | true
      ensures forall o :: o in Texts(mode, h)(i, text) ==> ok(o)
    {
      TextOffersShape(text, mode, h);
    }
    OffersAll(n, k, replies, CeilDiv(n, k), 0, 0, Texts(mode, h), ok);
  }

  /** The tally at the end of the batch loop, from batch `b` and tally `t` on. */
  function RunFold(seen: set<string>, t: Tally, n: int, k: nat, replies: seq<Reply>, nb: nat, b: nat, total: int,
                   f: (nat, string) -> seq<Offer>): Tally
    decreases nb - b
  {
    var size := BatchSize(n, k, total);
    if b >= nb || size <= 0 then t
    else
      var reply := ReplyAt(replies, b);
      RunFold(seen, if reply.Replied? then ReplyFold(seen, t, f, reply.lists, |reply.lists|) else t,
              n, k, replies, nb, b + 1, if reply.Replied? then total + size else total, f)
  }

  /** Going through the batches is stepping through the run's offers. */
  lemma {:induction false} RunFoldSteps(seen: set<string>, t: Tally, n: int, k: nat, replies: seq<Reply>,
                                        nb: nat, b: nat, total: int, f: (nat, string) -> seq<Offer>)
    ensures RunFold(seen, t, n, k, replies, nb, b, total, f) == StepAll(seen, t, Offers(n, k, replies, nb, b, total, f))
    decreases nb - b
  {
    var size := BatchSize(n, k, total);
    if b < nb && size > 0 {
      var reply := ReplyAt(replies, b);
      if reply.Replied? {
        var add := ReplyOffers(f, reply.lists, |reply.lists|);
        var rest := Offers(n, k, replies, nb, b + 1, total + size, f);
        var t' := ReplyFold(seen, t, f, reply.lists, |reply.lists|);
        assert Offers(n, k, replies, nb, b, total, f) == add + rest;
        assert RunFold(seen, t, n, k, replies, nb, b, total, f) == RunFold(seen, t', n, k, replies, nb, b + 1, total + size, f);
        ReplyFoldSteps(seen, t, f, reply.lists, |reply.lists|);
        RunFoldSteps(seen, t', n, k, replies, nb, b + 1, total + size, f);
        StepAllAppend(seen, t, add, rest);
      } else {
        var rest := Offers(n, k, replies, nb, b + 1, total, f);
        assert Offers(n, k, replies, nb, b, total, f) == rest;
        assert RunFold(seen, t, n, k, replies, nb, b, total, f) == RunFold(seen, t, n, k, replies, nb, b + 1, total, f);
        RunFoldSteps(seen, t, n, k, replies, nb, b + 1, total, f);
      }
    }
  }

  /** The loop over one list of completions: blank texts are skipped, the
      others go through the dedup step. */
  method ProcessTexts(store: Store, i: nat, texts: seq<string>, mode: string, h: string -> Uid,
                      ghost f: (nat, string) -> seq<Offer>, ghost t: Tally, dups: nat) returns (count: nat)
    requires forall text {:trigger f(i, text), TextOffers(text, mode, h)} :: f(i, text) == TextOffers(text, mode, h)
    requires store.Holds(t) && dups == t.duplicates
    modifies store
    ensures store.Holds(ListFold(store.loaded, t, f, i, texts, |texts|))
    ensures count == ListFold(store.loaded, t, f, i, texts, |texts|).duplicates
    ensures store.Flushed() == old(store.Flushed())
  {
    count := dups;
    ghost var cur := t;
    ghost var f0 := store.Flushed();
    for j := 0 to |texts|
      invariant store.Holds(cur) && count == cur.duplicates
      invariant cur == ListFold(store.loaded, t, f, i, texts, j)
      invariant store.Flushed() == f0
    {
      var rawText := Strip(texts[j]);
      if rawText != [] {
        var o := Offer(Problem(h(rawText), rawText, Str(mode), rawText), true);
        assert TextOffers(texts[j], mode, h) == [o];
        assert f(i, texts[j]) == [o];
        StepOne(store.loaded, cur, o);
        var dup := Admit(store, o, cur);
        if dup {
          count := count + 1;
        }
        cur := Step(store.loaded, cur, o);
      } else {
        assert TextOffers(texts[j], mode, h) == [];
        assert f(i, texts[j]) == [];
      }
    }
  }

  /** The loop over one reply's completion lists. */
  method ProcessReply(store: Store, lists: seq<seq<string>>, mode: string, h: string -> Uid,
                      ghost f: (nat, string) -> seq<Offer>, ghost t: Tally, dups: nat) returns (count: nat)
    requires forall i: nat, text {:trigger f(i, text), TextOffers(text, mode, h)} :: f(i, text) == TextOffers(text, mode, h)
    requires store.Holds(t) && dups == t.duplicates
    modifies store
    ensures store.Holds(ReplyFold(store.loaded, t, f, lists, |lists|))
    ensures count == ReplyFold(store.loaded, t, f, lists, |lists|).duplicates
    ensures store.Flushed() == old(store.Flushed())
  {
    count := dups;
    ghost var cur := t;
    ghost var f0 := store.Flushed();
    for i := 0 to |lists|
      invariant store.Holds(cur) && count == cur.duplicates
      invariant cur == ReplyFold(store.loaded, t, f, lists, i)
      invariant store.Flushed() == f0
    {
      count := ProcessTexts(store, i, lists[i], mode, h, f, cur, count);
      cur := ListFold(store.loaded, cur, f, i, lists[i], |lists[i]|);
    }
  }

  /** One answered batch: its reply through the dedup step, then the flush
      once the buffer holds `batch_write_size` records. */
  method HandleReply(store: Store, lists: seq<seq<string>>, mode: string, h: string -> Uid,
                     ghost f: (nat, string) -> seq<Offer>, ghost t: Tally, dups: nat,
                     batchWriteSize: int, fault: FlushFault) returns (count: nat)
    requires forall i: nat, text {:trigger f(i, text), TextOffers(text, mode, h)} :: f(i, text) == TextOffers(text, mode, h)
    requires store.Holds(t) && dups == t.duplicates
    modifies store
    ensures store.Holds(ReplyFold(store.loaded, t, f, lists, |lists|))
    ensures count == ReplyFold(store.loaded, t, f, lists, |lists|).duplicates
    ensures fault == NoFault && old(store.outputLog) == old(store.allResults) ==> store.outputLog == store.allResults
  {
    count := ProcessReply(store, lists, mode, h, f, t, dups);
    if |store.pendingWrite| >= batchWriteSize {
      store.Flush(fault);
    }
  }

  /** The sizes requested by the end of the loop when `acc` have been
      requested before batch `b`. */
  function RequestedAfter(acc: seq<int>, n: int, k: nat, replies: seq<Reply>, nb: nat, b: nat, total: int): seq<int>
    decreases nb - b
  {
    var size := BatchSize(n, k, total);
    if b >= nb || size <= 0 then acc
    else RequestedAfter(acc + [size], n, k, replies, nb, b + 1, if ReplyAt(replies, b).Replied? then total + size else total)
  }

  /** What the loop has requested before batch `b`, followed by the sizes
      still to come. */
  lemma {:induction false} RequestedAfterIsAppend(acc: seq<int>, n: int, k: nat, replies: seq<Reply>, nb: nat, b: nat, total: int)
    ensures RequestedAfter(acc, n, k, replies, nb, b, total) == acc + Requested(n, k, replies, nb, b, total)
    decreases nb - b
  {
    var size := BatchSize(n, k, total);
    if b >= nb || size <= 0 {
      assert acc + [] == acc;
    } else {
      var next := if ReplyAt(replies, b).Replied? then total + size else total;
      RequestedAfterIsAppend(acc + [size], n, k, replies, nb, b + 1, next);
      var later := Requested(n, k, replies, nb, b + 1, next);
      assert Requested(n, k, replies, nb, b, total) == [size] + later;
      assert (acc + [size]) + later == acc + ([size] + later);
    }
  }

  /** The batch loop of `generate`, on a store that has seen nothing yet. */
  method RunBatches(store: Store, mode: string, numSamples: int, maxConcurrent: nat, batchWriteSize: int,
                    h: string -> Uid, replies: seq<Reply>, faults: seq<FlushFault>,
                    ghost f: (nat, string) -> seq<Offer>)
    returns (totalGenerated: int, totalDuplicates: nat, requested: seq<int>)
    requires forall i: nat, text {:trigger f(i, text), TextOffers(text, mode, h)} :: f(i, text) == TextOffers(text, mode, h)
    requires maxConcurrent > 0 && store.Holds(Empty) && store.outputLog == []
    modifies store
    ensures store.Holds(RunFold(store.loaded, Empty, numSamples, maxConcurrent, replies,
                                CeilDiv(numSamples, maxConcurrent), 0, 0, f))
    ensures totalDuplicates == RunFold(store.loaded, Empty, numSamples, maxConcurrent, replies,
                                       CeilDiv(numSamples, maxConcurrent), 0, 0, f).duplicates
    ensures requested == Requested(numSamples, maxConcurrent, replies, CeilDiv(numSamples, maxConcurrent), 0, 0)
    ensures totalGenerated == Generated(numSamples, maxConcurrent, replies, CeilDiv(numSamples, maxConcurrent), 0, 0)
    ensures NoFaults(faults) ==> store.outputLog == store.allResults
  {
    var nb := CeilDiv(numSamples, maxConcurrent);
    RequestedAfterIsAppend([], numSamples, maxConcurrent, replies, nb, 0, 0);
    assert [] + Requested(numSamples, maxConcurrent, replies, nb, 0, 0) == Requested(numSamples, maxConcurrent, replies, nb, 0, 0);
    ghost var final := RunFold(store.loaded, Empty, numSamples, maxConcurrent, replies, nb, 0, 0, f);
    ghost var cur := Empty;
    totalGenerated := 0;
    totalDuplicates := 0;
    requested := [];
    var b := 0;
    while b < nb && BatchSize(numSamples, maxConcurrent, totalGenerated) > 0
      invariant 0 <= b <= nb
      invariant store.Holds(cur) && totalDuplicates == cur.duplicates
      invariant RunFold(store.loaded, cur, numSamples, maxConcurrent, replies, nb, b, totalGenerated, f) == final
      invariant RequestedAfter(requested, numSamples, maxConcurrent, replies, nb, b, totalGenerated) ==
        RequestedAfter([], numSamples, maxConcurrent, replies, nb, 0, 0)
      invariant Generated(numSamples, maxConcurrent, replies, nb, b, totalGenerated) ==
        Generated(numSamples, maxConcurrent, replies, nb, 0, 0)
      invariant NoFaults(faults) ==> store.outputLog == store.allResults
    {
      NoFaultsAt(faults, b);
      var batchSize := BatchSize(numSamples, maxConcurrent, totalGenerated);
      requested := requested + [batchSize];
      var reply := ReplyAt(replies, b);
      if reply.Replied? {
        totalDuplicates := HandleReply(store, reply.lists, mode, h, f, cur, totalDuplicates, batchWriteSize, FaultAt(faults, b));
        cur := ReplyFold(store.loaded, cur, f, reply.lists, |reply.lists|);
        totalGenerated := totalGenerated + batchSize;
      }
      b := b + 1;
    }
  }

  /** What the batch loop accepts is the dedup of the run's offers: no uid
      twice, none that was loaded, each a well-formed problem record. */
  lemma RunAccepted(loaded: set<string>, n: int, k: nat, replies: seq<Reply>, mode: string, h: string -> Uid)
    requires k > 0
    ensures RunFold(loaded, Empty, n, k, replies, CeilDiv(n, k), 0, 0, Texts(mode, h)) == Tallied(loaded, RunOffers(n, k, replies, mode, h))
    ensures var acc := Accepted(loaded, RunOffers(n, k, replies, mode, h));
      Distinct(Uids(acc)) && (forall i :: 0 <= i < |acc| ==> acc[i].uid !in loaded) &&
      forall r :: r in acc ==> WellFormed(r, mode, h)
  {
    var all := RunOffers(n, k, replies, mode, h);
    RunFoldSteps(loaded, Empty, n, k, replies, CeilDiv(n, k), 0, 0, Texts(mode, h));
    TalliedAppend(loaded, [], all);
    assert [] + all == all;
    AcceptedUnique(loaded, all);
    AcceptedInOrder(loaded, all);
    RunOffersWellFormed(n, k, replies, mode, h);
  }

  /** The base prompt `generate` builds: the FIM prompt string in `"FIM"`
      mode, the configured L2R prompt value otherwise; `None` where the
      builder raises `AttributeError` on a section that is not a dict. */
  function BasePrompt(pb: PromptBuilding.PromptBuilder, mode: string): Option<Value> {
    if mode == "FIM" then
      match pb.BuildFuncnameFim()
      case Some(s) => Some(Str(s))
      case None => None
    else pb.BuildFuncnameL2r()
  }

  /** `base_prompt[:100]` succeeds on a string or a list; `None`, a boolean,
      an integer or a dict raises. */
  predicate Sliceable(v: Value) {
    v.Str? || v.List?
  }

  /** The base prompt is built and its debug preview taken without raising. */
  predicate PromptReady(pb: PromptBuilding.PromptBuilder, mode: string) {
    BasePrompt(pb, mode).Some? && Sliceable(BasePrompt(pb, mode).value)
  }

  /** In FIM mode only the builder can fail: the prompt is always a string. */
  lemma FimPromptReady(pb: PromptBuilding.PromptBuilder)
    ensures PromptReady(pb, "FIM") <==> pb.BuildFuncnameFim().Some?
  {
  }

  /** In L2R mode, with the sections in place, the preview fails exactly when
      a `prompt` is configured that is neither a string nor a list; the
      default prompt always works. */
  lemma L2rPromptReady(pb: PromptBuilding.PromptBuilder, mode: string)
    requires mode != "FIM" && pb.BuildFuncnameL2r().Some?
    ensures var l2r := SubDict(SubDict(pb.promptsCfg.fields, "funcname").value, "l2r").value;
      PromptReady(pb, mode) <==> ("prompt" !in l2r || l2r["prompt"].Str? || l2r["prompt"].List?)
  {
  }

  /** `generate(mode, num_samples, ..., batch_write_size)`. `max_concurrent`
      is the client's concurrency limit; a limit of 0 makes the batch count
      raise `ZeroDivisionError`. Before that, building the base prompt with
      `pb` and previewing it may raise. `raised` says that `generate` raised,
      which happens otherwise only when the final flush fails. */
  method Generate(mode: string, pb: PromptBuilding.PromptBuilder,
                  numSamples: int, maxConcurrent: nat, batchWriteSize: int,
                  loaded: set<string>, h: string -> Uid,
                  replies: seq<Reply>, faults: seq<FlushFault>, finalFault: FlushFault)
    returns (raised: bool, results: seq<Record>, outputLog: seq<Record>, hashLog: seq<string>,
             totalGenerated: int, totalDuplicates: nat, requested: seq<int>)
    ensures !PromptReady(pb, mode) ==> raised && results == [] && outputLog == [] && hashLog == [] && requested == []
    ensures maxConcurrent == 0 ==> raised && outputLog == [] && hashLog == [] && requested == []
    ensures PromptReady(pb, mode) && maxConcurrent > 0 ==>
      requested == Requested(numSamples, maxConcurrent, replies, CeilDiv(numSamples, maxConcurrent), 0, 0) &&
      totalGenerated == Generated(numSamples, maxConcurrent, replies, CeilDiv(numSamples, maxConcurrent), 0, 0)
    ensures raised ==> !PromptReady(pb, mode) || maxConcurrent == 0 || finalFault != NoFault
    ensures !raised ==>
      results == Accepted(loaded, RunOffers(numSamples, maxConcurrent, replies, mode, h)) &&
      totalDuplicates == Duplicates(loaded, RunOffers(numSamples, maxConcurrent, replies, mode, h))
    ensures !raised ==> forall r :: r in results ==> WellFormed(r, mode, h)
    ensures !raised ==> hashLog == Uids(results) && IsSubseq(results, outputLog)
    ensures !raised && NoFaults(faults) ==> outputLog == results
    ensures Distinct(hashLog) && forall i :: 0 <= i < |hashLog| ==> hashLog[i] !in loaded
    ensures HashesRecorded(hashLog, outputLog)
  {
    if !PromptReady(pb, mode) || maxConcurrent == 0 {
      return true, [], [], [], 0, 0, [];
    }
    var store := new Store(loaded);
    totalGenerated, totalDuplicates, requested :=
      RunBatches(store, mode, numSamples, maxConcurrent, batchWriteSize, h, replies, faults, Texts(mode, h));
    RunAccepted(loaded, numSamples, maxConcurrent, replies, mode, h);
    var ok := store.FinalFlush(finalFault);
    if !ok {
      UniquePrefix(loaded, store.allResults, store.pendingWrite);
    }
    raised := !ok;
    results := store.allResults;
    outputLog := store.outputLog;
    hashLog := store.hashLog;
    HashesHaveRecords(results, outputLog, hashLog);
  }
}
