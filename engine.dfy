/** The batch generation engine shared by the four generators of
    evoselfcode/datagen/preprocess: the records they persist, the pending
    buffer with its hash list, the two append-only files, content-hash
    deduplication, and the way the work is cut into batches. */
module Engine {
  import opened Text
  import opened Json
  import opened Sequences

  /** What `_compute_hash` returns: the first 16 hex digits of a SHA-256
      digest. The digest itself is a parameter `h` of every generator. */
  type Uid = s: string | |s| == 16 witness "0000000000000000"

  /** What `complete_batch_async` does for one batch: raise, or return one
      list of completion texts per prompt (a missing `"text"` is `""`). */
  datatype Reply = Failed | Replied(lists: seq<seq<string>>)

  /** The reply to batch `b`; batches past the given list fail. */
  function ReplyAt(replies: seq<Reply>, b: nat): (r: Reply)
    ensures b >= |replies| ==> r == Failed
  {
    if b < |replies| then replies[b] else Failed
  }

  /** How a flush ends: both appends succeed, the JSONL append raises, or
      the JSONL append succeeds and the hash-file append raises. */
  datatype FlushFault = NoFault | RecordsWriteFails | HashesWriteFails

  /** The outcome of the flush attempted in batch `b`; unlisted flushes succeed. */
  function FaultAt(faults: seq<FlushFault>, b: nat): (f: FlushFault)
    ensures b >= |faults| ==> f == NoFault
  {
    if b < |faults| then faults[b] else NoFault
  }

  /** No flush of the run fails. */
  predicate NoFaults(faults: seq<FlushFault>) {
    faults == [] || (faults[0] == NoFault && NoFaults(faults[1..]))
  }

  /** In a run where no flush fails, the flush of every batch succeeds. */
  lemma {:induction false} NoFaultsAt(faults: seq<FlushFault>, b: nat)
    ensures NoFaults(faults) ==> FaultAt(faults, b) == NoFault
    decreases |faults|
  {
    if faults != [] && b > 0 {
      NoFaultsAt(faults[1..], b - 1);
      if b < |faults| {
        assert faults[1..][b - 1] == faults[b];
      }
    }
  }

  /** One JSONL line written by a generator. Fields Python copies through
      unchecked from its input keep the JSON value they had. */
  datatype Record =
    | Problem(uid: string, problemDescription: string, source: Value, rawText: string)
    | Skeleton(uid: string, source: Value, problemText: Value, skeletonCode: string,
               extractedName: Option<string>, valid: bool)
    | Implementation(uid: string, source: Value, problemText: Value, fullCode: string, functionName: Value)
    | Rating(uid: string, source: Value, problemText: Value, code: Value, functionName: Value,
             ratings: map<string, Value>, summary: Value, rawRatingText: string)

  /** The uids of a list of records, position by position. */
  function Uids(rs: seq<Record>): (us: seq<string>)
    ensures |us| == |rs| && forall i :: 0 <= i < |rs| ==> us[i] == rs[i].uid
  {
    seq(|rs|, i requires 0 <= i < |rs| => rs[i].uid)
  }

  lemma UidsAppend(a: seq<Record>, b: seq<Record>)
    ensures Uids(a + b) == Uids(a) + Uids(b)
  {
    assert forall i :: 0 <= i < |a + b| ==> Uids(a + b)[i] == (Uids(a) + Uids(b))[i];
  }

  /** The elements of a list. */
  function AsSet(s: seq<string>): (r: set<string>)
    ensures forall x :: x in r <==> x in s
  {
    set x | x in s
  }

  /** No value occurs twice. */
  predicate Distinct<T(==)>(s: seq<T>) {
    forall i, j :: 0 <= i < j < |s| ==> s[i] != s[j]
  }

  /** The pending buffer, `existing_hashes` and the two files of one
      `generate` run. The files hold the lines this run appended. */
  class Store {
    /** The hashes read from the hash file at start. */
    const loaded: set<string>
    var existing: set<string>
    var pendingWrite: seq<Record>
    var pendingHashes: seq<string>
    /** `all_results`: the records of every completed flush. */
    var allResults: seq<Record>
    /** Records appended to the JSONL file. */
    var outputLog: seq<Record>
    /** Hashes appended to the hash file. */
    var hashLog: seq<string>

    /** The hash list mirrors the buffer, the hash file holds exactly the
        uids of the completed flushes, and those records are in the JSONL
        file in the same order. */
    ghost predicate Valid()
      reads this
    {
      pendingHashes == Uids(pendingWrite) &&
      hashLog == Uids(allResults) &&
      IsSubseq(allResults, outputLog)
    }

    /** Valid, and `existing_hashes` is the loaded set plus every hash
        flushed so far (the final flush does not update it). */
    ghost predicate Live()
      reads this
    {
      Valid() && existing == loaded + AsSet(Uids(allResults))
    }

    /** Live, and the records accepted so far (flushed, then pending) are
        those of the tally `t`. */
    ghost predicate Holds(t: Tally)
      reads this
    {
      Live() && allResults + pendingWrite == t.accepted
    }

    /** What the completed flushes have left behind: `all_results` and the
        two files. */
    ghost function Flushed(): (seq<Record>, seq<Record>, seq<string>)
      reads this
    {
      (allResults, outputLog, hashLog)
    }

    constructor (loaded: set<string>)
      ensures this.loaded == loaded && existing == loaded
      ensures pendingWrite == [] && pendingHashes == [] && allResults == []
      ensures outputLog == [] && hashLog == []
      ensures Live()
    {
      this.loaded := loaded;
      existing := loaded;
      pendingWrite := [];
      pendingHashes := [];
      allResults := [];
      outputLog := [];
      hashLog := [];
      new;
      assert AsSet(Uids([])) == {};
    }

    /** `uid in existing_hashes or uid in pending_hashes`: the uid was loaded
        or has been accepted in this run. */
    predicate Seen(u: string)
      reads this
      ensures Live() ==> (Seen(u) <==> u in loaded || u in Uids(allResults + pendingWrite))
    {
      UidsAppend(allResults, pendingWrite);
      u in existing || u in pendingHashes
    }

    /** `pending_hashes.append(uid)` and `pending_write.append(record)`. */
    method Buffer(r: Record)
      requires Live()
      modifies this
      ensures pendingWrite == old(pendingWrite) + [r] && pendingHashes == old(pendingHashes) + [r.uid]
      ensures existing == old(existing) && allResults == old(allResults)
      ensures outputLog == old(outputLog) && hashLog == old(hashLog)
      ensures Live()
    {
      UidsAppend(pendingWrite, [r]);
      pendingHashes := pendingHashes + [r.uid];
      pendingWrite := pendingWrite + [r];
    }

    /** The flush inside a batch: append the records, then the hashes, then
        merge the hashes into `existing_hashes` and extend `all_results`.
        A raised write ends the batch's `try`, leaving the buffer as it was. */
    method Flush(fault: FlushFault)
      requires Live()
      modifies this
      ensures allResults + pendingWrite == old(allResults + pendingWrite)
      ensures fault == NoFault ==>
        pendingWrite == [] && pendingHashes == [] &&
        allResults == old(allResults) + old(pendingWrite) &&
        outputLog == old(outputLog) + old(pendingWrite) &&
        hashLog == old(hashLog) + old(pendingHashes) &&
        existing == old(existing) + AsSet(old(pendingHashes))
      ensures fault == RecordsWriteFails ==>
        pendingWrite == old(pendingWrite) && pendingHashes == old(pendingHashes) &&
        allResults == old(allResults) && outputLog == old(outputLog) &&
        hashLog == old(hashLog) && existing == old(existing)
      ensures fault == HashesWriteFails ==>
        pendingWrite == old(pendingWrite) && pendingHashes == old(pendingHashes) &&
        allResults == old(allResults) && outputLog == old(outputLog) + old(pendingWrite) &&
        hashLog == old(hashLog) && existing == old(existing)
      ensures Live()
    {
      if fault == RecordsWriteFails {
        return;
      }
      SubseqExtendRight(allResults, outputLog, pendingWrite);
      outputLog := outputLog + pendingWrite;
      if fault == HashesWriteFails {
        return;
      }
      SubseqAppendBoth(old(allResults), old(outputLog), pendingWrite);
      UidsAppend(allResults, pendingWrite);
      hashLog := hashLog + pendingHashes;
      existing := existing + AsSet(pendingHashes);
      allResults := allResults + pendingWrite;
      pendingWrite := [];
      pendingHashes := [];
    }

    /** The flush after the batch loop, done only when the buffer is not
        empty: append the records, then the hashes, then extend
        `all_results`. A raised write escapes `generate`; `ok` says whether
        the run got past this point. */
    method FinalFlush(fault: FlushFault) returns (ok: bool)
      requires Live()
      modifies this
      ensures ok <==> (old(pendingWrite) == [] || fault == NoFault)
      ensures ok ==>
        allResults == old(allResults) + old(pendingWrite) &&
        outputLog == old(outputLog) + old(pendingWrite) &&
        hashLog == old(hashLog) + old(pendingHashes)
      ensures !ok ==> allResults == old(allResults)
      ensures pendingWrite == old(pendingWrite) && pendingHashes == old(pendingHashes) && existing == old(existing)
      ensures !ok && fault == RecordsWriteFails ==>
        outputLog == old(outputLog) && hashLog == old(hashLog)
      ensures !ok && fault == HashesWriteFails ==>
        outputLog == old(outputLog) + old(pendingWrite) && hashLog == old(hashLog)
      ensures Valid()
    {
      if pendingWrite == [] {
        assert allResults + pendingWrite == allResults;
        return true;
      }
      if fault == RecordsWriteFails {
        return false;
      }
      SubseqExtendRight(allResults, outputLog, pendingWrite);
      outputLog := outputLog + pendingWrite;
      if fault == HashesWriteFails {
        return false;
      }
      SubseqAppendBoth(old(allResults), old(outputLog), pendingWrite);
      UidsAppend(allResults, pendingWrite);
      hashLog := hashLog + pendingHashes;
      allResults := allResults + pendingWrite;
      ok := true;
    }
  }

  /** Offer one response to the buffer (the duplicate check, then the
      append): a duplicate is reported and dropped, a new inadmissible one
      is dropped, a new admissible one is buffered. */
  method Admit(store: Store, o: Offer, ghost t: Tally) returns (dup: bool)
    requires store.Holds(t)
    modifies store
    ensures store.Holds(Step(store.loaded, t, o))
    ensures dup <==> IsDuplicate(store.loaded, t, o)
    ensures store.Flushed() == old(store.Flushed()) && store.existing == old(store.existing)
  {
    dup := store.Seen(o.rec.uid);
    if !dup && o.admissible {
      store.Buffer(o.rec);
    }
  }

  /** What a prefix of the accepted records inherits from the whole: no uid
      twice and none of the loaded ones. */
  lemma UniquePrefix(seen: set<string>, a: seq<Record>, b: seq<Record>)
    requires Distinct(Uids(a + b)) && forall i :: 0 <= i < |a + b| ==> (a + b)[i].uid !in seen
    ensures Distinct(Uids(a)) && forall i :: 0 <= i < |a| ==> a[i].uid !in seen
  {
    assert forall i :: 0 <= i < |a| ==> (a + b)[i] == a[i];
  }

  /** Every hash in the hash file has a record in the JSONL file. */
  predicate HashesRecorded(hashLog: seq<string>, outputLog: seq<Record>) {
    forall i :: 0 <= i < |hashLog| ==> exists r :: r in outputLog && r.uid == hashLog[i]
  }

  /** Every hash in the hash file has its record in the JSONL file, written
      before it: the hash file lists the uids of a subsequence of the JSONL
      file. */
  lemma HashesHaveRecords(allResults: seq<Record>, outputLog: seq<Record>, hashLog: seq<string>)
    requires hashLog == Uids(allResults) && IsSubseq(allResults, outputLog)
    ensures HashesRecorded(hashLog, outputLog)
  {
    SubseqMembers(allResults, outputLog);
    forall i | 0 <= i < |hashLog|
      ensures exists r :: r in outputLog && r.uid == hashLog[i]
    {
      assert allResults[i] in outputLog && allResults[i].uid == hashLog[i];
    }
  }

  /** A response offered to the buffer, and whether the generator accepts it
      once it is known not to be a duplicate (codegen drops an
      implementation with invalid syntax at that point). */
  datatype Offer = Offer(rec: Record, admissible: bool)

  /** The records the buffer receives from `offers` in order, starting from
      the loaded hash set `seen`: an offer whose uid was loaded or already
      accepted is a duplicate, an inadmissible one is dropped, the others
      are accepted. */
  function Accepted(seen: set<string>, offers: seq<Offer>): seq<Record>
  {
    if offers == [] then []
    else
      var prev := Accepted(seen, offers[..|offers| - 1]);
      var o := offers[|offers| - 1];
      if o.rec.uid in seen || o.rec.uid in Uids(prev) || !o.admissible then prev else prev + [o.rec]
  }

  /** How many of `offers` are duplicates: `total_duplicates`. */
  function Duplicates(seen: set<string>, offers: seq<Offer>): nat
  {
    if offers == [] then 0
    else
      var prev := Accepted(seen, offers[..|offers| - 1]);
      var o := offers[|offers| - 1];
      Duplicates(seen, offers[..|offers| - 1]) + if o.rec.uid in seen || o.rec.uid in Uids(prev) then 1 else 0
  }

  /** How many of `offers` are new but inadmissible. */
  function Dropped(seen: set<string>, offers: seq<Offer>): nat
  {
    if offers == [] then 0
    else
      var prev := Accepted(seen, offers[..|offers| - 1]);
      var o := offers[|offers| - 1];
      Dropped(seen, offers[..|offers| - 1]) + if o.rec.uid !in seen && o.rec.uid !in Uids(prev) && !o.admissible then 1 else 0
  }

  /** What the dedup step has produced so far: the accepted records, and
      how many offers were duplicates and how many were dropped. */
  datatype Tally = Tally(accepted: seq<Record>, duplicates: nat, dropped: nat)

  /** The tally before the first offer. */
  const Empty := Tally([], 0, 0)

  /** The offer's uid was loaded or is among the accepted records. */
  predicate IsDuplicate(seen: set<string>, t: Tally, o: Offer) {
    o.rec.uid in seen || o.rec.uid in Uids(t.accepted)
  }

  /** One offer through the dedup step. */
  function Step(seen: set<string>, t: Tally, o: Offer): Tally {
    if IsDuplicate(seen, t, o) then t.(duplicates := t.duplicates + 1)
    else if !o.admissible then t.(dropped := t.dropped + 1)
    else t.(accepted := t.accepted + [o.rec])
  }

  /** The tally of a list of offers. */
  function Tallied(seen: set<string>, offers: seq<Offer>): Tally {
    Tally(Accepted(seen, offers), Duplicates(seen, offers), Dropped(seen, offers))
  }

  /** Tallying one more offer is one more dedup step. */
  lemma TalliedStep(seen: set<string>, offers: seq<Offer>, o: Offer)
    ensures Tallied(seen, offers + [o]) == Step(seen, Tallied(seen, offers), o)
  {
    AcceptedStep(seen, offers, o);
  }

  /** The offers of a list, one dedup step after the other, from `t`. */
  function StepAll(seen: set<string>, t: Tally, offers: seq<Offer>): Tally {
    if offers == [] then t else Step(seen, StepAll(seen, t, offers[..|offers| - 1]), offers[|offers| - 1])
  }

  lemma StepOne(seen: set<string>, t: Tally, o: Offer)
    ensures StepAll(seen, t, [o]) == Step(seen, t, o)
  {
    assert [o][..0] == [];
  }

  /** Stepping through `a + b` is stepping through `a`, then `b`. */
  lemma {:induction false} StepAllAppend(seen: set<string>, t: Tally, a: seq<Offer>, b: seq<Offer>)
    ensures StepAll(seen, t, a + b) == StepAll(seen, StepAll(seen, t, a), b)
    decreases |b|
  {
    if b == [] {
      assert a + b == a;
    } else {
      StepAllAppend(seen, t, a, b[..|b| - 1]);
      assert (a + b)[..|a + b| - 1] == a + b[..|b| - 1];
    }
  }

  /** The offers of the first `n` texts of list `i` of a reply, in order;
      `f(i, text)` is what one text offers. */
  function ListOffers(f: (nat, string) -> seq<Offer>, i: nat, texts: seq<string>, n: nat): seq<Offer>
    requires n <= |texts|
  {
    if n == 0 then [] else ListOffers(f, i, texts, n - 1) + f(i, texts[n - 1])
  }

  /** The offers of the first `n` lists of a reply, list after list. */
  function ReplyOffers(f: (nat, string) -> seq<Offer>, lists: seq<seq<string>>, n: nat): seq<Offer>
    requires n <= |lists|
  {
    if n == 0 then [] else ReplyOffers(f, lists, n - 1) + ListOffers(f, n - 1, lists[n - 1], |lists[n - 1]|)
  }

  /** The tally after the first `n` texts of list `i`, from `t`. */
  function ListFold(seen: set<string>, t: Tally, f: (nat, string) -> seq<Offer>, i: nat, texts: seq<string>, n: nat): Tally
    requires n <= |texts|
  {
    if n == 0 then t else StepAll(seen, ListFold(seen, t, f, i, texts, n - 1), f(i, texts[n - 1]))
  }

  /** The tally after the first `n` lists of a reply, from `t`. */
  function ReplyFold(seen: set<string>, t: Tally, f: (nat, string) -> seq<Offer>, lists: seq<seq<string>>, n: nat): Tally
    requires n <= |lists|
  {
    if n == 0 then t else ListFold(seen, ReplyFold(seen, t, f, lists, n - 1), f, n - 1, lists[n - 1], |lists[n - 1]|)
  }

  /** Going through a list text by text is stepping through its offers. */
  lemma {:induction false} ListFoldSteps(seen: set<string>, t: Tally, f: (nat, string) -> seq<Offer>, i: nat,
                                         texts: seq<string>, n: nat)
    requires n <= |texts|
    ensures ListFold(seen, t, f, i, texts, n) == StepAll(seen, t, ListOffers(f, i, texts, n))
  {
    if n > 0 {
      ListFoldSteps(seen, t, f, i, texts, n - 1);
      StepAllAppend(seen, t, ListOffers(f, i, texts, n - 1), f(i, texts[n - 1]));
    }
  }

  /** Going through a reply list by list is stepping through its offers. */
  lemma {:induction false} ReplyFoldSteps(seen: set<string>, t: Tally, f: (nat, string) -> seq<Offer>,
                                          lists: seq<seq<string>>, n: nat)
    requires n <= |lists|
    ensures ReplyFold(seen, t, f, lists, n) == StepAll(seen, t, ReplyOffers(f, lists, n))
  {
    if n > 0 {
      ReplyFoldSteps(seen, t, f, lists, n - 1);
      var done := ReplyOffers(f, lists, n - 1);
      ListFoldSteps(seen, StepAll(seen, t, done), f, n - 1, lists[n - 1], |lists[n - 1]|);
      StepAllAppend(seen, t, done, ListOffers(f, n - 1, lists[n - 1], |lists[n - 1]|));
    }
  }

  /** A property every offer of the texts has holds of every offer of the list. */
  lemma {:induction false} ListOffersAll(f: (nat, string) -> seq<Offer>, i: nat, texts: seq<string>, n: nat,
                                         ok: Offer -> bool)
    requires n <= |texts|
    requires forall j :: 0 <= j < n ==> forall o :: o in f(i, texts[j]) ==> ok(o)
    ensures forall o :: o in ListOffers(f, i, texts, n) ==> ok(o)
  {
    if n > 0 {
      ListOffersAll(f, i, texts, n - 1, ok);
    }
  }

  /** A property every offer of the texts has holds of every offer of the reply. */
  lemma {:induction false} ReplyOffersAll(f: (nat, string) -> seq<Offer>, lists: seq<seq<string>>, n: nat,
                                          ok: Offer -> bool)
    requires n <= |lists|
    requires forall i, j :: 0 <= i < n && 0 <= j < |lists[i]| ==> forall o :: o in f(i, lists[i][j]) ==> ok(o)
    ensures forall o :: o in ReplyOffers(f, lists, n) ==> ok(o)
  {
    if n > 0 {
      ReplyOffersAll(f, lists, n - 1, ok);
      ListOffersAll(f, n - 1, lists[n - 1], |lists[n - 1]|, ok);
    }
  }

  /** Tallying `a + b` is tallying `a` and then stepping through `b`. */
  lemma {:induction false} TalliedAppend(seen: set<string>, a: seq<Offer>, b: seq<Offer>)
    ensures StepAll(seen, Tallied(seen, a), b) == Tallied(seen, a + b)
    decreases |b|
  {
    if b == [] {
      assert a + b == a;
    } else {
      var init := b[..|b| - 1];
      var o := b[|b| - 1];
      TalliedAppend(seen, a, init);
      assert a + b == (a + init) + [o];
      TalliedStep(seen, a + init, o);
    }
  }

  /** The records of a list of offers. */
  function Records(offers: seq<Offer>): (rs: seq<Record>)
    ensures |rs| == |offers| && forall i :: 0 <= i < |offers| ==> rs[i] == offers[i].rec
  {
    seq(|offers|, i requires 0 <= i < |offers| => offers[i].rec)
  }

  /** No uid is accepted twice, and none that was loaded. */
  lemma {:induction false} AcceptedUnique(seen: set<string>, offers: seq<Offer>)
    ensures Distinct(Uids(Accepted(seen, offers)))
    ensures forall i :: 0 <= i < |Accepted(seen, offers)| ==> Accepted(seen, offers)[i].uid !in seen
  {
    if offers != [] {
      var prev := Accepted(seen, offers[..|offers| - 1]);
      AcceptedUnique(seen, offers[..|offers| - 1]);
      var o := offers[|offers| - 1];
      if !(o.rec.uid in seen || o.rec.uid in Uids(prev) || !o.admissible) {
        UidsAppend(prev, [o.rec]);
        assert forall i :: 0 <= i < |prev| ==> prev[i].uid in Uids(prev);
      }
    }
  }

  /** Every offer is accepted, counted as a duplicate or dropped. */
  lemma {:induction false} AcceptedCounts(seen: set<string>, offers: seq<Offer>)
    ensures |Accepted(seen, offers)| + Duplicates(seen, offers) + Dropped(seen, offers) == |offers|
  {
    if offers != [] {
      AcceptedCounts(seen, offers[..|offers| - 1]);
    }
  }

  /** The accepted records keep the order of the offers, and each of them
      was admissible. */
  lemma {:induction false} AcceptedInOrder(seen: set<string>, offers: seq<Offer>)
    ensures IsSubseq(Accepted(seen, offers), Records(offers))
    ensures forall r :: r in Accepted(seen, offers) ==> Offer(r, true) in offers
  {
    if offers == [] {
    } else {
      var init := offers[..|offers| - 1];
      var o := offers[|offers| - 1];
      AcceptedInOrder(seen, init);
      var prev := Accepted(seen, init);
      assert Records(offers) == Records(init) + [o.rec];
      assert offers == init + [o];
      if o.rec.uid in seen || o.rec.uid in Uids(prev) || !o.admissible {
        SubseqExtendRight(prev, Records(init), [o.rec]);
      } else {
        SubseqAppendBoth(prev, Records(init), [o.rec]);
      }
    }
  }

  /** Nothing new is lost: the uid of every admissible offer was loaded or
      is among the accepted records. */
  lemma {:induction false} AcceptedComplete(seen: set<string>, offers: seq<Offer>)
    ensures forall i :: 0 <= i < |offers| && offers[i].admissible ==>
      offers[i].rec.uid in seen || offers[i].rec.uid in Uids(Accepted(seen, offers))
  {
    if offers != [] {
      var init := offers[..|offers| - 1];
      AcceptedComplete(seen, init);
      var prev := Accepted(seen, init);
      UidsAppend(prev, [offers[|offers| - 1].rec]);
      var o := offers[|offers| - 1];
      var all := Accepted(seen, offers);
      assert all == prev || all == prev + [o.rec];
      assert forall u :: u in Uids(prev) ==> u in Uids(all);
      forall i | 0 <= i < |offers| && offers[i].admissible
        ensures offers[i].rec.uid in seen || offers[i].rec.uid in Uids(all)
      {
        if i < |init| {
          assert offers[i] == init[i];
          assert init[i].rec.uid in seen || init[i].rec.uid in Uids(prev);
        } else if o.rec.uid !in seen && o.rec.uid !in Uids(prev) {
          assert all == prev + [o.rec];
          assert Uids(all)[|prev|] == o.rec.uid;
        }
      }
    }
  }

  /** Accepting from a longer list of offers extends the records accepted
      from a shorter one. */
  lemma AcceptedStep(seen: set<string>, offers: seq<Offer>, o: Offer)
    ensures Accepted(seen, offers + [o]) ==
      if o.rec.uid in seen || o.rec.uid in Uids(Accepted(seen, offers)) || !o.admissible
      then Accepted(seen, offers) else Accepted(seen, offers) + [o.rec]
    ensures Duplicates(seen, offers + [o]) ==
      Duplicates(seen, offers) + if o.rec.uid in seen || o.rec.uid in Uids(Accepted(seen, offers)) then 1 else 0
    ensures Dropped(seen, offers + [o]) ==
      Dropped(seen, offers) + if o.rec.uid !in seen && o.rec.uid !in Uids(Accepted(seen, offers)) && !o.admissible then 1 else 0
  {
    assert (offers + [o])[..|offers|] == offers;
  }

  /** `math.ceil(n / k)` for a positive `k`, as the number of steps of `k`
      that reach `n`; for `n <= 0` it is 0, which gives the same empty
      `range` as Python's non-positive ceiling. */
  function CeilDiv(n: int, k: nat): nat
    requires k > 0
    decreases n
  {
    if n <= 0 then 0 else 1 + CeilDiv(n - k, k)
  }

  /** `CeilDiv(n, k)` is the ceiling of `n / k`: the least `q` with `n <= q * k`. */
  lemma {:induction false} CeilDivIsCeiling(n: int, k: nat)
    requires k > 0
    ensures n <= CeilDiv(n, k) * k
    ensures n > 0 ==> (CeilDiv(n, k) - 1) * k < n
    decreases n
  {
    if n > 0 {
      CeilDivIsCeiling(n - k, k);
      var q := CeilDiv(n - k, k);
      assert CeilDiv(n, k) * k == q * k + k;
      assert (CeilDiv(n, k) - 1) * k == q * k;
    }
  }

  lemma MulLe(a: int, b: int, k: nat)
    requires a <= b
    ensures a * k <= b * k
  {
    assert b * k - a * k == (b - a) * k;
  }

  /** The batch sizes problemgen requests when no batch fails: full batches
      of `k` and one last partial batch. */
  function Planned(n: int, k: nat): seq<int>
    requires k > 0
    decreases n
  {
    if n <= 0 then [] else if n <= k then [n] else [k] + Planned(n - k, k)
  }

  function Sum(xs: seq<int>): int {
    if xs == [] then 0 else xs[0] + Sum(xs[1..])
  }

  /** The planned batches add up to `n`, there are `ceil(n / k)` of them,
      every one but the last is full and the last is not empty. */
  lemma {:induction false} PlannedShape(n: int, k: nat)
    requires k > 0 && n >= 0
    ensures Sum(Planned(n, k)) == n
    ensures |Planned(n, k)| == CeilDiv(n, k)
    ensures forall i :: 0 <= i < |Planned(n, k)| - 1 ==> Planned(n, k)[i] == k
    ensures n > 0 ==> 0 < Planned(n, k)[|Planned(n, k)| - 1] <= k
    decreases n
  {
    if n > k {
      PlannedShape(n - k, k);
      assert Planned(n, k)[1..] == Planned(n - k, k);
    }
  }

  /** Batch `i` of a fixed input list: `items[i*k : min(i*k + k, len(items))]`. */
  function Batch<T>(items: seq<T>, k: nat, i: nat): (b: seq<T>)
    requires k > 0
    ensures |b| <= k
  {
    var start := if i * k <= |items| then i * k else |items|;
    var end := if start + k <= |items| then start + k else |items|;
    items[start..end]
  }

  /** The first `b` batches, one after the other. */
  function BatchesUpTo<T>(items: seq<T>, k: nat, b: nat): seq<T>
    requires k > 0
  {
    if b == 0 then [] else BatchesUpTo(items, k, b - 1) + Batch(items, k, b - 1)
  }

  /** The first `b` batches are the first `b * k` items. */
  lemma {:induction false} BatchesPrefix<T>(items: seq<T>, k: nat, b: nat)
    requires k > 0
    ensures BatchesUpTo(items, k, b) == items[..if b * k <= |items| then b * k else |items|]
    decreases b
  {
    if b > 0 {
      BatchesPrefix(items, k, b - 1);
      assert (b - 1) * k + k == b * k;
    }
  }

  /** The `ceil(len / k)` batches cover the whole list, in order, without
      overlap, and none of them is empty. */
  lemma BatchesPartition<T>(items: seq<T>, k: nat)
    requires k > 0
    ensures BatchesUpTo(items, k, CeilDiv(|items|, k)) == items
    ensures forall b :: 0 <= b < CeilDiv(|items|, k) ==> Batch(items, k, b) != []
  {
    var q := CeilDiv(|items|, k);
    CeilDivIsCeiling(|items|, k);
    BatchesPrefix(items, k, q);
    forall b | 0 <= b < q
      ensures Batch(items, k, b) != []
    {
      BatchNonEmpty(items, k, b);
    }
  }

  lemma BatchNonEmpty<T>(items: seq<T>, k: nat, b: nat)
    requires k > 0 && b < CeilDiv(|items|, k)
    ensures Batch(items, k, b) != []
  {
    var q := CeilDiv(|items|, k);
    CeilDivIsCeiling(|items|, k);
    MulLe(b, q - 1, k);
    var start := b * k;
    assert start < |items|;
    var end := if start + k <= |items| then start + k else |items|;
    assert Batch(items, k, b) == items[start..end];
  }

  /** The non-blank lines of the input file that `parse` (`json.loads`)
      accepts, parsed, in file order. */
  function Parsed(lines: seq<string>, parse: string -> Option<Value>): seq<Value> {
    if lines == [] then []
    else
      var prev := Parsed(lines[..|lines| - 1], parse);
      var line := lines[|lines| - 1];
      if IsBlank(line) || parse(line).None? then prev else prev + [parse(line).value]
  }

  /** What the generators' JSONL loaders return for a file of `lines`;
      `None` when they raise (only `JSONDecodeError` is caught, so a line
      `parse` rejects is skipped). `keep` is the per-item test: `None` when
      it raises, otherwise whether the item is kept. A missing file reads as
      no lines. */
  function Loaded(lines: seq<string>, parse: string -> Option<Value>, keep: Value -> Option<bool>): Option<seq<Value>> {
    if lines == [] then Some([])
    else
      match Loaded(lines[..|lines| - 1], parse, keep)
      case None => None
      case Some(prev) =>
        var line := lines[|lines| - 1];
        if IsBlank(line) || parse(line).None? then Some(prev)
        else
          match keep(parse(line).value)
          case None => None
          case Some(found) => Some(if found then prev + [parse(line).value] else prev)
  }

  /** A loader raises exactly when the test raises on some parsed line;
      otherwise it keeps, in file order, exactly the parsed items the test
      accepts. */
  lemma {:induction false} LoadedSpec(lines: seq<string>, parse: string -> Option<Value>, keep: Value -> Option<bool>)
    ensures Loaded(lines, parse, keep).None? <==> exists v :: v in Parsed(lines, parse) && keep(v).None?
    ensures Loaded(lines, parse, keep).Some? ==>
      var ps := Loaded(lines, parse, keep).value;
      IsSubseq(ps, Parsed(lines, parse)) &&
      (forall v :: v in ps ==> keep(v) == Some(true)) &&
      (forall v :: v in Parsed(lines, parse) && keep(v) == Some(true) ==> v in ps)
    decreases |lines|
  {
    if lines != [] {
      var init := lines[..|lines| - 1];
      var line := lines[|lines| - 1];
      LoadedSpec(init, parse, keep);
      var pre := Parsed(init, parse);
      if !(IsBlank(line) || parse(line).None?) {
        var v := parse(line).value;
        assert Parsed(lines, parse) == pre + [v];
        assert forall u :: u in pre + [v] <==> u in pre || u == v;
        if Loaded(init, parse, keep).Some? && keep(v).Some? {
          var prev := Loaded(init, parse, keep).value;
          if keep(v) == Some(true) {
            SubseqAppendBoth(prev, pre, [v]);
          } else {
            SubseqExtendRight(prev, pre, [v]);
          }
        }
      }
    }
  }

  /** The loading loop shared by the generators' `_load_*` methods. */
  method LoadItems(lines: seq<string>, parse: string -> Option<Value>, keep: Value -> Option<bool>) returns (items: Option<seq<Value>>)
    ensures items == Loaded(lines, parse, keep)
  {
    var kept: seq<Value> := [];
    for n := 0 to |lines|
      invariant Loaded(lines[..n], parse, keep) == Some(kept)
    {
      assert lines[..n + 1][..n] == lines[..n];
      var line := lines[n];
      StripEmptyIffBlank(line);
      if Strip(line) != [] {
        var item := parse(line);
        if item.Some? {
          var found := keep(item.value);
          if found.None? {
            LoadedRaises(lines, parse, keep, n + 1);
            return None;
          }
          if found.value {
            kept := kept + [item.value];
          }
        }
      }
    }
    assert lines[..|lines|] == lines;
    items := Some(kept);
  }

  /** Once a prefix of the file raises, the whole file does. */
  lemma {:induction false} LoadedRaises(lines: seq<string>, parse: string -> Option<Value>, keep: Value -> Option<bool>, n: nat)
    requires n <= |lines| && Loaded(lines[..n], parse, keep).None?
    ensures Loaded(lines, parse, keep).None?
    decreases |lines| - n
  {
    if n < |lines| {
      assert lines[..n + 1][..n] == lines[..n];
      LoadedRaises(lines, parse, keep, n + 1);
    } else {
      assert lines[..n] == lines;
    }
  }

  /** `items[:num_samples]`, with `None` for no limit; a negative limit
      counts from the end, as Python slicing does. */
  function Take<T>(xs: seq<T>, n: Option<int>): (r: seq<T>)
    ensures r <= xs
    ensures n.None? ==> r == xs
    ensures n.Some? && n.value >= 0 ==> |r| == if n.value <= |xs| then n.value else |xs|
    ensures n.Some? && n.value < 0 ==> |r| == if |xs| + n.value >= 0 then |xs| + n.value else 0
  {
    if n.None? then xs
    else if n.value >= 0 then (if n.value <= |xs| then xs[..n.value] else xs)
    else if |xs| + n.value >= 0 then xs[..|xs| + n.value] else []
  }

  /** The attempt counters after the first `answered` of `n` tasks were
      retried once: one for each of those, zero for the rest. */
  function Attempts(n: nat, answered: nat): (r: seq<nat>)
    ensures |r| == n
    ensures forall i :: 0 <= i < n ==> r[i] == if i < answered then 1 else 0
  {
    seq(n, i => if i < answered then 1 else 0)
  }

  lemma AttemptsStep(n: nat, i: nat)
    requires i < n
    ensures Attempts(n, i)[i := Attempts(n, i)[i] + 1] == Attempts(n, i + 1)
  {
  }

  /** The lists of a reply that are processed: one per prompt of the
      request; an extra list ends the loop over them with an `IndexError`. */
  function Answered<T>(lists: seq<seq<string>>, asked: seq<T>): (ls: seq<seq<string>>)
    ensures |ls| <= |asked| && ls <= lists
    ensures |lists| <= |asked| ==> ls == lists
  {
    if |lists| <= |asked| then lists else lists[..|asked|]
  }

  /** The prompt lists of the batches, one after the other. */
  function Concat(xss: seq<seq<string>>): seq<string> {
    if xss == [] then [] else Concat(xss[..|xss| - 1]) + xss[|xss| - 1]
  }

  lemma ConcatAppend(xss: seq<seq<string>>, xs: seq<string>)
    ensures Concat(xss + [xs]) == Concat(xss) + xs
  {
    assert (xss + [xs])[..|xss|] == xss;
  }

  /** Every item of the list has a prompt: building none of them raises.
      `prompt` is a generator's prompt builder for one input record, `None`
      when it raises. */
  predicate AllPrompted(ps: seq<Value>, prompt: Value -> Option<string>) {
    forall j :: 0 <= j < |ps| ==> prompt(ps[j]).Some?
  }

  /** The prompt list of a batch; `None` when building one of them raises. */
  function Prompts(ps: seq<Value>, prompt: Value -> Option<string>): (r: Option<seq<string>>)
    ensures r.Some? <==> AllPrompted(ps, prompt)
    ensures r.Some? ==> |r.value| == |ps|
  {
    if AllPrompted(ps, prompt) then Some(seq(|ps|, j requires 0 <= j < |ps| => prompt(ps[j]).value))
    else None
  }

  lemma AllPromptedAppend(a: seq<Value>, b: seq<Value>, prompt: Value -> Option<string>)
    ensures AllPrompted(a + b, prompt) <==> AllPrompted(a, prompt) && AllPrompted(b, prompt)
  {
    assert forall j :: 0 <= j < |a| ==> (a + b)[j] == a[j];
    assert forall j :: 0 <= j < |b| ==> (a + b)[|a| + j] == b[j];
  }

  /** The prompts of two lists one after the other are those of the joined list. */
  lemma PromptsAppend(a: seq<Value>, b: seq<Value>, prompt: Value -> Option<string>)
    requires AllPrompted(a, prompt) && AllPrompted(b, prompt)
    ensures AllPrompted(a + b, prompt)
    ensures Prompts(a + b, prompt) == Some(Prompts(a, prompt).value + Prompts(b, prompt).value)
  {
    AllPromptedAppend(a, b, prompt);
    var r := Prompts(a + b, prompt).value;
    var s := Prompts(a, prompt).value + Prompts(b, prompt).value;
    forall j | 0 <= j < |r|
      ensures r[j] == s[j]
    {
      if j < |a| {
        assert (a + b)[j] == a[j];
      } else {
        assert (a + b)[j] == b[j - |a|];
      }
    }
    assert r == s;
  }

  /** The batch loop raises while building the prompts of some batch from
      `b` on (that code runs outside the batch's `try`). */
  predicate Raises(items: seq<Value>, k: nat, prompt: Value -> Option<string>, nb: nat, b: nat)
    requires k > 0
    decreases nb - b
  {
    b < nb && (!AllPrompted(Batch(items, k, b), prompt) || Raises(items, k, prompt, nb, b + 1))
  }

  /** One batch further: a batch without prompts raises, any other passes
      the question on to the next. */
  lemma RaisesStep(items: seq<Value>, k: nat, prompt: Value -> Option<string>, nb: nat, b: nat)
    requires k > 0 && b < nb
    ensures !AllPrompted(Batch(items, k, b), prompt) ==> Raises(items, k, prompt, nb, b)
    ensures AllPrompted(Batch(items, k, b), prompt) ==> Raises(items, k, prompt, nb, b) == Raises(items, k, prompt, nb, b + 1)
  {
  }

  /** The batches from `b` on raise exactly when one of them holds an item
      without a prompt. */
  lemma {:induction false} RaisesFrom(items: seq<Value>, k: nat, prompt: Value -> Option<string>, nb: nat, b: nat)
    requires k > 0
    ensures Raises(items, k, prompt, nb, b) <==> !forall c :: b <= c < nb ==> AllPrompted(Batch(items, k, c), prompt)
    decreases nb - b
  {
    if b < nb {
      RaisesFrom(items, k, prompt, nb, b + 1);
    }
  }

  /** The first `n` batches all have prompts exactly when their items do. */
  lemma {:induction false} AllPromptedUpTo(items: seq<Value>, k: nat, prompt: Value -> Option<string>, n: nat)
    requires k > 0
    ensures AllPrompted(BatchesUpTo(items, k, n), prompt) <==> forall c :: 0 <= c < n ==> AllPrompted(Batch(items, k, c), prompt)
    decreases n
  {
    if n > 0 {
      AllPromptedUpTo(items, k, prompt, n - 1);
      AllPromptedAppend(BatchesUpTo(items, k, n - 1), Batch(items, k, n - 1), prompt);
    }
  }

  /** A run raises while building prompts exactly when some item of the
      input has none. */
  lemma RaisesIffUnprompted(items: seq<Value>, k: nat, prompt: Value -> Option<string>)
    requires k > 0
    ensures Raises(items, k, prompt, CeilDiv(|items|, k), 0) <==> !AllPrompted(items, prompt)
  {
    RaisesFrom(items, k, prompt, CeilDiv(|items|, k), 0);
    AllPromptedUpTo(items, k, prompt, CeilDiv(|items|, k));
    BatchesPartition(items, k);
  }

  /** `requested` holds the prompt lists of the first `b` batches, which
      are, one after the other, the prompts of the first items. */
  predicate Prompted(requested: seq<seq<string>>, items: seq<Value>, k: nat, prompt: Value -> Option<string>, b: nat)
    requires k > 0
  {
    |requested| == b && AllPrompted(BatchesUpTo(items, k, b), prompt) &&
    Concat(requested) == Prompts(BatchesUpTo(items, k, b), prompt).value
  }

  lemma PromptedStep(items: seq<Value>, k: nat, prompt: Value -> Option<string>, b: nat,
                     requested: seq<seq<string>>, next: seq<string>)
    requires k > 0 && Prompted(requested, items, k, prompt, b)
    requires Prompts(Batch(items, k, b), prompt) == Some(next)
    ensures Prompted(requested + [next], items, k, prompt, b + 1)
  {
    PromptsAppend(BatchesUpTo(items, k, b), Batch(items, k, b), prompt);
    ConcatAppend(requested, next);
  }

  /** After the last batch, the prompts sent are those of every item, in order. */
  lemma PromptedAll(requested: seq<seq<string>>, items: seq<Value>, k: nat, prompt: Value -> Option<string>)
    requires k > 0 && Prompted(requested, items, k, prompt, CeilDiv(|items|, k))
    ensures AllPrompted(items, prompt) && |requested| == CeilDiv(|items|, k)
    ensures Concat(requested) == Prompts(items, prompt).value
  {
    BatchesPartition(items, k);
  }

  /** What the dedup step guarantees of a tally: no uid accepted twice,
      none that was loaded, and every accepted record has property `ok`. */
  predicate Sound(seen: set<string>, t: Tally, ok: Record -> bool) {
    Distinct(Uids(t.accepted)) &&
    forall i :: 0 <= i < |t.accepted| ==> t.accepted[i].uid !in seen && ok(t.accepted[i])
  }

  /** Every record of a sound tally has property `ok`. */
  lemma SoundMembers(seen: set<string>, t: Tally, ok: Record -> bool)
    requires Sound(seen, t, ok)
    ensures forall r :: r in t.accepted ==> ok(r)
  {
    forall r | r in t.accepted
      ensures ok(r)
    {
      var i :| 0 <= i < |t.accepted| && t.accepted[i] == r;
    }
  }

  lemma StepSound(seen: set<string>, t: Tally, o: Offer, ok: Record -> bool)
    requires Sound(seen, t, ok) && (o.admissible ==> ok(o.rec))
    ensures Sound(seen, Step(seen, t, o), ok)
  {
    if !IsDuplicate(seen, t, o) && o.admissible {
      UidsAppend(t.accepted, [o.rec]);
      assert forall i :: 0 <= i < |t.accepted| ==> t.accepted[i].uid in Uids(t.accepted);
    }
  }

  /** Stepping through offers whose admissible records have `ok` keeps a
      tally sound. */
  lemma {:induction false} StepAllSound(seen: set<string>, t: Tally, offers: seq<Offer>, ok: Record -> bool)
    requires Sound(seen, t, ok)
    requires forall o :: o in offers && o.admissible ==> ok(o.rec)
    ensures Sound(seen, StepAll(seen, t, offers), ok)
    decreases |offers|
  {
    if offers != [] {
      StepAllSound(seen, t, offers[..|offers| - 1], ok);
      StepSound(seen, StepAll(seen, t, offers[..|offers| - 1]), offers[|offers| - 1], ok);
    }
  }
}
