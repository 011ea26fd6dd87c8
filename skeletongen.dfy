/** evoselfcode/datagen/preprocess/skeletongen.py, `SkeletonGenerator`:
    read problem descriptions from a JSONL file, ask for one function
    skeleton per problem in batches of `max_concurrent` prompts, keep every
    new skeleton (flagging those that do not parse) and flush the buffer
    every `batch_write_size` records. */
module SkeletonGen {
  import opened Text
  import opened Json
  import opened Sequences
  import opened Engine

  /** The item filter of `_load_problems`: `problem_key in item`. */
  function HasKey(key: string): Value -> Option<bool> {
    (item: Value) => KeyIn(item, key)
  }

  /** `_load_problems(input_file, problem_key)`. */
  method LoadProblems(lines: seq<string>, key: string, parse: string -> Option<Value>) returns (problems: Option<seq<Value>>)
    ensures problems == Loaded(lines, parse, HasKey(key))
  {
    problems := LoadItems(lines, parse, HasKey(key));
  }

  /** The problems `generate` works on: loaded, then truncated; `None` when
      loading raises. */
  function Input(lines: seq<string>, key: string, parse: string -> Option<Value>, numSamples: Option<int>): Option<seq<Value>> {
    match Loaded(lines, parse, HasKey(key))
    case None => None
    case Some(ps) => Some(Take(ps, numSamples))
  }

  /** The text `_build_prompt` receives for problem `p`:
      `p.get(problem_key, "")`. `None` stands for the `AttributeError`
      Python raises when `p` is not a dict or the value is not a string. */
  function ProblemText(p: Value, key: string): Option<string> {
    if !p.Dict? then None
    else
      match GetOr(p.fields, key, Str(""))
      case Str(s) => Some(s)
      case _ => None
  }

  /** Every problem of the list has a text to build a prompt from. */
  predicate AllText(ps: seq<Value>, key: string) {
    forall j :: 0 <= j < |ps| ==> ProblemText(ps[j], key).Some?
  }

  const Placeholder: string := "{{problem}}"

  /** `_build_prompt(problem_text, template)` */
  function BuildPrompt(problemText: string, template: string): string {
    Replace(template, Placeholder, Strip(problemText))
  }

  /** A template without the placeholder is sent as it is. */
  lemma BuildPromptWithoutPlaceholder(problemText: string, template: string)
    requires !Contains(template, Placeholder)
    ensures BuildPrompt(problemText, template) == template
  {
    assert Find(template, Placeholder).None?;
  }

  /** A template with one placeholder gets the stripped problem in its
      place and is otherwise unchanged. */
  lemma BuildPromptFills(problemText: string, template: string, i: nat)
    requires OccursAt(template, Placeholder, i)
    requires forall j :: 0 <= j < i ==> !OccursAt(template, Placeholder, j)
    requires !Contains(template[i + |Placeholder|..], Placeholder)
    ensures BuildPrompt(problemText, template) ==
      template[..i] + Strip(problemText) + template[i + |Placeholder|..]
  {
    var found := Find(template, Placeholder);
    assert Contains(template, Placeholder);
    assert found == Some(i);
    BuildPromptWithoutPlaceholder(problemText, template[i + |Placeholder|..]);
  }

  /** `[_build_prompt(p.get(problem_key, ""), template) for p in batch]`;
      `None` when building one of them raises. */
  function Prompts(ps: seq<Value>, key: string, template: string): (r: Option<seq<string>>)
    ensures r.Some? <==> AllText(ps, key)
    ensures r.Some? ==> |r.value| == |ps|
  {
    if AllText(ps, key) then Some(seq(|ps|, j requires 0 <= j < |ps| => BuildPrompt(ProblemText(ps[j], key).value, template)))
    else None
  }

  lemma AllTextAppend(a: seq<Value>, b: seq<Value>, key: string)
    ensures AllText(a + b, key) <==> AllText(a, key) && AllText(b, key)
  {
    assert forall j :: 0 <= j < |a| ==> (a + b)[j] == a[j];
    assert forall j :: 0 <= j < |b| ==> (a + b)[|a| + j] == b[j];
  }

  /** The prompts of two lists one after the other are those of the joined list. */
  lemma PromptsAppend(a: seq<Value>, b: seq<Value>, key: string, template: string)
    requires AllText(a, key) && AllText(b, key)
    ensures AllText(a + b, key)
    ensures Prompts(a + b, key, template) == Some(Prompts(a, key, template).value + Prompts(b, key, template).value)
  {
    AllTextAppend(a, b, key);
    var r := Prompts(a + b, key, template).value;
    var s := Prompts(a, key, template).value + Prompts(b, key, template).value;
    forall j | 0 <= j < |r|
      ensures r[j] == s[j]
    {
      if j < |a| {
        assert (a + b)[j] == a[j];
      } else {
        assert (a + b)[j] == b[j - |a|];
      }
    }
    assert r == s;
  }

  /** `generate` raises while building the prompts of some batch from `b` on. */
  predicate Raises(items: seq<Value>, k: nat, key: string, nb: nat, b: nat)
    requires k > 0
    decreases nb - b
  {
    b < nb && (!AllText(Batch(items, k, b), key) || Raises(items, k, key, nb, b + 1))
  }

  /** One batch further: a batch without texts raises, any other passes
      the question on to the next. */
  lemma RaisesStep(items: seq<Value>, k: nat, key: string, nb: nat, b: nat)
    requires k > 0 && b < nb
    ensures !AllText(Batch(items, k, b), key) ==> Raises(items, k, key, nb, b)
    ensures AllText(Batch(items, k, b), key) ==> Raises(items, k, key, nb, b) == Raises(items, k, key, nb, b + 1)
  {
  }

  /** The batches from `b` on raise exactly when one of them holds a
      problem without a text. */
  lemma {:induction false} RaisesFrom(items: seq<Value>, k: nat, key: string, nb: nat, b: nat)
    requires k > 0
    ensures Raises(items, k, key, nb, b) <==> !forall c :: b <= c < nb ==> AllText(Batch(items, k, c), key)
    decreases nb - b
  {
    if b < nb {
      RaisesFrom(items, k, key, nb, b + 1);
    }
  }

  /** The first `n` batches all have texts exactly when their items do. */
  lemma {:induction false} AllTextUpTo(items: seq<Value>, k: nat, key: string, n: nat)
    requires k > 0
    ensures AllText(BatchesUpTo(items, k, n), key) <==> forall c :: 0 <= c < n ==> AllText(Batch(items, k, c), key)
    decreases n
  {
    if n > 0 {
      AllTextUpTo(items, k, key, n - 1);
      var a, b := BatchesUpTo(items, k, n - 1), Batch(items, k, n - 1);
      AllTextAppend(a, b, key);
    }
  }

  /** A run raises while building prompts exactly when some problem of the
      input has no text. */
  lemma RaisesIffMissingText(items: seq<Value>, k: nat, key: string)
    requires k > 0
    ensures Raises(items, k, key, CeilDiv(|items|, k), 0) <==> !AllText(items, key)
  {
    RaisesFrom(items, k, key, CeilDiv(|items|, k), 0);
    AllTextUpTo(items, k, key, CeilDiv(|items|, k));
    BatchesPartition(items, k);
  }

  /** What a skeletongen analysis of a code string depends on: the hash
      (`_compute_hash`), the regex `_extract_function_name` and whether
      `ast.parse` accepts the code (`_validate_skeleton`). */
  datatype Analysis = Analysis(hash: string -> Uid, functionName: string -> Option<string>, parses: string -> bool)

  /** A record as skeletongen builds it from a response: the stripped,
      non-empty code, its hash as uid, its extracted name and its validity. */
  predicate WellFormed(r: Record, an: Analysis) {
    r.Skeleton? && r.skeletonCode != [] && Strip(r.skeletonCode) == r.skeletonCode &&
    r.uid == an.hash(r.skeletonCode) && r.extractedName == an.functionName(r.skeletonCode) &&
    r.valid == an.parses(r.skeletonCode)
  }

  /** The offer one response text for problem `p` makes: none when it is
      blank. Every skeleton is admissible, valid or not. */
  function TextOffers(p: Value, text: string, key: string, an: Analysis): (os: seq<Offer>)
    ensures |os| <= 1
  {
    var code := Strip(text);
    if code == [] then []
    else
      var fields := if p.Dict? then p.fields else map[];
      [Offer(Skeleton(an.hash(code), GetOr(fields, "source", Str("UNKNOWN")), GetOr(fields, key, Str("")),
                      code, an.functionName(code), an.parses(code)), true)]
  }

  /** A blank text makes no offer; any other makes one admissible,
      well-formed offer of its stripped code, carrying the problem's
      `source` (default `"UNKNOWN"`) and its text. */
  lemma TextOffersShape(p: Value, text: string, key: string, an: Analysis)
    requires p.Dict?
    ensures TextOffers(p, text, key, an) == [] <==> IsBlank(text)
    ensures forall o :: o in TextOffers(p, text, key, an) ==>
      o.admissible && WellFormed(o.rec, an) && o.rec.skeletonCode == Strip(text) &&
      o.rec.source == GetOr(p.fields, "source", Str("UNKNOWN")) && o.rec.problemText == GetOr(p.fields, key, Str(""))
  {
    StripEmptyIffBlank(text);
    StripProperties(text);
  }

  /** What each text of a reply to `batch` offers: list `i` answers problem `i`. */
  function BatchTexts(batch: seq<Value>, key: string, an: Analysis): (nat, string) -> seq<Offer> {
    (i: nat, text: string) => if i < |batch| then TextOffers(batch[i], text, key, an) else []
  }

  /** All offers the loop makes from batch `b` on, in order, until a batch
      raises. */
  function RunOffers(items: seq<Value>, k: nat, key: string, an: Analysis, replies: seq<Reply>, nb: nat, b: nat): seq<Offer>
    requires k > 0
    decreases nb - b
  {
    if b >= nb || !AllText(Batch(items, k, b), key) then []
    else
      var batch := Batch(items, k, b);
      var reply := ReplyAt(replies, b);
      (if reply.Replied? then ReplyOffers(BatchTexts(batch, key, an), Answered(reply.lists, batch), |Answered(reply.lists, batch)|) else [])
      + RunOffers(items, k, key, an, replies, nb, b + 1)
  }

  /** The tally after batch `b` of a run whose prompts were built: what
      its reply offers, stepped through from `t`. */
  function BatchFold(seen: set<string>, t: Tally, items: seq<Value>, k: nat, key: string, an: Analysis,
                     replies: seq<Reply>, b: nat): Tally
    requires k > 0
  {
    var batch := Batch(items, k, b);
    var reply := ReplyAt(replies, b);
    if reply.Replied? then ReplyFold(seen, t, BatchTexts(batch, key, an), Answered(reply.lists, batch), |Answered(reply.lists, batch)|)
    else t
  }

  /** The tally at the end of the batch loop, from batch `b` and tally `t` on. */
  function RunFold(seen: set<string>, t: Tally, items: seq<Value>, k: nat, key: string, an: Analysis,
                   replies: seq<Reply>, nb: nat, b: nat): Tally
    requires k > 0
    decreases nb - b
  {
    if b >= nb || !AllText(Batch(items, k, b), key) then t
    else RunFold(seen, BatchFold(seen, t, items, k, key, an, replies, b), items, k, key, an, replies, nb, b + 1)
  }

  /** Going through the batches is stepping through the run's offers. */
  lemma {:induction false} RunFoldSteps(seen: set<string>, t: Tally, items: seq<Value>, k: nat, key: string, an: Analysis,
                                        replies: seq<Reply>, nb: nat, b: nat)
    requires k > 0
    ensures RunFold(seen, t, items, k, key, an, replies, nb, b) == StepAll(seen, t, RunOffers(items, k, key, an, replies, nb, b))
    decreases nb - b
  {
    if b < nb && AllText(Batch(items, k, b), key) {
      var batch := Batch(items, k, b);
      var reply := ReplyAt(replies, b);
      var rest := RunOffers(items, k, key, an, replies, nb, b + 1);
      if reply.Replied? {
        var f := BatchTexts(batch, key, an);
        var ls := Answered(reply.lists, batch);
        var add := ReplyOffers(f, ls, |ls|);
        var t' := ReplyFold(seen, t, f, ls, |ls|);
        assert RunOffers(items, k, key, an, replies, nb, b) == add + rest;
        assert RunFold(seen, t, items, k, key, an, replies, nb, b) == RunFold(seen, t', items, k, key, an, replies, nb, b + 1);
        ReplyFoldSteps(seen, t, f, ls, |ls|);
        RunFoldSteps(seen, t', items, k, key, an, replies, nb, b + 1);
        StepAllAppend(seen, t, add, rest);
      } else {
        assert RunOffers(items, k, key, an, replies, nb, b) == rest;
        assert RunFold(seen, t, items, k, key, an, replies, nb, b) == RunFold(seen, t, items, k, key, an, replies, nb, b + 1);
        RunFoldSteps(seen, t, items, k, key, an, replies, nb, b + 1);
      }
    }
  }

  /** Every offer of a run from batch `b` on is an admissible, well-formed
      skeleton record. */
  lemma {:induction false} RunOffersWellFormed(items: seq<Value>, k: nat, key: string, an: Analysis,
                                               replies: seq<Reply>, nb: nat, b: nat)
    requires k > 0
    ensures forall o :: o in RunOffers(items, k, key, an, replies, nb, b) ==> o.admissible && WellFormed(o.rec, an)
    decreases nb - b
  {
    if b < nb && AllText(Batch(items, k, b), key) {
      var batch := Batch(items, k, b);
      var reply := ReplyAt(replies, b);
      if reply.Replied? {
        var f := BatchTexts(batch, key, an);
        var ls := Answered(reply.lists, batch);
        var ok := (o: Offer) => o.admissible && WellFormed(o.rec, an);
        forall i, j | 0 <= i < |ls| && 0 <= j < |ls[i]|
          ensures forall o :: o in f(i, ls[i][j]) ==> ok(o)
        {
          assert ProblemText(batch[i], key).Some?;
          TextOffersShape(batch[i], ls[i][j], key, an);
        }
        ReplyOffersAll(f, ls, |ls|, ok);
      }
      RunOffersWellFormed(items, k, key, an, replies, nb, b + 1);
    }
  }

  /** How many records are flagged invalid: `total_invalid`. */
  function Invalid(rs: seq<Record>): nat {
    if rs == [] then 0
    else Invalid(rs[..|rs| - 1]) + if rs[|rs| - 1].Skeleton? && !rs[|rs| - 1].valid then 1 else 0
  }

  lemma InvalidAppend(rs: seq<Record>, r: Record)
    ensures Invalid(rs + [r]) == Invalid(rs) + if r.Skeleton? && !r.valid then 1 else 0
  {
    assert (rs + [r])[..|rs|] == rs;
  }

  /** One skeleton through the dedup step: a duplicate is counted, a new
      one is buffered and, if it does not parse, counted as invalid. */
  method AdmitSkeleton(store: Store, o: Offer, ghost t: Tally, dups: nat, invalid: nat)
    returns (dupCount: nat, invalidCount: nat)
    requires o.admissible && o.rec.Skeleton?
    requires store.Holds(t) && dups == t.duplicates && invalid == Invalid(t.accepted)
    modifies store
    ensures store.Holds(Step(store.loaded, t, o))
    ensures dupCount == Step(store.loaded, t, o).duplicates
    ensures invalidCount == Invalid(Step(store.loaded, t, o).accepted)
    ensures store.Flushed() == old(store.Flushed())
  {
    dupCount, invalidCount := dups, invalid;
    var dup := Admit(store, o, t);
    if dup {
      dupCount := dupCount + 1;
    } else {
      InvalidAppend(t.accepted, o.rec);
      if !o.rec.valid {
        invalidCount := invalidCount + 1;
      }
    }
  }

  /** The loop over the completions for one problem `p`: blank texts are
      skipped, the others go through the dedup step. */
  method ProcessTexts(store: Store, i: nat, texts: seq<string>, p: Value, key: string, an: Analysis,
                      ghost f: (nat, string) -> seq<Offer>, ghost t: Tally, dups: nat, invalid: nat)
    returns (dupCount: nat, invalidCount: nat)
    requires forall text {:trigger f(i, text), TextOffers(p, text, key, an)} :: f(i, text) == TextOffers(p, text, key, an)
    requires store.Holds(t) && dups == t.duplicates && invalid == Invalid(t.accepted)
    modifies store
    ensures store.Holds(ListFold(store.loaded, t, f, i, texts, |texts|))
    ensures dupCount == ListFold(store.loaded, t, f, i, texts, |texts|).duplicates
    ensures invalidCount == Invalid(ListFold(store.loaded, t, f, i, texts, |texts|).accepted)
    ensures store.Flushed() == old(store.Flushed())
  {
    dupCount, invalidCount := dups, invalid;
    ghost var cur := t;
    ghost var f0 := store.Flushed();
    var fields := if p.Dict? then p.fields else map[];
    for j := 0 to |texts|
      invariant store.Holds(cur) && dupCount == cur.duplicates && invalidCount == Invalid(cur.accepted)
      invariant cur == ListFold(store.loaded, t, f, i, texts, j)
      invariant store.Flushed() == f0
    {
      var code := Strip(texts[j]);
      if code != [] {
        var rec := Skeleton(an.hash(code), GetOr(fields, "source", Str("UNKNOWN")), GetOr(fields, key, Str("")),
                            code, an.functionName(code), an.parses(code));
        var o := Offer(rec, true);
        assert TextOffers(p, texts[j], key, an) == [o];
        assert f(i, texts[j]) == [o];
        StepOne(store.loaded, cur, o);
        dupCount, invalidCount := AdmitSkeleton(store, o, cur, dupCount, invalidCount);
        cur := Step(store.loaded, cur, o);
      } else {
        assert TextOffers(p, texts[j], key, an) == [];
        assert f(i, texts[j]) == [];
      }
    }
  }

  /** The loop over the lists of one reply, list `i` answering problem `i`. */
  method ProcessReply(store: Store, lists: seq<seq<string>>, batch: seq<Value>, key: string, an: Analysis,
                      ghost f: (nat, string) -> seq<Offer>, ghost t: Tally, dups: nat, invalid: nat)
    returns (dupCount: nat, invalidCount: nat)
    requires |lists| <= |batch|
    requires forall i: nat, text {:trigger f(i, text), TextOffers(batch[i], text, key, an)} ::
      i < |batch| ==> f(i, text) == TextOffers(batch[i], text, key, an)
    requires store.Holds(t) && dups == t.duplicates && invalid == Invalid(t.accepted)
    modifies store
    ensures store.Holds(ReplyFold(store.loaded, t, f, lists, |lists|))
    ensures dupCount == ReplyFold(store.loaded, t, f, lists, |lists|).duplicates
    ensures invalidCount == Invalid(ReplyFold(store.loaded, t, f, lists, |lists|).accepted)
    ensures store.Flushed() == old(store.Flushed())
  {
    dupCount, invalidCount := dups, invalid;
    ghost var cur := t;
    ghost var f0 := store.Flushed();
    for i := 0 to |lists|
      invariant store.Holds(cur) && dupCount == cur.duplicates && invalidCount == Invalid(cur.accepted)
      invariant cur == ReplyFold(store.loaded, t, f, lists, i)
      invariant store.Flushed() == f0
    {
      dupCount, invalidCount := ProcessTexts(store, i, lists[i], batch[i], key, an, f, cur, dupCount, invalidCount);
      cur := ListFold(store.loaded, cur, f, i, lists[i], |lists[i]|);
    }
  }

  /** One answered batch inside its `try`: the lists through the dedup
      step, then the flush once the buffer holds `batch_write_size`
      records, unless an extra list raised first. */
  method HandleReply(store: Store, lists: seq<seq<string>>, batch: seq<Value>, key: string, an: Analysis,
                     ghost t: Tally, dups: nat, invalid: nat, batchWriteSize: int, fault: FlushFault)
    returns (dupCount: nat, invalidCount: nat)
    requires AllText(batch, key)
    requires store.Holds(t) && dups == t.duplicates && invalid == Invalid(t.accepted)
    modifies store
    ensures var ls := Answered(lists, batch);
      store.Holds(ReplyFold(store.loaded, t, BatchTexts(batch, key, an), ls, |ls|)) &&
      dupCount == ReplyFold(store.loaded, t, BatchTexts(batch, key, an), ls, |ls|).duplicates &&
      invalidCount == Invalid(ReplyFold(store.loaded, t, BatchTexts(batch, key, an), ls, |ls|).accepted)
    ensures fault == NoFault && old(store.outputLog) == old(store.allResults) ==> store.outputLog == store.allResults
  {
    var ls := Answered(lists, batch);
    dupCount, invalidCount := ProcessReply(store, ls, batch, key, an, BatchTexts(batch, key, an), t, dups, invalid);
    if |lists| <= |batch| && |store.pendingWrite| >= batchWriteSize {
      store.Flush(fault);
    }
  }

  /** Batch `b` of the loop: build its prompts (which may raise) and, when
      the reply came, handle it. */
  method SendBatch(store: Store, items: seq<Value>, k: nat, b: nat, key: string, template: string, an: Analysis,
                   replies: seq<Reply>, faults: seq<FlushFault>, batchWriteSize: int,
                   ghost t: Tally, dups: nat, invalid: nat)
    returns (prompts: Option<seq<string>>, dupCount: nat, invalidCount: nat)
    requires k > 0
    requires store.Holds(t) && dups == t.duplicates && invalid == Invalid(t.accepted)
    modifies store
    ensures prompts == Prompts(Batch(items, k, b), key, template)
    ensures prompts.Some? ==>
      store.Holds(BatchFold(store.loaded, t, items, k, key, an, replies, b)) &&
      dupCount == BatchFold(store.loaded, t, items, k, key, an, replies, b).duplicates &&
      invalidCount == Invalid(BatchFold(store.loaded, t, items, k, key, an, replies, b).accepted)
    ensures prompts.None? ==> store.Holds(t) && dupCount == dups && invalidCount == invalid
    ensures FaultAt(faults, b) == NoFault && old(store.outputLog) == old(store.allResults) ==> store.outputLog == store.allResults
  {
    var batch := Batch(items, k, b);
    prompts := Prompts(batch, key, template);
    dupCount, invalidCount := dups, invalid;
    if prompts.Some? {
      var reply := ReplyAt(replies, b);
      if reply.Replied? {
        dupCount, invalidCount := HandleReply(store, reply.lists, batch, key, an, t, dups, invalid, batchWriteSize, FaultAt(faults, b));
      }
    }
  }

  /** The batch loop of `generate` over the truncated problem list, on a
      store that has seen nothing yet. `requested` holds the prompt list of
      every batch sent. */
  method RunBatches(store: Store, items: seq<Value>, key: string, template: string, k: nat, batchWriteSize: int,
                    an: Analysis, replies: seq<Reply>, faults: seq<FlushFault>)
    returns (raised: bool, totalDuplicates: nat, totalInvalid: nat, requested: seq<seq<string>>)
    requires k > 0 && store.Holds(Empty) && store.outputLog == []
    modifies store
    ensures store.Holds(RunFold(store.loaded, Empty, items, k, key, an, replies, CeilDiv(|items|, k), 0))
    ensures totalDuplicates == RunFold(store.loaded, Empty, items, k, key, an, replies, CeilDiv(|items|, k), 0).duplicates
    ensures totalInvalid == Invalid(RunFold(store.loaded, Empty, items, k, key, an, replies, CeilDiv(|items|, k), 0).accepted)
    ensures raised == Raises(items, k, key, CeilDiv(|items|, k), 0)
    ensures !raised ==> (AllText(items, key) && |requested| == CeilDiv(|items|, k) &&
      Concat(requested) == Prompts(items, key, template).value)
    ensures NoFaults(faults) ==> store.outputLog == store.allResults
  {
    var nb := CeilDiv(|items|, k);
    ghost var final := RunFold(store.loaded, Empty, items, k, key, an, replies, nb, 0);
    ghost var cur := Empty;
    raised, totalDuplicates, totalInvalid, requested := false, 0, 0, [];
    var b := 0;
    PromptedNone(items, k, key, template);
    while b < nb && !raised
      decreases nb - b, if raised then 0 else 1
      invariant 0 <= b <= nb
      invariant store.Holds(cur) && totalDuplicates == cur.duplicates && totalInvalid == Invalid(cur.accepted)
      invariant !raised ==> RunFold(store.loaded, cur, items, k, key, an, replies, nb, b) == final
      invariant raised ==> cur == final
      invariant !raised ==> Raises(items, k, key, nb, 0) == Raises(items, k, key, nb, b)
      invariant raised ==> Raises(items, k, key, nb, 0)
      invariant !raised ==> Prompted(requested, items, k, key, template, b)
      invariant NoFaults(faults) ==> store.outputLog == store.allResults
    {
      NoFaultsAt(faults, b);
      var prompts;
      prompts, totalDuplicates, totalInvalid :=
        SendBatch(store, items, k, b, key, template, an, replies, faults, batchWriteSize, cur, totalDuplicates, totalInvalid);
      if prompts.None? {
        RaisesStep(items, k, key, nb, b);
        raised := true;
      } else {
        RaisesStep(items, k, key, nb, b);
        PromptedStep(items, k, key, template, b, requested, prompts.value);
        requested := requested + [prompts.value];
        cur := BatchFold(store.loaded, cur, items, k, key, an, replies, b);
        b := b + 1;
      }
    }
    if !raised {
      RunFoldDone(store.loaded, cur, items, k, key, an, replies, nb);
      PromptedAll(requested, items, k, key, template);
    }
  }

  /** Past the last batch the fold leaves the tally alone and nothing raises. */
  lemma RunFoldDone(seen: set<string>, t: Tally, items: seq<Value>, k: nat, key: string, an: Analysis,
                    replies: seq<Reply>, nb: nat)
    requires k > 0
    ensures RunFold(seen, t, items, k, key, an, replies, nb, nb) == t
    ensures !Raises(items, k, key, nb, nb)
  {
  }

  /** `requested` holds the prompt lists of the first `b` batches, which
      are, one after the other, the prompts of the first problems. */
  predicate Prompted(requested: seq<seq<string>>, items: seq<Value>, k: nat, key: string, template: string, b: nat)
    requires k > 0
  {
    |requested| == b && AllText(BatchesUpTo(items, k, b), key) &&
    Concat(requested) == Prompts(BatchesUpTo(items, k, b), key, template).value
  }

  /** Before the first batch nothing was sent. */
  lemma PromptedNone(items: seq<Value>, k: nat, key: string, template: string)
    requires k > 0
    ensures Prompted([], items, k, key, template, 0)
  {
    assert BatchesUpTo(items, k, 0) == [];
  }

  lemma PromptedStep(items: seq<Value>, k: nat, key: string, template: string, b: nat,
                     requested: seq<seq<string>>, next: seq<string>)
    requires k > 0 && Prompted(requested, items, k, key, template, b)
    requires Prompts(Batch(items, k, b), key, template) == Some(next)
    ensures Prompted(requested + [next], items, k, key, template, b + 1)
  {
    PromptsAppend(BatchesUpTo(items, k, b), Batch(items, k, b), key, template);
    ConcatAppend(requested, next);
  }

  /** After the last batch, the prompts sent are those of every problem, in order. */
  lemma PromptedAll(requested: seq<seq<string>>, items: seq<Value>, k: nat, key: string, template: string)
    requires k > 0 && Prompted(requested, items, k, key, template, CeilDiv(|items|, k))
    ensures AllText(items, key) && |requested| == CeilDiv(|items|, k)
    ensures Concat(requested) == Prompts(items, key, template).value
  {
    BatchesPartition(items, k);
  }

  /** What the batch loop accepts is the dedup of the run's offers: no uid
      twice, none that was loaded, each a well-formed skeleton record. */
  lemma RunAccepted(loaded: set<string>, items: seq<Value>, k: nat, key: string, an: Analysis, replies: seq<Reply>)
    requires k > 0
    ensures RunFold(loaded, Empty, items, k, key, an, replies, CeilDiv(|items|, k), 0) ==
      Tallied(loaded, RunOffers(items, k, key, an, replies, CeilDiv(|items|, k), 0))
    ensures var acc := Accepted(loaded, RunOffers(items, k, key, an, replies, CeilDiv(|items|, k), 0));
      Distinct(Uids(acc)) && (forall i :: 0 <= i < |acc| ==> acc[i].uid !in loaded) &&
      forall r :: r in acc ==> WellFormed(r, an)
  {
    var all := RunOffers(items, k, key, an, replies, CeilDiv(|items|, k), 0);
    RunFoldSteps(loaded, Empty, items, k, key, an, replies, CeilDiv(|items|, k), 0);
    TalliedAppend(loaded, [], all);
    assert [] + all == all;
    AcceptedUnique(loaded, all);
    AcceptedInOrder(loaded, all);
    RunOffersWellFormed(items, k, key, an, replies, CeilDiv(|items|, k), 0);
  }

  /** The part of `generate` after the early returns: batches over the
      non-empty problem list `items`, then the final flush. */
  method RunItems(items: seq<Value>, key: string, template: string, maxConcurrent: nat, batchWriteSize: int,
                  loaded: set<string>, an: Analysis,
                  replies: seq<Reply>, faults: seq<FlushFault>, finalFault: FlushFault)
    returns (raised: bool, results: seq<Record>, outputLog: seq<Record>, hashLog: seq<string>,
             totalDuplicates: nat, totalInvalid: nat, requested: seq<seq<string>>)
    requires maxConcurrent > 0
    ensures Raises(items, maxConcurrent, key, CeilDiv(|items|, maxConcurrent), 0) ==> raised
    ensures raised ==> Raises(items, maxConcurrent, key, CeilDiv(|items|, maxConcurrent), 0) || finalFault != NoFault
    ensures !raised ==>
      var offers := RunOffers(items, maxConcurrent, key, an, replies, CeilDiv(|items|, maxConcurrent), 0);
      results == Accepted(loaded, offers) && totalDuplicates == Duplicates(loaded, offers) &&
      totalInvalid == Invalid(results) &&
      AllText(items, key) && Concat(requested) == Prompts(items, key, template).value
    ensures !raised ==> forall r :: r in results ==> WellFormed(r, an)
    ensures !raised ==> hashLog == Uids(results) && IsSubseq(results, outputLog)
    ensures !raised && NoFaults(faults) ==> outputLog == results
    ensures Distinct(hashLog) && forall i :: 0 <= i < |hashLog| ==> hashLog[i] !in loaded
    ensures HashesRecorded(hashLog, outputLog)
  {
    var store := new Store(loaded);
    raised, totalDuplicates, totalInvalid, requested :=
      RunBatches(store, items, key, template, maxConcurrent, batchWriteSize, an, replies, faults);
    RunAccepted(loaded, items, maxConcurrent, key, an, replies);
    if !raised {
      var ok := store.FinalFlush(finalFault);
      raised := !ok;
    }
    if raised {
      UniquePrefix(loaded, store.allResults, store.pendingWrite);
    }
    results := store.allResults;
    outputLog := store.outputLog;
    hashLog := store.hashLog;
    HashesHaveRecords(results, outputLog, hashLog);
  }

  /** `generate(input_file, output_dir, prompt_template, num_samples, ...,
      batch_write_size, problem_key)`. The input file is given as its
      `lines`; `max_concurrent` is the client's concurrency limit, and a
      limit of 0 makes the batch count raise `ZeroDivisionError`. `raised`
      says that `generate` raised: while loading, while building the
      prompts of a batch, or in the final flush. */
  method Generate(lines: seq<string>, parse: string -> Option<Value>, key: string, template: string,
                  numSamples: Option<int>, maxConcurrent: nat, batchWriteSize: int,
                  loaded: set<string>, an: Analysis,
                  replies: seq<Reply>, faults: seq<FlushFault>, finalFault: FlushFault)
    returns (raised: bool, results: seq<Record>, outputLog: seq<Record>, hashLog: seq<string>,
             totalDuplicates: nat, totalInvalid: nat, requested: seq<seq<string>>)
    ensures Input(lines, key, parse, numSamples).None? ==> raised && outputLog == [] && hashLog == [] && requested == []
    ensures Input(lines, key, parse, numSamples) == Some([]) ==>
      !raised && results == [] && outputLog == [] && hashLog == [] && requested == []
    ensures Input(lines, key, parse, numSamples).Some? && Input(lines, key, parse, numSamples).value != [] && maxConcurrent == 0 ==>
      raised && outputLog == [] && hashLog == [] && requested == []
    ensures Input(lines, key, parse, numSamples).Some? && maxConcurrent > 0 ==>
      var items := Input(lines, key, parse, numSamples).value;
      (Raises(items, maxConcurrent, key, CeilDiv(|items|, maxConcurrent), 0) ==> raised) &&
      (raised ==> Raises(items, maxConcurrent, key, CeilDiv(|items|, maxConcurrent), 0) || finalFault != NoFault)
    ensures !raised ==> Input(lines, key, parse, numSamples).Some? && totalInvalid == Invalid(results)
    ensures !raised && Input(lines, key, parse, numSamples).Some? && Input(lines, key, parse, numSamples).value != [] ==>
      var items := Input(lines, key, parse, numSamples).value;
      maxConcurrent > 0 &&
      var offers := RunOffers(items, maxConcurrent, key, an, replies, CeilDiv(|items|, maxConcurrent), 0);
      results == Accepted(loaded, offers) && totalDuplicates == Duplicates(loaded, offers) &&
      AllText(items, key) && Concat(requested) == Prompts(items, key, template).value
    ensures !raised ==> forall r :: r in results ==> WellFormed(r, an)
    ensures !raised ==> hashLog == Uids(results) && IsSubseq(results, outputLog)
    ensures !raised && NoFaults(faults) ==> outputLog == results
    ensures Distinct(hashLog) && forall i :: 0 <= i < |hashLog| ==> hashLog[i] !in loaded
    ensures HashesRecorded(hashLog, outputLog)
  {
    var problems := LoadProblems(lines, key, parse);
    if problems.None? {
      return true, [], [], [], 0, 0, [];
    }
    var items := Take(problems.value, numSamples);
    if items == [] {
      return false, [], [], [], 0, 0, [];
    }
    if maxConcurrent == 0 {
      return true, [], [], [], 0, 0, [];
    }
    raised, results, outputLog, hashLog, totalDuplicates, totalInvalid, requested :=
      RunItems(items, key, template, maxConcurrent, batchWriteSize, loaded, an, replies, faults, finalFault);
  }
}
