/**
 * The dispatch loop of `use_prompt_templates`: every non-blank problem of every window is formatted
 * with its category's template, sent through the client, and recorded with its tagged prompt.
 */
module Dispatch {
  import opened Wrappers
  import opened Text
  import opened Filter
  import opened Transcript
  import opened Templates
  import opened Sampling

  /** One request the loop makes: the category and the stripped problem it formats. */
  datatype Job = Job(category: Category, problem: string)

  /**
   * `PROMPTS[prompt_type].format(problem=data)`: the text sent for a request. The template table is a
   * parameter of the specification so that the lemmas hold for any table; the script uses `TemplateOf`.
   */
  function PromptOf(j: Job, prompts: Category -> Template): string
  {
    Fill(prompts(j.category), j.problem)
  }

  /** An element of `responses`: `{"Prompt": ..., "Response": ...}`. */
  datatype Record = Record(prompt: string, response: string)

  /** The transcript and the collected responses, the two lists the loop grows. */
  datatype Session = Session(transcript: seq<Message>, responses: seq<Record>)

  /** `data.strip()` leaves something, so the item is not skipped. */
  predicate NonBlank(s: string)
  {
    Strip(s) != []
  }

  /** The requests made for one window: one per item that is not blank once stripped. */
  function JobsOf(c: Category, items: seq<string>): seq<Job>
    decreases |items|
  {
    if items == [] then []
    else
      var n := |items| - 1;
      var data := Strip(items[n]);
      JobsOf(c, items[..n]) + (if data == [] then [] else [Job(c, data)])
  }

  /** A window makes one request per item that is not blank once stripped. */
  lemma {:induction false} JobsOfCount(c: Category, items: seq<string>)
    ensures |JobsOf(c, items)| == |Where(items, NonBlank)|
    decreases |items|
  {
    if items != [] {
      JobsOfCount(c, items[..|items| - 1]);
    }
  }

  /** Every request a window makes carries that window's category. */
  lemma {:induction false} JobsOfCategory(c: Category, items: seq<string>)
    ensures forall k :: 0 <= k < |JobsOf(c, items)| ==> JobsOf(c, items)[k].category == c
    decreases |items|
  {
    if items != [] {
      JobsOfCategory(c, items[..|items| - 1]);
    }
  }

  /** Request `k` of a window is the `k`-th non-blank item of the window, stripped: in window order, none skipped or repeated. */
  lemma {:induction false} JobsOfAt(c: Category, items: seq<string>, k: nat)
    requires k < |JobsOf(c, items)|
    ensures k < |Where(items, NonBlank)|
    ensures JobsOf(c, items)[k] == Job(c, Strip(items[Where(items, NonBlank)[k]]))
    decreases |items|
  {
    var n := |items| - 1;
    var ix, ix' := Where(items, NonBlank), Where(items[..n], NonBlank);
    JobsOfCount(c, items[..n]);
    if k < |JobsOf(c, items[..n])| {
      JobsOfAt(c, items[..n], k);
      assert ix[k] == ix'[k];
      assert items[..n][ix'[k]] == items[ix[k]];
    } else {
      var data := Strip(items[n]);
      assert JobsOf(c, items) == JobsOf(c, items[..n]) + (if data == [] then [] else [Job(c, data)]);
      assert data != [];
      assert ix == ix' + [n];
    }
  }

  /** The requests made for a sequence of windows, window after window. */
  function Jobs(batches: seq<Batch>): seq<Job>
    decreases |batches|
  {
    if batches == [] then []
    else
      var n := |batches| - 1;
      Jobs(batches[..n]) + JobsOf(batches[n].category, batches[n].items)
  }

  /** One request: `call_gpt(prompt)` extends the transcript, and the tagged prompt and its reply are recorded. */
  function Turn(s: Session, j: Job, prompts: Category -> Template, model: Model): Session
  {
    var prompt := PromptOf(j, prompts);
    Session(AfterCall(s.transcript, prompt, model),
            s.responses + [Record(Tagged(j.category, prompt), Reply(s.transcript, prompt, model))])
  }

  /** The session after making the requests `js` in order, starting from `st`. */
  function Converse(st: Session, js: seq<Job>, prompts: Category -> Template, model: Model): Session
    decreases |js|
  {
    if js == [] then st
    else Turn(Converse(st, js[..|js| - 1], prompts, model), js[|js| - 1], prompts, model)
  }

  /**
   * A request appends its user message and the assistant's reply to the transcript, and its record to the
   * responses; the reply answers the transcript up to the user message; nothing earlier changes.
   */
  lemma {:induction false} TurnAppends(s: Session, j: Job, prompts: Category -> Template, model: Model)
    ensures var s' := Turn(s, j, prompts, model);
      var t, r := |s.transcript|, |s.responses|;
      && |s'.transcript| == t + 2 && |s'.responses| == r + 1
      && s.transcript <= s'.transcript && s.responses <= s'.responses
      && s'.transcript[t] == Message(User, PromptOf(j, prompts))
      && s'.transcript[t + 1] == Message(Assistant, s'.responses[r].response)
      && s'.responses[r] == Record(Tagged(j.category, PromptOf(j, prompts)), model(s'.transcript[..t + 1]))
  {
    CallAppendsTurn(s.transcript, PromptOf(j, prompts), model);
  }

  /** The windows are visited g, then e, then a: the requests form one block per category, in that order. */
  lemma {:induction false} JobsInCategoryOrder(g: seq<string>, e: seq<string>, a: seq<string>)
    ensures Jobs([Batch(Generate, g), Batch(Explain, e), Batch(Analyze, a)])
         == JobsOf(Generate, g) + JobsOf(Explain, e) + JobsOf(Analyze, a)
  {
    var w := [Batch(Generate, g), Batch(Explain, e), Batch(Analyze, a)];
    var w2 := [Batch(Generate, g), Batch(Explain, e)];
    var w1 := [Batch(Generate, g)];
    assert w[..2] == w2;
    assert w2[..1] == w1;
    assert w1[..0] == [];
    assert Jobs(w1) == JobsOf(Generate, g);
    assert Jobs(w2) == Jobs(w1) + JobsOf(Explain, e);
    assert Jobs(w) == Jobs(w2) + JobsOf(Analyze, a);
  }

  /** Requests only append: the lengths grow by two messages and one record per request, and nothing earlier changes. */
  lemma {:induction false} ConverseGrows(st: Session, js: seq<Job>, prompts: Category -> Template, model: Model)
    ensures var s := Converse(st, js, prompts, model);
      && |s.transcript| == |st.transcript| + 2 * |js|
      && |s.responses| == |st.responses| + |js|
      && st.transcript <= s.transcript
      && st.responses <= s.responses
    decreases |js|
  {
    if js != [] {
      var n := |js| - 1;
      var s0 := Converse(st, js[..n], prompts, model);
      ConverseGrows(st, js[..n], prompts, model);
      TurnAppends(s0, js[n], prompts, model);
    }
  }

  /** Making more requests only appends: the session after the first `m` requests is a prefix of the final one. */
  lemma {:induction false} ConversePrefix(st: Session, js: seq<Job>, m: nat, prompts: Category -> Template, model: Model)
    requires m <= |js|
    ensures var s1, s := Converse(st, js[..m], prompts, model), Converse(st, js, prompts, model);
      s1.transcript <= s.transcript && s1.responses <= s.responses
    decreases |js|
  {
    if m == |js| {
      assert js[..m] == js;
    } else {
      var n := |js| - 1;
      ConversePrefix(st, js[..n], m, prompts, model);
      assert js[..n][..m] == js[..m];
      TurnAppends(Converse(st, js[..n], prompts, model), js[n], prompts, model);
    }
  }

  /**
   * `s` holds request `j`'s turn at transcript position `t` and record `r`: a user message holding its
   * prompt, then an assistant message holding the reply; the reply answers the whole transcript up to
   * that user message; the record pairs the tagged prompt with that reply.
   */
  predicate HoldsTurn(s: Session, t: nat, r: nat, j: Job, prompts: Category -> Template, model: Model)
  {
    && t + 1 < |s.transcript| && r < |s.responses|
    && s.transcript[t] == Message(User, PromptOf(j, prompts))
    && s.transcript[t + 1] == Message(Assistant, s.responses[r].response)
    && s.responses[r] == Record(Tagged(j.category, PromptOf(j, prompts)), model(s.transcript[..t + 1]))
  }

  /** Request `k` holds transcript positions `2k + 1` and `2k + 2` past the start, and record `k` past it. */
  lemma {:induction false} ConverseAt(st: Session, js: seq<Job>, prompts: Category -> Template, model: Model, k: nat)
    requires k < |js|
    ensures HoldsTurn(Converse(st, js, prompts, model), |st.transcript| + 2 * k, |st.responses| + k, js[k], prompts, model)
  {
    var s0 := Converse(st, js[..k], prompts, model);
    ConverseGrows(st, js[..k], prompts, model);
    ConverseUpTo(st, js, k, prompts, model);
    ConversePrefix(st, js, k + 1, prompts, model);
    TurnWithin(s0, js[k], prompts, model, Converse(st, js, prompts, model), |st.transcript| + 2 * k, |st.responses| + k);
  }

  /** The session after the first `k + 1` requests is the session after the first `k`, plus request `k`'s turn. */
  lemma {:induction false} ConverseUpTo(st: Session, js: seq<Job>, k: nat, prompts: Category -> Template, model: Model)
    requires k < |js|
    ensures Converse(st, js[..k + 1], prompts, model) == Turn(Converse(st, js[..k], prompts, model), js[k], prompts, model)
  {
    assert js[..k + 1][..k] == js[..k];
  }

  /** A request's turn, once made, stays in every later session. */
  lemma {:induction false} TurnWithin(s0: Session, j: Job, prompts: Category -> Template, model: Model, s: Session, t: nat, r: nat)
    requires t == |s0.transcript| && r == |s0.responses|
    requires Turn(s0, j, prompts, model).transcript <= s.transcript
    requires Turn(s0, j, prompts, model).responses <= s.responses
    ensures HoldsTurn(s, t, r, j, prompts, model)
  {
    var s1 := Turn(s0, j, prompts, model);
    TurnAppends(s0, j, prompts, model);
    Extends(s1.transcript, s.transcript, t);
    Extends(s1.transcript, s.transcript, t + 1);
    Extends(s1.responses, s.responses, r);
  }

  /** Below the length of a prefix, a sequence and its prefix agree. */
  lemma {:induction false} Extends<T>(a: seq<T>, b: seq<T>, i: nat)
    requires a <= b && i < |a|
    ensures b[i] == a[i] && b[..i + 1] == a[..i + 1]
  {
  }

  /** Requests keep the system message first and the user/assistant alternation. */
  lemma {:induction false} ConverseKeepsWellFormed(system: string, st: Session, js: seq<Job>, prompts: Category -> Template, model: Model)
    requires WellFormed(system, st.transcript)
    ensures WellFormed(system, Converse(st, js, prompts, model).transcript)
    decreases |js|
  {
    if js != [] {
      var n := |js| - 1;
      ConverseKeepsWellFormed(system, st, js[..n], prompts, model);
      CallKeepsWellFormed(system, Converse(st, js[..n], prompts, model).transcript, PromptOf(js[n], prompts), model);
    }
  }

  /** Making `js1` and then `js2` is making `js1 + js2`. */
  lemma {:induction false} ConverseAppend(st: Session, js1: seq<Job>, js2: seq<Job>, prompts: Category -> Template, model: Model)
    ensures Converse(Converse(st, js1, prompts, model), js2, prompts, model) == Converse(st, js1 + js2, prompts, model)
    decreases |js2|
  {
    if js2 != [] {
      var n := |js2| - 1;
      var js := js1 + js2;
      ConverseAppend(st, js1, js2[..n], prompts, model);
      assert js[..|js| - 1] == js1 + js2[..n];
      assert js[|js| - 1] == js2[n];
    } else {
      assert js1 + js2 == js1;
    }
  }

  /**
   * A whole run from a fresh client: one record per non-blank sampled problem, a transcript of
   * 1 + 2 * |responses| messages that keeps the system message and alternates user/assistant.
   */
  lemma {:induction false} RunShape(system: string, shuffled: seq<string>, prompts: Category -> Template, model: Model)
    requires |shuffled| >= MinEntries
    ensures var w := Partition(shuffled);
      var s := Converse(Session([Message(System, system)], []), Jobs(w), prompts, model);
      && |s.responses| == Count(w[0].items, NonBlank) + Count(w[1].items, NonBlank) + Count(w[2].items, NonBlank)
      && |s.transcript| == 1 + 2 * |s.responses|
      && WellFormed(system, s.transcript)
  {
    var w := Partition(shuffled);
    var st := Session([Message(System, system)], []);
    assert w == [Batch(Generate, w[0].items), Batch(Explain, w[1].items), Batch(Analyze, w[2].items)];
    WindowsJobCount(w[0].items, w[1].items, w[2].items);
    ConverseGrows(st, Jobs(w), prompts, model);
    ConverseKeepsWellFormed(system, st, Jobs(w), prompts, model);
  }

  /** The three windows make one request per non-blank item among them. */
  lemma {:induction false} WindowsJobCount(g: seq<string>, e: seq<string>, a: seq<string>)
    ensures |Jobs([Batch(Generate, g), Batch(Explain, e), Batch(Analyze, a)])|
         == Count(g, NonBlank) + Count(e, NonBlank) + Count(a, NonBlank)
  {
    JobsInCategoryOrder(g, e, a);
    JobsOfCount(Generate, g);
    JobsOfCount(Explain, e);
    JobsOfCount(Analyze, a);
    WhereCount(g, NonBlank);
    WhereCount(e, NonBlank);
    WhereCount(a, NonBlank);
  }

  /**
   * The records of the three windows form three contiguous blocks: the first `Count(g)` are tagged g,
   * the next `Count(e)` are tagged e, the rest are tagged a.
   */
  lemma {:induction false} RecordBlocks(st: Session, g: seq<string>, e: seq<string>, a: seq<string>,
                                        prompts: Category -> Template, model: Model, k: nat)
    requires k < Count(g, NonBlank) + Count(e, NonBlank) + Count(a, NonBlank)
    ensures var s := Converse(st, Jobs([Batch(Generate, g), Batch(Explain, e), Batch(Analyze, a)]), prompts, model);
      var ng, ne := Count(g, NonBlank), Count(e, NonBlank);
      && |st.responses| + k < |s.responses|
      && Untag(s.responses[|st.responses| + k].prompt).Some?
      && Untag(s.responses[|st.responses| + k].prompt).value.0
         == (if k < ng then Generate else if k < ng + ne then Explain else Analyze)
  {
    var js := Jobs([Batch(Generate, g), Batch(Explain, e), Batch(Analyze, a)]);
    JobsInCategoryOrder(g, e, a);
    WindowsJobCount(g, e, a);
    JobsOfCount(Generate, g);
    JobsOfCount(Explain, e);
    WhereCount(g, NonBlank);
    WhereCount(e, NonBlank);
    JobCategoryAt(g, e, a, k);
    ConverseAt(st, js, prompts, model, k);
    TaggedRoundTrip(js[k].category, PromptOf(js[k], prompts));
  }

  /** In the requests of the three windows, request `k` carries the category of the block it falls in. */
  lemma {:induction false} JobCategoryAt(g: seq<string>, e: seq<string>, a: seq<string>, k: nat)
    requires k < |JobsOf(Generate, g)| + |JobsOf(Explain, e)| + |JobsOf(Analyze, a)|
    ensures var jg, je := JobsOf(Generate, g), JobsOf(Explain, e);
      (jg + je + JobsOf(Analyze, a))[k].category
        == if k < |jg| then Generate else if k < |jg| + |je| then Explain else Analyze
  {
    var jg, je, ja := JobsOf(Generate, g), JobsOf(Explain, e), JobsOf(Analyze, a);
    if k < |jg| {
      JobsOfCategory(Generate, g);
      assert (jg + je + ja)[k] == jg[k];
    } else if k < |jg| + |je| {
      JobsOfCategory(Explain, e);
      assert (jg + je + ja)[k] == je[k - |jg|];
    } else {
      JobsOfCategory(Analyze, a);
      assert (jg + je + ja)[k] == ja[k - |jg| - |je|];
    }
  }

  /** Three blocks of 50 requests each, g then e then a: request `j` belongs to window `j / 50`. */
  lemma {:induction false} BlocksOfFifty(g: seq<string>, e: seq<string>, a: seq<string>)
    requires |JobsOf(Generate, g)| == |JobsOf(Explain, e)| == |JobsOf(Analyze, a)| == WindowSize
    ensures var js := JobsOf(Generate, g) + JobsOf(Explain, e) + JobsOf(Analyze, a);
      forall j :: 0 <= j < MinEntries ==> js[j].category == CategoryOrder[j / WindowSize]
  {
    JobsOfCategory(Generate, g);
    JobsOfCategory(Explain, e);
    JobsOfCategory(Analyze, a);
    var jg, je, ja := JobsOf(Generate, g), JobsOf(Explain, e), JobsOf(Analyze, a);
    var js := jg + je + ja;
    forall j | 0 <= j < MinEntries ensures js[j].category == CategoryOrder[j / WindowSize] {
      if j < 50 {
        assert j / WindowSize == 0;
        assert js[j] == jg[j];
      } else if j < 100 {
        assert j / WindowSize == 1;
        assert js[j] == je[j - 50];
      } else {
        assert j / WindowSize == 2;
        assert js[j] == ja[j - 100];
      }
    }
  }

  /** Three full windows with no blank item make 150 requests: 50 g, then 50 e, then 50 a. */
  lemma {:induction false} FullWindows(g: seq<string>, e: seq<string>, a: seq<string>)
    requires |g| == |e| == |a| == WindowSize
    requires forall i :: 0 <= i < WindowSize ==> NonBlank(g[i]) && NonBlank(e[i]) && NonBlank(a[i])
    ensures var js := Jobs([Batch(Generate, g), Batch(Explain, e), Batch(Analyze, a)]);
      && |js| == MinEntries
      && forall j :: 0 <= j < MinEntries ==> js[j].category == CategoryOrder[j / WindowSize]
  {
    JobsInCategoryOrder(g, e, a);
    JobsOfCount(Generate, g);
    JobsOfCount(Explain, e);
    JobsOfCount(Analyze, a);
    WhereAll(g, NonBlank);
    WhereAll(e, NonBlank);
    WhereAll(a, NonBlank);
    BlocksOfFifty(g, e, a);
  }

  /** With no blank problem among the 150 drawn, 150 requests are made: 50 g, then 50 e, then 50 a. */
  lemma {:induction false} FullSample(shuffled: seq<string>)
    requires |shuffled| >= MinEntries
    requires forall i :: 0 <= i < MinEntries ==> NonBlank(shuffled[i])
    ensures |Jobs(Partition(shuffled))| == MinEntries
    ensures forall j :: 0 <= j < MinEntries ==> Jobs(Partition(shuffled))[j].category == CategoryOrder[j / WindowSize]
  {
    var g, e, a := shuffled[..50], shuffled[50..100], shuffled[100..150];
    assert Partition(shuffled) == [Batch(Generate, g), Batch(Explain, e), Batch(Analyze, a)];
    forall i | 0 <= i < WindowSize ensures NonBlank(g[i]) && NonBlank(e[i]) && NonBlank(a[i]) {
      assert g[i] == shuffled[i] && e[i] == shuffled[i + 50] && a[i] == shuffled[i + 100];
    }
    FullWindows(g, e, a);
  }

  /** One more item of a window adds at most one request: its stripped text, unless that is empty. */
  lemma {:induction false} JobsOfStep(c: Category, items: seq<string>, i: nat)
    requires i < |items|
    ensures JobsOf(c, items[..i + 1])
         == JobsOf(c, items[..i]) + (if Strip(items[i]) == [] then [] else [Job(c, Strip(items[i]))])
  {
    assert items[..i + 1][..i] == items[..i];
  }

  /** One more window adds that window's requests. */
  lemma {:induction false} JobsStep(batches: seq<Batch>, b: nat)
    requires b < |batches|
    ensures Jobs(batches[..b + 1]) == Jobs(batches[..b]) + JobsOf(batches[b].category, batches[b].items)
  {
    assert batches[..b + 1][..b] == batches[..b];
  }

  /** One more item of a window makes no request when it is blank once stripped, and one request otherwise. */
  lemma {:induction false} ConverseNextItem(st: Session, c: Category, items: seq<string>, i: nat, prompts: Category -> Template, model: Model)
    requires i < |items|
    ensures var s := Converse(st, JobsOf(c, items[..i]), prompts, model);
      Converse(st, JobsOf(c, items[..i + 1]), prompts, model)
        == if Strip(items[i]) == [] then s else Turn(s, Job(c, Strip(items[i])), prompts, model)
  {
    JobsOfStep(c, items, i);
    if Strip(items[i]) == [] {
      assert JobsOf(c, items[..i + 1]) == JobsOf(c, items[..i]);
    } else {
      ConverseStep(st, JobsOf(c, items[..i]), Job(c, Strip(items[i])), prompts, model);
    }
  }

  /** Making the requests of one more window continues the session of the windows before it. */
  lemma {:induction false} ConverseNextWindow(st: Session, batches: seq<Batch>, b: nat, prompts: Category -> Template, model: Model)
    requires b < |batches|
    ensures Converse(Converse(st, Jobs(batches[..b]), prompts, model), JobsOf(batches[b].category, batches[b].items), prompts, model)
         == Converse(st, Jobs(batches[..b + 1]), prompts, model)
  {
    ConverseAppend(st, Jobs(batches[..b]), JobsOf(batches[b].category, batches[b].items), prompts, model);
    JobsStep(batches, b);
  }

  /** One more request appends one turn to the transcript and one record to the responses. */
  lemma {:induction false} ConverseStep(st: Session, js: seq<Job>, j: Job, prompts: Category -> Template, model: Model)
    ensures Converse(st, js + [j], prompts, model) == Turn(Converse(st, js, prompts, model), j, prompts, model)
  {
    assert (js + [j])[..|js|] == js;
  }

  /**
   * The inner loop of `use_prompt_templates` (`for data in items`): strip, skip blanks, format with the
   * category's template, send, and append the tagged record to `responses`.
   */
  method SendWindow(client: Client, promptType: Category, items: seq<string>, responses0: seq<Record>)
    returns (responses: seq<Record>)
    requires client.Valid()
    modifies client
    ensures client.Valid()
    ensures Session(client.messages, responses)
         == Converse(Session(old(client.messages), responses0), JobsOf(promptType, items), TemplateOf, client.model)
  {
    ghost var st0 := Session(client.messages, responses0);
    responses := responses0;
    for i := 0 to |items|
      invariant client.Valid()
      invariant Session(client.messages, responses) == Converse(st0, JobsOf(promptType, items[..i]), TemplateOf, client.model)
    {
      ConverseNextItem(st0, promptType, items, i, TemplateOf, client.model);
      var data := Strip(items[i]);
      if data == [] {
        continue;
      }
      var prompt := Fill(TemplateOf(promptType), data);
      var response := client.Send(prompt);
      responses := responses + [Record(Tagged(promptType, prompt), response)];
    }
    assert items[..|items|] == items;
  }

  /**
   * The outer loop of `use_prompt_templates` (`for prompt_type, items in prompts_by_type.items()`):
   * the windows in order, each through `SendWindow`, all into one `responses` list.
   */
  method SendWindows(client: Client, batches: seq<Batch>) returns (responses: seq<Record>)
    requires client.Valid()
    modifies client
    ensures client.Valid()
    ensures Session(client.messages, responses)
         == Converse(Session(old(client.messages), []), Jobs(batches), TemplateOf, client.model)
  {
    ghost var st0 := Session(client.messages, []);
    responses := [];
    for b := 0 to |batches|
      invariant client.Valid()
      invariant Session(client.messages, responses) == Converse(st0, Jobs(batches[..b]), TemplateOf, client.model)
    {
      responses := SendWindow(client, batches[b].category, batches[b].items, responses);
      ConverseNextWindow(st0, batches, b, TemplateOf, client.model);
    }
    assert batches[..|batches|] == batches;
  }

  /**
   * `use_prompt_templates` on an already loaded dataset. `shuffle` stands for `random.shuffle`;
   * the responses are returned instead of being written to `output.json`.
   */
  method UsePromptTemplates(client: Client, dataset: seq<Item>, shuffle: seq<string> -> seq<string>)
    returns (r: Result<seq<Record>, Error>)
    requires client.Valid()
    requires IsShuffle(shuffle)
    modifies client
    ensures client.Valid()
    ensures Prepare(dataset, shuffle).Failure? ==>
      r == Failure(Prepare(dataset, shuffle).error) && client.messages == old(client.messages)
    ensures Prepare(dataset, shuffle).Success? ==>
      var s := Converse(Session(old(client.messages), []), Jobs(Prepare(dataset, shuffle).value), TemplateOf, client.model);
      r == Success(s.responses) && client.messages == s.transcript
  {
    if |dataset| < MinEntries {
      return Failure(TooFewEntries);
    }
    var problems := Problems(dataset);
    if |problems| < MinEntries {
      return Failure(TooFewValid);
    }
    var shuffled := shuffle(problems);
    assert |multiset(shuffled)| == |multiset(problems)|;
    var promptsByType := Partition(shuffled);
    var responses := SendWindows(client, promptsByType);
    return Success(responses);
  }
}
