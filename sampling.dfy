/**
 * Validation, filtering and partitioning in `use_prompt_templates`: the dataset must have at least
 * 150 records and at least 150 `sQuestion` values; the shuffled values are cut into three windows of 50.
 */
module Sampling {
  import opened Wrappers
  import opened Filter
  import opened Templates

  /** A dataset record, as a JSON object read into a dictionary. */
  type Item = map<string, string>

  const QuestionKey: string := "sQuestion"
  const MinEntries: nat := 150
  const WindowSize: nat := 50

  /** The two `ValueError`s raised before any request is made. */
  datatype Error = TooFewEntries | TooFewValid

  /** One entry of `prompts_by_type`: a category and the window of problems it draws. */
  datatype Batch = Batch(category: Category, items: seq<string>)

  predicate HasQuestion(item: Item)
  {
    QuestionKey in item
  }

  /** `[item["sQuestion"] for item in dataset if "sQuestion" in item]` */
  function Problems(dataset: seq<Item>): (r: seq<string>)
    ensures |r| == |Where(dataset, HasQuestion)| <= |dataset|
    ensures forall k :: 0 <= k < |r| ==> r[k] == dataset[Where(dataset, HasQuestion)[k]][QuestionKey]
    decreases |dataset|
  {
    if dataset == [] then []
    else
      var n := |dataset| - 1;
      Problems(dataset[..n]) + (if HasQuestion(dataset[n]) then [dataset[n][QuestionKey]] else [])
  }

  /** The number of problems is the number of records that carry an `sQuestion` field. */
  lemma {:induction false} ProblemsCount(dataset: seq<Item>)
    ensures |Problems(dataset)| == Count(dataset, HasQuestion)
  {
    WhereCount(dataset, HasQuestion);
  }

  /** `random.shuffle`: whatever order it picks, it only rearranges the list it is given. */
  ghost predicate IsShuffle(shuffle: seq<string> -> seq<string>)
  {
    forall s :: multiset(shuffle(s)) == multiset(s)
  }

  /** `prompts_by_type`: three consecutive windows of 50, tagged g, e, a; the rest is never used. */
  function Partition(shuffled: seq<string>): (w: seq<Batch>)
    requires |shuffled| >= MinEntries
    ensures |w| == |CategoryOrder|
    ensures forall k :: 0 <= k < |w| ==> w[k].category == CategoryOrder[k] && |w[k].items| == WindowSize
    ensures forall k, i :: 0 <= k < |w| && 0 <= i < WindowSize ==> w[k].items[i] == shuffled[WindowSize * k + i]
    ensures w[0].items + w[1].items + w[2].items == shuffled[..MinEntries]
  {
    var w := [Batch(Generate, shuffled[..50]), Batch(Explain, shuffled[50..100]), Batch(Analyze, shuffled[100..150])];
    assert shuffled[..150] == shuffled[..50] + shuffled[50..100] + shuffled[100..150];
    w
  }

  /** The checks and the sampling that come before the first request. */
  function Prepare(dataset: seq<Item>, shuffle: seq<string> -> seq<string>): (r: Result<seq<Batch>, Error>)
    requires IsShuffle(shuffle)
    ensures r == Failure(TooFewEntries) <==> |dataset| < MinEntries
    ensures r == Failure(TooFewValid) <==> |dataset| >= MinEntries && |Problems(dataset)| < MinEntries
    ensures r.Success? ==>
      && |shuffle(Problems(dataset))| == |Problems(dataset)| >= MinEntries
      && r.value == Partition(shuffle(Problems(dataset)))
  {
    if |dataset| < MinEntries then Failure(TooFewEntries)
    else
      var problems := Problems(dataset);
      if |problems| < MinEntries then Failure(TooFewValid)
      else
        var shuffled := shuffle(problems);
        assert |multiset(shuffled)| == |multiset(problems)|;
        Success(Partition(shuffled))
  }

  /** The three windows never use a position of the shuffled list twice. */
  lemma {:induction false} PartitionDrawsOnce(shuffled: seq<string>)
    requires |shuffled| >= MinEntries
    ensures var w := Partition(shuffled);
      multiset(w[0].items) + multiset(w[1].items) + multiset(w[2].items) <= multiset(shuffled)
  {
    var w := Partition(shuffled);
    assert shuffled == shuffled[..MinEntries] + shuffled[MinEntries..];
    assert multiset(w[0].items + w[1].items + w[2].items) == multiset(w[0].items) + multiset(w[1].items) + multiset(w[2].items);
  }

  /** The three windows draw without replacement: together they use each problem at most as often as it occurs. */
  lemma {:induction false} SampleWithoutReplacement(dataset: seq<Item>, shuffle: seq<string> -> seq<string>)
    requires IsShuffle(shuffle)
    requires Prepare(dataset, shuffle).Success?
    ensures var w := Prepare(dataset, shuffle).value;
      multiset(w[0].items) + multiset(w[1].items) + multiset(w[2].items) <= multiset(Problems(dataset))
  {
    var shuffled := shuffle(Problems(dataset));
    PartitionDrawsOnce(shuffled);
    assert multiset(shuffled) == multiset(Problems(dataset));
  }
}
