/** The three prompt templates (`PROMPTS`) and the category tag written in front of each stored prompt. */
module Templates {
  import opened Wrappers

  /** The keys of `PROMPTS`: generate, explain, analyze. */
  datatype Category = Generate | Explain | Analyze

  /** The insertion order of `prompts_by_type`, which is the order the dispatch loop visits. */
  const CategoryOrder: seq<Category> := [Generate, Explain, Analyze]

  function Key(c: Category): string
  {
    match c
    case Generate => "g"
    case Explain => "e"
    case Analyze => "a"
  }

  function CategoryOfKey(k: string): (r: Option<Category>)
  {
    if k == "g" then Some(Generate)
    else if k == "e" then Some(Explain)
    else if k == "a" then Some(Analyze)
    else None
  }

  /** A format string with one `{problem}` slot: the text before it and the text after it. */
  datatype Template = Template(before: string, after: string)

  function TemplateOf(c: Category): Template
  {
    match c
    case Generate => Template("Create a new algebra word problem similar to this along with the solution: ", "")
    case Explain => Template("Explain the steps to solve this algebra problem: ", "")
    case Analyze => Template("Analyze potential mistakes a student might make with this problem: ", "")
  }

  /** `template.format(problem=problem)`; the substituted text is not itself reinterpreted. */
  function Fill(t: Template, problem: string): string
  {
    t.before + problem + t.after
  }

  /** Recovers the substituted problem from a filled template, if the text has the template's shape. */
  function Unfill(t: Template, s: string): Option<string>
  {
    if |t.before| + |t.after| <= |s| && s[..|t.before|] == t.before && s[|s| - |t.after|..] == t.after
    then Some(s[|t.before|..|s| - |t.after|])
    else None
  }

  /** `f"({prompt_type}) {prompt}"` */
  function Tagged(c: Category, prompt: string): string
  {
    "(" + Key(c) + ") " + prompt
  }

  /** Splits a stored prompt back into its category and the prompt that was sent. */
  function Untag(s: string): Option<(Category, string)>
  {
    if |s| >= 4 && s[0] == '(' && s[2..4] == ") " then
      match CategoryOfKey(s[1..2])
      case Some(c) => Some((c, s[4..]))
      case None => None
    else None
  }

  lemma {:induction false} KeyRoundTrip(c: Category)
    ensures CategoryOfKey(Key(c)) == Some(c)
    ensures |Key(c)| == 1
  {
  }

  /** Different categories carry different tags. */
  lemma {:induction false} KeyInjective(c: Category, d: Category)
    ensures Key(c) == Key(d) <==> c == d
  {
  }

  lemma {:induction false} FillRoundTrip(t: Template, problem: string)
    ensures Unfill(t, Fill(t, problem)) == Some(problem)
  {
    var s := Fill(t, problem);
    assert s[..|t.before|] == t.before;
    assert s[|s| - |t.after|..] == t.after;
    assert s[|t.before|..|s| - |t.after|] == problem;
  }

  lemma {:induction false} UnfillRoundTrip(t: Template, s: string)
    requires Unfill(t, s).Some?
    ensures Fill(t, Unfill(t, s).value) == s
  {
    var p := Unfill(t, s).value;
    assert s == s[..|t.before|] + p + s[|s| - |t.after|..];
  }

  /** The tag can be read back from every stored prompt. */
  lemma {:induction false} TaggedRoundTrip(c: Category, prompt: string)
    ensures Untag(Tagged(c, prompt)) == Some((c, prompt))
  {
    var s := Tagged(c, prompt);
    assert s[1..2] == Key(c);
    assert s[2..4] == ") ";
    assert s[4..] == prompt;
  }

  lemma {:induction false} UntagRoundTrip(s: string)
    requires Untag(s).Some?
    ensures Tagged(Untag(s).value.0, Untag(s).value.1) == s
  {
    var c := Untag(s).value.0;
    assert Key(c) == s[1..2];
    assert s == [s[0]] + s[1..2] + s[2..4] + s[4..];
  }
}
