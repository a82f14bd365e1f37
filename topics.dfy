/**
 * `generate_dynamic_prompt`: pick the least-discussed phrases from the
 * accumulated state and render the next turn's prompt.
 */
module Topics {
  import opened Wrappers
  import opened Text
  import opened Phrases

  /** The one way the prompt builder fails: `min` over an empty `state.values()`. */
  datatype PromptError = MinOfEmptyState

  /** a can be obtained from b by deleting elements, so a keeps b's order. */
  ghost predicate IsSubsequence(a: seq<string>, b: seq<string>)
    decreases |b|
  {
    a == [] ||
    (b != [] && ((a[0] == b[0] && IsSubsequence(a[1..], b[1..])) || IsSubsequence(a, b[1..])))
  }

  /** `xs.count(p)`: how many elements of xs equal p. */
  function Count(xs: seq<string>, p: string): nat
  {
    if xs == [] then 0 else (if xs[0] == p then 1 else 0) + Count(xs[1..], p)
  }

  lemma {:induction false} CountPositive(xs: seq<string>, p: string)
    ensures Count(xs, p) > 0 <==> p in xs
  {
    if xs != [] {
      CountPositive(xs[1..], p);
      assert xs == [xs[0]] + xs[1..];
    }
  }

  /** The points of xs, in order, that occur exactly m times in all. */
  function KeepWithCount(xs: seq<string>, all: seq<string>, m: nat): seq<string>
  {
    if xs == [] then []
    else (if Count(all, xs[0]) == m then [xs[0]] else []) + KeepWithCount(xs[1..], all, m)
  }

  /** `[point for point in all if all.count(point) == m]`. */
  function LeastDiscussed(all: seq<string>, m: nat): seq<string>
  {
    KeepWithCount(all, all, m)
  }

  lemma {:induction false} KeepWithCountOccurrences(xs: seq<string>, all: seq<string>, m: nat, p: string)
    ensures Count(KeepWithCount(xs, all, m), p) == if Count(all, p) == m then Count(xs, p) else 0
  {
    if xs != [] {
      KeepWithCountOccurrences(xs[1..], all, m, p);
      var rest := KeepWithCount(xs[1..], all, m);
      if Count(all, xs[0]) == m {
        assert ([xs[0]] + rest)[1..] == rest;
      } else {
        assert KeepWithCount(xs, all, m) == rest;
      }
    }
  }

  lemma {:induction false} KeepWithCountSubsequence(xs: seq<string>, all: seq<string>, m: nat)
    ensures IsSubsequence(KeepWithCount(xs, all, m), xs)
  {
    if xs != [] {
      KeepWithCountSubsequence(xs[1..], all, m);
      var rest := KeepWithCount(xs[1..], all, m);
      if Count(all, xs[0]) == m {
        assert ([xs[0]] + rest)[1..] == rest;
        assert IsSubsequence(([xs[0]] + rest)[1..], xs[1..]);
      } else {
        assert KeepWithCount(xs, all, m) == rest;
      }
    }
  }

  /**
   * The selection holds exactly the occurrences of the phrases that occur m
   * times: such a phrase is selected m times, every other phrase never; it
   * keeps their order; and with m == 0 it is empty.
   */
  lemma LeastDiscussedOccurrences(all: seq<string>, m: nat)
    ensures forall p :: Count(LeastDiscussed(all, m), p) == if Count(all, p) == m then m else 0
    ensures forall p :: p in LeastDiscussed(all, m) ==> Count(all, p) == m
    ensures IsSubsequence(LeastDiscussed(all, m), all)
    ensures m == 0 ==> LeastDiscussed(all, m) == []
  {
    var sel := LeastDiscussed(all, m);
    forall p ensures Count(sel, p) == if Count(all, p) == m then m else 0 {
      KeepWithCountOccurrences(all, all, m, p);
    }
    forall p | p in sel ensures Count(all, p) == m {
      CountPositive(sel, p);
    }
    KeepWithCountSubsequence(all, all, m);
    if m == 0 && sel != [] {
      CountPositive(sel, sel[0]);
    }
  }

  /**
   * `topics_to_discuss`: the flattened phrases whose count equals the length
   * of the shortest per-agent list; `None` where `min` raises.
   */
  function TopicsToDiscuss(t: PhraseTable): (r: Option<seq<string>>)
    ensures r.None? <==> t.order == []
  {
    match MinLength(t.Values())
    case None => None
    case Some(m) => Some(LeastDiscussed(Flatten(t.Values()), m))
  }

  /**
   * With at least one key, the topics are the phrases whose number of
   * occurrences in the flattened state equals the length m of the shortest
   * list, each kept as often as it occurs, in flattened order; and when some
   * agent's list is empty (m == 0) nothing is selected.
   */
  lemma TopicsToDiscussSelects(t: PhraseTable)
    requires t.order != []
    ensures TopicsToDiscuss(t).Some?
    ensures var sel, all, m := TopicsToDiscuss(t).value, Flatten(t.Values()), MinLength(t.Values()).value;
      && (forall i :: 0 <= i < |t.order| ==> m <= |t.Lookup(t.order[i])|)
      && (exists i :: 0 <= i < |t.order| && |t.Lookup(t.order[i])| == m)
      && (forall p :: Count(sel, p) == if Count(all, p) == m then m else 0)
      && IsSubsequence(sel, all)
    ensures (exists k :: k in t.order && t.Lookup(k) == []) ==> TopicsToDiscuss(t).value == []
  {
    var vs := t.Values();
    var m := MinLength(vs).value;
    MinLengthIsShortest(vs);
    LeastDiscussedOccurrences(Flatten(vs), m);
    assert forall i :: 0 <= i < |t.order| ==> vs[i] == t.Lookup(t.order[i]);
    if exists k :: k in t.order && t.Lookup(k) == [] {
      var k :| k in t.order && t.Lookup(k) == [];
      var i :| 0 <= i < |t.order| && t.order[i] == k;
      assert |vs[i]| == 0;
    }
  }

  const Opening := "Review the original prompt: "
  const Closing := ". Avoid repeating previous points and introduce new perspectives or information."

  /** `[f"Agent {i+1}: {resp}" for i, resp in enumerate(responses)]`. */
  function Labelled(responses: seq<string>): seq<string>
  {
    seq(|responses|, i requires 0 <= i < |responses| => "Agent " + DecimalString(i + 1) + ": " + responses[i])
  }

  /** The elaboration request that ends every prompt. */
  function Elaborate(topics: seq<string>): string
  {
    "\n\nPlease elaborate on: " + Join(", ", topics) + Closing
  }

  /** The f-string that `generate_dynamic_prompt` returns. */
  function RenderPrompt(initial: string, responses: seq<string>, topics: seq<string>): string
  {
    Opening + initial + ResponsesHeader + Join("\n", Labelled(responses)) + Elaborate(topics)
  }

  /** `generate_dynamic_prompt(initial_prompt, responses)` over the state t; it fails exactly when t has no key. */
  function DynamicPrompt(initial: string, responses: seq<string>, t: PhraseTable): (r: Result<string, PromptError>)
    ensures r.Failure? <==> t.order == []
  {
    match TopicsToDiscuss(t)
    case None => Failure(MinOfEmptyState)
    case Some(topics) => Success(RenderPrompt(initial, responses, topics))
  }

  /** The header between the initial prompt and the listed responses. */
  const ResponsesHeader := "\nPrevious responses:\n"

  /**
   * Label i reads back as the 1-based position i + 1 followed by ": " and
   * the response itself, so the listing keeps every response and its place.
   */
  lemma LabelledReadsBack(responses: seq<string>, i: nat)
    requires i < |responses|
    ensures var tag, d := Labelled(responses)[i], DecimalString(i + 1);
      && |Labelled(responses)| == |responses|
      && "Agent " <= tag
      && 6 + |d| + 2 <= |tag|
      && AllDigits(tag[6..6 + |d|]) && ParseDecimal(tag[6..6 + |d|]) == i + 1
      && tag[6 + |d|..] == ": " + responses[i]
  {
    var tag, d := Labelled(responses)[i], DecimalString(i + 1);
    assert tag == "Agent " + d + ": " + responses[i];
    assert tag[6..6 + |d|] == d;
    ParseDecimalString(i + 1);
  }

  /**
   * The listing of the first i + 1 responses is the listing of the first i,
   * a newline, and label i; and it is a prefix of the listing of them all.
   * So the labels appear one per line, in response order.
   */
  lemma LabelledInListing(responses: seq<string>, i: nat)
    requires i < |responses|
    ensures var tag, upTo := Labelled(responses)[i], Join("\n", Labelled(responses[..i + 1]));
      && upTo == (if i == 0 then tag else Join("\n", Labelled(responses[..i])) + "\n" + tag)
      && upTo <= Join("\n", Labelled(responses))
  {
    var all := Labelled(responses);
    assert Labelled(responses[..i + 1]) == all[..i + 1];
    assert Labelled(responses[..i]) == all[..i];
    assert all[..i + 1][..i] == all[..i];
    JoinPrefix("\n", all, i + 1);
  }

  /**
   * A prompt that forms opens with the initial prompt, then lists the
   * labelled responses newline-joined, and closes by asking to elaborate on
   * the selected topics, comma-joined.
   */
  lemma DynamicPromptShape(initial: string, responses: seq<string>, t: PhraseTable)
    requires t.order != []
    ensures var p, e := DynamicPrompt(initial, responses, t).value, Elaborate(TopicsToDiscuss(t).value);
      var h := |Opening + initial + ResponsesHeader|;
      && Opening + initial + ResponsesHeader <= p
      && h + |e| <= |p| && p[|p| - |e|..] == e
      && p[h..|p| - |e|] == Join("\n", Labelled(responses))
  {
    var topics := TopicsToDiscuss(t).value;
    var lead, listing, e := Opening + initial + ResponsesHeader, Join("\n", Labelled(responses)), Elaborate(topics);
    assert RenderPrompt(initial, responses, topics) == lead + listing + e;
    var p := lead + listing + e;
    assert p[..|lead|] == lead;
    assert p[|lead|..|p| - |e|] == listing;
    assert p[|p| - |e|..] == e;
  }

  /** An agent with no phrases makes the shortest length 0, so no topic is selected. */
  lemma EmptyListSelectsNothing(t: PhraseTable, k: int)
    requires k in t.order && t.Lookup(k) == []
    ensures TopicsToDiscuss(t) == Some([])
  {
    TopicsToDiscussSelects(t);
  }

  /** With an empty shortest list the prompt still forms, with an empty elaboration list. */
  lemma EmptyListGivesEmptyElaboration(initial: string, responses: seq<string>, t: PhraseTable, k: int)
    requires k in t.order && t.Lookup(k) == []
    ensures DynamicPrompt(initial, responses, t).Success?
    ensures var p := DynamicPrompt(initial, responses, t).value;
      |Elaborate([])| <= |p| && p[|p| - |Elaborate([])|..] == "\n\nPlease elaborate on: " + Closing
  {
    EmptyListSelectsNothing(t, k);
    DynamicPromptShape(initial, responses, t);
    assert Elaborate([]) == "\n\nPlease elaborate on: " + Closing;
  }
}
