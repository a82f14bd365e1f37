/**
 * The `Conversate` class: a turn-based conversation among a roster of
 * agents. It keeps a transcript (`conversation_log`) and the phrases
 * extracted from every agent's responses (`state`).
 *
 * Text generation and noun-chunk extraction are collaborators whose code is
 * not part of this model: generation is the function `generate` from a
 * request to the response text, extraction the function `nlp` from a
 * response to its noun chunks in order.
 */
module Conversation {
  import opened Wrappers
  import opened Text
  import opened Phrases
  import opened Topics
  import opened Shuffle

  /** A handle on a text-generation model; the model itself is opaque. */
  type Agent(==)

  /**
   * Everything one generation call depends on: the turn and the agent's
   * position identify the call, so two calls with the same prompt may answer
   * differently, as sampling does.
   */
  datatype Request = Request(turn: nat, position: nat, agent: Agent, prompt: string,
                             systemTemplate: string, promptTemplate: string, maxTokens: int)

  /**
   * The arguments of one `run_research` call, its two collaborators, and the
   * prompt builder it calls after every turn (`DynamicPrompt` for the class).
   */
  datatype Settings = Settings(systemTemplate: string, promptTemplate: string, initialPrompt: string,
                               maxTokens: int, generate: Request -> string, extract: string -> seq<string>,
                               build: (string, seq<string>, PhraseTable) -> Result<string, PromptError>)

  /** The builder fails exactly when the state has no key, as `DynamicPrompt` does. */
  ghost predicate FailsOnlyWithoutKeys(build: (string, seq<string>, PhraseTable) -> Result<string, PromptError>) {
    forall initial, responses, t :: build(initial, responses, t).Failure? <==> t.order == []
  }

  lemma DynamicPromptFailsOnlyWithoutKeys()
    ensures FailsOnlyWithoutKeys(DynamicPrompt)
  {
  }

  /** How `run_research` ends: it returns, or `min` raises inside the prompt builder. */
  datatype Outcome = Returned | Raised(error: PromptError)

  /** The run's observable state between turns. */
  datatype Session = Session(log: seq<string>, table: PhraseTable, prompt: string, outcome: Outcome)

  function SystemEntry(systemTemplate: string): string {
    "System: " + systemTemplate + "\n"
  }

  function InitialEntry(initialPrompt: string): string {
    "Initial Prompt: " + initialPrompt + "\n\n"
  }

  /** The transcript entry of the agent at 0-based position `position`. */
  function AgentEntry(position: nat, response: string): string {
    "Agent " + DecimalString(position + 1) + ": " + response + "\n\n"
  }

  /** `range(max_turns)` has no elements when max_turns is not positive. */
  function TurnCount(maxTurns: int): nat {
    if maxTurns < 0 then 0 else maxTurns
  }

  /** The responses of one turn, in roster order; the prompt is fixed for the whole turn. */
  function Responses(s: Settings, roster: seq<Agent>, turn: nat, prompt: string): (rs: seq<string>)
    ensures |rs| == |roster|
  {
    seq(|roster|, k requires 0 <= k < |roster| =>
      s.generate(Request(turn, k, roster[k], prompt, s.systemTemplate, s.promptTemplate, s.maxTokens)))
  }

  function Entries(responses: seq<string>): (es: seq<string>)
    ensures |es| == |responses|
  {
    seq(|responses|, k requires 0 <= k < |responses| => AgentEntry(k, responses[k]))
  }

  lemma EntriesSnoc(responses: seq<string>, response: string)
    ensures Entries(responses + [response]) == Entries(responses) + [AgentEntry(|responses|, response)]
  {
  }

  lemma RecordSnoc(t: PhraseTable, extract: string -> seq<string>, responses: seq<string>, response: string)
    ensures Record(t, extract, responses + [response])
         == Record(t, extract, responses).Extend(|responses| + 1, extract(response))
  {
    assert (responses + [response])[..|responses|] == responses;
  }

  /** The state after `update_state(responses[k], k + 1)` for every k in order. */
  function Record(t: PhraseTable, extract: string -> seq<string>, responses: seq<string>): PhraseTable
  {
    if responses == [] then t
    else Record(t, extract, responses[..|responses| - 1]).Extend(|responses|, extract(responses[|responses| - 1]))
  }

  /** One pass of the inner loop followed by the prompt for the next turn. */
  function Turn(s: Settings, roster: seq<Agent>, turn: nat, before: Session): Session
  {
    var rs := Responses(s, roster, turn, before.prompt);
    var table := Record(before.table, s.extract, rs);
    var log := before.log + Entries(rs);
    match s.build(s.initialPrompt, rs, table)
    case Success(p) => Session(log, table, p, Returned)
    case Failure(e) => Session(log, table, before.prompt, Raised(e))
  }

  /** The session after the first n turns, or at the turn that raised. */
  function Runs(s: Settings, roster: seq<Agent>, start: Session, n: nat): Session
    decreases n, 0
  {
    if n == 0 then start else Advance(s, roster, start, n - 1)
  }

  /** Turn i runs unless an earlier turn raised. */
  function Advance(s: Settings, roster: seq<Agent>, start: Session, i: nat): Session
    decreases i, 1
  {
    var p := Runs(s, roster, start, i);
    if p.outcome.Raised? then p else Turn(s, roster, i, p)
  }

  /** The session once the two header entries are appended to log0. */
  function Start(s: Settings, log0: seq<string>, table0: PhraseTable): Session {
    Session(log0 + [SystemEntry(s.systemTemplate), InitialEntry(s.initialPrompt)], table0, s.initialPrompt, Returned)
  }

  /** What `run_research` leaves behind, over the shuffled roster. */
  function Research(s: Settings, roster: seq<Agent>, log0: seq<string>, table0: PhraseTable, maxTurns: int): Session
  {
    Runs(s, roster, Start(s, log0, table0), TurnCount(maxTurns))
  }

  /** The response of the agent at position k in turn t: it answers the prompt that turn started with. */
  function Said(s: Settings, roster: seq<Agent>, start: Session, t: nat, k: nat): string
    requires k < |roster|
  {
    Responses(s, roster, t, Runs(s, roster, start, t).prompt)[k]
  }

  /** The phrases extracted from the responses of the agent at position k in the first n turns. */
  function Extracted(s: Settings, roster: seq<Agent>, start: Session, n: nat, k: nat): seq<string>
    requires k < |roster|
  {
    if n == 0 then [] else Extracted(s, roster, start, n - 1, k) + s.extract(Said(s, roster, start, n - 1, k))
  }

  /** How many phrases were extracted from those responses, response by response. */
  function ExtractedCount(s: Settings, roster: seq<Agent>, start: Session, n: nat, k: nat): nat
    requires k < |roster|
  {
    if n == 0 then 0 else ExtractedCount(s, roster, start, n - 1, k) + |s.extract(Said(s, roster, start, n - 1, k))|
  }

  lemma {:induction false} ExtractedCountIsLength(s: Settings, roster: seq<Agent>, start: Session, n: nat, k: nat)
    requires k < |roster|
    ensures ExtractedCount(s, roster, start, n, k) == |Extracted(s, roster, start, n, k)|
  {
    if n > 0 {
      ExtractedCountIsLength(s, roster, start, n - 1, k);
    }
  }

  // ---------------------------------------------------------------------
  // Properties of one turn

  /**
   * Recording a turn appends to agent id's list the phrases of the response
   * at position id - 1, and leaves every other id's list as it was.
   */
  lemma {:induction false} RecordLookup(t: PhraseTable, extract: string -> seq<string>, responses: seq<string>, id: int)
    ensures Record(t, extract, responses).Lookup(id)
         == t.Lookup(id) + (if 1 <= id <= |responses| then extract(responses[id - 1]) else [])
  {
    if responses != [] {
      var n := |responses|;
      var front := responses[..n - 1];
      var r := Record(t, extract, front);
      assert Record(t, extract, responses) == r.Extend(n, extract(responses[n - 1]));
      RecordLookup(t, extract, front, id);
      ExtendLookup(r, n, extract(responses[n - 1]), id);
      if 1 <= id < n {
        assert front[id - 1] == responses[id - 1];
      }
    }
  }

  // ---------------------------------------------------------------------
  // Properties of a run of turns

  /** n * m, counted out turn by turn. */
  function Times(n: nat, m: nat): nat {
    if n == 0 then 0 else Times(n - 1, m) + m
  }

  lemma {:induction false} TimesIsProduct(n: nat, m: nat)
    ensures Times(n, m) == n * m
  {
    if n > 0 {
      TimesIsProduct(n - 1, m);
      assert (n - 1) * m + m == n * m;
    }
  }

  /** Recording keeps the keys already present and, for a non-empty turn, leaves at least one key. */
  lemma {:induction false} RecordKeys(t: PhraseTable, extract: string -> seq<string>, responses: seq<string>)
    ensures t.order <= Record(t, extract, responses).order
    ensures responses != [] ==> Record(t, extract, responses).order != []
  {
    if responses != [] {
      var n := |responses|;
      var r := Record(t, extract, responses[..n - 1]);
      RecordKeys(t, extract, responses[..n - 1]);
      ExtendSpec(r, n, extract(responses[n - 1]));
    }
  }

  /**
   * After a turn over n responses the keys are the old ones, in their old
   * order, then the positions 1..n that were missing: `extend` inserts a key
   * even for a response without noun chunks.
   */
  lemma {:induction false} RecordKeySet(t: PhraseTable, extract: string -> seq<string>, responses: seq<string>)
    ensures forall id :: 1 <= id <= |responses| ==> id in Record(t, extract, responses).order
    ensures forall id :: id in Record(t, extract, responses).order ==> id in t.order || 1 <= id <= |responses|
  {
    if responses != [] {
      var n := |responses|;
      var r := Record(t, extract, responses[..n - 1]);
      RecordKeySet(t, extract, responses[..n - 1]);
      ExtendSpec(r, n, extract(responses[n - 1]));
    }
  }

  /** One more turn: a raised run stays as it is; otherwise the turn's entries and phrases are added. */
  lemma RunsStep(s: Settings, roster: seq<Agent>, start: Session, n: nat)
    requires FailsOnlyWithoutKeys(s.build)
    ensures var p, q := Runs(s, roster, start, n), Runs(s, roster, start, n + 1);
      var rs := Responses(s, roster, n, p.prompt);
      && (p.outcome.Raised? ==> q == p)
      && (!p.outcome.Raised? ==>
            && q.log == p.log + Entries(rs)
            && q.table == Record(p.table, s.extract, rs)
            && (q.outcome.Raised? <==> roster == [] && p.table.order == []))
  {
    var p := Runs(s, roster, start, n);
    RecordKeys(p.table, s.extract, Responses(s, roster, n, p.prompt));
    if roster == [] {
      assert Responses(s, roster, n, p.prompt) == [];
    }
  }

  /** A run with agents never raises: every turn leaves at least one key in the state. */
  lemma {:induction false} RunsNotRaised(s: Settings, roster: seq<Agent>, start: Session, n: nat)
    requires start.outcome == Returned && roster != []
    requires FailsOnlyWithoutKeys(s.build)
    ensures !Runs(s, roster, start, n).outcome.Raised?
  {
    if n > 0 {
      RunsNotRaised(s, roster, start, n - 1);
      RunsStep(s, roster, start, n - 1);
    }
  }

  /** A turn that runs appends the phrases of the response at position id - 1 to id's list. */
  lemma RunsTableStep(s: Settings, roster: seq<Agent>, start: Session, n: nat, id: int)
    requires FailsOnlyWithoutKeys(s.build)
    requires !Runs(s, roster, start, n).outcome.Raised?
    ensures Runs(s, roster, start, n + 1).table.Lookup(id)
         == Runs(s, roster, start, n).table.Lookup(id)
            + (if 1 <= id <= |roster| then s.extract(Said(s, roster, start, n, id - 1)) else [])
  {
    var p := Runs(s, roster, start, n);
    RunsStep(s, roster, start, n);
    RecordLookup(p.table, s.extract, Responses(s, roster, n, p.prompt), id);
  }

  /** Turns only append to the log. */
  lemma {:induction false} RunsLogPrefix(s: Settings, roster: seq<Agent>, start: Session, a: nat, b: nat)
    requires FailsOnlyWithoutKeys(s.build)
    requires a <= b
    ensures Runs(s, roster, start, a).log <= Runs(s, roster, start, b).log
    decreases b
  {
    if a < b {
      RunsLogPrefix(s, roster, start, a, b - 1);
      RunsStep(s, roster, start, b - 1);
    }
  }

  /**
   * The end of a turn that started from p: the builder's prompt starts the
   * next turn, or its error ends the run with nothing more changed.
   */
  lemma TurnEnds(s: Settings, roster: seq<Agent>, start: Session, turn: nat, turns: nat, p: Session)
    requires FailsOnlyWithoutKeys(s.build)
    requires turn < turns
    requires Runs(s, roster, start, turn) == p && p.outcome == Returned
    ensures var rs := Responses(s, roster, turn, p.prompt);
      var table := Record(p.table, s.extract, rs);
      var next := s.build(s.initialPrompt, rs, table);
      && (next.Success? ==> Runs(s, roster, start, turn + 1) == Session(p.log + Entries(rs), table, next.value, Returned))
      && (next.Failure? ==> Runs(s, roster, start, turns) == Session(p.log + Entries(rs), table, p.prompt, Raised(next.error)))
  {
    var rs := Responses(s, roster, turn, p.prompt);
    var table := Record(p.table, s.extract, rs);
    if s.build(s.initialPrompt, rs, table).Failure? {
      RaisedIsFinal(s, roster, start, turn + 1, turns);
    }
  }

  /**
   * After n turns every turn has added one entry per agent, and the run
   * raised exactly when it had no agents and no state to take a minimum over.
   */
  lemma {:induction false} RunsShape(s: Settings, roster: seq<Agent>, start: Session, n: nat)
    requires start.outcome == Returned
    requires FailsOnlyWithoutKeys(s.build)
    ensures var r := Runs(s, roster, start, n);
      && |r.log| == |start.log| + Times(n, |roster|)
      && (r.outcome.Raised? <==> n >= 1 && roster == [] && start.table.order == [])
      && (roster == [] ==> r.table.order == start.table.order)
  {
    if n > 0 {
      RunsShape(s, roster, start, n - 1);
      RunsStep(s, roster, start, n - 1);
      var p := Runs(s, roster, start, n - 1);
      var rs := Responses(s, roster, n - 1, p.prompt);
      if p.outcome.Raised? {
        assert Times(n, |roster|) == Times(n - 1, |roster|);
      } else {
        assert |Entries(rs)| == |roster|;
        if roster == [] {
          assert rs == [];
        }
      }
    }
  }

  /** Once a run has raised, later turns change nothing. */
  lemma {:induction false} RaisedIsFinal(s: Settings, roster: seq<Agent>, start: Session, a: nat, b: nat)
    requires FailsOnlyWithoutKeys(s.build)
    requires a <= b
    requires Runs(s, roster, start, a).outcome.Raised?
    ensures Runs(s, roster, start, b) == Runs(s, roster, start, a)
    decreases b
  {
    if a < b {
      RaisedIsFinal(s, roster, start, a, b - 1);
      RunsStep(s, roster, start, b - 1);
    }
  }

  /**
   * The entry of the agent at position k in turn t sits at a fixed index:
   * turns follow each other and, within a turn, agents follow roster order.
   */
  lemma RunsEntry(s: Settings, roster: seq<Agent>, start: Session, n: nat, t: nat, k: nat)
    requires start.outcome == Returned
    requires FailsOnlyWithoutKeys(s.build)
    requires t < n && k < |roster|
    ensures |start.log| + Times(t, |roster|) + k < |Runs(s, roster, start, n).log|
    ensures Runs(s, roster, start, n).log[|start.log| + Times(t, |roster|) + k] == AgentEntry(k, Said(s, roster, start, t, k))
  {
    var p := Runs(s, roster, start, t);
    RunsShape(s, roster, start, t);
    RunsStep(s, roster, start, t);
    RunsLogPrefix(s, roster, start, t + 1, n);
    assert Runs(s, roster, start, t + 1).log[|p.log| + k] == AgentEntry(k, Said(s, roster, start, t, k));
  }

  /**
   * The list of the agent at position k holds what it held at the start,
   * followed by the phrases of its responses turn by turn.
   */
  lemma {:induction false} RunsPhrases(s: Settings, roster: seq<Agent>, start: Session, n: nat, k: nat)
    requires start.outcome == Returned && k < |roster|
    requires FailsOnlyWithoutKeys(s.build)
    ensures Runs(s, roster, start, n).table.Lookup(k + 1) == start.table.Lookup(k + 1) + Extracted(s, roster, start, n, k)
  {
    if n > 0 {
      RunsPhrases(s, roster, start, n - 1, k);
      RunsNotRaised(s, roster, start, n - 1);
      RunsTableStep(s, roster, start, n - 1, k + 1);
      AppendAssociative(start.table.Lookup(k + 1), Extracted(s, roster, start, n - 1, k),
                        s.extract(Said(s, roster, start, n - 1, k)));
    }
  }

  /** Agents outside the roster's positions keep their lists. */
  lemma {:induction false} RunsOtherKeys(s: Settings, roster: seq<Agent>, start: Session, n: nat, id: int)
    requires FailsOnlyWithoutKeys(s.build)
    requires !(1 <= id <= |roster|)
    ensures Runs(s, roster, start, n).table.Lookup(id) == start.table.Lookup(id)
  {
    if n > 0 {
      RunsOtherKeys(s, roster, start, n - 1, id);
      if Runs(s, roster, start, n - 1).outcome.Raised? {
        RunsStep(s, roster, start, n - 1);
      } else {
        RunsTableStep(s, roster, start, n - 1, id);
      }
    }
  }

  /**
   * Keys are never removed or reordered, every turn leaves each roster
   * position as a key, and no other key appears.
   */
  lemma {:induction false} RunsKeys(s: Settings, roster: seq<Agent>, start: Session, n: nat)
    requires start.outcome == Returned
    requires FailsOnlyWithoutKeys(s.build)
    ensures start.table.order <= Runs(s, roster, start, n).table.order
    ensures n >= 1 ==> forall id :: 1 <= id <= |roster| ==> id in Runs(s, roster, start, n).table.order
    ensures forall id :: id in Runs(s, roster, start, n).table.order ==> id in start.table.order || 1 <= id <= |roster|
  {
    if n > 0 {
      RunsKeys(s, roster, start, n - 1);
      RunsStep(s, roster, start, n - 1);
      var p := Runs(s, roster, start, n - 1);
      if !p.outcome.Raised? {
        var rs := Responses(s, roster, n - 1, p.prompt);
        RecordKeys(p.table, s.extract, rs);
        RecordKeySet(p.table, s.extract, rs);
      }
    }
  }

  // ---------------------------------------------------------------------
  // Properties of `run_research`

  /**
   * `run_research` appends 2 + max_turns * len(models) entries (none when
   * max_turns is not positive), System then Initial Prompt first, and leaves
   * the entries already in the log unchanged. It raises exactly when it runs
   * a turn with no agents and no state.
   */
  lemma ResearchLog(s: Settings, roster: seq<Agent>, log0: seq<string>, table0: PhraseTable, maxTurns: int)
    requires FailsOnlyWithoutKeys(s.build)
    ensures var r := Research(s, roster, log0, table0, maxTurns);
      && |r.log| == |log0| + 2 + TurnCount(maxTurns) * |roster|
      && log0 <= r.log
      && r.log[|log0|] == SystemEntry(s.systemTemplate)
      && r.log[|log0| + 1] == InitialEntry(s.initialPrompt)
      && (r.outcome.Raised? <==> maxTurns >= 1 && roster == [] && table0.order == [])
  {
    var start := Start(s, log0, table0);
    RunsShape(s, roster, start, TurnCount(maxTurns));
    RunsLogPrefix(s, roster, start, 0, TurnCount(maxTurns));
    TimesIsProduct(TurnCount(maxTurns), |roster|);
    assert start.log[..|log0|] == log0;
  }

  /**
   * In turn t (0-based) of `run_research`, the agent at position k writes
   * "Agent k+1: <response>" at index |log0| + 2 + t * len(models) + k,
   * where the response answers the prompt that turn started with.
   */
  lemma ResearchEntry(s: Settings, roster: seq<Agent>, log0: seq<string>, table0: PhraseTable, maxTurns: int, t: nat, k: nat)
    requires FailsOnlyWithoutKeys(s.build)
    requires t < TurnCount(maxTurns) && k < |roster|
    ensures var r := Research(s, roster, log0, table0, maxTurns);
      && |log0| + 2 + t * |roster| + k < |r.log|
      && r.log[|log0| + 2 + t * |roster| + k]
         == AgentEntry(k, Said(s, roster, Start(s, log0, table0), t, k))
  {
    RunsEntry(s, roster, Start(s, log0, table0), TurnCount(maxTurns), t, k);
    TimesIsProduct(t, |roster|);
  }

  /**
   * After `run_research`, the list of the agent at position k has grown by the
   * phrases of its max_turns responses, in order; with an empty starting
   * state its length is the sum of their phrase counts.
   */
  lemma ResearchPhrases(s: Settings, roster: seq<Agent>, log0: seq<string>, table0: PhraseTable, maxTurns: int, k: nat)
    requires k < |roster|
    requires FailsOnlyWithoutKeys(s.build)
    ensures var start, r := Start(s, log0, table0), Research(s, roster, log0, table0, maxTurns);
      && r.table.Lookup(k + 1) == table0.Lookup(k + 1) + Extracted(s, roster, start, TurnCount(maxTurns), k)
      && |r.table.Lookup(k + 1)| == |table0.Lookup(k + 1)| + ExtractedCount(s, roster, start, TurnCount(maxTurns), k)
  {
    RunsPhrases(s, roster, Start(s, log0, table0), TurnCount(maxTurns), k);
    ExtractedCountIsLength(s, roster, Start(s, log0, table0), TurnCount(maxTurns), k);
  }

  /**
   * After a run with at least one turn, every roster position 1..len(models)
   * is a key of the state, also for an agent whose responses had no noun
   * chunks; the old keys keep their order and no other key appears.
   */
  lemma ResearchKeys(s: Settings, roster: seq<Agent>, log0: seq<string>, table0: PhraseTable, maxTurns: int)
    requires FailsOnlyWithoutKeys(s.build)
    ensures var r := Research(s, roster, log0, table0, maxTurns);
      && table0.order <= r.table.order
      && (maxTurns >= 1 ==> forall id :: 1 <= id <= |roster| ==> id in r.table.order)
      && (forall id :: id in r.table.order ==> id in table0.order || 1 <= id <= |roster|)
  {
    RunsKeys(s, roster, Start(s, log0, table0), TurnCount(maxTurns));
  }

  /**
   * An agent that has no phrases after the run (none before it, and no noun
   * chunk in any of its responses) still has a key with an empty list, so
   * the last `generate_dynamic_prompt` of the run selects no topic.
   */
  lemma ResearchSilentAgent(s: Settings, roster: seq<Agent>, log0: seq<string>, table0: PhraseTable, maxTurns: int, k: nat)
    requires FailsOnlyWithoutKeys(s.build)
    requires maxTurns >= 1 && k < |roster|
    requires table0.Lookup(k + 1) == [] && Extracted(s, roster, Start(s, log0, table0), TurnCount(maxTurns), k) == []
    ensures TopicsToDiscuss(Research(s, roster, log0, table0, maxTurns).table) == Some([])
  {
    var r := Research(s, roster, log0, table0, maxTurns);
    ResearchKeys(s, roster, log0, table0, maxTurns);
    ResearchPhrases(s, roster, log0, table0, maxTurns, k);
    EmptyListSelectsNothing(r.table, k + 1);
  }

  // ---------------------------------------------------------------------
  // The saved transcript

  const StartBanner := "Conversation Start\n" + "=====================\n\n"
  const EndBanner := "=====================\n" + "End of Conversation\n"

  /** The text `save_conversation` writes to its file. */
  function Transcript(log: seq<string>): string {
    StartBanner + Concat(log) + EndBanner
  }

  /** Cutting the two banners off the saved text gives back the entries, written in order. */
  lemma TranscriptFrame(log: seq<string>)
    ensures var text := Transcript(log);
      && |text| == |StartBanner| + TotalLength(log) + |EndBanner|
      && StartBanner <= text
      && text[|text| - |EndBanner|..] == EndBanner
      && text[|StartBanner|..|text| - |EndBanner|] == Concat(log)
  {
    ConcatLength(log);
  }

  // ---------------------------------------------------------------------
  // The class

  class Conversate {
    var models: seq<Agent>
    var conversationLog: seq<string>
    var state: PhraseTable
    /** The loaded spaCy pipeline, reduced to its noun chunks. */
    const nlp: string -> seq<string>

    ghost predicate Valid()
      reads this
    {
      state.Valid()
    }

    constructor (models: seq<Agent>, nlp: string -> seq<string>)
      ensures Valid()
      ensures this.models == models && conversationLog == [] && state == Empty && this.nlp == nlp
    {
      this.models := models;
      conversationLog := [];
      state := Empty;
      this.nlp := nlp;
    }

    /** `update_state`: the response's noun chunks go, in order, to the end of agent_id's list. */
    method UpdateState(response: string, agentId: int)
      requires Valid()
      modifies this
      ensures Valid()
      ensures state == old(state).Extend(agentId, nlp(response))
      ensures models == old(models) && conversationLog == old(conversationLog)
    {
      ExtendSpec(state, agentId, nlp(response));
      state := state.Extend(agentId, nlp(response));
    }

    /**
     * `run_research`. The shuffle's random choices are `draws`; `generate`
     * answers each request.
     */
    method RunResearch(systemTemplate: string, promptTemplate: string, initialPrompt: string,
                       maxTurns: int, maxTokens: int, draws: seq<nat>, generate: Request -> string)
      returns (outcome: Outcome)
      requires Valid()
      requires ValidDraws(draws, |models|)
      modifies this
      ensures Valid()
      ensures models == Shuffled(old(models), draws) && multiset(models) == multiset(old(models))
      ensures var r := Research(Settings(systemTemplate, promptTemplate, initialPrompt, maxTokens, generate, nlp, DynamicPrompt),
                                models, old(conversationLog), old(state), maxTurns);
        conversationLog == r.log && state == r.table && outcome == r.outcome
    {
      ghost var s := Settings(systemTemplate, promptTemplate, initialPrompt, maxTokens, generate, nlp, DynamicPrompt);
      DynamicPromptFailsOnlyWithoutKeys();
      conversationLog := conversationLog + [SystemEntry(systemTemplate)];
      conversationLog := conversationLog + [InitialEntry(initialPrompt)];
      var currentPrompt := initialPrompt;

      ShuffledIsPermutation(models, draws);
      models := Shuffled(models, draws);
      ghost var roster := models;
      ghost var start := Session(conversationLog, state, currentPrompt, Returned);
      assert start == Start(s, old(conversationLog), old(state));

      var turns := TurnCount(maxTurns);
      var turn := 0;
      while turn < turns
        invariant 0 <= turn <= turns
        invariant Valid() && models == roster
        invariant Runs(s, roster, start, turn) == Session(conversationLog, state, currentPrompt, Returned)
      {
        ghost var before := Session(conversationLog, state, currentPrompt, Returned);
        var responses := PlayTurn(turn, currentPrompt, systemTemplate, promptTemplate, maxTokens, generate, s);
        TurnEnds(s, roster, start, turn, turns, before);
        var next := DynamicPrompt(initialPrompt, responses, state);
        if next.Failure? {
          return Raised(next.error);
        }
        currentPrompt := next.value;
        turn := turn + 1;
      }
      outcome := Returned;
    }

    /** The inner loop of `run_research`: every agent, in roster order, answers the same prompt. */
    method PlayTurn(turn: nat, prompt: string, systemTemplate: string, promptTemplate: string,
                    maxTokens: int, generate: Request -> string, ghost s: Settings)
      returns (responses: seq<string>)
      requires Valid()
      requires s.generate == generate && s.extract == nlp
      requires s.systemTemplate == systemTemplate && s.promptTemplate == promptTemplate && s.maxTokens == maxTokens
      modifies this
      ensures Valid() && models == old(models)
      ensures responses == Responses(s, models, turn, prompt)
      ensures conversationLog == old(conversationLog) + Entries(responses)
      ensures state == Record(old(state), nlp, responses)
    {
      ghost var all := Responses(s, models, turn, prompt);
      responses := [];
      var idx := 0;
      while idx < |models|
        invariant 0 <= idx <= |models|
        invariant Valid() && models == old(models)
        invariant responses == all[..idx]
        invariant conversationLog == old(conversationLog) + Entries(responses)
        invariant state == Record(old(state), nlp, responses)
      {
        var response := generate(Request(turn, idx, models[idx], prompt,
                                         systemTemplate, promptTemplate, maxTokens));
        EntriesSnoc(responses, response);
        RecordSnoc(old(state), nlp, responses, response);
        conversationLog := conversationLog + [AgentEntry(idx, response)];
        responses := responses + [response];
        UpdateState(response, idx + 1);
        assert all[..idx + 1] == all[..idx] + [response];
        idx := idx + 1;
      }
      assert responses == all;
    }

    /** `save_conversation`: the text it writes, banner, entries in order, banner. */
    method SaveConversation() returns (text: string)
      ensures text == Transcript(conversationLog)
    {
      text := "";
      text := text + "Conversation Start\n";
      text := text + "=====================\n\n";
      var i := 0;
      while i < |conversationLog|
        invariant 0 <= i <= |conversationLog|
        invariant text == StartBanner + Concat(conversationLog[..i])
      {
        assert conversationLog[..i + 1][..i] == conversationLog[..i];
        text := text + conversationLog[i];
        i := i + 1;
      }
      assert conversationLog[..i] == conversationLog;
      text := text + "=====================\n";
      text := text + "End of Conversation\n";
    }
  }
}
