# Conversate in Dafny

A model of the `Conversate` class of `conversate/conversate.py`: a roster of
text-generation agents answers a prompt turn after turn. The class keeps two
pieces of state:

- `conversation_log`, a transcript that only ever grows;
- `state`, a `defaultdict(list)` from an agent's 1-based roster position to
  the noun phrases extracted from that agent's responses.

After every turn, `generate_dynamic_prompt` builds the next prompt. It asks
the agents to elaborate on the "least discussed" phrases: those whose number
of occurrences across all lists equals the length of the shortest list.

Modules, one concept each:

- `Wrappers` (`wrappers.dfy`): `Option` and `Result`.
- `Text` (`text.dfy`): `f"{n}"` for positions, `str.join`, and writing
  entries one after another.
- `Phrases` (`phrases.dfy`): the phrase table. A Python dict remembers key
  insertion order and `values()` follows it, so `PhraseTable` keeps that
  order next to the map. Also the flattening and `min(..., key=len)` over
  its values.
- `Topics` (`topics.dfy`): the least-discussed selection and the prompt text
  of `generate_dynamic_prompt`, as functions.
- `Shuffle` (`shuffle.dfy`): `random.shuffle` as its Fisher–Yates pass, with
  the random draws given as input.
- `Conversation` (`conversate.dfy`): the class `Conversate`, with fields
  `models`, `conversationLog`, `state` and the extractor `nlp`, and its
  methods. Next to the class sit the specification functions of a run
  (`Turn`, `Runs`, `Research`) and the lemmas about them.

The two collaborators are parameters. Text generation is the function
`generate` from a `Request` to the response text. The request holds the
turn, the roster position, the agent, the prompt, both templates and
`max_tokens`. Noun-chunk extraction is the function `nlp` from a response to
its noun chunks in order. `RunResearch` is proved to leave exactly the log,
state and outcome that `Research` computes. The lemmas about `Research` then
state what a run promises.

Behaviour of `conversate.py` that the model keeps as written:

- `run_research` does not check `max_turns`. `range(max_turns)` is empty
  for `max_turns <= 0`, so such a run appends only the two header entries.
- `run_research` does not check for an empty roster. With `max_turns >= 1`
  and no key in `state` yet (no earlier `update_state`), `min` over the
  empty `state.values()` raises `ValueError` at the end of the first turn,
  after the headers. The model ends the run with `Raised(MinOfEmptyState)`.
  If an earlier call left keys in `state`, even keys holding empty lists,
  the run completes and adds no agent entries.
- `state` and `conversation_log` are never reset between calls, so the
  model starts each run from the current fields.
- Topics are flattened in key insertion order: the order in which
  `update_state` first touched each position.
- `update_state` inserts the position as a key even when the response has
  no noun chunks, because the defaultdict subscript creates an empty list.
  An agent without phrases therefore makes the shortest length 0.

## Model

| member | source | states |
|---|---|---|
| Conversation.Conversate.constructor | conversate/conversate.py:7-11 | the roster is stored; the log and the state start empty |
| Conversation.Conversate.UpdateState | conversate/conversate.py:48-54 | the state becomes the old state with the response's noun chunks appended to `agent_id`'s list; models and log are unchanged; table validity is kept |
| Phrases.ExtendSpec | conversate/conversate.py:54 | `extend` appends the phrases in order to the key's list (a missing key reads as []); every other key's list is unchanged; the key order is unchanged when the key exists, and otherwise the key is appended last, so no other key appears |
| Phrases.ExtendLookup | conversate/conversate.py:54 | the same, one key at a time |
| Conversation.RecordKeySet | conversate/conversate.py:28-35 | after a turn over n responses, every position 1..n is a key and no key other than the old ones and 1..n appears |
| Conversation.RecordLookup | conversate/conversate.py:28-35 | after one turn's `update_state(responses[k], k+1)` calls, key id's list gains the phrases of the response at position id-1; other keys are unchanged |
| Conversation.Conversate.PlayTurn | conversate/conversate.py:27-35 | the inner loop: agent k answers the turn's prompt; the log gains one entry per agent in roster order; the state is the turn's record |
| Conversation.Conversate.RunResearch | conversate/conversate.py:13-38 | the roster becomes its shuffle and the same multiset; log, state and outcome equal `Research` over the shuffled roster, with `DynamicPrompt` building each next prompt |
| Shuffle.ShuffledIsPermutation | conversate/conversate.py:24 | the shuffled roster has the same length and the same multiset of agents |
| Conversation.ResearchLog | conversate/conversate.py:19-38 | a run appends exactly 2 + max_turns·len(models) entries (none per turn when max_turns <= 0); old entries stay in place; "System: …\n" then "Initial Prompt: …\n\n" come first; the run raises exactly when it runs a turn with no agents and no keys |
| Conversation.ResearchEntry | conversate/conversate.py:26-31 | in turn t, the agent at position k writes "Agent k+1: response\n\n" at index len(log0)+2+t·len(models)+k; the response answers the prompt turn t started with |
| Conversation.ResearchPhrases | conversate/conversate.py:26-35 | after a run, position k's list is its old list followed by the phrases of its responses, turn by turn; its length is the old length plus the sum of their phrase counts |
| Conversation.RunsOtherKeys | conversate/conversate.py:28-35 | keys outside 1..len(models) keep their lists for the whole run |
| Conversation.RunsKeys | conversate/conversate.py:26-35 | keys are never removed or reordered; after at least one turn every roster position is a key; no other key appears |
| Conversation.ResearchKeys | conversate/conversate.py:26-35 | after a run with max_turns >= 1 every position 1..len(models) is a key, also for an agent whose responses had no noun chunks; old keys keep their order; no other key appears |
| Conversation.ResearchSilentAgent | conversate/conversate.py:54-69 | an agent left with no phrases by the run still has a key with an empty list, so the run's last topic selection is empty |
| Conversation.RunsShape | conversate/conversate.py:26-38 | after n turns the log has grown by n·len(models) entries; the run raised exactly when it had turns, no agents and no keys |
| Conversation.RunsLogPrefix | conversate/conversate.py:31 | turns only append to the log |
| Conversation.RaisedIsFinal | conversate/conversate.py:38 | once `generate_dynamic_prompt` has raised, no later turn changes anything |
| Conversation.TurnEnds | conversate/conversate.py:38 | the builder's prompt starts the next turn; its error ends the run with log and state as the turn left them |
| Conversation.RunsTableStep | conversate/conversate.py:35 | a turn that runs appends position id-1's phrases to key id |
| Conversation.RunsNotRaised | conversate/conversate.py:68 | a run with agents never raises |
| Conversation.ExtractedCountIsLength | conversate/conversate.py:53-54 | the per-response phrase counts add up to the length of the collected phrases |
| Phrases.MinLength | conversate/conversate.py:68 | `min(values, key=len)` has no result exactly when there are no values |
| Phrases.MinLengthIsShortest | conversate/conversate.py:68 | the length found is some list's length, and no list is shorter |
| Topics.CountPositive | conversate/conversate.py:69 | `list.count(p)` is positive exactly when p is in the list |
| Topics.LeastDiscussedOccurrences | conversate/conversate.py:69 | a phrase occurring m times in the flattened list is selected m times, every other phrase never; the selection keeps flattened order; m == 0 selects nothing |
| Topics.TopicsToDiscuss | conversate/conversate.py:65-69 | the selection fails exactly when the state has no key |
| Topics.TopicsToDiscussSelects | conversate/conversate.py:65-69 | with a key, m is the shortest list's length (attained, and no list shorter); the selection is the subsequence of the flattened values holding exactly the phrases counted m times; an empty list selects nothing |
| Topics.EmptyListSelectsNothing | conversate/conversate.py:68-69 | an agent with no phrases makes the selection empty |
| Topics.DynamicPrompt | conversate/conversate.py:56-72 | `generate_dynamic_prompt` raises exactly when the state has no key |
| Topics.DynamicPromptShape | conversate/conversate.py:71-72 | the prompt opens with "Review the original prompt: " + initial + "\nPrevious responses:\n"; then come the labelled responses newline-joined; it closes with the elaboration request over the comma-joined topics |
| Topics.LabelledReadsBack | conversate/conversate.py:71 | response label i reads "Agent ", then digits that parse back to i+1, then ": " and the response unchanged |
| Topics.EmptyListGivesEmptyElaboration | conversate/conversate.py:68-72 | with an empty list in the state, the prompt still forms and ends "\n\nPlease elaborate on: . Avoid repeating …" |
| Topics.LabelledInListing | conversate/conversate.py:71 | the listing of the first i+1 responses is the listing of the first i, a newline and label i, and is a prefix of the whole listing: labels appear one per line, in order |
| Text.JoinPrefix | conversate/conversate.py:71 | joining the first j parts gives a prefix of joining them all |
| Text.DecimalString | conversate/conversate.py:31 | `f"{n}"` is a non-empty run of digits with no leading zero |
| Text.ParseDecimalString | conversate/conversate.py:31 | the rendered position reads back as the position |
| Text.DecimalStringInjective | conversate/conversate.py:31 | different positions get different labels |
| Conversation.Conversate.SaveConversation | conversate/conversate.py:81-91 | the text written is the start banner, then every entry in order, then the end banner |
| Conversation.TranscriptFrame | conversate/conversate.py:86-91 | cutting both banners off the saved text gives back the entries written in order; its length is the banners' length plus the entries' total length |

## Left out

- The GPT4All calls, `chat_session`, and the sampling constants `temp=0.7` and `repeat_penalty=2.0` (conversate/conversate.py:40-46). Generation is the `generate` parameter. `max_tokens` and both templates reach it unchanged in the `Request`.
- Conversation.Conversate.RunResearch: `generate` is a function of the request. Two calls with the same turn, position, agent and prompt therefore answer alike, also across two `run_research` calls. The sampling randomness is captured only through this dependence on turn and position.
- Loading the spaCy model (conversate/conversate.py:11) and the noun-chunk parse. Extraction is the `nlp` function given to the constructor.
- The `key_points` loop at the top of `generate_dynamic_prompt` (conversate/conversate.py:60-62). Its result is discarded, so it has no effect on the prompt or the state.
- The random source of `random.shuffle`. The indices it draws are the `draws` argument; the Fisher–Yates pass itself is modelled.
- Opening and writing the file in `save_conversation` (conversate/conversate.py:85). The model returns the text that would be written.
- The `__main__` driver (conversate/conversate.py:93-132): fixed model paths and template strings.
- Exceptions raised inside the collaborators (a failing generation or parse). Only the `ValueError` from `min` is modelled.
- Conversation.Conversate.RunResearch: the roster list is shared with the caller in the source. `__init__` stores the caller's list itself (conversate/conversate.py:8), and `random.shuffle(self.models)` reorders it in place, so the caller's list is shuffled too. Here `models` is a sequence value, so the caller's roster never changes.
- Conversation.Conversate.RunResearch: the defaults `max_turns=5` and `max_tokens=100` (conversate/conversate.py:13) are not modelled. Every argument is passed explicitly.
- Python's dynamic typing: `max_turns` is an integer and `max_tokens` is passed through untouched.
- Conversation.Research: it is parameterised by the prompt builder carried in `Settings`, with the one property the run lemmas need (fails exactly without keys). The class always passes `DynamicPrompt`.
