/** The services the pipeline calls but whose behaviour is not part of the
    model: the chat-completion API and the wall clock. Each is an object
    that plays back a script fixed when it was built and records what it was
    asked, so that an agent's behaviour can be stated as a function of the
    script. */
module Oracles {
  import opened Wrappers
  import opened Seqs

  /** `datetime.now()`: the `ticks`-th reading of a fixed, arbitrary sequence
      of instants. */
  class Clock {
    var ticks: nat
    const reading: nat -> int

    constructor (reading: nat -> int)
      ensures this.reading == reading && ticks == 0
    {
      this.reading := reading;
      ticks := 0;
    }

    method Now() returns (t: int)
      modifies this
      ensures t == reading(old(ticks)) && ticks == old(ticks) + 1
    {
      t := reading(ticks);
      ticks := ticks + 1;
    }
  }

  /** A chat completion: the message text and the token counts reported in
      `usage`. */
  datatype Completion = Completion(text: string, promptTokens: nat, completionTokens: nat)

  /** One call's outcome: a completion, or an exception with its message. */
  datatype Reply = Answer(completion: Completion) | Raised(error: string)

  /** One streaming call's outcome: the `delta.content` of each chunk in
      order (`None` for a chunk without content), or an exception raised when
      the stream is opened. */
  datatype StreamReply = Chunks(deltas: seq<Option<string>>) | StreamRaised(error: string)

  /** What a call beyond the end of the script raises. */
  const Unscripted: string := "language model unavailable"

  /** The chat-completion client (`OpenAI().chat.completions.create`).
      `prompts` records the user message of every call, in order. */
  class LanguageModel {
    var replies: seq<Reply>
    var streams: seq<StreamReply>
    var prompts: seq<string>

    constructor (replies: seq<Reply>, streams: seq<StreamReply>)
      ensures this.replies == replies && this.streams == streams && prompts == []
    {
      this.replies := replies;
      this.streams := streams;
      prompts := [];
    }

    /** A non-streaming call: takes the next scripted reply. */
    method Complete(prompt: string) returns (r: Reply)
      modifies this
      ensures r == At(old(replies), 0, Raised(Unscripted))
      ensures replies == Drop(old(replies), 1) && streams == old(streams)
      ensures prompts == old(prompts) + [prompt]
    {
      r := At(replies, 0, Raised(Unscripted));
      replies := Drop(replies, 1);
      prompts := prompts + [prompt];
    }

    /** A streaming call (`stream=True`): takes the next scripted stream. */
    method Stream(prompt: string) returns (r: StreamReply)
      modifies this
      ensures r == At(old(streams), 0, StreamRaised(Unscripted))
      ensures streams == Drop(old(streams), 1) && replies == old(replies)
      ensures prompts == old(prompts) + [prompt]
    {
      r := At(streams, 0, StreamRaised(Unscripted));
      streams := Drop(streams, 1);
      prompts := prompts + [prompt];
    }
  }

  // ---------------------------------------------------------------- reading reply scripts

  /** The `j`-th reply of a script (counted from 0) is an answer. */
  predicate AnsweredAt(llm: seq<Reply>, j: nat) {
    At(llm, j, Raised(Unscripted)).Answer?
  }

  /** The token counts the `j`-th reply reports; none for an exception. */
  function InputAt(llm: seq<Reply>, j: nat): nat {
    match At(llm, j, Raised(Unscripted))
    case Answer(c) => c.promptTokens
    case Raised(_) => 0
  }

  function OutputAt(llm: seq<Reply>, j: nat): nat {
    match At(llm, j, Raised(Unscripted))
    case Answer(c) => c.completionTokens
    case Raised(_) => 0
  }

  /** Prompt tokens of the replies `i` up to (excluding) `j`. */
  function InputSum(llm: seq<Reply>, i: nat, j: nat): nat
    decreases j
  {
    if j <= i then 0 else InputSum(llm, i, j - 1) + InputAt(llm, j - 1)
  }

  function OutputSum(llm: seq<Reply>, i: nat, j: nat): nat
    decreases j
  {
    if j <= i then 0 else OutputSum(llm, i, j - 1) + OutputAt(llm, j - 1)
  }

  lemma {:induction false} SumsStep(llm: seq<Reply>, i: nat, j: nat)
    requires i <= j
    ensures InputSum(llm, i, j + 1) == InputSum(llm, i, j) + InputAt(llm, j)
    ensures OutputSum(llm, i, j + 1) == OutputSum(llm, i, j) + OutputAt(llm, j)
  {
  }

  /** Sums taken from `n + 1` on, shifted onto sums taken from `n`. */
  lemma {:induction false} SumsShift(llm: seq<Reply>, n: nat, j: nat)
    requires n + 1 <= j
    ensures InputSum(llm, n, j) == InputAt(llm, n) + InputSum(llm, n + 1, j)
    ensures OutputSum(llm, n, j) == OutputAt(llm, n) + OutputSum(llm, n + 1, j)
    decreases j
  {
    if j > n + 1 {
      SumsShift(llm, n, j - 1);
    }
  }
}
