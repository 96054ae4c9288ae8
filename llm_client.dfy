/**
 * The language-model client the notebook functions talk to, seen from the outside.
 *
 * The real client sends each prompt over the network.  Here its answers are a
 * parameter: a script of outcomes, consumed one per request, and every request is
 * recorded in a log.  A `Failure` outcome stands for a call that raises; a
 * client whose script is exhausted also raises.
 */
module LlmClient {
  import opened Common

  /** The token counts of one call, as the client's usage object reports them. */
  datatype UsageCounts = UsageCounts(promptTokens: nat, completionTokens: nat, totalTokens: nat)

  /** Field-wise sum of two usage reports. */
  function AddUsage(a: UsageCounts, b: UsageCounts): UsageCounts
  {
    UsageCounts(a.promptTokens + b.promptTokens, a.completionTokens + b.completionTokens,
                a.totalTokens + b.totalTokens)
  }

  /** The mutable usage object a call returns. */
  class Usage {
    var promptTokens: nat
    var completionTokens: nat
    var totalTokens: nat

    constructor (counts: UsageCounts)
      ensures Counts() == counts
    {
      promptTokens := counts.promptTokens;
      completionTokens := counts.completionTokens;
      totalTokens := counts.totalTokens;
    }

    function Counts(): UsageCounts
      reads this
    {
      UsageCounts(promptTokens, completionTokens, totalTokens)
    }

    /**
     * Adds the other report's counts into this one, field by field, in place.
     * The counts of `other` are read before any field is written, which is what
     * the three `+=` statements do when `other` is a different object.
     */
    method Absorb(other: Usage)
      requires other != this
      modifies this
      ensures Counts() == AddUsage(old(Counts()), other.Counts())
      ensures other.Counts() == old(other.Counts())
    {
      promptTokens := promptTokens + other.promptTokens;
      completionTokens := completionTokens + other.completionTokens;
      totalTokens := totalTokens + other.totalTokens;
    }
  }

  /** What one call yields: a reply with its usage, or an exception. */
  datatype Outcome = Reply(text: string, usage: UsageCounts) | Failure

  /** The arguments of one `get_response` call (the `verbose` flag only prints). */
  datatype Request = Request(prompt: string, model: string, maxTokens: nat, temperature: real)

  /** The outcome of the next call: an exhausted script raises. */
  function Next(script: seq<Outcome>): Outcome
  {
    if |script| == 0 then Failure else script[0]
  }

  /** The script after one call. */
  function Rest(script: seq<Outcome>): (r: seq<Outcome>)
    ensures |script| > 0 ==> r == script[1..]
    ensures |script| == 0 ==> r == []
  {
    if |script| == 0 then [] else script[1..]
  }

  class ScriptedClient {
    /** The outcomes of the calls still to come, in order. */
    var script: seq<Outcome>
    /** Every request made so far, in order. */
    var log: seq<Request>

    constructor (script: seq<Outcome>)
      ensures this.script == script && log == []
    {
      this.script := script;
      log := [];
    }

    /**
     * `get_response`: records the request and consumes one outcome.  A reply comes
     * back with a fresh usage object holding its counts; a failure comes back as None.
     */
    method GetResponse(prompt: string, model: string, maxTokens: nat, temperature: real)
      returns (reply: Option<(string, Usage)>)
      modifies this
      ensures log == old(log) + [Request(prompt, model, maxTokens, temperature)]
      ensures script == Rest(old(script))
      ensures reply.None? <==> Next(old(script)).Failure?
      ensures reply.Some? ==>
        reply.value.0 == Next(old(script)).text && fresh(reply.value.1)
        && reply.value.1.Counts() == Next(old(script)).usage
    {
      log := log + [Request(prompt, model, maxTokens, temperature)];
      var outcome := Next(script);
      script := Rest(script);
      match outcome
      case Failure =>
        reply := None;
      case Reply(text, counts) =>
        var usage := new Usage(counts);
        reply := Some((text, usage));
    }
  }
}
