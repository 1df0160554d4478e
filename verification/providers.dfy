/** The external text providers as a scripted world.

    Every round trip to Gemini, OpenRouter or OpenAI is recorded as a
    `Call`, and the outcome of the i-th call of a run (counting from 0 over
    all providers) is the i-th entry of the script. A call made after the
    script has run out fails. Real HTTP, JSON decoding and timeouts are
    therefore replaced by the outcome each call produced. */
module Providers {
  import opened Common

  /** A Gemini call names the configured model; the id in its URL is
      derived from it per call. */
  datatype Provider =
    | Gemini(model: string)
    | OpenRouter(model: string, system: Option<string>)
    | OpenAI

  /** One request: which provider and model, and the user text it carried. */
  datatype Call = Call(provider: Provider, prompt: string)

  datatype World = World(script: seq<Outcome>, calls: seq<Call>)

  /** The failure of a call that the script has no outcome for. */
  const Unscripted: string := "no scripted outcome"

  /** The outcome the i-th call of a run receives. */
  function ReplyAt(script: seq<Outcome>, i: nat): Outcome {
    if i < |script| then script[i] else Err(Unscripted)
  }

  /** The outcome the next call made in `w` will receive. */
  function Next(w: World): Outcome {
    ReplyAt(w.script, |w.calls|)
  }

  datatype Answer = Answer(outcome: Outcome, world: World)

  /** Makes one call: records it and hands out the next scripted outcome. */
  function Invoke(w: World, c: Call): (a: Answer)
    ensures a.world.script == w.script
    ensures a.world.calls == w.calls + [c]
    ensures a.outcome == Next(w)
  {
    Answer(Next(w), w.(calls := w.calls + [c]))
  }

  /** The outcomes the next `n` calls made in `w` will receive. */
  function Upcoming(w: World, n: nat): (outs: seq<Outcome>)
    ensures |outs| == n
    ensures forall i :: 0 <= i < n ==> outs[i] == ReplyAt(w.script, |w.calls| + i)
  {
    Window(w.script, |w.calls|, n)
  }

  /** The outcomes at positions `from`, ..., `from + n - 1` of the script. */
  function Window(script: seq<Outcome>, from: nat, n: nat): (outs: seq<Outcome>)
    decreases n
    ensures |outs| == n
    ensures forall i :: 0 <= i < n ==> outs[i] == ReplyAt(script, from + i)
  {
    if n == 0 then [] else [ReplyAt(script, from)] + Window(script, from + 1, n - 1)
  }

  /** `n` copies of the same call. */
  function Repeat(c: Call, n: nat): (cs: seq<Call>)
    ensures |cs| == n
    ensures forall i :: 0 <= i < n ==> cs[i] == c
  {
    if n == 0 then [] else [c] + Repeat(c, n - 1)
  }

  /** The next n outcomes are the next one, then n - 1 more after a call. */
  lemma UpcomingCons(w: World, c: Call, n: nat)
    requires n > 0
    ensures Upcoming(w, n) == [Next(w)] + Upcoming(w.(calls := w.calls + [c]), n - 1)
  {
  }

  /** After n more calls, the next outcome is the one n places further on. */
  lemma NextAfter(w: World, cs: seq<Call>)
    ensures Next(w.(calls := w.calls + cs)) == ReplyAt(w.script, |w.calls| + |cs|)
  {
  }

  /** `w2` is `w1` after zero or more further calls. */
  predicate Extends(w1: World, w2: World) {
    w2.script == w1.script && |w1.calls| <= |w2.calls| && w2.calls[..|w1.calls|] == w1.calls
  }

  /** The calls made between `w1` and `w2`. */
  function CallsSince(w1: World, w2: World): seq<Call>
    requires Extends(w1, w2)
  {
    w2.calls[|w1.calls|..]
  }

  lemma ExtendsTrans(w1: World, w2: World, w3: World)
    requires Extends(w1, w2) && Extends(w2, w3)
    ensures Extends(w1, w3)
    ensures CallsSince(w1, w3) == CallsSince(w1, w2) + CallsSince(w2, w3)
  {
    assert w3.calls[..|w2.calls|][..|w1.calls|] == w3.calls[..|w1.calls|];
  }
}
