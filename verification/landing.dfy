/** The immersive landing page: the typing animation of its greeting, the
    planet cards, and the two exits (travel to the chosen planet, or back to
    the normal site). */
module Landing {
  import opened Wrappers
  import opened ImmersiveContext

  const FullText: string := "Welcome, traveler. Choose your world."

  /** Milliseconds between two typed characters. */
  const TypingDelay: nat := 80

  /** `typedText` and `isTyping`. */
  datatype Typing = Typing(typed: string, isTyping: bool)

  const TypingStart: Typing := Typing("", true)

  /** What the typing state always satisfies: the typed text is a prefix of
      the full text, and typing has stopped only once all of it is shown. */
  predicate TypingInv(full: string, t: Typing) {
    t.typed <= full && (!t.isTyping ==> |t.typed| == |full|)
  }

  /** One run of the typing effect: while typing and short of the full text,
      arm an 80 ms timer that shows one more character; once the whole text
      is shown, stop typing at once. `None` when the effect changes nothing,
      so no further render and no further run follow. */
  function TypingStep(full: string, t: Typing): (r: Option<Typing>)
    ensures r.None? <==> !t.isTyping
    ensures r.Some? && r.value.isTyping ==>
              |t.typed| < |full| && r.value.typed == full[..|t.typed| + 1]
    ensures r.Some? && !r.value.isTyping ==> |t.typed| >= |full| && r.value.typed == t.typed
    ensures TypingInv(full, t) && r.Some? ==> TypingInv(full, r.value)
  {
    if t.isTyping && |t.typed| < |full| then Some(Typing(full[..|t.typed| + 1], true))
    else if t.isTyping && |t.typed| >= |full| then Some(t.(isTyping := false))
    else None
  }

  /** One step keeps the invariant and grows the text by exactly one
      character, never past the full text. */
  lemma TypingStepGrowsByOne(full: string, t: Typing)
    requires TypingInv(full, t)
    ensures var r := TypingStep(full, t);
            r.Some? && r.value.isTyping ==>
              |r.value.typed| == |t.typed| + 1 <= |full| && t.typed <= r.value.typed
  {
  }

  /** The typing state after `n` effect runs from the start. */
  function TypingAfter(full: string, n: nat): Typing
    decreases n
  {
    if n == 0 then TypingStart
    else
      var prev := TypingAfter(full, n - 1);
      match TypingStep(full, prev)
      case Some(next) => next
      case None => prev
  }

  /** The milliseconds the first `n` effect runs take: a run that shows one
      more character waits out one timer first; the run that stops typing
      follows at once, with no timer of its own. */
  function Elapsed(full: string, n: nat): nat
    decreases n
  {
    if n == 0 then 0
    else
      var prev := TypingAfter(full, n - 1);
      Elapsed(full, n - 1) + (if prev.isTyping && |prev.typed| < |full| then TypingDelay else 0)
  }

  /** After `k <= |full|` effect runs, `k * 80` ms in, exactly the first `k`
      characters are shown; the next run, at that same instant, stops typing
      with the whole text shown, and from then on nothing changes. */
  lemma {:induction false} TypingRun(full: string, n: nat)
    ensures n <= |full| ==> TypingAfter(full, n) == Typing(full[..n], true)
    ensures n > |full| ==> TypingAfter(full, n) == Typing(full, false)
    ensures n <= |full| ==> Elapsed(full, n) == n * TypingDelay
    ensures n > |full| ==> Elapsed(full, n) == |full| * TypingDelay
    ensures TypingInv(full, TypingAfter(full, n))
    decreases n
  {
    if n == 0 {
      assert full[..0] == "";
    } else {
      TypingRun(full, n - 1);
      if n - 1 == |full| {
        assert full[..n - 1] == full;
      }
    }
  }

  /** The greeting is fully shown after 37 runs, 2960 ms in; the run that
      stops typing comes at that same instant. */
  lemma GreetingTyped()
    ensures |FullText| == 37
    ensures TypingAfter(FullText, 37) == Typing(FullText, true) && Elapsed(FullText, 37) == 2960
    ensures TypingAfter(FullText, 38) == Typing(FullText, false) && Elapsed(FullText, 38) == 2960
  {
    TypingRun(FullText, 37);
    TypingRun(FullText, 38);
    assert FullText[..37] == FullText;
  }

  /** A planet card of the selection grid. */
  datatype Card = Card(id: Planet, name: string, title: string)

  const Cards: seq<Card> := [
    Card(Grid, "Grid", "Cosmic Neptune"),
    Card(Sol, "Sol", "Sunrise World"),
    Card(Flux, "Flux", "Cyber Arena"),
    Card(Terra, "Terra", "Forest Realm"),
    Card(Glacis, "Glacis", "Ice Kingdom")
  ]

  /** The cards list every planet once, in the canonical order. */
  lemma CardsCoverPlanets(p: Planet)
    ensures |Cards| == |AllPlanets| == 5
    ensures forall k :: 0 <= k < |Cards| ==> Cards[k].id == AllPlanets[k]
    ensures exists k :: 0 <= k < |Cards| && Cards[k].id == p
    ensures forall k, m :: 0 <= k < m < |Cards| ==> Cards[k].id != Cards[m].id
  {
    AllPlanetsComplete(p);
    var k :| 0 <= k < |AllPlanets| && AllPlanets[k] == p;
    assert Cards[k].id == p;
  }

  /** What the page does to the outside world: a travel effect at its time,
      or a navigation. */
  datatype Effect = Travel(timed: Timed) | Navigate(path: string)

  datatype Outcome = Outcome(context: Context, effects: seq<Effect>)

  function TravelEffects(trace: seq<Timed>): (r: seq<Effect>)
    ensures |r| == |trace|
    ensures forall i :: 0 <= i < |r| ==> r[i] == Travel(trace[i])
  {
    seq(|trace|, i requires 0 <= i < |trace| => Travel(trace[i]))
  }

  /** Awaiting a travel: its effects in order, then the navigation home,
      which runs only once the travel has resolved and the page is idle. */
  function Await(run: Run): (r: Outcome)
    ensures r.context == run.context
    ensures |r.effects| == |run.trace| + (if run.context.phase.Idle? then 1 else 0)
    ensures forall i :: 0 <= i < |run.trace| ==> r.effects[i] == Travel(run.trace[i])
    ensures run.context.phase.Idle? ==> r.effects[|r.effects| - 1] == Navigate("/")
  {
    if run.context.phase.Idle? then Outcome(run.context, TravelEffects(run.trace) + [Navigate("/")])
    else Outcome(run.context, TravelEffects(run.trace))
  }

  /** `handleEnterWorld`: with no planet chosen, nothing happens. Otherwise
      the page travels to it and awaits the travel. When the travel resolves,
      the page navigates home exactly once, as its last effect, right after
      the resolution at 2500 ms; by then that planet is selected and the mode
      is as it was. When the travel stalls, the await never returns: no
      navigation, no resolution, and the planet stays as it was. */
  function EnterWorld(selected: Option<Planet>, c: Context): (r: Outcome)
    requires selected.Some? ==> c.phase.Idle?
    ensures selected.None? ==> r.context == c && r.effects == []
    ensures selected.Some? && !Stalls(c.state.settings) ==>
              && r.context.state == c.state.(selectedPlanet := selected)
              && r.context.phase.Idle?
              && |r.effects| >= 3
              && r.effects[|r.effects| - 1] == Navigate("/")
              && r.effects[|r.effects| - 2] == Travel(Timed(2500, Resolved))
              && (forall i :: 0 <= i < |r.effects| - 1 ==> r.effects[i].Travel?)
              && (forall i :: 0 <= i < |r.effects| - 2 ==> r.effects[i].timed.event != Resolved)
    ensures selected.Some? && Stalls(c.state.settings) ==>
              && r.context.state == c.state
              && r.context.phase.Stalled?
              && (forall i :: 0 <= i < |r.effects| ==> r.effects[i].Travel? && r.effects[i].timed.event != Resolved)
    ensures Valid(c) ==> Valid(r.context)
  {
    match selected
    case None => Outcome(c, [])
    case Some(p) =>
      Await(RunTravel(c, p))
  }

  /** `handleExitImmersive`: leave immersive mode (clearing the planet) and
      navigate home. */
  function ExitToSite(c: Context): (r: Outcome)
    ensures !r.context.state.isImmersive && r.context.state.selectedPlanet.None?
    ensures r.context.state.settings == c.state.settings
    ensures r.effects == [Navigate("/")]
    ensures Valid(c) ==> Valid(r.context)
  {
    Outcome(SetImmersive(c, false), [Navigate("/")])
  }
}
