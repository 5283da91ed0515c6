/**
 * Committing an output configuration, from audio_effect.cpp: every chain is snapshotted and prepared outside the mixer
 * lock, and published under it only if no effect was attached, detached or given a processor in the meantime.  All
 * chains share one generation counter.
 */
module OutputCommit {
  import opened Options

  datatype Error = Okay | InvalidState | InvalidValue | OtherError(code: nat)

  /** What a commit writes, of an effect and of a chain. */
  datatype Format = Format(rate: int, layout: seq<int>, generation: nat)

  datatype Effect = Effect(processor: Option<nat>, format: Format, committed: bool, latency: int, resetPending: bool)

  datatype Chain = Chain(effects: seq<nat>, format: Format)

  datatype World = World(effects: seq<Effect>, chains: seq<Chain>, generation: nat, output: Format)

  /** An effect with the processor it had when the chain was snapshotted, and the latency its configuration has. */
  datatype Entry = Entry(effect: nat, processor: Option<nat>, latency: int)

  datatype Prepared = Prepared(chain: nat, generation: nat, entries: seq<Entry>)

  datatype Commit = Preparing(todo: seq<nat>, prepared: seq<Prepared>) | Failed(error: Error) | Published

  /** The preparation of an entry succeeds with a latency, or fails. */
  datatype Outcome = Ready(latency: int) | Refused(error: Error)

  datatype Event =
    | Detach(chain: nat, effect: nat)
    | Attach(chain: nat, effect: nat, at: nat)
    | SetProcessor(effect: nat, processor: nat, latency: int)
    | ResetChain(chain: nat)
    | Snapshot(outcomes: seq<Outcome>)   // The next chain is snapshotted and its processors prepared
    | Finish(start: Error, rate: int, layout: seq<int>)

  // ---------------------------------------------------------------- steps of others

  function Without(es: seq<nat>, e: nat): seq<nat> {
    if es == [] then [] else (if es[0] == e then [] else [es[0]]) + Without(es[1..], e)
  }

  function Reset(effects: seq<Effect>, es: seq<nat>): (r: seq<Effect>)
    ensures |r| == |effects|
    ensures forall i :: 0 <= i < |effects| ==> r[i] == if i in es then effects[i].(resetPending := true) else effects[i]
  {
    seq(|effects|, i requires 0 <= i < |effects| => if i in es then effects[i].(resetPending := true) else effects[i])
  }

  // ---------------------------------------------------------------- the commit

  /** What a snapshot takes from the world; an entry without a processor needs no preparation and has no latency. */
  function EntryOf(w: World, e: nat, o: Outcome): Entry
    requires e < |w.effects|
  {
    Entry(e, w.effects[e].processor, if w.effects[e].processor.Some? && o.Ready? then o.latency else 0)
  }

  function Entries(w: World, es: seq<nat>, outcomes: seq<Outcome>): (r: seq<Entry>)
    requires |es| == |outcomes| && forall i :: 0 <= i < |es| ==> es[i] < |w.effects|
    ensures |r| == |es| && forall i :: 0 <= i < |es| ==> r[i] == EntryOf(w, es[i], outcomes[i])
  {
    seq(|es|, i requires 0 <= i < |es| => EntryOf(w, es[i], outcomes[i]))
  }

  /** The first refusal of a processor, or a latency below zero, ends the commit. */
  function FirstRefusal(w: World, es: seq<nat>, outcomes: seq<Outcome>): Option<Error>
    requires |es| == |outcomes| && forall i :: 0 <= i < |es| ==> es[i] < |w.effects|
  {
    if es == [] then None
    else if w.effects[es[0]].processor.None? then FirstRefusal(w, es[1..], outcomes[1..])
    else match outcomes[0]
         case Refused(e) => Some(e)
         case Ready(latency) => if latency < 0 then Some(InvalidValue) else FirstRefusal(w, es[1..], outcomes[1..])
  }

  function PublishEffect(e: Effect, entry: Entry, format: Format): Effect {
    e.(format := format, committed := true, latency := entry.latency, resetPending := true)
  }

  /** A chain takes the format, and all its entries with it. */
  function PublishEffects(effects: seq<Effect>, entries: seq<Entry>, format: Format): (r: seq<Effect>)
    ensures |r| == |effects|
  {
    if entries == [] then effects
    else
      var before, e := PublishEffects(effects, entries[..|entries| - 1], format), entries[|entries| - 1];
      if e.effect < |before| then before[e.effect := PublishEffect(before[e.effect], e, format)] else before
  }

  function PublishChain(w: World, p: Prepared, format: Format): (r: World)
    ensures |r.effects| == |w.effects| && |r.chains| == |w.chains|
  {
    w.(effects := PublishEffects(w.effects, p.entries, format),
       chains := if p.chain < |w.chains| then w.chains[p.chain := w.chains[p.chain].(format := format)] else w.chains,
       generation := w.generation + 1)
  }

  function PublishAll(w: World, ps: seq<Prepared>, format: Format): (r: World)
    ensures |r.effects| == |w.effects| && |r.chains| == |w.chains|
  {
    if ps == [] then w else PublishChain(PublishAll(w, ps[..|ps| - 1], format), ps[|ps| - 1], format)
  }

  predicate Unchanged(w: World, ps: seq<Prepared>) {
    forall i :: 0 <= i < |ps| ==> ps[i].generation == w.generation
  }

  function NextFormat(w: World, rate: int, layout: seq<int>): Format {
    Format(rate, layout, w.output.generation + 1)
  }

  /** The end of the commit, under the mixer lock. */
  function FinishCommit(w: World, c: Commit, start: Error, rate: int, layout: seq<int>): (World, Commit)
    requires c.Preparing?
  {
    if !Unchanged(w, c.prepared) then (w, Failed(InvalidState))
    else if start != Okay then (w, Failed(start))
    else
      var format := NextFormat(w, rate, layout);
      (PublishAll(w, c.prepared, format).(output := format), Published)
  }

  /** Every attached effect exists. */
  ghost predicate InRange(w: World) {
    forall c, i :: 0 <= c < |w.chains| && 0 <= i < |w.chains[c].effects| ==> w.chains[c].effects[i] < |w.effects|
  }

  ghost predicate Enabled(w: World, c: Commit, e: Event) {
    match e
    case Detach(chain, effect) => chain < |w.chains|
    case Attach(chain, effect, at) =>
      && chain < |w.chains| && effect < |w.effects| && at <= |w.chains[chain].effects|
      && forall d :: 0 <= d < |w.chains| ==> effect !in w.chains[d].effects
    case SetProcessor(effect, processor, latency) => effect < |w.effects| && w.effects[effect].processor.None?
    case ResetChain(chain) => chain < |w.chains|
    case Snapshot(outcomes) => c.Preparing? && c.todo != [] && c.todo[0] < |w.chains| && InRange(w)
                               && |outcomes| == |w.chains[c.todo[0]].effects|
    case Finish(start, rate, layout) => c.Preparing? && c.todo == []
  }

  function Step(w: World, c: Commit, e: Event): (World, Commit)
    requires Enabled(w, c, e)
  {
    match e
    case Detach(chain, effect) =>
      (w.(chains := w.chains[chain := w.chains[chain].(effects := Without(w.chains[chain].effects, effect))],
          generation := w.generation + 1), c)
    case Attach(chain, effect, at) =>
      var was := w.chains[chain].effects;
      (w.(chains := w.chains[chain := w.chains[chain].(effects := was[..at] + [effect] + was[at..])],
          generation := w.generation + 1), c)
    case SetProcessor(effect, processor, latency) =>
      var e := w.effects[effect].(processor := Some(processor), latency := latency, resetPending := true);
      (w.(effects := w.effects[effect := e],
          generation := w.generation + 1), c)
    case ResetChain(chain) =>
      (w.(effects := Reset(w.effects, w.chains[chain].effects), generation := w.generation + 1), c)
    case Snapshot(outcomes) =>
      var chain := c.todo[0];
      var effects := w.chains[chain].effects;
      var refusal := FirstRefusal(w, effects, outcomes);
      if refusal.Some? then (w, Failed(refusal.value))
      else (w, Preparing(c.todo[1..], c.prepared + [Prepared(chain, w.generation, Entries(w, effects, outcomes))]))
    case Finish(start, rate, layout) => FinishCommit(w, c, start, rate, layout)
  }

  // ---------------------------------------------------------------- every effect is attached at most once

  ghost predicate Attached(w: World, c: int, i: int) {
    0 <= c < |w.chains| && 0 <= i < |w.chains[c].effects|
  }

  ghost predicate AttachedOnce(w: World) {
    forall c, i, d, j :: Attached(w, c, i) && Attached(w, d, j) && w.chains[c].effects[i] == w.chains[d].effects[j] ==>
                           c == d && i == j
  }

  ghost predicate Sound(w: World) {
    InRange(w) && AttachedOnce(w)
  }

  /** Where an effect that stays was before. */
  ghost function Origin(es: seq<nat>, e: nat, i: nat): (o: nat)
    requires i < |Without(es, e)|
    ensures o < |es| && es[o] == Without(es, e)[i]
  {
    if es[0] == e then 1 + Origin(es[1..], e, i) else if i == 0 then 0 else 1 + Origin(es[1..], e, i - 1)
  }

  lemma {:induction false} OriginGrows(es: seq<nat>, e: nat, i: nat, j: nat)
    requires i < j < |Without(es, e)|
    ensures Origin(es, e, i) < Origin(es, e, j)
  {
    if es[0] == e {
      OriginGrows(es[1..], e, i, j);
    } else if i > 0 {
      OriginGrows(es[1..], e, i - 1, j - 1);
    }
  }

  /** The chains after a step, each with an injection of its places into the places before. */
  lemma DetachOnce(w: World, chain: nat, effect: nat)
    requires Sound(w) && chain < |w.chains|
    ensures Sound(Step(w, Published, Detach(chain, effect)).0)
  {
    var w', es := Step(w, Published, Detach(chain, effect)).0, w.chains[chain].effects;
    forall c, i | 0 <= c < |w'.chains| && 0 <= i < |w'.chains[c].effects|
      ensures w'.chains[c].effects[i] < |w'.effects|
    {
      if c == chain {
        assert es[Origin(es, effect, i)] < |w.effects|;
      }
    }
    forall c, i, d, j | Attached(w', c, i) && Attached(w', d, j) && w'.chains[c].effects[i] == w'.chains[d].effects[j]
      ensures c == d && i == j
    {
      var i0 := if c == chain then Origin(es, effect, i) else i;
      var j0 := if d == chain then Origin(es, effect, j) else j;
      assert Attached(w, c, i0) && Attached(w, d, j0);
      if c == chain && d == chain && i != j {
        OriginGrows(es, effect, if i < j then i else j, if i < j then j else i);
      }
    }
  }

  lemma AttachOnce(w: World, e: Event)
    requires Sound(w) && e.Attach? && Enabled(w, Published, e)
    ensures Sound(Step(w, Published, e).0)
  {
    var w', was := Step(w, Published, e).0, w.chains[e.chain].effects;
    forall c, i, d, j | Attached(w', c, i) && Attached(w', d, j) && w'.chains[c].effects[i] == w'.chains[d].effects[j]
      ensures c == d && i == j
    {
      PlaceBefore(w, e, c, i);
      PlaceBefore(w, e, d, j);
    }
    forall c, i | 0 <= c < |w'.chains| && 0 <= i < |w'.chains[c].effects|
      ensures w'.chains[c].effects[i] < |w'.effects|
    {
      PlaceBefore(w, e, c, i);
    }
  }

  /** A place of the chains after an attachment is the new one, or was there before. */
  lemma PlaceBefore(w: World, e: Event, c: nat, i: nat)
    requires e.Attach? && Enabled(w, Published, e) && c < |w.chains|
    requires i < |Step(w, Published, e).0.chains[c].effects|
    ensures var x, was := Step(w, Published, e).0.chains[c].effects[i], w.chains[c].effects;
            if c == e.chain && i == e.at then x == e.effect
            else
              var i0 := if c == e.chain && i > e.at then i - 1 else i;
              i0 < |was| && x == was[i0] && x != e.effect
  {
  }

  ghost predicate SameEffects(a: World, b: World) {
    && |a.effects| == |b.effects| && |a.chains| == |b.chains|
    && forall c :: 0 <= c < |a.chains| ==> a.chains[c].effects == b.chains[c].effects
  }

  lemma {:induction false} PublishKeepsEffects(w: World, ps: seq<Prepared>, format: Format)
    ensures SameEffects(w, PublishAll(w, ps, format))
  {
    if ps != [] {
      PublishKeepsEffects(w, ps[..|ps| - 1], format);
    }
  }

  lemma SameSound(a: World, b: World)
    requires Sound(a) && SameEffects(a, b)
    ensures Sound(b)
  {
  }

  lemma StepSound(w: World, c: Commit, e: Event)
    requires Sound(w) && Enabled(w, c, e)
    ensures Sound(Step(w, c, e).0)
  {
    hide Sound, PublishAll;
    match e
    case Detach(chain, effect) => DetachOnce(w, chain, effect);
    case Attach(chain, effect, at) => AttachOnce(w, e);
    case Finish(start, rate, layout) =>
      PublishKeepsEffects(w, c.prepared, NextFormat(w, rate, layout));
      SameSound(w, Step(w, c, e).0);
    case _ => SameSound(w, Step(w, c, e).0);
  }

  // ---------------------------------------------------------------- snapshots stay current

  /** While the generation is that of the snapshot, the chain has the snapshotted effects with their processors. */
  ghost predicate Current(w: World, p: Prepared) {
    && p.generation <= w.generation && p.chain < |w.chains|
    && (p.generation == w.generation ==>
          && |p.entries| == |w.chains[p.chain].effects|
          && forall i :: 0 <= i < |p.entries| ==>
               && p.entries[i].effect == w.chains[p.chain].effects[i]
               && (p.entries[i].effect < |w.effects| ==>
                   w.effects[p.entries[i].effect].processor == p.entries[i].processor))
  }

  ghost predicate AllCurrent(w: World, c: Commit) {
    c.Preparing? ==> forall i :: 0 <= i < |c.prepared| ==> Current(w, c.prepared[i])
  }

  predicate External(e: Event) {
    e.Detach? || e.Attach? || e.SetProcessor? || e.ResetChain?
  }

  /** A step of anyone else moves the generation past every snapshot. */
  lemma ExternalStep(w: World, c: Commit, e: Event)
    requires Enabled(w, c, e) && External(e)
    ensures Step(w, c, e).1 == c && Step(w, c, e).0.generation == w.generation + 1
    ensures |Step(w, c, e).0.chains| == |w.chains|
  {
  }

  lemma {:induction false} WithoutMeans(es: seq<nat>, e: nat)
    ensures e !in Without(es, e) && multiset(Without(es, e)) == multiset(es)[e := 0]
  {
    if es != [] {
      WithoutMeans(es[1..], e);
      assert es == [es[0]] + es[1..];
    }
  }

  /**
   * What others do to the chains and effects: only a detached effect leaves its chain, an attached one takes its place
   * between the others, and a new processor or a reset is pending from then on.
   */
  lemma OthersDo(w: World, c: Commit, e: Event)
    requires Enabled(w, c, e) && External(e)
    ensures var w' := Step(w, c, e).0;
            && |w'.chains| == |w.chains| && |w'.effects| == |w.effects|
            && (e.Detach? ==>
                  && e.effect !in w'.chains[e.chain].effects && w'.effects == w.effects
                  && multiset(w'.chains[e.chain].effects) == multiset(w.chains[e.chain].effects)[e.effect := 0])
            && (e.Attach? ==>
                  var es, es' := w.chains[e.chain].effects, w'.chains[e.chain].effects;
                  && |es'| == |es| + 1 && es'[e.at] == e.effect && es'[..e.at] == es[..e.at]
                  && es'[e.at + 1..] == es[e.at..] && w'.effects == w.effects)
            && (e.SetProcessor? ==>
                  && w'.effects[e.effect].processor == Some(e.processor) && w'.effects[e.effect].resetPending
                  && w'.effects[e.effect].latency == e.latency && w'.chains == w.chains)
            && (e.ResetChain? ==>
                  && (forall x :: 0 <= x < |w.effects| && x in w.chains[e.chain].effects ==> w'.effects[x].resetPending)
                  && (forall x :: 0 <= x < |w.effects| && x !in w.chains[e.chain].effects ==>
                        w'.effects[x] == w.effects[x])
                  && w'.chains == w.chains)
  {
    if e.Detach? {
      WithoutMeans(w.chains[e.chain].effects, e.effect);
    }
  }

  /** Every interleaved step keeps the snapshots current, or moves the generation past them. */
  lemma StepCurrent(w: World, c: Commit, e: Event)
    requires AllCurrent(w, c) && Enabled(w, c, e)
    ensures AllCurrent(Step(w, c, e).0, Step(w, c, e).1)
  {
    hide FirstRefusal, PublishAll;
    if External(e) {
      hide Step, Enabled;
      ExternalStep(w, c, e);
    }
  }

  ghost predicate Runs(w: World, c: Commit, es: seq<Event>)
    decreases |es|, 0
  {
    es == [] || (Runs(w, c, es[..|es| - 1])
                 && Enabled(After(w, c, es[..|es| - 1]).0, After(w, c, es[..|es| - 1]).1, es[|es| - 1]))
  }

  ghost function After(w: World, c: Commit, es: seq<Event>): (World, Commit)
    requires Runs(w, c, es)
    decreases |es|, 1
  {
    if es == [] then (w, c)
    else
      var s := After(w, c, es[..|es| - 1]);
      Step(s.0, s.1, es[|es| - 1])
  }

  /** Chains that are prepared, followed by those to do, are those the commit began with. */
  ghost predicate InOrder(todo: seq<nat>, c: Commit) {
    c.Preparing? ==>
      && |c.prepared| + |c.todo| == |todo| && c.todo == todo[|c.prepared|..]
      && forall i :: 0 <= i < |c.prepared| ==> c.prepared[i].chain == todo[i]
  }

  lemma StepInOrder(todo: seq<nat>, w: World, c: Commit, e: Event)
    requires InOrder(todo, c) && Enabled(w, c, e)
    ensures InOrder(todo, Step(w, c, e).1)
  {
    hide FirstRefusal, PublishAll, Unchanged;
  }

  /** Over every run the snapshots are current and in order, and every effect is attached at most once. */
  lemma {:induction false} AlwaysCurrent(w: World, todo: seq<nat>, es: seq<Event>)
    requires Sound(w) && Runs(w, Preparing(todo, []), es)
    ensures var s := After(w, Preparing(todo, []), es);
            Sound(s.0) && AllCurrent(s.0, s.1) && InOrder(todo, s.1)
    decreases |es|
  {
    hide AllCurrent, InOrder, Step, Enabled, Sound;
    if es == [] {
      NothingStale(w, todo);
    } else {
      AlwaysCurrent(w, todo, es[..|es| - 1]);
      var s := After(w, Preparing(todo, []), es[..|es| - 1]);
      StepCurrent(s.0, s.1, es[|es| - 1]);
      StepInOrder(todo, s.0, s.1, es[|es| - 1]);
      StepSound(s.0, s.1, es[|es| - 1]);
    }
  }

  lemma NothingStale(w: World, todo: seq<nat>)
    ensures AllCurrent(w, Preparing(todo, [])) && InOrder(todo, Preparing(todo, []))
  {
  }

  // ---------------------------------------------------------------- what a publication leaves

  ghost predicate Committed(e: Effect, format: Format) {
    e.format == format && e.committed && e.resetPending
  }

  ghost predicate EntriesHave(effects: seq<Effect>, entries: seq<Entry>, format: Format) {
    forall i :: 0 <= i < |entries| && entries[i].effect < |effects| ==> Committed(effects[entries[i].effect], format)
  }

  lemma {:induction false} EffectsPublished(effects: seq<Effect>, entries: seq<Entry>, format: Format)
    ensures EntriesHave(PublishEffects(effects, entries, format), entries, format)
    ensures forall i :: 0 <= i < |effects| && Committed(effects[i], format) ==>
                          Committed(PublishEffects(effects, entries, format)[i], format)
  {
    if entries != [] {
      EffectsPublished(effects, entries[..|entries| - 1], format);
    }
  }

  ghost predicate ChainHas(w: World, p: Prepared, format: Format) {
    && (p.chain < |w.chains| ==> w.chains[p.chain].format == format)
    && EntriesHave(w.effects, p.entries, format)
  }

  /** After publication all prepared chains and their effects share one rate, layout and format generation. */
  lemma {:induction false} AllPublished(w: World, ps: seq<Prepared>, format: Format, i: nat)
    requires i < |ps|
    ensures ChainHas(PublishAll(w, ps, format), ps[i], format)
  {
    var before, p := PublishAll(w, ps[..|ps| - 1], format), ps[|ps| - 1];
    EffectsPublished(before.effects, p.entries, format);
    if i < |ps| - 1 {
      AllPublished(w, ps[..|ps| - 1], format, i);
    }
  }

  ghost predicate Mentions(entries: seq<Entry>, x: nat) {
    exists j :: 0 <= j < |entries| && entries[j].effect == x
  }

  /** Publication replaces no processor, and touches no effect but those of its entries. */
  lemma {:induction false} ProcessorsKept(effects: seq<Effect>, entries: seq<Entry>, format: Format, x: nat)
    requires x < |effects|
    ensures PublishEffects(effects, entries, format)[x].processor == effects[x].processor
    ensures !Mentions(entries, x) ==> PublishEffects(effects, entries, format)[x] == effects[x]
  {
    if entries != [] {
      var before := entries[..|entries| - 1];
      ProcessorsKept(effects, before, format, x);
      if Mentions(before, x) {
        var j :| 0 <= j < |before| && before[j].effect == x;
        assert entries[j].effect == x;
      } else if entries[|entries| - 1].effect == x {
        assert Mentions(entries, x);
      }
    }
  }

  lemma {:induction false} EntryPublished(effects: seq<Effect>, entries: seq<Entry>, format: Format, k: nat)
    requires k < |entries| && entries[k].effect < |effects|
    requires forall j :: k < j < |entries| ==> entries[j].effect != entries[k].effect
    ensures PublishEffects(effects, entries, format)[entries[k].effect].latency == entries[k].latency
  {
    if k < |entries| - 1 {
      EntryPublished(effects, entries[..|entries| - 1], format, k);
    }
  }

  /** Chains and effects that no prepared chain has are left alone, and processors stay. */
  lemma {:induction false} OthersKept(w: World, ps: seq<Prepared>, format: Format, x: nat, c: nat)
    ensures var w' := PublishAll(w, ps, format);
            && (x < |w.effects| ==> w'.effects[x].processor == w.effects[x].processor)
            && (x < |w.effects| && (forall i :: 0 <= i < |ps| ==> !Mentions(ps[i].entries, x)) ==>
                w'.effects[x] == w.effects[x])
            && (c < |w.chains| && (forall i :: 0 <= i < |ps| ==> ps[i].chain != c) ==> w'.chains[c] == w.chains[c])
  {
    hide Mentions;
    if ps != [] {
      var before := PublishAll(w, ps[..|ps| - 1], format);
      OthersKept(w, ps[..|ps| - 1], format, x, c);
      if x < |w.effects| {
        ProcessorsKept(before.effects, ps[|ps| - 1].entries, format, x);
      }
    }
  }

  /** An entry whose effect no later entry has gives it its latency. */
  lemma {:induction false} LatencyPublished(w: World, ps: seq<Prepared>, format: Format, i: nat, k: nat)
    requires i < |ps| && k < |ps[i].entries| && ps[i].entries[k].effect < |w.effects|
    requires forall j :: k < j < |ps[i].entries| ==> ps[i].entries[j].effect != ps[i].entries[k].effect
    requires forall j :: i < j < |ps| ==> !Mentions(ps[j].entries, ps[i].entries[k].effect)
    ensures PublishAll(w, ps, format).effects[ps[i].entries[k].effect].latency == ps[i].entries[k].latency
  {
    var before, x := PublishAll(w, ps[..|ps| - 1], format), ps[i].entries[k].effect;
    if i < |ps| - 1 {
      LatencyPublished(w, ps[..|ps| - 1], format, i, k);
      ProcessorsKept(before.effects, ps[|ps| - 1].entries, format, x);
    } else {
      EntryPublished(before.effects, ps[i].entries, format, k);
    }
  }

  // ---------------------------------------------------------------- whole runs

  /** The last step of a run publishes. */
  ghost predicate Publishes(w: World, todo: seq<nat>, es: seq<Event>, e: Event)
    requires Runs(w, Preparing(todo, []), es)
  {
    var s := After(w, Preparing(todo, []), es);
    e.Finish? && Enabled(s.0, s.1, e) && Step(s.0, s.1, e).1.Published?
  }

  /** What is prepared when a run publishes: exactly the chains to do, as they are now. */
  lemma PublishesCurrent(w: World, todo: seq<nat>, es: seq<Event>, e: Event)
    requires Sound(w) && Runs(w, Preparing(todo, []), es) && Publishes(w, todo, es, e)
    ensures var s := After(w, Preparing(todo, []), es);
            && Sound(s.0) && s.1.Preparing? && |s.1.prepared| == |todo|
            && Step(s.0, s.1, e).0 ==
               (var format := NextFormat(s.0, e.rate, e.layout);
                PublishAll(s.0, s.1.prepared, format).(output := format))
            && forall i :: 0 <= i < |todo| ==>
                             && s.1.prepared[i].chain == todo[i] && s.1.prepared[i].generation == s.0.generation
                             && Current(s.0, s.1.prepared[i])
  {
    hide After, Runs, PublishAll, Current, Sound;
    AlwaysCurrent(w, todo, es);
  }

  /**
   * A run that publishes commits exactly the chains it began with: each has the new output format with all the
   * effects that are attached to it at that moment, under the processors that were prepared.
   */
  lemma CommitsAll(w: World, todo: seq<nat>, es: seq<Event>, e: Event, i: nat, k: nat)
    requires Sound(w) && Runs(w, Preparing(todo, []), es) && Publishes(w, todo, es, e) && i < |todo|
    ensures var s := After(w, Preparing(todo, []), es);
            var w' := Step(s.0, s.1, e).0;
            && w'.output == Format(e.rate, e.layout, s.0.output.generation + 1)
            && todo[i] < |w'.chains| == |s.0.chains| && w'.chains[todo[i]].format == w'.output
            && w'.chains[todo[i]].effects == s.0.chains[todo[i]].effects
            && (k < |w'.chains[todo[i]].effects| ==>
                  var x := w'.chains[todo[i]].effects[k];
                  && x < |w'.effects| == |s.0.effects| && Committed(w'.effects[x], w'.output)
                  && i < |s.1.prepared| && k < |s.1.prepared[i].entries|
                  && w'.effects[x].processor == s.0.effects[x].processor == s.1.prepared[i].entries[k].processor)
  {
    hide After, Runs, PublishAll, AttachedOnce, Step, Committed;
    var s := After(w, Preparing(todo, []), es);
    PublishesCurrent(w, todo, es, e);
    var ps, format := s.1.prepared, NextFormat(s.0, e.rate, e.layout);
    assert Current(s.0, ps[i]);
    PublishKeepsEffects(s.0, ps, format);
    AllPublished(s.0, ps, format, i);
    if k < |ps[i].entries| {
      OthersKept(s.0, ps, format, ps[i].entries[k].effect, 0);
    }
  }

  /** Without a chain to do twice, every committed effect has the latency of its own configuration. */
  lemma CommitsLatency(w: World, todo: seq<nat>, es: seq<Event>, e: Event, i: nat, k: nat)
    requires Sound(w) && Runs(w, Preparing(todo, []), es) && Publishes(w, todo, es, e) && i < |todo|
    requires forall a, b :: 0 <= a < b < |todo| ==> todo[a] != todo[b]
    ensures var s := After(w, Preparing(todo, []), es);
            var w' := Step(s.0, s.1, e).0;
            && i < |s.1.prepared|
            && var entries := s.1.prepared[i].entries;
               k < |entries| ==>
                   entries[k].effect < |w'.effects| && w'.effects[entries[k].effect].latency == entries[k].latency
  {
    hide After, Runs, PublishAll, Step;
    var s := After(w, Preparing(todo, []), es);
    PublishesCurrent(w, todo, es, e);
    var ps, format := s.1.prepared, NextFormat(s.0, e.rate, e.layout);
    assert Current(s.0, ps[i]);
    if k < |ps[i].entries| {
      var x := ps[i].entries[k].effect;
      assert x == s.0.chains[todo[i]].effects[k];
      forall j | i < j < |ps|
        ensures !Mentions(ps[j].entries, x)
      {
        assert Current(s.0, ps[j]);
      }
      LatencyPublished(s.0, ps, format, i, k);
    }
  }

  ghost predicate Elsewhere(w: World, todo: seq<nat>, x: nat) {
    forall i :: 0 <= i < |todo| ==> todo[i] < |w.chains| && x !in w.chains[todo[i]].effects
  }

  /** Whatever is not attached to a chain of the commit keeps its whole configuration. */
  lemma CommitsNothingElse(w: World, todo: seq<nat>, es: seq<Event>, e: Event, x: nat, c: nat)
    requires Sound(w) && Runs(w, Preparing(todo, []), es) && Publishes(w, todo, es, e)
    ensures var s := After(w, Preparing(todo, []), es);
            var w' := Step(s.0, s.1, e).0;
            && (c < |s.0.chains| && c !in todo ==> c < |w'.chains| && w'.chains[c] == s.0.chains[c])
            && (x < |s.0.effects| && Elsewhere(s.0, todo, x) ==>
                  x < |w'.effects| && w'.effects[x] == s.0.effects[x])
  {
    hide After, Runs, PublishAll, Step, AttachedOnce;
    var s := After(w, Preparing(todo, []), es);
    PublishesCurrent(w, todo, es, e);
    var ps, format := s.1.prepared, NextFormat(s.0, e.rate, e.layout);
    OthersKept(s.0, ps, format, x, c);
    if x < |s.0.effects| && Elsewhere(s.0, todo, x) {
      forall i | 0 <= i < |ps|
        ensures !Mentions(ps[i].entries, x)
      {
        assert Current(s.0, ps[i]) && x !in s.0.chains[todo[i]].effects;
      }
    }
  }

  // ---------------------------------------------------------------- when a commit publishes

  /** Someone else moved between the first snapshot and the end. */
  ghost predicate Disturbed(es: seq<Event>) {
    exists i, j :: 0 <= i < j < |es| && es[i].Snapshot? && External(es[j])
  }

  ghost predicate Snapshotted(es: seq<Event>) {
    exists i :: 0 <= i < |es| && es[i].Snapshot?
  }

  lemma DisturbedNext(es: seq<Event>, e: Event)
    ensures Snapshotted(es + [e]) <==> Snapshotted(es) || e.Snapshot?
    ensures Disturbed(es + [e]) <==> Disturbed(es) || (Snapshotted(es) && External(e))
  {
    var all := es + [e];
    if Snapshotted(es) {
      var i :| 0 <= i < |es| && es[i].Snapshot?;
      assert all[i].Snapshot?;
      if External(e) {
        assert all[|es|] == e;
        assert Disturbed(all);
      }
    }
    if Disturbed(es) {
      var i, j :| 0 <= i < j < |es| && es[i].Snapshot? && External(es[j]);
      assert all[i].Snapshot? && External(all[j]);
    }
    if e.Snapshot? {
      assert all[|es|].Snapshot?;
    }
    if Disturbed(all) {
      var i, j :| 0 <= i < j < |all| && all[i].Snapshot? && External(all[j]);
      assert es[i].Snapshot?;
      assert j < |es| ==> External(es[j]);
    }
  }

  /** The prepared generations tell whether anyone else moved. */
  ghost predicate Told(w: World, c: Commit, es: seq<Event>) {
    c.Preparing? ==>
      && (c.prepared != [] <==> Snapshotted(es))
      && (forall i :: 0 <= i < |c.prepared| ==> c.prepared[i].generation <= w.generation)
      && (if Disturbed(es) then c.prepared != [] && c.prepared[0].generation < w.generation
          else Unchanged(w, c.prepared))
  }

  lemma StepTold(w: World, c: Commit, es: seq<Event>, e: Event)
    requires Told(w, c, es) && Enabled(w, c, e)
    ensures Told(Step(w, c, e).0, Step(w, c, e).1, es + [e])
  {
    hide Disturbed, Snapshotted, FirstRefusal, PublishAll;
    DisturbedNext(es, e);
    if External(e) {
      hide Step, Enabled;
      ExternalStep(w, c, e);
    }
  }

  lemma {:induction false} AlwaysTold(w: World, todo: seq<nat>, es: seq<Event>)
    requires Runs(w, Preparing(todo, []), es)
    ensures Told(After(w, Preparing(todo, []), es).0, After(w, Preparing(todo, []), es).1, es)
    decreases |es|
  {
    hide Step, Enabled;
    if es != [] {
      hide Told;
      AlwaysTold(w, todo, es[..|es| - 1]);
      var s := After(w, Preparing(todo, []), es[..|es| - 1]);
      StepTold(s.0, s.1, es[..|es| - 1], es[|es| - 1]);
      assert es[..|es| - 1] + [es[|es| - 1]] == es;
    }
  }

  /**
   * With a device that starts, the end of a run publishes exactly if nobody attached, detached, replaced or reset
   * anything since the first snapshot; otherwise it fails with InvalidState and leaves the world as it is.
   */
  lemma PublishesIfUndisturbed(w: World, todo: seq<nat>, es: seq<Event>, e: Event)
    requires Runs(w, Preparing(todo, []), es) && e.Finish?
    requires Enabled(After(w, Preparing(todo, []), es).0, After(w, Preparing(todo, []), es).1, e)
    ensures var s := After(w, Preparing(todo, []), es);
            var t := Step(s.0, s.1, e);
            && (Publishes(w, todo, es, e) <==> !Disturbed(es) && e.start == Okay)
            && (Disturbed(es) ==> t == (s.0, Failed(InvalidState)))
            && (!Disturbed(es) && e.start != Okay ==> t == (s.0, Failed(e.start)))
  {
    hide Disturbed, After, Runs, PublishAll;
    AlwaysTold(w, todo, es);
  }

  // ---------------------------------------------------------------- all or nothing

  /** The committed formats of the output, the chains and the effects. */
  ghost predicate SameFormats(a: World, b: World) {
    && a.output == b.output && |a.chains| == |b.chains| && |a.effects| == |b.effects|
    && (forall i :: 0 <= i < |a.chains| ==> a.chains[i].format == b.chains[i].format)
    && (forall i :: 0 <= i < |a.effects| ==>
        a.effects[i].format == b.effects[i].format && a.effects[i].committed == b.effects[i].committed)
  }

  lemma StepFormats(w: World, c: Commit, e: Event)
    requires Enabled(w, c, e) && !(Step(w, c, e).1.Published? && !c.Published?)
    ensures SameFormats(w, Step(w, c, e).0)
    ensures c.Published? ==> Step(w, c, e).1.Published?
    ensures c.Failed? ==> Step(w, c, e).1 == c
    ensures !External(e) ==> Step(w, c, e).0 == w
  {
    hide FirstRefusal, PublishAll;
  }

  /** What the steps of others alone would have made of the world. */
  ghost function OthersOnly(w: World, es: seq<Event>): World
    decreases |es|
  {
    if es == [] then w
    else
      var v, e := OthersOnly(w, es[..|es| - 1]), es[|es| - 1];
      if External(e) && Enabled(v, Published, e) then Step(v, Published, e).0 else v
  }

  lemma ExternalWorld(w: World, c: Commit, e: Event)
    requires Enabled(w, c, e) && External(e)
    ensures Enabled(w, Published, e) && Step(w, Published, e).0 == Step(w, c, e).0
  {
  }

  /**
   * Until it publishes, and for good if it fails, a commit leaves every committed format alone, and the world is what
   * the steps of others made of it: neither its snapshots nor a failed end left a trace.
   */
  lemma {:induction false} AllOrNothing(w: World, todo: seq<nat>, es: seq<Event>)
    requires Runs(w, Preparing(todo, []), es) && !After(w, Preparing(todo, []), es).1.Published?
    ensures SameFormats(w, After(w, Preparing(todo, []), es).0)
    ensures After(w, Preparing(todo, []), es).0 == OthersOnly(w, es)
    decreases |es|
  {
    hide Step, Enabled;
    if es != [] {
      var s := After(w, Preparing(todo, []), es[..|es| - 1]);
      var e := es[|es| - 1];
      if s.1.Published? {
        StepFormats(s.0, s.1, e);
        assert false;
      }
      AllOrNothing(w, todo, es[..|es| - 1]);
      StepFormats(s.0, s.1, e);
      if External(e) {
        ExternalWorld(s.0, s.1, e);
      }
    }
  }

  // ---------------------------------------------------------------- refused preparations

  /** Preparing effect k of the chain fails: it has a processor, which refuses or has a latency below zero. */
  predicate Refuses(w: World, es: seq<nat>, outcomes: seq<Outcome>, k: nat)
    requires |es| == |outcomes| && k < |es| && es[k] < |w.effects|
  {
    w.effects[es[k]].processor.Some? && (outcomes[k].Refused? || outcomes[k].latency < 0)
  }

  /** It is the first of its chain to fail, with this error. */
  ghost predicate FirstToRefuse(w: World, es: seq<nat>, outcomes: seq<Outcome>, k: nat, error: Error)
    requires |es| == |outcomes| && forall i :: 0 <= i < |es| ==> es[i] < |w.effects|
  {
    && k < |es| && Refuses(w, es, outcomes, k) && (forall j :: 0 <= j < k ==> !Refuses(w, es, outcomes, j))
    && error == if outcomes[k].Refused? then outcomes[k].error else InvalidValue
  }

  ghost predicate NoneRefuses(w: World, es: seq<nat>, outcomes: seq<Outcome>)
    requires |es| == |outcomes| && forall i :: 0 <= i < |es| ==> es[i] < |w.effects|
  {
    forall k :: 0 <= k < |es| ==> !Refuses(w, es, outcomes, k)
  }

  lemma {:induction false} RefusalFound(w: World, es: seq<nat>, outcomes: seq<Outcome>)
    requires |es| == |outcomes| && forall i :: 0 <= i < |es| ==> es[i] < |w.effects|
    ensures NoneRefuses(w, es, outcomes) ==> FirstRefusal(w, es, outcomes) == None
    ensures forall k: nat, error :: FirstToRefuse(w, es, outcomes, k, error) ==>
                                 FirstRefusal(w, es, outcomes) == Some(error)
  {
    if es != [] {
      RefusalFound(w, es[1..], outcomes[1..]);
      assert forall k :: 0 < k < |es| ==> Refuses(w, es, outcomes, k) == Refuses(w, es[1..], outcomes[1..], k - 1);
      forall k: nat, error | FirstToRefuse(w, es, outcomes, k, error)
        ensures FirstRefusal(w, es, outcomes) == Some(error)
      {
        if k > 0 {
          assert !Refuses(w, es, outcomes, 0);
          forall j | 0 <= j < k - 1
            ensures !Refuses(w, es[1..], outcomes[1..], j)
          {
            assert !Refuses(w, es, outcomes, j + 1);
          }
          assert FirstToRefuse(w, es[1..], outcomes[1..], k - 1, error);
        }
      }
      if NoneRefuses(w, es, outcomes) {
        assert !Refuses(w, es, outcomes, 0);
        forall k | 0 <= k < |es| - 1
          ensures !Refuses(w, es[1..], outcomes[1..], k)
        {
          assert !Refuses(w, es, outcomes, k + 1);
        }
      }
    }
  }

  /** Step t of a run is a snapshot in which effect k of the next chain is the first to refuse, with this error. */
  ghost predicate RefusedAt(w: World, todo: seq<nat>, es: seq<Event>, t: nat, k: nat, error: Error)
    requires Runs(w, Preparing(todo, []), es)
  {
    && t < |es| && es[t].Snapshot? && Runs(w, Preparing(todo, []), es[..t])
    && var s := After(w, Preparing(todo, []), es[..t]);
       && Enabled(s.0, s.1, es[t])
       && FirstToRefuse(s.0, s.0.chains[s.1.todo[0]].effects, es[t].outcomes, k, error)
  }

  lemma FailedStays(w: World, c: Commit, e: Event)
    requires Enabled(w, c, e) && c.Failed?
    ensures Step(w, c, e).1 == c
  {
  }

  /** From a refusal on, the commit has failed with its error, whatever happens later. */
  lemma {:induction false} RefusalFails(w: World, todo: seq<nat>, es: seq<Event>, t: nat, k: nat, error: Error)
    requires Runs(w, Preparing(todo, []), es) && RefusedAt(w, todo, es, t, k, error)
    ensures After(w, Preparing(todo, []), es).1 == Failed(error)
    decreases |es|
  {
    var before := es[..|es| - 1];
    var s := After(w, Preparing(todo, []), before);
    if t == |es| - 1 {
      RefusalFound(s.0, s.0.chains[s.1.todo[0]].effects, es[t].outcomes);
    } else {
      assert before[..t] == es[..t];
      hide Step, Enabled, FirstToRefuse;
      RefusalFails(w, todo, before, t, k, error);
      FailedStays(s.0, s.1, es[|es| - 1]);
    }
  }

  /** A snapshot without a refusal goes on preparing, with the latencies that its processors answered. */
  lemma PreparesUnrefused(w: World, c: Commit, e: Event)
    requires Enabled(w, c, e) && e.Snapshot? && NoneRefuses(w, w.chains[c.todo[0]].effects, e.outcomes)
    ensures var c', es := Step(w, c, e).1, w.chains[c.todo[0]].effects;
            && Step(w, c, e).0 == w && c'.Preparing? && c'.todo == c.todo[1..]
            && |c'.prepared| == |c.prepared| + 1 && c'.prepared[..|c.prepared|] == c.prepared
            && var p := c'.prepared[|c.prepared|];
               && p.chain == c.todo[0] && p.generation == w.generation && |p.entries| == |es|
               && forall k :: 0 <= k < |es| ==>
                    && p.entries[k].effect == es[k] && p.entries[k].processor == w.effects[es[k]].processor
                    && (w.effects[es[k]].processor.Some? ==> e.outcomes[k] == Ready(p.entries[k].latency))
                    && (w.effects[es[k]].processor.None? ==> p.entries[k].latency == 0)
  {
    var es := w.chains[c.todo[0]].effects;
    RefusalFound(w, es, e.outcomes);
    hide FirstRefusal;
    forall k | 0 <= k < |es|
      ensures w.effects[es[k]].processor.Some? ==> e.outcomes[k] == Ready(Entries(w, es, e.outcomes)[k].latency)
    {
      assert !Refuses(w, es, e.outcomes, k);
    }
    assert Step(w, c, e).1.prepared[|c.prepared|] == Prepared(c.todo[0], w.generation, Entries(w, es, e.outcomes));
  }

  /** Only a refusal stops the preparation: until the end of a run, a commit that has not failed was never refused. */
  lemma {:induction false} FailsOnlyRefused(w: World, todo: seq<nat>, es: seq<Event>) returns (t: nat, k: nat)
    requires Runs(w, Preparing(todo, []), es) && forall i :: 0 <= i < |es| ==> !es[i].Finish?
    requires After(w, Preparing(todo, []), es).1.Failed?
    ensures RefusedAt(w, todo, es, t, k, After(w, Preparing(todo, []), es).1.error)
    decreases |es|
  {
    var before, e := es[..|es| - 1], es[|es| - 1];
    var s := After(w, Preparing(todo, []), before);
    if s.1.Failed? {
      t, k := FailsOnlyRefused(w, todo, before);
      assert before[..t] == es[..t];
      hide Step, Enabled, FirstToRefuse;
      FailedStays(s.0, s.1, e);
    } else {
      t := |es| - 1;
      hide FirstRefusal;
      k := FindRefusal(s.0, s.0.chains[s.1.todo[0]].effects, e.outcomes);
    }
  }

  lemma {:induction false} FindRefusal(w: World, es: seq<nat>, outcomes: seq<Outcome>) returns (k: nat)
    requires |es| == |outcomes| && forall i :: 0 <= i < |es| ==> es[i] < |w.effects|
    requires FirstRefusal(w, es, outcomes).Some?
    ensures FirstToRefuse(w, es, outcomes, k, FirstRefusal(w, es, outcomes).value)
  {
    RefusalFound(w, es, outcomes);
    k := 0;
    while !Refuses(w, es, outcomes, k)
      invariant k < |es| && forall j :: 0 <= j < k ==> !Refuses(w, es, outcomes, j)
      decreases |es| - k
    {
      if k == |es| - 1 {
        assert NoneRefuses(w, es, outcomes);
      }
      k := k + 1;
    }
    assert FirstToRefuse(w, es, outcomes, k, if outcomes[k].Refused? then outcomes[k].error else InvalidValue);
  }
}
