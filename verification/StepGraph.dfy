/** The registered steps: options of a signal-gated step, the step record, and what registration builds. */
module StepGraph {
  import opened Basics

  type ActivityFn(==, !new)

  const DEFAULT_CORRECTION_SIGNAL := "retryWithCorrection"
  const DEFAULT_MAX_CORRECTION_ATTEMPTS := 5
  const DEFAULT_ACTIVITY_RETRY_ATTEMPTS := 3

  datatype Options = Options(
    correctionSignal: string,
    approvalSignal: string,
    maxCorrectionAttempts: int,
    activityRetryAttempts: int,
    statusSearchAttribute: string,
    waitTimeout: int)
  {
    function WithDefaults(): Options {
      this.(correctionSignal := if correctionSignal == "" then DEFAULT_CORRECTION_SIGNAL else correctionSignal,
            maxCorrectionAttempts :=
              if maxCorrectionAttempts <= 0 then DEFAULT_MAX_CORRECTION_ATTEMPTS else maxCorrectionAttempts,
            activityRetryAttempts :=
              if activityRetryAttempts <= 0 then DEFAULT_ACTIVITY_RETRY_ATTEMPTS else activityRetryAttempts)
    }
  }

  const NO_OPTIONS := Options("", "", 0, 0, "", 0)

  datatype Info = Info(
    activityName: string,
    signalEvent: string,
    activityFn: Option<ActivityFn>,
    nextActivities: seq<string>,
    resumable: Option<Options>)
  {
    /** A step with a signal event parks before every attempt; the others fail fast. */
    predicate Gated() { signalEvent != "" }

    /** The options a visit of this step runs with. */
    function Effective(): Options {
      var o := if resumable.Some? then resumable.value else NO_OPTIONS;
      var o' := if o.correctionSignal == "" then o.(correctionSignal := signalEvent) else o;
      o'.WithDefaults()
    }

    /** What a visit of a gated step leaves behind in the registered record. */
    function Settled(): Info { this.(resumable := Some(Effective())) }
  }

  /** The record put in the map for a name that was listed as a next step but not registered. */
  const PLACEHOLDER := Info("", "", None, [], None)

  type Graph = map<string, Info>

  function At(g: Graph, name: string): Info { if name in g then g[name] else PLACEHOLDER }

  function EdgesOf(g: Graph): Edges { set a, b | a in g && b in g[a].nextActivities && b in g :: (a, b) }

  /** The edges between two steps that both run without waiting for a signal. */
  function FreeEdges(g: Graph): Edges {
    set a, b | a in g && b in g[a].nextActivities && b in g && !g[a].Gated() && !g[b].Gated() :: (a, b)
  }

  function FreeSteps(g: Graph): set<string> { set a | a in g && !g[a].Gated() }

  /** Every cycle of the step graph goes through a step that waits for a signal. */
  ghost predicate CyclesAreGated(g: Graph) {
    forall xs :: |xs| >= 2 && Walk(EdgesOf(g), xs) && xs[0] == xs[|xs| - 1] ==> SomeGated(g, xs)
  }

  ghost predicate SomeGated(g: Graph, xs: seq<string>) { exists i :: 0 <= i < |xs| && At(g, xs[i]).Gated() }

  lemma GatedCyclesLeaveFreeEdgesAcyclic(g: Graph)
    requires CyclesAreGated(g)
    ensures Acyclic(FreeEdges(g))
  {
    forall xs | |xs| >= 2 && Walk(FreeEdges(g), xs)
      ensures xs[0] != xs[|xs| - 1]
    {
      assert Walk(EdgesOf(g), xs) by {
        forall i | 0 < i < |xs| ensures (xs[i - 1], xs[i]) in EdgesOf(g) {
          assert (xs[i - 1], xs[i]) in FreeEdges(g);
        }
      }
      forall i | 0 <= i < |xs|
        ensures !At(g, xs[i]).Gated()
      {
        if i > 0 { assert (xs[i - 1], xs[i]) in FreeEdges(g); } else { assert (xs[0], xs[1]) in FreeEdges(g); }
      }
      assert !SomeGated(g, xs);
    }
  }

  /** No step sets a timeout for its waits. */
  ghost predicate Untimed(g: Graph) { forall k :: k in g ==> g[k].Effective().waitTimeout <= 0 }

  // ---------------------------------------------------------------- search attribute

  /** What the search over the unordered map may return: some named attribute if there is one. */
  ghost predicate AttrChoice(g: Graph, attr: string) {
    if attr == "" then forall k :: k in g ==> !Names(g[k])
    else exists k :: k in g && Names(g[k]) && g[k].resumable.value.statusSearchAttribute == attr
  }

  predicate Names(i: Info) { i.resumable.Some? && i.resumable.value.statusSearchAttribute != "" }

  // ---------------------------------------------------------------- re-runs

  /** The same steps, up to options that an earlier visit settled. */
  ghost predicate SameSteps(g: Graph, g': Graph) {
    && g.Keys == g'.Keys
    && forall k :: k in g ==> g'[k] == g[k] || (g[k].Gated() && g'[k] == g[k].Settled())
  }

  /** Settling changes nothing a later visit can see. */
  lemma SettledIsSettled(i: Info)
    ensures i.Settled().Effective() == i.Effective()
    ensures i.Settled().Settled() == i.Settled()
    ensures i.Settled().(resumable := i.resumable) == i
    ensures Names(i.Settled()) <==> Names(i)
  {
    var o := i.Effective();
    assert o.maxCorrectionAttempts > 0 && o.activityRetryAttempts > 0 && o.correctionSignal != "";
    assert o.statusSearchAttribute == (if i.resumable.Some? then i.resumable.value.statusSearchAttribute else "");
  }

  lemma SameStepsChooseSameAttr(g: Graph, g': Graph, attr: string)
    requires SameSteps(g, g')
    ensures AttrChoice(g, attr) <==> AttrChoice(g', attr)
  {
    forall k | k in g
      ensures Names(g'[k]) <==> Names(g[k])
      ensures Names(g[k]) ==>
                g'[k].resumable.value.statusSearchAttribute == g[k].resumable.value.statusSearchAttribute
    {
      SettledIsSettled(g[k]);
    }
  }

  ghost predicate OneAttribute(g: Graph, a: string) {
    && (exists k :: k in g && Names(g[k]))
    && forall k :: k in g && Names(g[k]) ==> g[k].resumable.value.statusSearchAttribute == a
  }

  /** When all named attributes agree the choice does not depend on the iteration order. */
  lemma AttrChoiceIsDetermined(g: Graph, attr: string, a: string)
    requires AttrChoice(g, attr) && OneAttribute(g, a)
    ensures attr == a
  {
  }

  /** The search can find only one thing. */
  ghost predicate OneChoice(g: Graph) {
    (exists a :: OneAttribute(g, a)) || forall k :: k in g ==> !Names(g[k])
  }

  lemma ChoiceIsOne(g: Graph, attr: string, attr': string)
    requires OneChoice(g) && AttrChoice(g, attr) && AttrChoice(g, attr')
    ensures attr == attr'
  {
    if exists a :: OneAttribute(g, a) {
      var a :| OneAttribute(g, a);
      AttrChoiceIsDetermined(g, attr, a);
      AttrChoiceIsDetermined(g, attr', a);
    }
  }

  lemma SameStepsIsReflexive(g: Graph)
    ensures SameSteps(g, g)
  {
  }

  lemma SameStepsIsTransitive(g: Graph, g': Graph, g'': Graph)
    requires SameSteps(g, g') && SameSteps(g', g'')
    ensures SameSteps(g, g'')
  {
    forall k | k in g
      ensures g''[k] == g[k] || (g[k].Gated() && g''[k] == g[k].Settled())
    {
      SettledIsSettled(g[k]);
    }
  }
}
