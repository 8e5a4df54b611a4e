/**
 * When entering a state comes to rest (src/apps/chartRunner.ts): effects that
 * cannot be resolved pass on along `onError`, which the checker lets lead anywhere.
 */
module ChartTermination {
  import opened Prelude
  import opened ChartTypes
  import opened ChartRunner

  predicate IsEffectState(chart: ChartApp, s: string) {
    s in chart.states && chart.states[s].EffectState?
  }

  function EffectStates(chart: ChartApp): set<string> {
    set s | s in chart.states && chart.states[s].EffectState?
  }

  /** Entered with these values, the state passes straight on to its `onError`. */
  predicate PassesOn(p: Program, values: Values, s: string) {
    && IsEffectState(p.chart, s) && p.chart.states[s].effect in p.chart.effects
    && Resolved(p, p.chart.effects[p.chart.states[s].effect], values).Refused?
  }

  /** The state reached after at most `n` such passes. */
  function Hop(p: Program, values: Values, s: string, n: nat): string
    decreases n
  {
    if n == 0 || !PassesOn(p, values, s) then s else Hop(p, values, p.chart.states[s].onError, n - 1)
  }

  lemma {:induction false} EnterPasses(p: Program, s: string, values: Values, pending: Option<Pending>, error: Option<string>, passed: set<string>)
    ensures var o := Enter(p, s, values, pending, error, passed);
            && (!PassesOn(p, values, s) ==> !o.Loops? && (o.At? ==> o.config.state == s))
            && (PassesOn(p, values, s) && s in passed ==> o.Loops?)
            && (PassesOn(p, values, s) && s !in passed ==>
                  exists why :: o == Enter(p, p.chart.states[s].onError, values, None, Some(why), passed + {s}))
  {
  }

  lemma {:induction false} OneFewer(all: set<string>, passed: set<string>, s: string)
    requires s in all && s !in passed
    ensures |all - (passed + {s})| == |all - passed| - 1
  {
    assert all - passed == (all - (passed + {s})) + {s};
  }

  /** What does not go round and round comes to rest within as many passes as there are effect states left. */
  lemma {:induction false} ComesToRest(p: Program, s: string, values: Values, pending: Option<Pending>, error: Option<string>, passed: set<string>) returns (n: nat)
    requires !Enter(p, s, values, pending, error, passed).Loops?
    ensures n <= |EffectStates(p.chart) - passed| && !PassesOn(p, values, Hop(p, values, s, n))
    ensures Enter(p, s, values, pending, error, passed).At? ==> Enter(p, s, values, pending, error, passed).config.state == Hop(p, values, s, n)
    decreases p.chart.states.Keys - passed
  {
    EnterPasses(p, s, values, pending, error, passed);
    if PassesOn(p, values, s) {
      var next := p.chart.states[s].onError;
      var why :| Enter(p, s, values, pending, error, passed) == Enter(p, next, values, None, Some(why), passed + {s});
      OneFewer(EffectStates(p.chart), passed, s);
      assert s in p.chart.states.Keys - passed && s !in p.chart.states.Keys - (passed + {s});
      var m := ComesToRest(p, next, values, None, Some(why), passed + {s});
      n := m + 1;
    } else {
      n := 0;
    }
  }

  /** A set of states that pass on only among themselves. */
  ghost predicate Ring(p: Program, values: Values, ring: set<string>) {
    forall x :: x in ring ==> PassesOn(p, values, x) && p.chart.states[x].onError in ring
  }

  ghost predicate LeadsTo(p: Program, values: Values, passed: set<string>, s: string) {
    forall x :: x in passed ==> PassesOn(p, values, x) && (p.chart.states[x].onError in passed || p.chart.states[x].onError == s)
  }

  lemma {:induction false} LoopsInRing(p: Program, s: string, values: Values, pending: Option<Pending>, error: Option<string>, passed: set<string>) returns (ring: set<string>)
    requires Enter(p, s, values, pending, error, passed).Loops? && LeadsTo(p, values, passed, s)
    ensures Ring(p, values, ring) && s in ring
    decreases p.chart.states.Keys - passed
  {
    EnterPasses(p, s, values, pending, error, passed);
    if s in passed {
      ring := passed;
    } else {
      var next := p.chart.states[s].onError;
      var why :| Enter(p, s, values, pending, error, passed) == Enter(p, next, values, None, Some(why), passed + {s});
      assert s in p.chart.states.Keys - passed && s !in p.chart.states.Keys - (passed + {s});
      ring := LoopsInRing(p, next, values, None, Some(why), passed + {s});
      if s !in ring { ring := ring + {s}; }
    }
  }

  lemma {:induction false} RingNeverRests(p: Program, values: Values, ring: set<string>, s: string, n: nat)
    requires Ring(p, values, ring) && s in ring
    ensures Hop(p, values, s, n) in ring
    decreases n
  {
    if n > 0 { RingNeverRests(p, values, ring, p.chart.states[s].onError, n - 1); }
  }

  /** Some set of states pass on only among themselves, and `s` is one: a finite condition on the chart and the values. */
  ghost predicate InRing(p: Program, values: Values, s: string) {
    exists ring :: ring <= p.chart.states.Keys && Ring(p, values, ring) && s in ring
  }

  /** Entering goes round for ever if and only if the state is in a ring of states that pass on among themselves. */
  lemma {:induction false} LoopsExactlyWhen(p: Program, s: string, values: Values, pending: Option<Pending>, error: Option<string>)
    ensures Enter(p, s, values, pending, error, {}).Loops? <==> InRing(p, values, s)
  {
    if Enter(p, s, values, pending, error, {}).Loops? {
      var ring := LoopsInRing(p, s, values, pending, error, {});
      assert ring <= p.chart.states.Keys by { forall x | x in ring ensures x in p.chart.states { assert PassesOn(p, values, x); } }
    } else {
      var n := ComesToRest(p, s, values, pending, error, {});
      forall ring | Ring(p, values, ring) ensures s !in ring { RestIsInNoRing(p, values, ring, s, n); }
    }
  }

  lemma {:induction false} RestIsInNoRing(p: Program, values: Values, ring: set<string>, s: string, n: nat)
    requires Ring(p, values, ring) && !PassesOn(p, values, Hop(p, values, s, n))
    ensures s !in ring
  {
    if s in ring { RingNeverRests(p, values, ring, s, n); }
  }

  /** The `onError` edges among effect states go downhill. */
  ghost predicate Downhill(chart: ChartApp, rank: string -> nat) {
    forall s :: IsEffectState(chart, s) && IsEffectState(chart, chart.states[s].onError) ==> rank(chart.states[s].onError) < rank(s)
  }

  lemma {:induction false} DownhillRests(p: Program, values: Values, s: string, rank: string -> nat) returns (n: nat)
    requires Downhill(p.chart, rank)
    ensures !PassesOn(p, values, Hop(p, values, s, n))
    decreases rank(s)
  {
    if !PassesOn(p, values, s) { return 0; }
    var next := p.chart.states[s].onError;
    if !PassesOn(p, values, next) { return 1; }
    assert IsEffectState(p.chart, s);
    var m := DownhillRests(p, values, next, rank);
    n := m + 1;
  }

  /** With acyclic `onError` edges, every entry comes to rest within as many passes as there are effect states. */
  lemma {:induction false} MacrostepsTerminate(p: Program, s: string, values: Values, pending: Option<Pending>, error: Option<string>, rank: string -> nat) returns (n: nat)
    requires Downhill(p.chart, rank)
    ensures !Enter(p, s, values, pending, error, {}).Loops?
    ensures n <= |EffectStates(p.chart)| && !PassesOn(p, values, Hop(p, values, s, n))
    ensures Enter(p, s, values, pending, error, {}).At? ==> Enter(p, s, values, pending, error, {}).config.state == Hop(p, values, s, n)
  {
    var m := DownhillRests(p, values, s, rank);
    LoopsExactlyWhen(p, s, values, pending, error);
    forall ring | Ring(p, values, ring) ensures s !in ring { RestIsInNoRing(p, values, ring, s, m); }
    n := ComesToRest(p, s, values, pending, error, {});
    assert EffectStates(p.chart) - {} == EffectStates(p.chart);
  }
}
