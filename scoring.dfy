/**
 * The weighted-signal engine every scoring endpoint repeats by hand: a rule
 * that fires adds a fixed weight (accretive scoring) or subtracts it as a
 * penalty (decretive scoring) and may record a note; the reduced score is
 * classified by a table of lower bounds, best band first.
 */
module Scoring {
  import opened Options

  /** One evaluated signal: did it fire, what it weighs, what it notes. */
  datatype Rule<S> = Rule(fires: bool, weight: nat, note: Option<S>)

  function Gain<S>(r: Rule<S>): nat {
    if r.fires then r.weight else 0
  }

  function Noted<S>(r: Rule<S>): seq<S> {
    if r.fires && r.note.Some? then [r.note.value] else []
  }

  /** Sum of the weights of the rules that fired. */
  function Accrued<S>(rules: seq<Rule<S>>): nat {
    if rules == [] then 0 else Accrued(rules[..|rules| - 1]) + Gain(rules[|rules| - 1])
  }

  /** The notes of the rules that fired, in rule order. */
  function Fired<S>(rules: seq<Rule<S>>): seq<S> {
    if rules == [] then [] else Fired(rules[..|rules| - 1]) + Noted(rules[|rules| - 1])
  }

  /** Sum of all weights: the most the rules can add up to. */
  function Capacity<S>(rules: seq<Rule<S>>): nat {
    if rules == [] then 0 else Capacity(rules[..|rules| - 1]) + rules[|rules| - 1].weight
  }

  /** The weights of the rules, in rule order. */
  function Weights<S>(rules: seq<Rule<S>>): (ws: seq<nat>)
    ensures |ws| == |rules| && forall i :: 0 <= i < |rules| ==> ws[i] == rules[i].weight
  {
    seq(|rules|, i requires 0 <= i < |rules| => rules[i].weight)
  }

  function Sum(ws: seq<nat>): nat {
    if ws == [] then 0 else Sum(ws[..|ws| - 1]) + ws[|ws| - 1]
  }

  /** A table of running totals: `partial[k]` is the sum of the first `k` weights. */
  lemma {:induction false} SumByPartials(ws: seq<nat>, partial: seq<int>)
    requires |partial| == |ws| + 1 && partial[0] == 0
    requires forall k :: 0 <= k < |ws| ==> partial[k + 1] == partial[k] + ws[k]
    ensures Sum(ws) == partial[|ws|]
  {
    if ws != [] {
      SumByPartials(ws[..|ws| - 1], partial[..|ws|]);
    }
  }

  /** The capacity is the sum of the weights. */
  lemma {:induction false} CapacityIsSum<S>(rules: seq<Rule<S>>)
    ensures Capacity(rules) == Sum(Weights(rules))
  {
    if rules != [] {
      var p := rules[..|rules| - 1];
      CapacityIsSum(p);
      assert Weights(rules)[..|p|] == Weights(p);
    }
  }

  lemma Extend<S>(trace: seq<Rule<S>>, r: Rule<S>)
    ensures Accrued(trace + [r]) == Accrued(trace) + Gain(r)
    ensures Fired(trace + [r]) == Fired(trace) + Noted(r)
    ensures Capacity(trace + [r]) == Capacity(trace) + r.weight
  {
    assert (trace + [r])[..|trace|] == trace;
  }

  /** Scores of two rule lists evaluated one after the other add up. */
  lemma {:induction false} AccruedAppend<S>(a: seq<Rule<S>>, b: seq<Rule<S>>)
    ensures Accrued(a + b) == Accrued(a) + Accrued(b)
  {
    if b == [] {
      assert a + b == a;
    } else {
      var b', r := b[..|b| - 1], b[|b| - 1];
      assert a + b == (a + b') + [r];
      assert b == b' + [r];
      AccruedAppend(a, b');
      Extend(a + b', r);
      Extend(b', r);
    }
  }

  /** Notes of two rule lists evaluated one after the other concatenate. */
  lemma {:induction false} FiredAppend<S>(a: seq<Rule<S>>, b: seq<Rule<S>>)
    ensures Fired(a + b) == Fired(a) + Fired(b)
  {
    if b == [] {
      assert a + b == a;
    } else {
      var b', r := b[..|b| - 1], b[|b| - 1];
      assert a + b == (a + b') + [r];
      assert b == b' + [r];
      FiredAppend(a, b');
      Extend(a + b', r);
      Extend(b', r);
    }
  }

  lemma {:induction false} CapacityAppend<S>(a: seq<Rule<S>>, b: seq<Rule<S>>)
    ensures Capacity(a + b) == Capacity(a) + Capacity(b)
  {
    if b == [] {
      assert a + b == a;
    } else {
      var b', r := b[..|b| - 1], b[|b| - 1];
      assert a + b == (a + b') + [r];
      assert b == b' + [r];
      CapacityAppend(a, b');
      Extend(a + b', r);
      Extend(b', r);
    }
  }

  /** No evaluation scores more than the sum of all weights. */
  lemma {:induction false} AccruedWithinCapacity<S>(rules: seq<Rule<S>>)
    ensures Accrued(rules) <= Capacity(rules)
  {
    if rules != [] {
      AccruedWithinCapacity(rules[..|rules| - 1]);
    }
  }

  /** A note is recorded exactly when a rule carrying it fired. */
  lemma {:induction false} FiredIff<S>(rules: seq<Rule<S>>, s: S)
    ensures s in Fired(rules) <==> exists i :: 0 <= i < |rules| && rules[i].fires && rules[i].note == Some(s)
  {
    if rules != [] {
      var p := rules[..|rules| - 1];
      FiredIff(p, s);
      assert forall i :: 0 <= i < |p| ==> p[i] == rules[i];
    }
  }

  /** A note only one rule can record is reported exactly when that rule fires. */
  lemma NoteAt<S>(rules: seq<Rule<S>>, i: nat, s: S)
    requires i < |rules| && rules[i].note == Some(s)
    requires forall j :: 0 <= j < |rules| && j != i ==> rules[j].note != Some(s)
    ensures s in Fired(rules) <==> rules[i].fires
  {
    FiredIff(rules, s);
  }

  /** A note no rule carries is never reported. */
  lemma NoteNowhere<S>(rules: seq<Rule<S>>, s: S)
    requires forall j :: 0 <= j < |rules| ==> rules[j].note != Some(s)
    ensures s !in Fired(rules)
  {
    FiredIff(rules, s);
  }

  /** At most one note per rule. */
  lemma {:induction false} FiredLength<S>(rules: seq<Rule<S>>)
    ensures |Fired(rules)| <= |rules|
  {
    if rules != [] {
      FiredLength(rules[..|rules| - 1]);
    }
  }

  /** The total weight of a list of notes, each weighing `w(note)`. */
  function Total<S>(notes: seq<S>, w: S -> nat): nat {
    if notes == [] then 0 else Total(notes[..|notes| - 1], w) + w(notes[|notes| - 1])
  }

  lemma TotalAppend<S>(a: seq<S>, b: seq<S>, w: S -> nat)
    requires |b| <= 1
    ensures Total(a + b, w) == Total(a, w) + Total(b, w)
  {
    if b != [] {
      assert (a + b)[..|a|] == a;
    } else {
      assert a + b == a;
    }
  }

  /**
   * When every rule records a note and weighs what its note weighs, the score
   * is exactly the total weight of the reported notes.
   */
  lemma {:induction false} AccruedFromNotes<S>(rules: seq<Rule<S>>, w: S -> nat)
    requires forall i :: 0 <= i < |rules| ==> rules[i].note.Some? && rules[i].weight == w(rules[i].note.value)
    ensures Accrued(rules) == Total(Fired(rules), w)
  {
    if rules != [] {
      var p, r := rules[..|rules| - 1], rules[|rules| - 1];
      AccruedFromNotes(p, w);
      TotalAppend(Fired(p), Noted(r), w);
    }
  }

  /**
   * The accumulator the handlers run: for each rule in order, `if rule: score += weight`
   * and its note is appended. The result is the reference score and note list.
   */
  method Evaluate<S>(rules: seq<Rule<S>>) returns (score: int, notes: seq<S>)
    ensures score == Accrued(rules) && notes == Fired(rules)
  {
    score, notes := 0, [];
    var i := 0;
    while i < |rules|
      invariant 0 <= i <= |rules|
      invariant score == Accrued(rules[..i]) && notes == Fired(rules[..i])
    {
      var r := rules[i];
      if r.fires {
        score := score + r.weight;
        if r.note.Some? {
          notes := notes + [r.note.value];
        }
      }
      assert rules[..i + 1] == rules[..i] + [r];
      Extend(rules[..i], r);
      i := i + 1;
    }
    assert rules[..i] == rules;
  }

  /** Unfolding from the front: the first rule's gain plus the rest. */
  lemma AccruedCons<S>(r: Rule<S>, rest: seq<Rule<S>>)
    ensures Accrued([r] + rest) == Gain(r) + Accrued(rest)
    ensures Fired([r] + rest) == Noted(r) + Fired(rest)
  {
    AccruedAppend([r], rest);
    FiredAppend([r], rest);
    assert [r][..0] == [];
  }

  /** Two rules evaluated in order. */
  lemma Pair<S>(a: Rule<S>, b: Rule<S>)
    ensures Accrued([a, b]) == Gain(a) + Gain(b)
    ensures Fired([a, b]) == Noted(a) + Noted(b)
  {
    assert [a, b] == [a] + [b];
    AccruedCons(a, [b]);
    AccruedCons(b, []);
    assert [b] + [] == [b];
  }

  /** Unfolding from the front: the first rule's weight plus the rest. */
  lemma CapacityCons<S>(r: Rule<S>, rest: seq<Rule<S>>)
    ensures Capacity([r] + rest) == r.weight + Capacity(rest)
  {
    CapacityAppend([r], rest);
    assert [r][..0] == [];
  }

  function Min(a: int, b: int): int {
    if a <= b then a else b
  }

  function Max(a: int, b: int): int {
    if a >= b then a else b
  }

  /** A tier: scores at or above `floor` get `tier` unless an earlier band already matched. */
  datatype Band<L> = Band(floor: int, tier: L)

  /** Index of the first band whose floor the score reaches, or `|bands|` when none does. */
  function Rank<L>(score: int, bands: seq<Band<L>>): (r: nat)
    ensures r <= |bands|
    ensures r < |bands| ==> bands[r].floor <= score
    ensures forall j :: 0 <= j < r ==> bands[j].floor > score
  {
    if bands == [] then 0
    else if bands[0].floor <= score then 0
    else 1 + Rank(score, bands[1..])
  }

  /** The if/elif/else threshold chain: the first band the score reaches, else `otherwise`. */
  function Classify<L>(score: int, bands: seq<Band<L>>, otherwise: L): L {
    var k := Rank(score, bands);
    if k < |bands| then bands[k].tier else otherwise
  }

  /** Every floor lies in (0, 100], the range scores are clamped to. */
  predicate WithinScale<L>(bands: seq<Band<L>>) {
    forall i :: 0 <= i < |bands| ==> 0 < bands[i].floor <= 100
  }

  /** Classifying the capped score `min(100, x)` gives the band of `x` itself. */
  lemma {:induction false} RankCapped<L>(x: int, bands: seq<Band<L>>)
    requires WithinScale(bands)
    ensures Rank(Min(100, x), bands) == Rank(x, bands)
  {
    if bands != [] {
      RankCapped(x, bands[1..]);
    }
  }

  /** Classifying the floored score `max(0, x)` gives the band of `x` itself. */
  lemma {:induction false} RankFloored<L>(x: int, bands: seq<Band<L>>)
    requires WithinScale(bands)
    ensures Rank(Max(0, x), bands) == Rank(x, bands)
  {
    if bands != [] {
      RankFloored(x, bands[1..]);
    }
  }

  /** A higher score never lands in a later (worse) band. */
  lemma {:induction false} RankMonotone<L>(x: int, y: int, bands: seq<Band<L>>)
    requires x <= y
    ensures Rank(y, bands) <= Rank(x, bands)
  {
    if bands != [] && bands[0].floor > y {
      RankMonotone(x, y, bands[1..]);
    }
  }

  /** Two tables with the same floors in the same order put every score in the same place. */
  lemma {:induction false} RankSameFloors<L, M>(x: int, a: seq<Band<L>>, b: seq<Band<M>>)
    requires |a| == |b|
    requires forall i :: 0 <= i < |a| ==> a[i].floor == b[i].floor
    ensures Rank(x, a) == Rank(x, b)
  {
    if a != [] {
      RankSameFloors(x, a[1..], b[1..]);
    }
  }
}
