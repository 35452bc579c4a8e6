/** The activity callback of src/hub.c: every change of a source's subscriber list is
    followed by a notification that reads the list again under a lock of its own, so the
    last one to run tells the truth whatever order the threads run in.
  */
module Activity {

  /** Who holds the callback lock, and what it has read so far. */
  datatype Turn = Nobody | Entered(s: nat) | Looked(s: nat, active: bool)

  /** `coming` counts, per source, the threads that changed its list and have yet to take
      the callback lock; `told` is what the last callback said. */
  datatype State = State(nsub: seq<nat>, told: seq<bool>, coming: multiset<nat>, turn: Turn)

  datatype Step =
    | Subscribe(s: nat)
    | Unsubscribe(s: nat, found: bool)
    | Enter(s: nat)
    | Look
    | Call

  const MAX_SUBS: nat := 16

  function Start(n: nat): State {
    State(seq(n, _ => 0), seq(n, _ => false), multiset{}, Nobody)
  }

  function Next(st: State, a: Step): State
    requires |st.told| == |st.nsub|
  {
    match a
    case Subscribe(s) =>
      if s >= |st.nsub| || st.nsub[s] >= MAX_SUBS then st
      else st.(nsub := st.nsub[s := st.nsub[s] + 1], coming := st.coming + multiset{s})
    case Unsubscribe(s, found) =>
      if s >= |st.nsub| then st
      else st.(nsub := if found && st.nsub[s] > 0 then st.nsub[s := st.nsub[s] - 1] else st.nsub,
               coming := st.coming + multiset{s})
    case Enter(s) =>
      if st.turn.Nobody? && st.coming[s] > 0 then st.(turn := Entered(s), coming := st.coming - multiset{s}) else st
    case Look =>
      if st.turn.Entered? && st.turn.s < |st.nsub| then st.(turn := Looked(st.turn.s, st.nsub[st.turn.s] > 0)) else st
    case Call =>
      if st.turn.Looked? && st.turn.s < |st.told|
      then st.(told := st.told[st.turn.s := st.turn.active], turn := Nobody) else st
  }

  function Run(n: nat, steps: seq<Step>): (st: State)
    ensures |st.told| == |st.nsub| == n
    decreases |steps|
  {
    if steps == [] then Start(n) else Next(Run(n, steps[..|steps| - 1]), steps[|steps| - 1])
  }

  /** A notification for the source is still to come, or has yet to read the list. */
  predicate Awaited(st: State, s: nat) {
    st.coming[s] > 0 || st.turn == Entered(s)
  }

  /** Unless one is awaited, what was last said, or is about to be said, is true. */
  predicate Truthful(st: State, s: nat)
    requires s < |st.nsub| == |st.told|
  {
    Awaited(st, s)
    || (if st.turn.Looked? && st.turn.s == s then st.turn.active else st.told[s]) == (st.nsub[s] > 0)
  }

  lemma {:induction false} RunIsTruthful(n: nat, steps: seq<Step>, s: nat)
    requires s < n
    ensures Truthful(Run(n, steps), s)
    decreases |steps|
  {
    if steps != [] {
      var st := Run(n, steps[..|steps| - 1]);
      RunIsTruthful(n, steps[..|steps| - 1], s);
      assert Truthful(Next(st, steps[|steps| - 1]), s);
    }
  }

  /** Once every thread that changed a source's list is through, the last callback carries
      the list's true state: a source with consumers is never left stopped. */
  lemma LastCallIsTrue(n: nat, steps: seq<Step>, s: nat)
    requires s < n && Run(n, steps).coming[s] == 0
    requires Run(n, steps).turn == Nobody || Run(n, steps).turn.s != s
    ensures Run(n, steps).told[s] <==> Run(n, steps).nsub[s] > 0
  {
    RunIsTruthful(n, steps, s);
  }
}
