/** The phase a symbol is in (`AnimationState`) and its cyclic successor. */
module Phases {

  import opened Timing

  /** The three phases, in declaration order. */
  datatype Phase = FadeIn | Stable | FadeOut

  /** Position of a phase in the declaration order. */
  function Ordinal(p: Phase): (i: nat)
    ensures i < 3
  {
    match p
    case FadeIn => 0
    case Stable => 1
    case FadeOut => 2
  }

  lemma OrdinalInjective(p: Phase, q: Phase)
    ensures Ordinal(p) == Ordinal(q) ==> p == q
  {
  }

  /** The successor phase: one step forward in declaration order, wrapping after the last. */
  function Next(p: Phase): (q: Phase)
    ensures Ordinal(q) == (Ordinal(p) + 1) % 3
  {
    match p
    case FadeIn => Stable
    case Stable => FadeOut
    case FadeOut => FadeIn
  }

  /** `Next` is a cycle of length exactly three. */
  lemma NextIsThreeCycle(p: Phase)
    ensures Next(p) != p && Next(Next(p)) != p
    ensures Next(Next(Next(p))) == p
  {
  }

  /** The phase reached from `p` after `n` transitions. */
  function Iterate(p: Phase, n: nat): Phase
    decreases n
  {
    if n == 0 then p else Iterate(Next(p), n - 1)
  }

  lemma {:induction false} IterateOrdinal(p: Phase, n: nat)
    ensures Ordinal(Iterate(p, n)) == (Ordinal(p) + n) % 3
    decreases n
  {
    if n > 0 {
      IterateOrdinal(Next(p), n - 1);
    }
  }

  lemma {:induction false} IterateLast(p: Phase, n: nat)
    ensures Iterate(p, n + 1) == Next(Iterate(p, n))
    decreases n
  {
    if n > 0 {
      IterateLast(Next(p), n - 1);
    }
  }

  /** A whole number of cycles brings every phase back to itself. */
  lemma IterateWholeCycles(p: Phase, k: nat)
    ensures Iterate(p, 3 * k) == p
  {
    IterateOrdinal(p, 3 * k);
    OrdinalInjective(Iterate(p, 3 * k), p);
  }

  /** How long a phase lasts: the interval of the phase-advance timer scheduled on entering it. */
  function Duration(p: Phase): (d: nat)
    ensures d > 0
  {
    if p == Stable then StableTime else if p == FadeIn then FadeInTime else FadeOutTime
  }

  /** The durations of three consecutive phases, starting anywhere, make one display cycle. */
  lemma CycleFillsDisplayTime(p: Phase)
    ensures Duration(p) + Duration(Next(p)) + Duration(Next(Next(p))) == TotalDisplayTime
  {
  }
}
