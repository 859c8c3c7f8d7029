/**
 Runs given record by record: first some records, then one for each number, so that what a run reaches
 follows by induction on its length.
 */
module StagedRuns {
  import opened ObservatorySpec

  function Fold<S, R>(step: (S, R) -> S, s: S, recs: seq<R>): S {
    if recs == [] then s else step(Fold(step, s, recs[..|recs| - 1]), recs[|recs| - 1])
  }

  /** The first records, then one more for each number from 1 to n. */
  function Extended<R>(first: seq<R>, rec: nat -> R, n: nat): seq<R> {
    if n == 0 then first else Extended(first, rec, n - 1) + [rec(n)]
  }

  /** Whatever holds at first and is kept by each further record holds after them all. */
  lemma {:induction false} Staged<S(!new), R>(step: (S, R) -> S, s: S, first: seq<R>, rec: nat -> R, n: nat, p: (nat, S) -> bool)
    requires p(0, Fold(step, s, first))
    requires forall k: nat, x {:trigger step(x, rec(k))} | 0 < k <= n && p(k - 1, x) :: p(k, step(x, rec(k)))
    ensures p(n, Fold(step, s, Extended(first, rec, n)))
  {
    if n > 0 {
      var before := Extended(first, rec, n - 1);
      Staged(step, s, first, rec, n - 1, p);
      assert (before + [rec(n)])[..|before|] == before;
    }
  }

  /** One record, as a step. */
  function Stepper(cfg: Config): (Observatory, Record) -> Observatory { (s: Observatory, rec: Record) => ApplyRecord(cfg, s, rec) }

  lemma {:induction false} ProcessIsFold(cfg: Config, s: Observatory, recs: seq<Record>)
    ensures Process(cfg, s, recs) == Fold(Stepper(cfg), s, recs)
  {
    if recs != [] {
      ProcessIsFold(cfg, s, recs[..|recs| - 1]);
    }
  }

  lemma ObservedApplied(cfg: Config, s: Observatory, rec: Record)
    requires rec.Observed?
    ensures Stepper(cfg)(s, rec) == ApplyObservation(cfg, s, rec.observation, rec.linkText, rec.at)
  {
  }

  lemma SourceApplied(cfg: Config, s: Observatory, rec: Record)
    requires rec.SourceRecorded?
    ensures Stepper(cfg)(s, rec) == ApplySource(cfg, s, rec.source)
  {
  }

  lemma LinkApplied(cfg: Config, s: Observatory, rec: Record)
    requires rec.LinkRecorded?
    ensures Stepper(cfg)(s, rec) == ApplyLink(cfg, s, rec.facts, rec.at)
  {
  }
}
