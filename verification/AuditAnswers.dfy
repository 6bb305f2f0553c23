/** Whose word stored evidence holds: over all runs, crashes and competing processes,
    a verdict was given by the auditor to a run that was auditing that submission. */
module AuditAnswers {
  import opened ModuleTasks
  import opened AuditStores
  import opened AuditProtocol
  import opened AuditSafety

  /** At step i a run was at the auditor with the bundle's submission, facts and checks,
      and the auditor gave the bundle's verdict. */
  ghost predicate AnsweredAt(w: World, t: Task, steps: seq<Step>, i: nat, b: Bundle) {
    i < |steps| && steps[i].Call? &&
    var y := After(w, t, steps[..i]); var c := steps[i].choice;
    steps[i].slot in y.processes && var p := y.processes[steps[i].slot];
    p.pc.Auditing? && p.key == b.key && p.pc.row.facts == b.facts && p.pc.checks.statuses == b.checks &&
    b.verdict == c.verdict && b.openBlocking == c.openBlocking && b.criteriaMet == c.criteriaMet && b.rest == c.rest
  }

  /** A bundle with a verdict was answered by the auditor. */
  ghost predicate Answered(w: World, t: Task, steps: seq<Step>, b: Bundle) {
    b.verdict != NotRun ==> exists i: nat :: AnsweredAt(w, t, steps, i, b)
  }

  /** All bundles, stored or about to be. */
  ghost predicate AllAnswered(w: World, t: Task, steps: seq<Step>) {
    var y := After(w, t, steps);
    (forall k <- y.stores.evidence :: Answered(w, t, steps, y.stores.evidence[k])) &&
    forall n <- y.processes :: y.processes[n].pc.Persisting? ==> Answered(w, t, steps, y.processes[n].pc.bundle)
  }

  lemma AnsweredStays(w: World, t: Task, steps: seq<Step>, e: Step, b: Bundle)
    requires Answered(w, t, steps, b)
    ensures Answered(w, t, steps + [e], b)
  {
    if b.verdict != NotRun {
      var i: nat :| AnsweredAt(w, t, steps, i, b);
      assert (steps + [e])[..i] == steps[..i];
      assert AnsweredAt(w, t, steps + [e], i, b);
    }
  }

  /** A step of a process writes no evidence but the bundle it was about to store. */
  lemma EvidenceOnlyPersisted(w: World, s: Stores, p: Process, c: Choice)
    ensures var t := Advance(w, s, p, c).0;
            t.evidence == s.evidence || (p.pc.Persisting? && t.evidence == s.evidence[p.pc.bundle.key := p.pc.bundle])
  {
  }

  /** A bundle to be stored comes from failed checks or from the auditor. */
  lemma PersistingFollows(w: World, s: Stores, p: Process, c: Choice)
    requires Advance(w, s, p, c).1.More? && Advance(w, s, p, c).1.process.pc.Persisting?
    ensures var b := Advance(w, s, p, c).1.process.pc.bundle;
            b.verdict == NotRun ||
            (p.pc.Auditing? && p.key == b.key && p.pc.row.facts == b.facts && p.pc.checks.statuses == b.checks &&
             b.verdict == c.verdict && b.openBlocking == c.openBlocking && b.criteriaMet == c.criteriaMet && b.rest == c.rest)
  {
  }

  lemma CallAnswered(w: World, t: Task, steps: seq<Step>, slot: nat, c: Choice)
    requires AllAnswered(w, t, steps) && slot in After(w, t, steps).processes
    requires After(w, t, steps + [Call(slot, c)]) == Apply(w, After(w, t, steps), Call(slot, c))
    ensures AllAnswered(w, t, steps + [Call(slot, c)])
  {
    var e := Call(slot, c);
    var y, z := After(w, t, steps), After(w, t, steps + [e]);
    var p := y.processes[slot];
    EvidenceOnlyPersisted(w, y.stores, p, c);
    forall k <- z.stores.evidence ensures Answered(w, t, steps + [e], z.stores.evidence[k]) {
      AnsweredStays(w, t, steps, e, z.stores.evidence[k]);
    }
    forall n <- z.processes | z.processes[n].pc.Persisting? ensures Answered(w, t, steps + [e], z.processes[n].pc.bundle) {
      if n != slot {
        AnsweredStays(w, t, steps, e, z.processes[n].pc.bundle);
      } else {
        PersistingFollows(w, y.stores, p, c);
        assert (steps + [e])[..|steps|] == steps;
        assert z.processes[n].pc.bundle.verdict == NotRun || AnsweredAt(w, t, steps + [e], |steps|, z.processes[n].pc.bundle);
      }
    }
  }

  lemma StepAnswered(w: World, t: Task, steps: seq<Step>, e: Step)
    requires AllAnswered(w, t, steps)
    ensures AllAnswered(w, t, steps + [e])
  {
    var y, z := After(w, t, steps), After(w, t, steps + [e]);
    assert (steps + [e])[..|steps|] == steps;
    assert z == Apply(w, y, e);
    if e.Call? && e.slot in y.processes {
      CallAnswered(w, t, steps, e.slot, e.choice);
    } else {
      forall k <- z.stores.evidence ensures Answered(w, t, steps + [e], z.stores.evidence[k]) {
        AnsweredStays(w, t, steps, e, z.stores.evidence[k]);
      }
      forall n <- z.processes | z.processes[n].pc.Persisting? ensures Answered(w, t, steps + [e], z.processes[n].pc.bundle) {
        AnsweredStays(w, t, steps, e, z.processes[n].pc.bundle);
      }
    }
  }

  /** Over all runs: every stored verdict is the auditor's answer to a run that had
      that submission, those facts and those checks before it. */
  lemma {:induction false} VerdictsAreAnswers(w: World, t: Task, steps: seq<Step>)
    ensures AllAnswered(w, t, steps)
  {
    if steps != [] {
      var front := steps[..|steps| - 1];
      VerdictsAreAnswers(w, t, front);
      StepAnswered(w, t, front, steps[|steps| - 1]);
      assert front + [steps[|steps| - 1]] == steps;
    }
  }

  /** A task that passed did so on the auditor's word: at some step the auditor said
      PASS, with nothing blocking and all criteria met, to a run that was auditing the
      task's present submission after its checks had all passed. */
  lemma PassedOnTheAuditorsWord(w: World, t: Task, steps: seq<Step>) returns (i: nat)
    requires Fresh(t) && Effective(After(w, t, steps).stores.task) in {Passed, Integrated}
    ensures i < |steps| && steps[i].Call?
    ensures var y := After(w, t, steps[..i]); var c := steps[i].choice;
            steps[i].slot in y.processes && var p := y.processes[steps[i].slot];
            p.pc.Auditing? && p.key == KeyOf(After(w, t, steps).stores.task) &&
            (forall j | 0 <= j < |p.pc.checks.statuses| :: p.pc.checks.statuses[j]) &&
            c.verdict == Pass && !c.openBlocking && c.criteriaMet
  {
    PassedIsEarned(w, t, steps);
    VerdictsAreAnswers(w, t, steps);
    var s := After(w, t, steps).stores;
    var b := s.evidence[KeyOf(s.task)];
    assert Answered(w, t, steps, b);
    i :| AnsweredAt(w, t, steps, i, b);
  }
}
