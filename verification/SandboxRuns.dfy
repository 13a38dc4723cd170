/** The ownership protocol over whole runs: when it is safe. */
module SandboxRuns {
  import opened Wrappers
  import opened SandboxRuntime
  import opened SandboxSafety

  function Run(p: Project, choices: seq<Choice>): Project
    decreases |choices|
  {
    if choices == [] then p else Run(Next(p, choices[0]), choices[1..])
  }

  ghost predicate CleanRun(p: Project, choices: seq<Choice>)
    decreases |choices|
  {
    choices != [] ==> Clean(p, choices[0]) && CleanRun(Next(p, choices[0]), choices[1..])
  }

  /** A project as it is created: nothing owned, nothing reserved, nothing in flight. */
  predicate Initial(p: Project) {
    && p.row.None? && p.handle.None? && p.stage.Idle? && p.machines == map[] && p.creating == {}
    && p.waking == {} && p.reserved == {} && p.latest.None?
  }

  lemma InitialInv(p: Project)
    requires Initial(p)
    ensures Inv(p)
  {
  }

  /** Along every run in which no create is recorded over a stale handle and "paused" is believed only while no
      connect is outstanding, every state is safe. */
  lemma {:induction false} CleanRunsAreSafe(p: Project, choices: seq<Choice>)
    requires Inv(p) && CleanRun(p, choices)
    ensures Inv(Run(p, choices)) && Safe(Run(p, choices))
    decreases |choices|
  {
    if choices != [] {
      NextKeepsInv(p, choices[0]);
      CleanRunsAreSafe(Next(p, choices[0]), choices[1..]);
    }
  }

  // ----- When no removal is cut short and no connect is overlooked ---------------------------------------

  /** The caller is not cancelled between the commit that deletes a row and the forgetting of its handle. */
  predicate Uncut(p: Project, c: Choice) {
    !(p.stage.DeleteRow? && c.Lost?)
  }

  /** The provider does not answer "paused" for a sandbox that a connect given up earlier may still wake. */
  predicate Trusty(p: Project, c: Choice) {
    AnswersPaused(p) && c.Proceed? ==> !p.Waking()
  }

  predicate SteadyRun(p: Project, choices: seq<Choice>)
    decreases |choices|
  {
    choices != [] ==>
      Uncut(p, choices[0]) && Trusty(p, choices[0]) && SteadyRun(Next(p, choices[0]), choices[1..])
  }

  predicate HandleHasRow(p: Project) {
    p.handle.Some? ==> p.row.Some?
  }

  lemma EffectKeepsHandleRow(p: Project)
    requires HandleHasRow(p) && StageInv(p)
    ensures HandleHasRow(Effect(p))
    ensures p.row.Some? && Effect(p).row.None? ==> p.stage.DeleteRow?
  {
  }

  lemma EnvironmentKeepsHandleRow(p: Project, c: Choice)
    requires HandleHasRow(p) && FromEnvironment(c)
    ensures HandleHasRow(Next(p, c))
  {
  }

  lemma AnswersKeepHandleRow(p: Project, c: Choice)
    requires HandleHasRow(p) && !FromEnvironment(c) && !c.Proceed? && !c.Lost?
    ensures HandleHasRow(Next(p, c))
  {
  }

  lemma NextKeepsHandleRow(p: Project, c: Choice)
    requires StageInv(p) && HandleHasRow(p) && Uncut(p, c)
    ensures HandleHasRow(Next(p, c))
  {
    if FromEnvironment(c) { EnvironmentKeepsHandleRow(p, c); }
    else if c.Proceed? || c.Lost? { EffectKeepsHandleRow(p); }
    else { AnswersKeepHandleRow(p, c); }
  }

  lemma {:induction false} SteadyRunsAreClean(p: Project, choices: seq<Choice>)
    requires Inv(p) && HandleHasRow(p) && SteadyRun(p, choices)
    ensures CleanRun(p, choices)
    decreases |choices|
  {
    if choices != [] {
      SteadyIsClean(p, choices[0]);
      NextKeepsInv(p, choices[0]);
      NextKeepsHandleRow(p, choices[0]);
      SteadyRunsAreClean(Next(p, choices[0]), choices[1..]);
    }
  }

  lemma SteadyIsClean(p: Project, c: Choice)
    requires CreateInv(p) && HandleHasRow(p) && Trusty(p, c)
    ensures Clean(p, c)
  {
  }

  /** The ownership theorem. From a new project, over any run with crashes, lost and late replies, refused calls and
      cancelled callers, as long as no removal is cut short and no outstanding connect is overlooked: there is at
      most one sandbox, tagged by the row that owns it; whatever may run is paid for; a row that says paused names a
      sandbox that does not run; a reusable row is what it says. */
  lemma EverySteadyRunIsSafe(p: Project, choices: seq<Choice>)
    requires Initial(p) && SteadyRun(p, choices)
    ensures Safe(Run(p, choices))
  {
    InitialInv(p);
    SteadyRunsAreClean(p, choices);
    CleanRunsAreSafe(p, choices);
  }

  lemma {:induction false} RunAppend(p: Project, a: seq<Choice>, b: seq<Choice>)
    ensures Run(p, a + b) == Run(Run(p, a), b)
    decreases |a|
  {
    if a == [] {
      assert a + b == b;
    } else {
      assert (a + b)[1..] == a[1..] + b;
      RunAppend(Next(p, a[0]), a[1..], b);
    }
  }
}
