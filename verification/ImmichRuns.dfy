/** Runs of the import engine put together from shorter ones. */
module ImmichRuns {
  import opened Wrappers
  import opened ImmichModel
  import opened ImmichSteps

  lemma {:induction false} RunJoin(s: State, ts: seq<Step>, n: State, us: seq<Step>)
    requires Run(s, ts) == Some(n)
    ensures Run(s, ts + us) == Run(n, us)
    decreases |ts|
  {
    if ts == [] {
      assert ts + us == us;
    } else {
      assert (ts + us)[1..] == ts[1..] + us;
      RunJoin(Next(s, ts[0]).value, ts[1..], n, us);
    }
  }

  lemma RunOne(s: State, t: Step, n: State)
    requires Next(s, t) == Some(n)
    ensures Run(s, [t]) == Some(n)
  {
    assert [t][1..] == [];
  }

  lemma RunTwo(s: State, a: Step, b: Step, n: State)
    requires Next(s, a) == Some(n)
    ensures Run(s, [a, b]) == Next(n, b)
  {
    assert [a, b][1..] == [b] && [b][1..] == [];
    assert Run(n, [b]) == Next(n, b);
  }

  lemma {:induction false} RunPrefix(s: State, ts: seq<Step>, us: seq<Step>)
    requires Run(s, ts + us).Some?
    ensures Run(s, ts).Some?
    decreases |ts|
  {
    if ts != [] {
      assert (ts + us)[0] == ts[0] && (ts + us)[1..] == ts[1..] + us;
      RunPrefix(Next(s, ts[0]).value, ts[1..], us);
    }
  }

  lemma LastStep(ts: seq<Step>, n: State)
    requires |ts| > 0 && Run(START, ts) == Some(n)
    ensures Run(START, ts[..|ts| - 1]).Some? && Next(Run(START, ts[..|ts| - 1]).value, ts[|ts| - 1]) == Some(n)
  {
    var p, t := ts[..|ts| - 1], ts[|ts| - 1];
    assert ts == p + [t];
    RunPrefix(START, p, [t]);
    var s := Run(START, p).value;
    RunJoin(START, p, s, [t]);
    assert [t][1..] == [];
  }

  /** Some run leads from `s` to `n`. */
  ghost predicate Leads(s: State, n: State) { exists ts :: Run(s, ts) == Some(n) }

  lemma LeadsOn(s: State, n: State, m: State)
    requires Leads(s, n) && Leads(n, m)
    ensures Leads(s, m)
  {
    var ts :| Run(s, ts) == Some(n);
    var us :| Run(n, us) == Some(m);
    RunJoin(s, ts, n, us);
  }

  lemma LeadsOne(s: State, t: Step, n: State)
    requires Next(s, t) == Some(n)
    ensures Leads(s, n)
  {
    RunOne(s, t, n);
  }

  lemma LeadsTwo(s: State, a: Step, b: Step, n: State, m: State)
    requires Next(s, a) == Some(n) && Next(n, b) == Some(m)
    ensures Leads(s, m)
  {
    RunTwo(s, a, b, n);
  }

  lemma NewEventLeads(s: State, n: State, name: string)
    requires NewEventStep(s, name) == n
    ensures Leads(s, n)
  {
    LeadsOne(s, NewEvent(name), n);
  }

  lemma EnqueueLeads(s: State, n: State, r: Request)
    requires EnqueueStep(s, r) == Some(n)
    ensures Leads(s, n)
  {
    LeadsOne(s, Enqueue(r), n);
  }

  lemma RecoverLeads(s: State, n: State)
    requires RecoverStep(s) == Some(n)
    ensures Leads(s, n)
  {
    LeadsOne(s, Recover, n);
  }

  lemma ClaimLeads(s: State, n: State)
    requires ClaimStep(s) == Some(n)
    ensures Leads(s, n)
  {
    LeadsOne(s, Claim, n);
  }

  /** An event without media is deleted. */
  lemma DeleteLeads(s: State, n: State, m: State, e: nat)
    requires BeginDeleteStep(s, e) == Some(n) && RemoveEventStep(n, e) == Some(m)
    ensures Leads(s, m)
  {
    LeadsTwo(s, BeginDelete(e), RemoveEvent(e), n, m);
  }

  /** A claimed job fails before its snapshot and ends. */
  lemma FailLeads(s: State, n: State, m: State)
    requires FailEarlyStep(s) == Some(n) && FinishStep(n) == Some(m)
    ensures Leads(s, m)
  {
    LeadsTwo(s, FailEarly, Finish, n, m);
  }
}
