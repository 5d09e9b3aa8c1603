/** One state of the media service leads to another. */
module MediaRuns {
  import opened Wrappers
  import opened MediaModel
  import opened MediaSteps

  ghost predicate Leads(s: State, n: State) { exists ts :: Run(s, ts) == Some(n) }

  lemma {:induction false} RunJoin(s: State, ts: seq<Step>, n: State, us: seq<Step>)
    requires Run(s, ts) == Some(n)
    ensures Run(s, ts + us) == Run(n, us)
    decreases |ts|
  {
    if ts == [] {
      assert ts + us == us;
    } else {
      assert (ts + us)[1..] == ts[1..] + us;
      RunJoin(Next(s, ts[0]).value, ts[1..], n, us);
    }
  }

  lemma LeadsSelf(s: State)
    ensures Leads(s, s)
  {
    assert Run(s, []) == Some(s);
  }

  lemma LeadsOne(s: State, t: Step)
    requires Next(s, t).Some?
    ensures Leads(s, Next(s, t).value)
  {
    assert [t][1..] == [];
    assert Run(s, [t]) == Some(Next(s, t).value);
  }

  lemma LeadsOn(s: State, n: State, m: State)
    requires Leads(s, n) && Leads(n, m)
    ensures Leads(s, m)
  {
    var ts :| Run(s, ts) == Some(n);
    var us :| Run(n, us) == Some(m);
    RunJoin(s, ts, n, us);
  }

  lemma AddEventLeads(s: State, x: Event)
    requires AddEventStep(s, x).Some?
    ensures Leads(s, AddEventStep(s, x).value)
  {
    LeadsOne(s, AddEvent(x));
  }

  lemma OpenSessionLeads(s: State, i: nat, x: Session, link: nat, now: nat)
    requires OpenSessionStep(s, i, x, link, now).Some?
    ensures Leads(s, OpenSessionStep(s, i, x, link, now).value)
  {
    LeadsOne(s, OpenSession(i, x, link, now));
  }

  lemma PrepareLeads(s: State, p: Preparation, i: nat, now: nat)
    requires PrepareStep(s, p, i, now).Some?
    ensures Leads(s, PrepareStep(s, p, i, now).value)
  {
    LeadsOne(s, Prepare(p, i, now));
  }

  lemma AuthorizeLeads(s: State, e: nat, link: nat, u: nat, i: nat, until: nat, now: nat)
    requires AuthorizeStep(s, e, link, u, i, until, now).Some?
    ensures Leads(s, AuthorizeStep(s, e, link, u, i, until, now).value)
  {
    LeadsOne(s, Authorize(e, link, u, i, until, now));
  }

  lemma PutLeads(s: State, i: nat, o: Object)
    requires PutStep(s, i, o).Some?
    ensures Leads(s, PutStep(s, i, o).value)
  {
    LeadsOne(s, Put(i, o));
  }

  lemma LoadLeads(s: State, e: nat, link: nat, u: nat, i: nat)
    requires LoadStep(s, e, link, u, i).Some?
    ensures Leads(s, LoadStep(s, e, link, u, i).value)
  {
    LeadsOne(s, Load(e, link, u, i));
  }

  lemma HeadLeads(s: State, i: nat)
    requires HeadStep(s, i).Some?
    ensures Leads(s, HeadStep(s, i).value)
  {
    LeadsOne(s, Head(i));
  }

  lemma JudgeLeads(s: State, i: nat)
    requires JudgeStep(s, i).Some?
    ensures Leads(s, JudgeStep(s, i).value)
  {
    LeadsOne(s, Judge(i));
  }

  lemma CompleteLeads(s: State, i: nat, ceiling: nat)
    requires CompleteStep(s, i, ceiling).Some?
    ensures Leads(s, CompleteStep(s, i, ceiling).value)
  {
    LeadsOne(s, Complete(i, ceiling));
  }

  lemma LockLeads(s: State, e: nat, deleting: bool)
    requires LockStep(s, e, deleting).Some?
    ensures Leads(s, LockStep(s, e, deleting).value)
  {
    LeadsOne(s, Lock(e, deleting));
  }

  lemma UnreadyLeads(s: State, e: nat, i: nat)
    requires UnreadyStep(s, e, i).Some?
    ensures Leads(s, UnreadyStep(s, e, i).value)
  {
    LeadsOne(s, Unready(e, i));
  }

  lemma ChooseLeads(s: State, e: nat, i: nat, now: nat)
    requires ChooseStep(s, e, i, now).Some?
    ensures Leads(s, ChooseStep(s, e, i, now).value)
  {
    LeadsOne(s, Choose(e, i, now));
  }

  lemma RemovePartLeads(s: State, e: nat)
    requires RemovePartStep(s, e).Some?
    ensures Leads(s, RemovePartStep(s, e).value)
  {
    LeadsOne(s, RemovePart(e));
  }

  lemma RemoveFinalLeads(s: State, e: nat)
    requires RemoveFinalStep(s, e).Some?
    ensures Leads(s, RemoveFinalStep(s, e).value)
  {
    LeadsOne(s, RemoveFinal(e));
  }

  lemma RetireLeads(s: State, e: nat)
    requires RetireStep(s, e).Some?
    ensures Leads(s, RetireStep(s, e).value)
  {
    LeadsOne(s, Retire(e));
  }

  lemma DeleteObjectLeads(s: State, e: nat, o: Outcome)
    requires DeleteObjectStep(s, e, o).Some?
    ensures Leads(s, DeleteObjectStep(s, e, o).value)
  {
    LeadsOne(s, DeleteObject(e, o));
  }

  lemma RemoveRowLeads(s: State, e: nat)
    requires RemoveRowStep(s, e).Some?
    ensures Leads(s, RemoveRowStep(s, e).value)
  {
    LeadsOne(s, RemoveRow(e));
  }

  lemma AbandonLeads(s: State, e: nat)
    requires AbandonStep(s, e).Some?
    ensures Leads(s, AbandonStep(s, e).value)
  {
    LeadsOne(s, Abandon(e));
  }

  lemma UnlockLeads(s: State, e: nat)
    requires UnlockStep(s, e).Some?
    ensures Leads(s, UnlockStep(s, e).value)
  {
    LeadsOne(s, Unlock(e));
  }

  lemma DeleteEventLeads(s: State, e: nat)
    requires DeleteEventStep(s, e).Some?
    ensures Leads(s, DeleteEventStep(s, e).value)
  {
    LeadsOne(s, DeleteEvent(e));
  }

  lemma RetiredDeleteLeads(s: State, i: nat, o: Outcome)
    requires RetiredDeleteStep(s, i, o).Some?
    ensures Leads(s, RetiredDeleteStep(s, i, o).value)
  {
    LeadsOne(s, RetiredDelete(i, o));
  }

  lemma ReserveLeads(s: State, u: UploadRequest, i: nat, now: nat)
    requires ReserveStep(s, u, i, now).Some?
    ensures Leads(s, ReserveStep(s, u, i, now).value)
  {
    LeadsOne(s, Reserve(u, i, now));
  }

  lemma OpenPartLeads(s: State, i: nat)
    requires OpenPartStep(s, i).Some?
    ensures Leads(s, OpenPartStep(s, i).value)
  {
    LeadsOne(s, OpenPart(i));
  }

  lemma WriteLeads(s: State, i: nat, size: nat)
    requires WriteStep(s, i, size).Some?
    ensures Leads(s, WriteStep(s, i, size).value)
  {
    LeadsOne(s, Write(i, size));
  }

  lemma SealLeads(s: State, i: nat)
    requires SealStep(s, i).Some?
    ensures Leads(s, SealStep(s, i).value)
  {
    LeadsOne(s, Seal(i));
  }

  lemma PublishLeads(s: State, i: nat)
    requires PublishStep(s, i).Some?
    ensures Leads(s, PublishStep(s, i).value)
  {
    LeadsOne(s, Publish(i));
  }

  lemma FinishLeads(s: State, i: nat, now: nat, o: Outcome)
    requires FinishStep(s, i, now, o).Some?
    ensures Leads(s, FinishStep(s, i, now, o).value)
  {
    LeadsOne(s, Finish(i, now, o));
  }

  lemma FailLeads(s: State, i: nat)
    requires FailStep(s, i).Some?
    ensures Leads(s, FailStep(s, i).value)
  {
    LeadsOne(s, Fail(i));
  }

  lemma UndoLeads(s: State, i: nat)
    requires UndoStep(s, i).Some?
    ensures Leads(s, UndoStep(s, i).value)
  {
    LeadsOne(s, Undo(i));
  }

  lemma UndoPartLeads(s: State, i: nat)
    requires UndoPartStep(s, i).Some?
    ensures Leads(s, UndoPartStep(s, i).value)
  {
    LeadsOne(s, UndoPart(i));
  }

  lemma UndoFinalLeads(s: State, i: nat)
    requires UndoFinalStep(s, i).Some?
    ensures Leads(s, UndoFinalStep(s, i).value)
  {
    LeadsOne(s, UndoFinal(i));
  }

  lemma UndoRowLeads(s: State, i: nat)
    requires UndoRowStep(s, i).Some?
    ensures Leads(s, UndoRowStep(s, i).value)
  {
    LeadsOne(s, UndoRow(i));
  }

  lemma QuitLeads(s: State, i: nat)
    requires QuitStep(s, i).Some?
    ensures Leads(s, QuitStep(s, i).value)
  {
    LeadsOne(s, Quit(i));
  }

  lemma RejectLeads(s: State, i: nat, o: Outcome)
    requires RejectStep(s, i, o).Some?
    ensures Leads(s, RejectStep(s, i, o).value)
  {
    LeadsOne(s, Reject(i, o));
  }
}
