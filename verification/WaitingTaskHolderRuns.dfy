// What the holders' accesses do, said of the accesses themselves: whose shares change hands, what
// was offered to a task in a run, and what it fires with.

module WaitingTaskHolderRuns {
  import opened Basics
  import opened WaitingTaskHolders

  // ---------- exceptions ----------

  /** What has been offered to t with this access, since t was made. */
  function OfferedBy(s: State, a: Action, t: nat, before: set<Exc>): set<Exc> {
    if !Enabled(s, a) then before
    else if a.NewTask? && a.task == t then {}
    else if a.Fail? && s.owners[a.owner].task == t then before + {a.exc}
    else before
  }

  function Offered(s: State, acts: seq<Action>, t: nat, before: set<Exc>): set<Exc>
    decreases |acts|
  {
    if acts == [] then before else Offered(Step(s, acts[0]), acts[1..], t, OfferedBy(s, acts[0], t, before))
  }

  lemma StepOffers(s: State, a: Action, t: nat, before: set<Exc>)
    requires t in s.tasks ==> s.tasks[t].offered == before
    ensures t in Step(s, a).tasks ==> Step(s, a).tasks[t].offered == OfferedBy(s, a, t, before)
  {
  }

  lemma {:induction false} OfferedIs(s: State, acts: seq<Action>, t: nat, before: set<Exc>)
    requires t in s.tasks ==> s.tasks[t].offered == before
    ensures t in Run(s, acts).tasks ==> Run(s, acts).tasks[t].offered == Offered(s, acts, t, before)
    decreases |acts|
  {
    if acts != [] {
      StepOffers(s, acts[0], t, before);
      OfferedIs(Step(s, acts[0]), acts[1..], t, OfferedBy(s, acts[0], t, before));
    }
  }

  /** A task that fires carries an exception exactly when some owner of it was given one to hand on
      since the task was made, and one that some owner was given. */
  lemma FiresWithOffered(acts: seq<Action>, t: nat)
    requires Enabled(Run(Init(), acts), Execute(t))
    ensures var exc, offered := Run(Init(), acts).tasks[t].exc, Offered(Init(), acts, t, {});
      && (exc.Some? <==> offered != {})
      && (exc.Some? ==> exc.value in offered)
  {
    FiresWithException(acts, t);
    OfferedIs(Init(), acts, t, {});
  }

  /** The exception with which the first compare-exchange of a task's pointer was made, since the
      task was made. */
  function RecordedBy(s: State, a: Action, t: nat, before: Option<Exc>): Option<Exc> {
    if !Enabled(s, a) then before
    else if a.NewTask? && a.task == t then None
    else if a.Record? && s.owners[a.owner].task == t && before == None then Some(s.owners[a.owner].exc)
    else before
  }

  function Recorded(s: State, acts: seq<Action>, t: nat, before: Option<Exc>): Option<Exc>
    decreases |acts|
  {
    if acts == [] then before else Recorded(Step(s, acts[0]), acts[1..], t, RecordedBy(s, acts[0], t, before))
  }

  /** That is the one it carries. */
  lemma {:induction false} RecordedIs(s: State, acts: seq<Action>, t: nat, before: Option<Exc>)
    requires t in s.tasks ==> s.tasks[t].exc == before
    ensures t in Run(s, acts).tasks ==> Run(s, acts).tasks[t].exc == Recorded(s, acts, t, before)
    decreases |acts|
  {
    if acts != [] {
      StepRecords(s, acts[0], t, before);
      RecordedIs(Step(s, acts[0]), acts[1..], t, RecordedBy(s, acts[0], t, before));
    }
  }

  lemma StepRecords(s: State, a: Action, t: nat, before: Option<Exc>)
    requires t in s.tasks ==> s.tasks[t].exc == before
    ensures t in Step(s, a).tasks ==> Step(s, a).tasks[t].exc == RecordedBy(s, a, t, before)
  {
  }

  /** And the compare-exchange is made with what the owner was given, if the pointer was null when
      the owner looked at it; whoever finds an exception there hands none on. */
  lemma GivenIsTried(s: State, o: Owner, e: Exc, last: bool)
    requires Enabled(s, Fail(o, e, last))
    ensures var s', t := Step(s, Fail(o, e, last)), s.owners[o].task;
      && s'.owners.Keys == s.owners.Keys && t in s'.tasks && s'.tasks[t].exc == s.tasks[t].exc
      && (s.tasks[t].exc == None ==> s'.owners[o] == Failing(t, e, last))
      && (s.tasks[t].exc.Some? ==> s'.owners[o] == if last then LettingGo(t) else Has(t))
      && (forall p | p in s.owners && p != o :: s'.owners[p] == s.owners[p])
  {
  }

  // ---------- shares ----------

  /** Which share an access that makes or moves holders gives to whom. Nobody else's changes, and no
      count but that of the task of a new share. */
  lemma WhoOwns(s: State, a: Action)
    requires Inv(s) && Enabled(s, a) && (a.Make? || a.Copy? || a.Move? || a.Swap?)
    ensures var s' := Step(s, a);
      match a
      case Make(o, t) =>
        && s'.owners == s.owners[o := Has(t)]
        && s'.tasks == s.tasks[t := s.tasks[t].(refs := s.tasks[t].refs + 1)]
      case Copy(o, p) =>
        var t := s.owners[o].task;
        && s'.owners == s.owners[p := s.owners[o]]
        && t in s.tasks && s'.tasks == s.tasks[t := s.tasks[t].(refs := s.tasks[t].refs + 1)]
      case Move(o, p) => s'.owners == s.owners[p := s.owners[o]][o := Null] && s'.tasks == s.tasks
      case Swap(o, p) =>
        && s'.owners.Keys == s.owners.Keys && s'.tasks == s.tasks
        && s'.owners[o] == s.owners[p] && s'.owners[p] == s.owners[o]
        && forall q | q in s.owners && q != o && q != p :: s'.owners[q] == s.owners[q]
  {
    if a.Copy? {
      assert OwnerAt(s, a.from);
    }
  }

  /** Each share is let go once: whoever lets go owns nothing afterwards. */
  lemma LetsGoOnce(s: State, o: Owner)
    requires Enabled(s, LetGo(o))
    ensures var s', t := Step(s, LetGo(o)), s.owners[o].task;
      && s'.owners == s.owners[o := Null] && s'.tasks.Keys == s.tasks.Keys
      && s'.tasks[t].refs == s.tasks[t].refs - 1 && s'.tasks[t].exc == s.tasks[t].exc
      && (forall u | u in s.tasks && u != t :: s'.tasks[u] == s.tasks[u])
  {
  }

  // ---------- once for each last share ----------

  /** How often an owner that was the only one let go of t, and how often t began to execute, since
      it was made. */
  datatype Counts = Counts(last: nat, executed: nat)

  ghost function CountedBy(s: State, a: Action, t: nat, before: Counts): Counts {
    if !Enabled(s, a) then before
    else if a.NewTask? && a.task == t then Counts(0, 0)
    else if a.LetGo? && s.owners[a.owner].task == t && Owners(s, t) == {a.owner} then before.(last := before.last + 1)
    else if a.Execute? && a.task == t then before.(executed := before.executed + 1)
    else before
  }

  ghost function Counted(s: State, acts: seq<Action>, t: nat, before: Counts): Counts
    decreases |acts|
  {
    if acts == [] then before else Counted(Step(s, acts[0]), acts[1..], t, CountedBy(s, acts[0], t, before))
  }

  lemma StepCounts(s: State, a: Action, t: nat, before: Counts)
    requires Inv(s) && (t in s.tasks ==> before == Counts(s.tasks[t].fired, s.tasks[t].ran))
    ensures t in Step(s, a).tasks ==>
      CountedBy(s, a, t, before) == Counts(Step(s, a).tasks[t].fired, Step(s, a).tasks[t].ran)
  {
    if a.LetGo? && Enabled(s, a) && s.owners[a.owner].task == t {
      assert TaskAt(s, t) && a.owner in Owners(s, t);
      Alone(s, t, a.owner);
    }
  }

  lemma {:induction false} CountedIs(s: State, acts: seq<Action>, t: nat, before: Counts)
    requires Inv(s) && (t in s.tasks ==> before == Counts(s.tasks[t].fired, s.tasks[t].ran))
    ensures var x := Run(s, acts);
      Inv(x) && (t in x.tasks ==> Counted(s, acts, t, before) == Counts(x.tasks[t].fired, x.tasks[t].ran))
    decreases |acts|
  {
    if acts != [] {
      StepCounts(s, acts[0], t, before);
      StepKeepsInv(s, acts[0]);
      CountedIs(Step(s, acts[0]), acts[1..], t, CountedBy(s, acts[0], t, before));
    }
  }

  /** A task begins to execute once for each time its last owner lets go of it, and not before. */
  lemma ExecutesOnce(acts: seq<Action>, t: nat)
    requires t in Run(Init(), acts).tasks
    ensures var n := Counted(Init(), acts, t, Counts(0, 0));
      && n.executed <= n.last <= n.executed + 1
      && (n.last > n.executed <==> Enabled(Run(Init(), acts), Execute(t)))
  {
    CountedIs(Init(), acts, t, Counts(0, 0));
    assert TaskAt(Run(Init(), acts), t);
  }
}
