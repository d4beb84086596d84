/** What holds of every run of the cluster admin protocol. */
module ClusterAdminGuarantees {
  import opened Runs
  import opened Strings
  import opened Status
  import opened Paging
  import opened ClusterAdmin

  /** Identities a grant took effect on in a pass whose Ready save never landed. */
  function Unrecorded(s: State): set<string> { s.log.granted - s.log.landed }

  /** Accounting, at every step of every run: whoever holds the role from this declaration is either
      in the recorded list or was granted by passes that never got their Ready save in. */
  lemma GrantAccounting(s: State, labels: seq<Label>)
    requires Init(s)
    ensures var e := Exec(s, labels); e.log.held <= Elements(e.Current().ids) + Unrecorded(e)
  {
    ReachableInv(s, labels);
  }

  /** Exactly who is left once the controller has dropped its finalizer, however many passes were cut
      short before: those never recorded, and those whose clear was permanently refused by the pass
      that dropped it and had not landed earlier. */
  lemma RemainingAfterDrop(s: State, labels: seq<Label>)
    requires Init(s) && Exec(s, labels).log.dropped
    ensures var e := Exec(s, labels); e.log.held == Unrecorded(e) + (e.log.refused - e.log.cleared)
    ensures var e := Exec(s, labels);
            e.log.held == {} <==> e.log.granted <= Elements(e.Current().ids) && e.log.refused <= e.log.cleared
  {
    ReachableInv(s, labels);
    var e := Exec(s, labels);
    forall id ensures id in e.log.held <==> id in Unrecorded(e) + (e.log.refused - e.log.cleared) {}
    if e.log.held == {} {
      forall id | id in e.log.granted ensures id in e.log.landed { assert id !in e.log.held; }
      forall id | id in e.log.refused ensures id in e.log.cleared { assert id !in e.log.held; }
    }
  }

  /** The record as history: it is the sorted, duplicate-free list of all matches of the passes whose
      Ready save landed; along all stored versions it never loses an identity, and the observed
      generation neither goes back nor runs ahead of the generation. */
  lemma RecordIsHistory(s: State, labels: seq<Label>, i: nat, j: nat)
    requires Init(s) && i <= j < |Exec(s, labels).versions|
    ensures var e := Exec(s, labels);
            Elements(e.Current().ids) == e.log.landed && Canonical(e.Current().ids)
    ensures var v := Exec(s, labels).versions; Grows(v[i], v[j])
  {
    ReachableInv(s, labels);
    RecordIsCanonical(s, labels);
    VersionsGrow(Exec(s, labels), i, j);
  }

  lemma RecordIsCanonical(s: State, labels: seq<Label>)
    requires Init(s)
    ensures Canonical(Exec(s, labels).Current().ids)
  {
    RunKeepsCanonical(s, labels);
  }

  ghost predicate Grows(earlier: Object, later: Object) {
    Elements(earlier.ids) <= Elements(later.ids) && earlier.observed <= later.observed <= later.generation
  }

  lemma VersionsGrow(e: State, i: nat, j: nat)
    requires Versions(e) && i <= j < |e.versions|
    ensures Grows(e.versions[i], e.versions[j])
  {
    assert i < j ==> Follows(e.versions[i], e.versions[j]);
  }

  /** Two runs that landed the same matches recorded the same list, whatever the order. */
  lemma RecordDependsOnMatchesOnly(s: State, a: seq<Label>, b: seq<Label>)
    requires Init(s) && Exec(s, a).log.landed == Exec(s, b).log.landed
    ensures Exec(s, a).Current().ids == Exec(s, b).Current().ids
  {
    ReachableInv(s, a);
    ReachableInv(s, b);
    RecordIsCanonical(s, a);
    RecordIsCanonical(s, b);
    CanonicalUnique(Exec(s, a).Current().ids, Exec(s, b).Current().ids);
  }

  /** The finalizer guards every grant: when a grant call is pending the stored declaration exists and
      has the finalizer, nothing has been revoked, and the pass did not read a deletion. And as long
      as the finalizer was not dropped by a finished revocation, a granted declaration keeps it. */
  lemma FinalizerGuardsEveryGrant(s: State, labels: seq<Label>)
    requires Init(s)
    ensures var e := Exec(s, labels);
            e.pc.Granting? ==> !e.gone && e.Current().finalizer && e.log.cleared == {} && !e.pc.obj.deleting
    ensures var e := Exec(s, labels);
            e.log.granted != {} && !e.log.dropped ==> !e.gone && e.Current().finalizer
  {
    ReachableInv(s, labels);
    var e := Exec(s, labels);
    if e.pc.Granting? {
      GrantingPassIsEarly(e, e.pc.at);
    }
  }

  /** When the finalizer goes, every recorded identity was cleared or permanently refused by the very
      pass that drops it, even if earlier passes stopped midway: `done` and `denied` are what the
      running pass got accepted and refused itself. */
  lemma DropOnlyAfterAll(s: State, labels: seq<Label>, reply: Reply)
    requires Init(s) && Exec(s, labels).pc.Dropping?
    ensures var e := Exec(s, labels);
            && e.pc.obj.deleting && Elements(e.Current().ids) == Elements(e.pc.obj.ids) <= e.pc.done + e.pc.denied
            && e.pc.done <= e.log.cleared
    ensures var e := Exec(s, labels); var e' := Apply(e, Answer(reply));
            e'.log.dropped && !e.log.dropped ==>
                e'.log.refused == e.pc.denied && e'.log.held == Unrecorded(e') + (e'.log.refused - e'.log.cleared)
  {
    ReachableInv(s, labels);
    RecordIsFinal(Exec(s, labels), Exec(s, labels).pc.at);
    ExecSnoc(s, labels, Answer(reply));
    if Apply(Exec(s, labels), Answer(reply)).log.dropped {
      RemainingAfterDrop(s, labels + [Answer(reply)]);
    }
  }

  // ---- A stable stretch ----

  predicate Stable(l: Label) { !l.Roster? && !l.Edit? }

  function Wanted(s: State): seq<string>
    requires s.Valid()
  {
    Lookup(s.roster, s.Current().address)
  }

  /** What a stretch without roster or address changes keeps. */
  ghost predicate Steady(s0: State, s: State)
    requires s0.Valid()
  {
    && Inv(s) && s.seen >= s0.seen && s.roster == s0.roster
    && (forall i :: s0.seen <= i < |s.versions| ==> s.versions[i].address == s0.Current().address)
    && var wanted := Elements(Wanted(s0));
    && s0.log.granted <= s.log.granted <= s0.log.granted + wanted
    && s.log.saves >= s0.log.saves
    && s.log.landed == (if s.log.saves == s0.log.saves then s0.log.landed else s0.log.landed + wanted)
    && (s.pc.AddingFinalizer? || s.pc.Searching? || s.pc.Granting? ==> s.pc.at >= s0.seen)
    && (s.pc.Granting? ==> Elements(s.pc.matches) == wanted)
    && (s.pc.Saving? && s.pc.matches != [] ==> Elements(s.pc.matches) == wanted)
  }

  lemma SteadyAnswer(s0: State, s: State, reply: Reply)
    requires s0.Valid() && Steady(s0, s) && (s.pc.Searching? || s.pc.Granting?)
    ensures Steady(s0, Continue(s, reply))
  {
    StepKeepsInv(s, Answer(reply));
    if s.pc.Granting? {
      assert s.pc.matches[s.pc.next] in Elements(s.pc.matches);
    } else {
      assert s.versions[s.pc.at].address == s0.Current().address;
    }
  }

  lemma SteadySave(s0: State, s: State, reply: Reply)
    requires s0.Valid() && Steady(s0, s) && s.pc.Saving?
    ensures Steady(s0, Continue(s, reply))
  {
    StepKeepsInv(s, Answer(reply));
    var s', matches := Continue(s, reply), s.pc.matches;
    var n := |s.versions|;
    assert forall i :: 0 <= i < n ==> s'.versions[i] == s.versions[i];
    if |s'.versions| > n {
      assert s'.versions[n].address == s.versions[n - 1].address;
      assert matches == [] ==> Elements(matches) == {};
      assert s'.log.saves == s.log.saves + if matches == [] then 0 else 1;
      assert s'.log.landed == s.log.landed + Elements(matches);
    }
  }

  lemma SteadyFinalizer(s0: State, s: State, reply: Reply)
    requires s0.Valid() && Steady(s0, s) && (s.pc.AddingFinalizer? || s.pc.Dropping?)
    ensures Steady(s0, Continue(s, reply))
  {
    StepKeepsInv(s, Answer(reply));
    SteadyMove(s0, s, Continue(s, reply));
  }

  /** A step that grants and records nothing, and keeps the address in whatever it stores. */
  lemma SteadyMove(s0: State, s: State, s': State)
    requires s0.Valid() && Steady(s0, s) && Inv(s') && s'.seen == s.seen && s'.roster == s.roster
    requires s'.log.saves == s.log.saves && s'.log.landed == s.log.landed && s'.log.granted == s.log.granted
    requires s'.versions == s.versions ||
             (|s'.versions| == |s.versions| + 1 && s'.versions[..|s.versions|] == s.versions &&
              s'.Current().address == s.Current().address)
    requires s'.pc.Searching? ==> s'.pc.at >= |s.versions|
    requires !s'.pc.AddingFinalizer? && !s'.pc.Granting? && !s'.pc.Saving?
    ensures Steady(s0, s')
  {
    forall i | 0 <= i < |s.versions| ensures s'.versions[i] == s.versions[i] {
      if s'.versions != s.versions { assert s'.versions[..|s.versions|][i] == s'.versions[i]; }
    }
  }

  lemma SteadyRevoke(s0: State, s: State, reply: Reply)
    requires s0.Valid() && Steady(s0, s) && s.pc.Revoking?
    ensures Steady(s0, Continue(s, reply))
  {
    StepKeepsInv(s, Answer(reply));
    SteadyMove(s0, s, Continue(s, reply));
  }

  lemma SteadyStep(s0: State, s: State, l: Label)
    requires s0.Valid() && Steady(s0, s) && Stable(l)
    ensures Steady(s0, Apply(s, l))
  {
    if !l.Answer? {
      StepKeepsInv(s, l);
    } else if s.pc.Searching? || s.pc.Granting? {
      SteadyAnswer(s0, s, l.reply);
    } else if s.pc.Saving? {
      SteadySave(s0, s, l.reply);
    } else if s.pc.Revoking? {
      SteadyRevoke(s0, s, l.reply);
    } else if !s.pc.Idle? {
      SteadyFinalizer(s0, s, l.reply);
    }
  }

  lemma {:induction false} SteadyRun(s0: State, labels: seq<Label>)
    requires Inv(s0) && s0.pc.Idle?
    requires forall i :: s0.seen <= i < |s0.versions| ==> s0.versions[i].address == s0.Current().address
    requires forall l :: l in labels ==> Stable(l)
    ensures Steady(s0, Exec(s0, labels))
  {
    if labels != [] {
      SteadyRun(s0, labels[..|labels| - 1]);
      SteadyStep(s0, Exec(s0, labels[..|labels| - 1]), labels[|labels| - 1]);
    }
  }

  /** The boundary of the accounting, closed: once roster and address hold still (and the cache has
      seen the address), one landed Ready save leaves unrecorded only what was unrecorded before and
      no longer matches. From a clean start that is nobody. */
  lemma StableReadyRecordsAll(s: State, before: seq<Label>, labels: seq<Label>)
    requires Init(s) && Exec(s, before).pc.Idle?
    requires var s0 := Exec(s, before);
             forall i :: s0.seen <= i < |s0.versions| ==> s0.versions[i].address == s0.Current().address
    requires forall l :: l in labels ==> Stable(l)
    requires Exec(Exec(s, before), labels).log.saves > Exec(s, before).log.saves
    ensures var s0 := Exec(s, before);
            Unrecorded(Exec(s0, labels)) == Unrecorded(s0) - Elements(Wanted(s0))
  {
    ReachableInv(s, before);
    SteadyRun(Exec(s, before), labels);
  }

  // ---- The status ----

  /** A save that lands is Ready exactly when somebody matched and every match was granted by this very
      pass, records them all, names the generation the pass read, and sets the short retry exactly for
      Pending. */
  lemma LandedSaveSchedules(s: State, labels: seq<Label>)
    requires Init(s) && Exec(s, labels).pc.Saving? && Exec(s, labels).Writable(Exec(s, labels).pc.at)
    ensures var pc, e := Exec(s, labels).pc, Apply(Exec(s, labels), Answer(Accepted));
            && (e.Current().verdict == Set(Reconciled) <==> pc.matches != [])
            && Elements(pc.matches) <= pc.done <= e.log.granted
            && (pc.matches != [] ==> Elements(pc.matches) <= Elements(e.Current().ids))
            && e.Current().observed == e.Current().generation
            && e.outcome == Again(if e.Current().verdict == Set(Pending) then Requeue else Done)
  {
    ReachableInv(s, labels);
    SaveLands(Exec(s, labels));
    MatchesAreSaved(Exec(s, labels));
  }

  /** The stored declaration carries what the pass concluded. */
  lemma SaveLands(s: State)
    requires s.Valid() && s.pc.Saving? && s.Writable(s.pc.at)
    ensures var pc, e := s.pc, Apply(s, Answer(Accepted));
            && e.Current() == s.Current().(ids := pc.obj.ids, verdict := pc.obj.verdict, observed := pc.obj.observed)
            && e.outcome == Again(pc.retry) && e.log.granted == s.log.granted
  {
  }

  lemma MatchesAreSaved(s: State)
    requires s.Valid() && Local(s) && s.pc.Saving?
    ensures s.pc.matches != [] ==> Elements(s.pc.matches) <= Elements(s.pc.obj.ids)
  {
    UnionIsCanonical(s.versions[s.pc.at].ids, s.pc.matches);
  }

  // ---- Progress under a bounded number of faults ----

  predicate Writes(pc: Pc) { pc.AddingFinalizer? || pc.Saving? || pc.Dropping? }

  /** A fault: a call that ends with a transient error, a write that meets a newer version, a crash. */
  predicate Fault(s: State, l: Label) {
    && !s.pc.Idle?
    && (l.Crash? || (l.Answer? && (l.reply.Transient() || (Writes(s.pc) && (l.reply.Failed? || !s.Writable(s.pc.at))))))
  }

  function Count(s: State, t: Tally, l: Label): Tally
    requires s.Valid()
  {
    t.Next(!s.pc.Idle? && Apply(s, l).pc.Idle?, Fault(s, l), Apply(s, l).log.saves > s.log.saves)
  }

  function Counted(s: State, labels: seq<Label>): Tally
    requires s.Valid()
  {
    if labels == [] then NOTHING
    else Count(Exec(s, labels[..|labels| - 1]), Counted(s, labels[..|labels| - 1]), labels[|labels| - 1])
  }

  ghost predicate Revocable(s: State, t: Tally) {
    && Inv(s) && s.Current().deleting
    && (s.log.dropped || (s.Current().finalizer && t.Bound() <= t.faults))
  }

  lemma RevocableAnswer(s: State, t: Tally, reply: Reply)
    requires Revocable(s, t) && !s.log.dropped
    ensures Revocable(Continue(s, reply), Count(s, t, Answer(reply)))
  {
    StepKeepsInv(s, Answer(reply));
    if s.pc.Saving? && s.pc.at < |s.versions| - 1 {
      assert Follows(s.versions[s.pc.at], s.Current());
    }
  }

  lemma RevocableStep(s: State, t: Tally, l: Label)
    requires Revocable(s, t)
    ensures Revocable(Apply(s, l), Count(s, t, l))
  {
    if l.Answer? && !s.log.dropped {
      RevocableAnswer(s, t, l.reply);
    } else {
      StepKeepsInv(s, l);
      if l.Begin? && s.pc.Idle? && s.seen <= l.at < |s.versions| - 1 {
        assert Follows(s.versions[l.at], s.Current());
      }
    }
  }

  lemma {:induction false} RevocableRun(s: State, labels: seq<Label>)
    requires Inv(s) && s.Current().deleting && s.Current().finalizer
    ensures Revocable(Exec(s, labels), Counted(s, labels))
  {
    if labels != [] {
      var before := labels[..|labels| - 1];
      RevocableRun(s, before);
      RevocableStep(Exec(s, before), Counted(s, before), labels[|labels| - 1]);
    }
  }

  /** Retried until it lands: from any point at which the declaration is being deleted and still has
      the finalizer, if a run met at most k faults and more than k passes ended, the finalizer is
      gone. Stale reads, edits and foreign writes are allowed throughout. */
  lemma RevocationProgress(s: State, before: seq<Label>, labels: seq<Label>)
    requires Init(s)
    requires Exec(s, before).Current().deleting && Exec(s, before).Current().finalizer
    requires var t := Counted(Exec(s, before), labels); t.passes > t.faults
    ensures var e := Exec(Exec(s, before), labels); e.log.dropped && !e.Current().finalizer
  {
    ReachableInv(s, before);
    RevocableRun(Exec(s, before), labels);
  }

  predicate Calm(l: Label) {
    !l.Roster? && !l.Edit? && !l.Delete? && !(l.Answer? && l.reply.Refused())
  }

  /** A calm stretch for a declaration somebody matches. */
  ghost predicate Grantable(s0: State, s: State, t: Tally)
    requires s0.Valid()
  {
    && Inv(s) && s.roster == s0.roster && Wanted(s0) != [] && s.log.saves >= s0.log.saves
    && s.Current().address == s0.Current().address && !s.Current().deleting && !s.gone
    && (s.log.saves == s0.log.saves ==> t.Bound() <= t.faults)
    && (s.pc.Saving? && !t.tainted && s.Writable(s.pc.at) ==> s.pc.obj.verdict == Set(Reconciled))
  }

  lemma GrantableCall(s0: State, s: State, t: Tally, reply: Reply)
    requires s0.Valid() && Grantable(s0, s, t) && !reply.Refused() && !Writes(s.pc)
    ensures Grantable(s0, Continue(s, reply), Count(s, t, Answer(reply)))
  {
    StepKeepsInv(s, Answer(reply));
    if s.pc.Searching? && s.Writable(s.pc.at) {
      assert s.pc.obj == s.Current();
    }
  }

  lemma GrantableWrite(s0: State, s: State, t: Tally, reply: Reply)
    requires s0.Valid() && Grantable(s0, s, t) && Writes(s.pc)
    ensures Grantable(s0, Continue(s, reply), Count(s, t, Answer(reply)))
  {
    StepKeepsInv(s, Answer(reply));
    if s.pc.Dropping? {
      RecordIsFinal(s, s.pc.at);
    }
  }

  lemma GrantableStep(s0: State, s: State, t: Tally, l: Label)
    requires s0.Valid() && Grantable(s0, s, t) && Calm(l)
    ensures Grantable(s0, Apply(s, l), Count(s, t, l))
  {
    if l.Answer? {
      if Writes(s.pc) { GrantableWrite(s0, s, t, l.reply); } else { GrantableCall(s0, s, t, l.reply); }
    } else {
      StepKeepsInv(s, l);
      if l.Begin? && s.pc.Idle? && s.seen <= l.at < |s.versions| {
        assert l.at < |s.versions| - 1 ==> Follows(s.versions[l.at], s.Current());
      }
    }
  }

  lemma {:induction false} GrantableRun(s: State, labels: seq<Label>)
    requires Inv(s) && s.pc.Idle? && Wanted(s) != [] && !s.Current().deleting && !s.gone
    requires forall l :: l in labels ==> Calm(l)
    ensures Grantable(s, Exec(s, labels), Counted(s, labels))
  {
    if labels != [] {
      var before := labels[..|labels| - 1];
      GrantableRun(s, before);
      GrantableStep(s, Exec(s, before), Counted(s, before), labels[|labels| - 1]);
    }
  }

  /** Signing in completes the declaration: once an account matches and nobody edits or deletes, k
      faults delay the Ready save by at most k passes. */
  lemma GrantProgress(s: State, before: seq<Label>, labels: seq<Label>)
    requires Init(s)
    requires var s0 := Exec(s, before); s0.pc.Idle? && Wanted(s0) != [] && !s0.Current().deleting && !s0.gone
    requires forall l :: l in labels ==> Calm(l)
    requires var t := Counted(Exec(s, before), labels); t.passes > t.faults
    ensures Exec(Exec(s, before), labels).log.saves > Exec(s, before).log.saves
  {
    ReachableInv(s, before);
    GrantableRun(Exec(s, before), labels);
  }

  // ---- The boundary is real ----

  function Start(): State {
    State([Object(1, false, false, "ann@x", [], Unset, 0)], false, 0, [User("u1", "Ann@x")], Idle, Nothing,
          Log({}, {}, {}, {}, {}, 0, false, {}))
  }

  /** The first pass, up to its save: the finalizer is stored and the grant has taken effect. */
  function GrantedAndHeld(): State {
    var o := Start().Current();
    var f := o.(finalizer := true);
    State([o, f], false, 0, Start().roster,
          Saving(1, f.(ids := UnionOf([], ["u1"]), verdict := Set(Reconciled), observed := 1), Done, ["u1"], {"u1"}),
          Nothing,
          Log({"u1"}, {"u1"}, {}, {"u1"}, {}, 0, false, {}))
  }

  lemma Perform(labels: seq<Label>, l: Label, from: State, to: State)
    requires Exec(Start(), labels) == from && Apply(from, l) == to
    ensures Exec(Start(), labels + [l]) == to
  {
    ExecSnoc(Start(), labels, l);
  }

  /** The finalizer is stored and the first grant is about to be issued. */
  function Granter(): State {
    var o := Start().Current();
    var f := o.(finalizer := true);
    Start().(versions := [o, f], pc := Granting(1, f, ["u1"], 0, {}), log := Start().log.(looked := {"u1"}))
  }

  lemma GranterIsReachable()
    ensures Exec(Start(), [Begin(0), Answer(Accepted), Answer(Accepted)]) == Granter()
  {
    var s0, ok := Start(), Answer(Accepted);
    var s1 := s0.(pc := AddingFinalizer(0, s0.Current()));
    var s2 := Granter().(pc := Searching(1, Granter().Current()), log := s0.log);
    Perform([], Begin(0), s0, s1);
    assert [] + [Begin(0)] == [Begin(0)];
    Perform([Begin(0)], ok, s1, s2);
    assert [Begin(0)] + [ok] == [Begin(0), ok];
    SearcherFinds(s2);
    Perform([Begin(0), ok], ok, s2, Granter());
    assert [Begin(0), ok] + [ok] == [Begin(0), ok, ok];
  }

  lemma SearcherFinds(s: State)
    requires s == Granter().(pc := Searching(1, Granter().Current()), log := Start().log)
    ensures Apply(s, Answer(Accepted)) == Granter()
  {
    AnnMatches();
    assert Elements(["u1"]) == {"u1"};
  }

  lemma GranterGrants()
    ensures Apply(Granter(), Answer(Accepted)) == GrantedAndHeld()
  {
    assert Granter().pc.matches == ["u1"] && {} + {"u1"} == {"u1"};
  }

  lemma GrantIsReachable()
    ensures Exec(Start(), [Begin(0), Answer(Accepted), Answer(Accepted), Answer(Accepted)]) == GrantedAndHeld()
  {
    var ok := Answer(Accepted);
    GranterIsReachable();
    GranterGrants();
    ExecSnoc(Start(), [Begin(0), ok, ok], ok);
    assert [Begin(0), ok, ok] + [ok] == [Begin(0), ok, ok, ok];
  }

  /** The grant is issued before it is recorded. Deleting the declaration between the grant and its
      save makes the save conflict; the revocation then finds nothing recorded, drops the finalizer,
      and the grant stays. */
  lemma GrantCanOutliveDeclaration() returns (labels: seq<Label>)
    ensures Init(Start())
    ensures var e := Exec(Start(), labels); e.log.dropped && e.log.held == {"u1"} && e.log.refused == {}
  {
    var s0, ok := Start(), Answer(Accepted);
    GrantIsReachable();
    labels := [Begin(0), ok, ok, ok];
    ExecSnoc(s0, labels, Delete);
    labels := labels + [Delete];
    ExecSnoc(s0, labels, ok);
    labels := labels + [ok];
    var conflicted := Apply(Apply(GrantedAndHeld(), Delete), ok);
    assert conflicted.pc.Idle? && |conflicted.versions| == 3;
    ExecSnoc(s0, labels, Begin(2));
    labels := labels + [Begin(2)];
    var revoking := Apply(conflicted, Begin(2));
    assert revoking.pc == Dropping(2, conflicted.Current(), {}, {});
    ExecSnoc(s0, labels, ok);
    labels := labels + [ok];
  }

  lemma AnnMatches()
    ensures Lookup([User("u1", "Ann@x")], "ann@x") == ["u1"]
  {
    assert TrimLeft("Ann@x") == "Ann@x" && TrimRight("Ann@x") == "Ann@x";
    assert TrimLeft("ann@x") == "ann@x" && TrimRight("ann@x") == "ann@x";
    assert Lower("Ann@x") == "ann@x" == Lower("ann@x");
    assert [User("u1", "Ann@x")][1..] == [];
    assert Asserts("ann@x")(User("u1", "Ann@x"));
    assert Filter([User("u1", "Ann@x")], Asserts("ann@x")) == [User("u1", "Ann@x")];
    assert Ids([User("u1", "Ann@x")]) == ["u1"];
  }
}
