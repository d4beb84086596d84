/** What holds of the declarations of a plan, over every admissible run: a worker may crash anywhere,
    saves may be lost, calls may fail after taking effect, Secrets may be deleted, records edited by
    hand, declarations removed and declared again. Nothing is supposed of declarations outside the
    plan, but that they keep off its token Secrets; a plan may be one declaration and its organization. */
module CredentialGuarantees {
  import opened Status
  import opened Paging
  import opened Provisioning
  import opened Credentials
  import Registration

  ghost predicate Run(plan: Plan, s: State, labels: seq<Label>) {
    Init(plan, s) && forall l :: l in labels ==> Admissible(plan, l)
  }

  lemma Reachable(plan: Plan, s: State, labels: seq<Label>)
    requires Run(plan, s, labels)
    ensures Registration.Inv(Exec(s, labels)) && Inv(plan, Exec(s, labels))
  {
    assert Inv(plan, s) by {
      forall kind ensures Knows(plan, s, kind) {}
    }
    assert Registration.Inv(s) by {
      forall name | name in s.objects ensures s.objects[name].spec.Kind() == name.kind {
        assert Anchored(plan, s, name, s.objects[name]);
      }
    }
    RunKeepsInv(plan, s, labels);
  }

  /** Token agreement: a token Secret that exists holds the token of its declaration's one record,
      and for an app also that record's id. */
  lemma SecretsHoldTheirTokens(plan: Plan, s: State, labels: seq<Label>, name: Name)
    requires Run(plan, s, labels) && name in plan && plan[name].Minting()
    requires plan[name].secret in Exec(s, labels).secrets
    ensures var e := Exec(s, labels); var key := PlannedKey(plan, e, name);
            key.Some? && key.value in e.records && Holds(e.secrets[plan[name].secret], e.records[key.value], plan[name])
  {
    Reachable(plan, s, labels);
    assert Vouched(plan, Exec(s, labels), name);
  }

  /** A worker holds a token only for a Ready verdict it can stand by. */
  predicate Vouching(pc: Pc) { pc.Updating? || (pc.Saving? && pc.basis.Agreed?) }

  /** Every pass of a runner or app that goes on to Ready does so from a state in which the Secret is
      present with the token of the registered record: when it is read, or when it is written. */
  lemma ReadyRestsOnTheSecret(plan: Plan, s: State, labels: seq<Label>, l: Label)
    requires Run(plan, s, labels) && Admissible(plan, l) && l.Answer?
    requires var pc := Exec(s, labels).Pc(l.kind); (pc.Checking? || pc.Storing?) && pc.name in plan
    requires Vouching(Apply(Exec(s, labels), l).Pc(l.kind))
    ensures var e' := Apply(Exec(s, labels), l); var name := e'.Pc(l.kind).name;
            && name in plan && plan[name].Minting() && plan[name].secret in e'.secrets
            && Vouched(plan, e', name)
  {
    var e := Exec(s, labels);
    Reachable(plan, s, labels);
    PlannedSecret(plan, e, l.kind);
    StepKeepsInv(plan, e, l);
    AnswerMovesItsWorker(e, l);
    SeenOrWritten(e, l);
    assert Vouched(plan, Apply(e, l), e.Pc(l.kind).name);
  }

  lemma PlannedSecret(plan: Plan, s: State, kind: Kind)
    requires Inv(plan, s) && (s.Pc(kind).Checking? || s.Pc(kind).Storing?) && s.Pc(kind).name in plan
    ensures var pc := s.Pc(kind); plan[pc.name].Minting() && TokenSecret(pc.obj.spec) == plan[pc.name].secret
  {
    assert Knows(plan, s, kind);
    assert AnchorOf(s.Pc(kind).obj.spec) == plan[s.Pc(kind).name];
  }

  lemma SeenOrWritten(s: State, l: Label)
    requires l.Answer? && (s.Pc(l.kind).Checking? || s.Pc(l.kind).Storing?) && Vouching(Apply(s, l).Pc(l.kind))
    ensures TokenSecret(s.Pc(l.kind).obj.spec) in Apply(s, l).secrets
  {
    if s.Pc(l.kind).Storing? { assert Apply(s, l) == WriteSecret(s, l.kind, l.reply); }
  }

  /** At the save itself: a Ready verdict carries the token and id of the record it is about, and
      names the Secret of the declaration. */
  lemma ReadySavesAreBacked(plan: Plan, s: State, labels: seq<Label>, kind: Kind)
    requires Run(plan, s, labels)
    requires var pc := Exec(s, labels).Pc(kind);
             pc.Saving? && pc.name in plan && pc.obj.status.verdict == Set(Reconciled)
    ensures var e := Exec(s, labels); var pc := e.Pc(kind);
            && pc.basis.Agreed? && PlannedKey(plan, e, pc.name) == Some(pc.basis.key) && pc.basis.key in e.records
            && pc.obj.status.platformId == e.records[pc.basis.key].id
            && (pc.obj.spec.Minting() ==>
                  pc.basis.token == e.records[pc.basis.key].token && pc.obj.status.tokenRef == pc.obj.spec.tokenSecret)
  {
    Reachable(plan, s, labels);
    var e := Exec(s, labels);
    assert Knows(plan, e, kind);
    SaveIsBacked(plan, e, kind, e.Pc(kind));
  }

  lemma SaveIsBacked(plan: Plan, s: State, kind: Kind, pc: Pc)
    requires Accurate(plan, s, kind, pc) && pc.Saving? && pc.name in plan && pc.obj.status.verdict == Set(Reconciled)
    ensures pc.basis.Agreed? && PlannedKey(plan, s, pc.name) == Some(pc.basis.key) && pc.basis.key in s.records
    ensures pc.obj.status.platformId == s.records[pc.basis.key].id
    ensures pc.obj.spec.Minting() ==>
              pc.basis.token == s.records[pc.basis.key].token && pc.obj.status.tokenRef == pc.obj.spec.tokenSecret
  {
  }

  /** Without foreign Secrets the branch for a Secret that already exists is never taken: whenever a
      worker is about to store a token, no Secret of that name exists. */
  lemma StoringFindsNoSecret(plan: Plan, s: State, labels: seq<Label>, kind: Kind)
    requires Run(plan, s, labels) && Exec(s, labels).Pc(kind).Storing? && Exec(s, labels).Pc(kind).name in plan
    ensures TokenSecret(Exec(s, labels).Pc(kind).obj.spec) !in Exec(s, labels).secrets
  {
    Reachable(plan, s, labels);
    assert Knows(plan, Exec(s, labels), kind);
  }

  // ---- A lost credential ----

  /** The record of a declaration exists, its Secret does not, and no pass over the declaration is
      past its check. */
  ghost predicate Lost(plan: Plan, s: State, name: Name, key: Key) {
    && name in plan && plan[name].Minting()
    && PlannedKey(plan, s, name) == Some(key) && key in s.records && plan[name].secret !in s.secrets
    && var pc := s.Pc(name.kind);
       !pc.Idle? && pc.name == name ==> !pc.Creating? && !pc.Storing? && !Vouching(pc)
  }

  /** The lost record stays, and nothing is created under its key. */
  lemma LostRecordStays(plan: Plan, s: State, l: Label, name: Name, key: Key)
    requires Registration.Inv(s) && Admissible(plan, l) && PlannedKey(plan, s, name) == Some(key) && key in s.records
    ensures key in Apply(s, l).records && s.log.created <= Apply(s, l).log.created
    ensures forall i :: |s.log.created| <= i < |Apply(s, l).log.created| ==> Apply(s, l).log.created[i].key != key
  {
    PlannedKeyStays(plan, s, s, name);
    Registration.StepCreatesOnlyNew(s, l, key);
  }

  lemma StepKeeps(plan: Plan, s: State, l: Label)
    requires Registration.Inv(s) && Admissible(plan, l)
    ensures Keeps(plan, s, Apply(s, l))
  {
    forall key | key in s.records && Bears(plan, key)
      ensures HasRecord(Apply(s, l), key, s.records[key].id, s.records[key].token)
    {
      Registration.StepCreatesOnlyNew(s, l, key);
    }
  }

  lemma LostWorldStep(plan: Plan, s: State, l: Label, name: Name, key: Key)
    requires Registration.Inv(s) && Inv(plan, s) && Admissible(plan, l) && Lost(plan, s, name, key) && !l.Answer?
    ensures Lost(plan, Apply(s, l), name, key)
  {
    StepKeeps(plan, s, l);
    PlannedKeyStays(plan, s, Apply(s, l), name);
    WorldMovesNobodyPast(s, l, name.kind);
    WorldWritesNoSecret(plan, s, l, name);
  }

  lemma WorldWritesNoSecret(plan: Plan, s: State, l: Label, name: Name)
    requires !l.Answer? && Admissible(plan, l) && name in plan && plan[name].Minting() &&
             plan[name].secret !in s.secrets
    ensures plan[name].secret !in Apply(s, l).secrets
  {
  }

  lemma WorldMovesNobodyPast(s: State, l: Label, kind: Kind)
    requires !l.Answer?
    ensures var pc := Apply(s, l).Pc(kind);
            pc == s.Pc(kind) || pc.Idle? || pc.Resolving? || pc.Looking?
  {
  }

  /** A worker's answer about another declaration, or by another worker. */
  lemma LostOtherStep(plan: Plan, s: State, l: Label, name: Name, key: Key)
    requires l.Answer? && Registration.Inv(s) && Inv(plan, s) && Lost(plan, s, name, key)
    requires s.Pc(l.kind).Idle? || s.Pc(l.kind).name != name
    ensures Lost(plan, Apply(s, l), name, key)
  {
    AnswerMovesItsWorker(s, l);
    AnswerWritesItsSecret(s, l);
    StepKeeps(plan, s, l);
    PlannedKeyStays(plan, s, Apply(s, l), name);
    if s.Pc(l.kind).Storing? { OwnsItsSecret(plan, s, l.kind); }
  }

  lemma OwnsItsSecret(plan: Plan, s: State, kind: Kind)
    requires Registration.Inv(s) && Inv(plan, s) && s.Pc(kind).Storing?
    ensures var pc := s.Pc(kind);
            forall name :: name in plan && plan[name].Minting() && name != pc.name ==>
              plan[name].secret != TokenSecret(pc.obj.spec)
  {
    assert Knows(plan, s, kind);
    assert Registration.InPlace(s, kind, s.Pc(kind));
    if s.Pc(kind).name in plan { PlannedSecret(plan, s, kind); }
  }

  lemma LostOwnStep(plan: Plan, s: State, l: Label, name: Name, key: Key)
    requires l.Answer? && Registration.Inv(s) && Inv(plan, s) && Lost(plan, s, name, key)
    requires !s.Pc(l.kind).Idle? && s.Pc(l.kind).name == name
    ensures Lost(plan, Apply(s, l), name, key)
  {
    assert Knows(plan, s, l.kind);
    assert AnchorOf(s.Pc(l.kind).obj.spec) == plan[name];
    PassStaysBehind(plan, s, l, key);
    StepKeeps(plan, s, l);
    PlannedKeyStays(plan, s, Apply(s, l), name);
  }

  lemma PassStaysBehind(plan: Plan, s: State, l: Label, key: Key)
    requires l.Answer? && Accurate(plan, s, l.kind, s.Pc(l.kind)) && !s.Pc(l.kind).Idle?
    requires var pc := s.Pc(l.kind);
             && pc.name in plan && pc.obj.spec.Minting() && pc.obj.spec.tokenSecret !in s.secrets
             && PlannedKey(plan, s, pc.name) == Some(key) && key in s.records
             && !pc.Creating? && !pc.Storing? && !Vouching(pc)
    ensures var next := Apply(s, l).Pc(l.kind); !next.Creating? && !next.Storing? && !Vouching(next)
    ensures Apply(s, l).secrets == s.secrets
  {
  }

  lemma LostStep(plan: Plan, s: State, l: Label, name: Name, key: Key)
    requires Registration.Inv(s) && Inv(plan, s) && Admissible(plan, l) && Lost(plan, s, name, key)
    ensures Lost(plan, Apply(s, l), name, key)
    ensures s.log.created <= Apply(s, l).log.created
    ensures forall i :: |s.log.created| <= i < |Apply(s, l).log.created| ==> Apply(s, l).log.created[i].key != key
  {
    LostRecordStays(plan, s, l, name, key);
    if !l.Answer? {
      LostWorldStep(plan, s, l, name, key);
    } else if s.Pc(l.kind).Idle? || s.Pc(l.kind).name != name {
      LostOtherStep(plan, s, l, name, key);
    } else {
      LostOwnStep(plan, s, l, name, key);
    }
  }

  lemma {:induction false} LostRun(plan: Plan, s: State, labels: seq<Label>, name: Name, key: Key)
    requires Registration.Inv(s) && Inv(plan, s) && Lost(plan, s, name, key)
    requires forall l :: l in labels ==> Admissible(plan, l)
    ensures Registration.Inv(Exec(s, labels)) && Inv(plan, Exec(s, labels)) && Lost(plan, Exec(s, labels), name, key)
    ensures s.log.created <= Exec(s, labels).log.created
    ensures forall i :: |s.log.created| <= i < |Exec(s, labels).log.created| ==>
            Exec(s, labels).log.created[i].key != key
  {
    if labels != [] {
      var before, l := labels[..|labels| - 1], labels[|labels| - 1];
      LostRun(plan, s, before, name, key);
      Registration.StepKeepsInv(Exec(s, before), l);
      StepKeepsInv(plan, Exec(s, before), l);
      LostStep(plan, Exec(s, before), l, name, key);
    }
  }

  /** A lost credential is absorbing: no run re-registers the record, creates the Secret, or has a pass
      over the declaration about to save Ready. Deleting the declaration and declaring it again, which
      is among the admissible labels, changes nothing. The plan need hold no more than the lost
      declaration and its organization. */
  lemma LostStaysLost(plan: Plan, s: State, before: seq<Label>, labels: seq<Label>, name: Name, key: Key)
    requires Run(plan, s, before) && (forall l :: l in labels ==> Admissible(plan, l))
    requires Lost(plan, Exec(s, before), name, key)
    ensures var e0 := Exec(s, before); var e := Exec(e0, labels);
            && key in e.records && plan[name].secret !in e.secrets
            && (forall i :: |e0.log.created| <= i < |e.log.created| ==> e.log.created[i].key != key)
            && var pc := e.Pc(name.kind);
               (pc.Saving? && pc.name == name ==> pc.obj.status.verdict != Set(Reconciled))
  {
    Reachable(plan, s, before);
    LostRun(plan, Exec(s, before), labels, name, key);
    assert Knows(plan, Exec(Exec(s, before), labels), name.kind);
  }

  /** And every pass that reads the Secret reports the loss, with an empty token reference. */
  lemma LossIsReported(plan: Plan, s: State, kind: Kind)
    requires Inv(plan, s) && s.Pc(kind).Checking? && Lost(plan, s, s.Pc(kind).name, s.Pc(kind).key)
    ensures var pc := Continue(s, kind, Accepted, "", "").Pc(kind);
            && pc.Saving? && pc.retry == Done
            && pc.obj.status.verdict == Set(CredentialMissing) && pc.obj.status.tokenRef == ""
  {
    assert Knows(plan, s, kind);
  }

  /** The declaration is Ready and its record is there. */
  predicate ReadyWithRecord(s: State, name: Name, key: Key) {
    && name in s.objects && s.objects[name].spec.Minting() && s.objects[name].status.verdict == Set(Reconciled)
    && key in s.records && s.objects[name].spec.tokenSecret in s.secrets
  }

  /** And its Secret holds the token of that record. */
  predicate Recovered(s: State, name: Name, key: Key) {
    && ReadyWithRecord(s, name, key)
    && Holds(s.secrets[s.objects[name].spec.tokenSecret], s.records[key], AnchorOf(s.objects[name].spec))
  }

  /** What the declaration's Secret holds, if it exists, is this very token. */
  predicate FitsMint(s: State, spec: Spec, id: string, token: string)
    requires spec.Minting()
  {
    spec.tokenSecret in s.secrets ==>
      && Entry(s.secrets[spec.tokenSecret], "token") == token
      && (spec.AppSpec? ==> Entry(s.secrets[spec.tokenSecret], "app_id") == id)
  }

  /** About to store the token of the record it has just registered. */
  predicate AboutToStore(s: State, name: Name, key: Key, ok: Label) {
    && ok.Answer? && ok.kind == name.kind && ok.reply.Accepted? && name in s.objects
    && var o := s.objects[name];
       && o.spec.Minting() && key in s.records && s.records[key].id == ok.id && s.records[key].token == ok.token
       && s.Pc(name.kind) == Storing(name, o, key, NO_LOGIN, ok.id, ok.token)
  }

  lemma StoringLeaves(s: State, name: Name, key: Key, ok: Label)
    requires AboutToStore(s, name, key, ok)
    ensures var e, spec := Apply(s, ok), s.objects[name].spec;
            && e.objects == s.objects && e.records == s.records && spec.tokenSecret in e.secrets
            && e.Pc(ok.kind).Saving? && e.Pc(ok.kind).name == name &&
                e.Pc(ok.kind).obj.version == s.objects[name].version
            && e.Pc(ok.kind).obj.status.verdict == Set(Reconciled)
            && (Holds(e.secrets[spec.tokenSecret], s.records[key], AnchorOf(spec)) <==>
                  FitsMint(s, spec, ok.id, ok.token))
  {
    assert Apply(s, ok) == WriteSecret(s, ok.kind, Accepted);
  }

  lemma StoringAgreesIff(s: State, name: Name, key: Key, ok: Label)
    requires AboutToStore(s, name, key, ok)
    ensures var e := Apply(Apply(s, ok), ok);
            && ReadyWithRecord(e, name, key) && e.records[key] == s.records[key]
            && (Recovered(e, name, key) <==> FitsMint(s, s.objects[name].spec, ok.id, ok.token))
  {
    StoringLeaves(s, name, key, ok);
    assert Apply(Apply(s, ok), ok) == SaveStatus(Apply(s, ok), ok.kind, Accepted);
  }

  /** A pass that finds no record registers and saves Ready; the Secret agrees with the registration
      exactly if there was none, or one that fits. */
  lemma RegisteringAgreesIff(s: State, name: Name, key: Key, ok: Label)
    requires ok.Answer? && ok.kind == name.kind && ok.reply.Accepted? && name in s.objects
    requires var o := s.objects[name];
             && o.spec.Minting() && WellFormed(o.spec) && key !in s.records
             && s.Pc(name.kind) == Looking(name, o, key, NO_LOGIN)
    ensures var e := Apply(Apply(Apply(Apply(s, ok), ok), ok), ok);
            && ReadyWithRecord(e, name, key) && e.records[key].id == ok.id && e.records[key].token == ok.token
            && (Recovered(e, name, key) <==> FitsMint(s, s.objects[name].spec, ok.id, ok.token))
  {
    var o := s.objects[name];
    var s1 := Apply(s, ok);
    assert s1 == s.Move(ok.kind, Creating(name, o, key, NO_LOGIN));
    var s2 := Apply(s1, ok);
    assert s2 == Create(s1, ok.kind, Accepted, ok.id, ok.token);
    StoringAgreesIff(s2, name, key, ok);
  }

  lemma SettleFour(s: State, l: Label)
    ensures Settle(s, l, 4) == Apply(Apply(Apply(Apply(s, l), l), l), l)
  {
    assert Settle(s, l, 1) == Apply(Settle(s, l, 0), l);
    assert Settle(s, l, 2) == Apply(Settle(s, l, 1), l);
    assert Settle(s, l, 3) == Apply(Settle(s, l, 2), l);
  }

  /** A declaration whose worker is at rest, its organization known; `key` is where it belongs. */
  predicate Registrable(s: State, name: Name, key: Key) {
    && s.Pc(name.kind).Idle? && name in s.objects && !s.objects[name].deleting
    && var spec := s.objects[name].spec;
       && spec.Minting() && WellFormed(spec) && Unblocked(s, spec) && key == KeyOf(s, spec)
  }

  lemma BegunThenLooking(s: State, name: Name, key: Key, ok: Label)
    requires Registrable(s, name, key) && ok.Answer? && ok.kind == name.kind && ok.reply.Accepted?
    ensures var e := Settle(Apply(s, Begin(name)), ok, if s.objects[name].spec.AppSpec? then 1 else 0);
            && e.Pc(name.kind) == Looking(name, s.objects[name], key, NO_LOGIN)
            && e.objects == s.objects && e.secrets == s.secrets && e.records == s.records
  {
    var begun := Apply(s, Begin(name));
    if s.objects[name].spec.AppSpec? {
      assert Settle(begun, ok, 1) == Apply(Settle(begun, ok, 0), ok);
    }
  }

  /** The calls of a pass that registers. */
  function Calls(spec: Spec): nat { if spec.AppSpec? then 5 else 4 }

  function RegisteringPass(s: State, name: Name, id: string, token: string): seq<Label>
    requires name in s.objects
  {
    [Begin(name)] + seq(Calls(s.objects[name].spec), _ => Answer(name.kind, Accepted, id, token))
  }

  /** Over a whole pass, from any state without the record: it ends Ready, and the Secret agrees with
      the one registration if and only if nobody had put another one there. */
  lemma RegistrationAgreesIff(s: State, name: Name, key: Key, id: string, token: string)
    requires Registrable(s, name, key) && key !in s.records
    ensures var e := Exec(s, RegisteringPass(s, name, id, token));
            && ReadyWithRecord(e, name, key) && e.records[key].id == id && e.records[key].token == token
            && (Recovered(e, name, key) <==> FitsMint(s, s.objects[name].spec, id, token))
  {
    var ok := Answer(name.kind, Accepted, id, token);
    var n := if s.objects[name].spec.AppSpec? then 1 else 0;
    var begun := Apply(s, Begin(name));
    BegunThenLooking(s, name, key, ok);
    RegisteringAgreesIff(Settle(begun, ok, n), name, key, ok);
    SettleFour(Settle(begun, ok, n), ok);
    SettleAdds(begun, ok, n, 4);
    OneStep(s, Begin(name));
    SettleIsARun(s, [Begin(name)], ok, Calls(s.objects[name].spec));
  }

  /** The same pass, but the write of the Secret ends with an error. */
  function FailingPass(s: State, name: Name, id: string, token: string, code: Code, landed: bool): seq<Label>
    requires name in s.objects
  {
    [Begin(name)] + seq(Calls(s.objects[name].spec) - 2, _ => Answer(name.kind, Accepted, id, token))
    + [Answer(name.kind, Failed(code, landed), "", ""), Answer(name.kind, Accepted, "", "")]
  }

  /** A token that could not be stored is spent: over the whole pass, whatever the error, the stored status
      is CredentialMissing with the id just registered and the reference as it was, and the next look is
      left to the resync. */
  lemma FailedStoreIsReported(s: State, name: Name, key: Key, id: string, token: string, code: Code, landed: bool)
    requires Registrable(s, name, key) && key !in s.records
    ensures var e := Exec(s, FailingPass(s, name, id, token, code, landed));
            && e.Pc(name.kind) == Idle(Again(Done)) && HasRecord(e, key, id, token) &&
                (!landed ==> e.secrets == s.secrets)
            && name in e.objects && e.objects[name].spec == s.objects[name].spec
            && e.objects[name].status == Standing(id, s.objects[name].status.tokenRef, Set(CredentialMissing),
                                                  s.objects[name].generation)
  {
    var labels := [Begin(name)] + seq(Calls(s.objects[name].spec) - 2, _ => Answer(name.kind, Accepted, id, token));
    var failed, saved := Answer(name.kind, Failed(code, landed), "", ""), Answer(name.kind, Accepted, "", "");
    RegistersFirst(s, name, key, id, token);
    FailsToStore(Exec(s, labels), name, key, failed, saved, id, token);
    ExecSnoc(s, labels, failed);
    ExecSnoc(s, labels + [failed], saved);
    assert labels + [failed] + [saved] == FailingPass(s, name, id, token, code, landed);
  }

  lemma RegistersFirst(s: State, name: Name, key: Key, id: string, token: string)
    requires Registrable(s, name, key) && key !in s.records
    ensures var ok := Answer(name.kind, Accepted, id, token);
            var e := Exec(s, [Begin(name)] + seq(Calls(s.objects[name].spec) - 2, _ => ok));
            && e.Pc(name.kind) == Storing(name, s.objects[name], key, NO_LOGIN, id, token)
            && e.objects == s.objects && e.secrets == s.secrets && HasRecord(e, key, id, token)
  {
    var ok := Answer(name.kind, Accepted, id, token);
    var n := if s.objects[name].spec.AppSpec? then 1 else 0;
    var begun := Apply(s, Begin(name));
    BegunThenLooking(s, name, key, ok);
    CreatesNext(Settle(begun, ok, n), name, key, ok);
    SettleAdds(begun, ok, n, 2);
    OneStep(s, Begin(name));
    SettleIsARun(s, [Begin(name)], ok, n + 2);
  }

  lemma CreatesNext(s: State, name: Name, key: Key, ok: Label)
    requires ok.Answer? && ok.kind == name.kind && ok.reply.Accepted? && name in s.objects && key !in s.records
    requires var o := s.objects[name];
             o.spec.Minting() && WellFormed(o.spec) && s.Pc(name.kind) == Looking(name, o, key, NO_LOGIN)
    ensures var e := Settle(s, ok, 2);
            && e.Pc(name.kind) == Storing(name, s.objects[name], key, NO_LOGIN, ok.id, ok.token)
            && e.objects == s.objects && e.secrets == s.secrets && HasRecord(e, key, ok.id, ok.token)
  {
    var creating := Apply(s, ok);
    assert creating == s.Move(name.kind, Creating(name, s.objects[name], key, NO_LOGIN));
    assert Apply(creating, ok) == Create(creating, name.kind, Accepted, ok.id, ok.token);
    assert Settle(s, ok, 1) == Apply(Settle(s, ok, 0), ok);
    assert Settle(s, ok, 2) == Apply(Settle(s, ok, 1), ok);
  }

  lemma FailsToStore(s: State, name: Name, key: Key, failed: Label, saved: Label, id: string, token: string)
    requires name in s.objects && s.Pc(name.kind) == Storing(name, s.objects[name], key, NO_LOGIN, id, token)
    requires failed.Answer? && failed.kind == name.kind && failed.reply.Failed?
    requires saved.Answer? && saved.kind == name.kind && saved.reply.Accepted?
    ensures var e := Apply(Apply(s, failed), saved);
            && e.Pc(name.kind) == Idle(Again(Done)) && e.records == s.records
            && (!failed.reply.landed ==> e.secrets == s.secrets)
            && name in e.objects && e.objects[name].spec == s.objects[name].spec
            && e.objects[name].status == Standing(id, s.objects[name].status.tokenRef, Set(CredentialMissing),
                                                  s.objects[name].generation)
  {
    var e := Apply(s, failed);
    assert e == WriteSecret(s, name.kind, failed.reply);
    assert e.Pc(name.kind).Saving? && e.Writable(name, e.Pc(name.kind).obj.version);
    assert Apply(e, saved) == SaveStatus(e, name.kind, Accepted);
  }

  /** What does recover a lost credential is the removal of the platform's record: the next pass then
      registers anew and stores the new token. By LostStaysLost nothing short of that does, other than
      a Secret put there by hand. */
  lemma RemovalRecovers(s: State, name: Name, key: Key, id: string, token: string)
    requires Registrable(s, name, key) && s.objects[name].spec.tokenSecret !in s.secrets
    ensures Recovered(Exec(s, [Forget(key)] + RegisteringPass(s, name, id, token)), name, key)
  {
    var removed := Apply(s, Forget(key));
    assert Registrable(removed, name, key);
    RegistrationAgreesIff(removed, name, key, id, token);
    OneStep(s, Forget(key));
    ExecConcat(s, [Forget(key)], RegisteringPass(s, name, id, token));
  }

  lemma TwoSteps(s: State, a: Label, b: Label)
    ensures Exec(s, [a, b]) == Apply(Apply(s, a), b)
  {
    ExecSnoc(s, [], a);
    ExecSnoc(s, [a], b);
    assert [] + [a] == [a] && [a] + [b] == [a, b];
  }

  // ---- How a credential gets lost, and stays lost ----

  const RUNNER := Name(Runner, "r")
  const SPEC := RunnerSpec("r", map[], [], "s")
  const KEY := RunnerKey("r")
  const PLAN: Plan := map[RUNNER := RunnerAnchor("r", "s")]

  function Declaration(version: nat): Object { Object(version, 1, false, SPEC, Standing("", "", Unset, 0)) }

  /** One runner is declared, nothing else has happened. */
  function Clean(): State {
    State(map[RUNNER := Declaration(1)], map[], map[], map[], 1, Log([], 0, {}))
  }

  const OK := Answer(Runner, Accepted, "id", "minted")

  function Registered(pc: Pc): State {
    Clean().(records := map[KEY := Record("id", RunnerBody(map[], []), "minted")],
             workers := map[Runner := pc], log := Log([Minted(KEY, "id", "minted")], 1, {Runner}))
  }

  lemma Next(labels: seq<Label>, l: Label, from: State, to: State)
    requires Exec(Clean(), labels) == from && Apply(from, l) == to
    ensures Exec(Clean(), labels + [l]) == to
  {
    ExecSnoc(Clean(), labels, l);
  }

  lemma Registers()
    ensures Exec(Clean(), [Begin(RUNNER), OK, OK]) ==
            Registered(Storing(RUNNER, Declaration(1), KEY, NO_LOGIN, "id", "minted"))
  {
    var looking := Clean().(workers := map[Runner := Looking(RUNNER, Declaration(1), KEY, NO_LOGIN)],
        log := Log([], 0, {Runner}));
    var creating := looking.(workers := map[Runner := Creating(RUNNER, Declaration(1), KEY, NO_LOGIN)]);
    Next([], Begin(RUNNER), Clean(), looking);
    Next([Begin(RUNNER)], OK, looking, creating);
    assert Apply(creating, OK) == Create(creating, Runner, Accepted, "id", "minted");
    Next([Begin(RUNNER), OK], OK, creating, Registered(Storing(RUNNER, Declaration(1), KEY, NO_LOGIN, "id", "minted")));
    assert [] + [Begin(RUNNER)] == [Begin(RUNNER)] && [Begin(RUNNER)] + [OK] == [Begin(RUNNER), OK];
    assert [Begin(RUNNER), OK] + [OK] == [Begin(RUNNER), OK, OK];
  }

  const LOSING := [Begin(RUNNER), OK, OK, Crash(Runner)]

  /** A crash between the registration and the write of its Secret loses the credential, in a run
      that is admissible from a clean world. */
  lemma ACrashLosesTheCredential()
    ensures Run(PLAN, Clean(), LOSING) && Lost(PLAN, Exec(Clean(), LOSING), RUNNER, KEY)
    ensures Exec(Clean(), LOSING) == Registered(Idle(Nothing))
  {
    Registers();
    Next([Begin(RUNNER), OK, OK], Crash(Runner),
        Registered(Storing(RUNNER, Declaration(1), KEY, NO_LOGIN, "id", "minted")),
         Registered(Idle(Nothing)));
    assert [Begin(RUNNER), OK, OK] + [Crash(Runner)] == LOSING;
    CleanIsAdmissible(LOSING);
  }

  lemma CleanIsAdmissible(labels: seq<Label>)
    requires forall l :: l in labels ==> l.Begin? || l.Answer? || l.Crash?
    ensures Run(PLAN, Clean(), labels)
  {
  }

  const RECOVERING := [MarkDeleted(RUNNER), Remove(RUNNER), Declare(RUNNER, SPEC), Begin(RUNNER), OK, OK, OK]

  /** The documented recovery, tried: the declaration is deleted, declared again and reconciled. It
      reports CredentialMissing, and there is still no Secret. */
  lemma RedeclaringDoesNotRecover()
    ensures var e := Exec(Exec(Clean(), LOSING), RECOVERING);
            && RUNNER in e.objects && e.objects[RUNNER].status.verdict == Set(CredentialMissing)
            && e.objects[RUNNER].status.tokenRef == "" && "s" !in e.secrets && e.Pc(Runner) == Idle(Again(Done))
            && KEY in e.records && e.records[KEY].token == "minted"
  {
    ACrashLosesTheCredential();
    var lost := Registered(Idle(Nothing));
    ExecConcat(lost, RECOVERING[..3], RECOVERING[3..]);
    assert RECOVERING[..3] + RECOVERING[3..] == RECOVERING;
    Redeclares(lost);
    ChecksAndReports(Exec(lost, RECOVERING[..3]));
  }

  function Redeclared(): State { Registered(Idle(Nothing)).(objects := map[RUNNER := Declaration(3)], clock := 3) }

  lemma Redeclares(lost: State)
    requires lost == Registered(Idle(Nothing))
    ensures Exec(lost, RECOVERING[..3]) == Redeclared()
  {
    var deleted := Apply(lost, MarkDeleted(RUNNER));
    var removed := Apply(deleted, Remove(RUNNER));
    assert removed.objects == map[] && removed.clock == 2;
    assert Apply(removed, Declare(RUNNER, SPEC)) == Redeclared();
    assert RECOVERING[..3] == [MarkDeleted(RUNNER), Remove(RUNNER), Declare(RUNNER, SPEC)];
    TwoSteps(lost, MarkDeleted(RUNNER), Remove(RUNNER));
    ExecSnoc(lost, [MarkDeleted(RUNNER), Remove(RUNNER)], Declare(RUNNER, SPEC));
    assert [MarkDeleted(RUNNER), Remove(RUNNER)] + [Declare(RUNNER, SPEC)] == RECOVERING[..3];
  }

  lemma ChecksAndReports(s: State)
    requires s == Redeclared()
    ensures var e := Exec(s, RECOVERING[3..]);
            && RUNNER in e.objects && e.objects[RUNNER].status.verdict == Set(CredentialMissing)
            && e.objects[RUNNER].status.tokenRef == "" && e.secrets == map[] && e.Pc(Runner) == Idle(Again(Done))
            && e.records == s.records
  {
    assert RECOVERING[3..] == [Begin(RUNNER), OK, OK, OK];
    var begun := Apply(s, Begin(RUNNER));
    var checking := Apply(begun, OK);
    assert checking.Pc(Runner) == Checking(RUNNER, WithId(Declaration(3), "id"), KEY, NO_LOGIN, s.records[KEY]);
    var saving := Apply(checking, OK);
    assert saving.Pc(Runner).Saving? && saving.Pc(Runner).obj.status.verdict == Set(CredentialMissing);
    assert Apply(saving, OK) == SaveStatus(saving, Runner, Accepted);
    FourSteps(s, Begin(RUNNER), OK);
  }

  lemma FourSteps(s: State, a: Label, b: Label)
    ensures Exec(s, [a, b, b, b]) == Apply(Apply(Apply(Apply(s, a), b), b), b)
  {
    TwoSteps(s, a, b);
    ExecSnoc(s, [a, b], b);
    ExecSnoc(s, [a, b, b], b);
    assert [a, b] + [b] == [a, b, b] && [a, b, b] + [b] == [a, b, b, b];
  }

  /** Storing succeeds either way, so what it leaves is the minted token exactly when no Secret was
      there before or the one that was held the token already. */
  lemma StoredIff(s: State, kind: Kind, anchor: Anchor, body: Body)
    requires s.Pc(kind).Storing? && s.Pc(kind).obj.spec.Minting() && anchor == AnchorOf(s.Pc(kind).obj.spec)
    ensures var Storing(name, obj, key, login, id, token) := s.Pc(kind);
            var e := WriteSecret(s, kind, Accepted);
            && e.Pc(kind).Saving? && e.Pc(kind).obj.status.verdict == Set(Reconciled)
            && obj.spec.tokenSecret in e.secrets
            && (Holds(e.secrets[obj.spec.tokenSecret], Record(id, body, token), anchor) <==>
                obj.spec.tokenSecret in s.secrets ==>
                  Holds(s.secrets[obj.spec.tokenSecret], Record(id, body, token), anchor))
  {
  }

  /** A Secret somebody else created under the declared name before the first pass. */
  function ForeignWorld(): State {
    Clean().(secrets := map["s" := map["token" := "foreign"]])
  }

  /** Then the one registration's token is lost and the declaration is Ready all the same. */
  lemma ForeignSecretDefeatsAgreement() returns (labels: seq<Label>)
    ensures var e := Exec(ForeignWorld(), labels);
            && RUNNER in e.objects && e.objects[RUNNER].status.verdict == Set(Reconciled)
            && RunnerKey("r") in e.records && e.records[RunnerKey("r")].token == "minted"
            && "s" in e.secrets && Entry(e.secrets["s"], "token") == "foreign"
  {
    var ok := Answer(Runner, Accepted, "id", "minted");
    labels := [Begin(RUNNER)];
    var s0 := ForeignWorld();
    assert labels[..0] == [];
    assert Exec(s0, labels) == Apply(s0, Begin(RUNNER));
    var s1 := Apply(s0, Begin(RUNNER));
    assert s1.Pc(Runner) == Looking(RUNNER, Declaration(1), RunnerKey("r"), NO_LOGIN);
    ExecSnoc(s0, labels, ok);
    labels := labels + [ok];
    var s2 := Apply(s1, ok);
    assert s2.Pc(Runner) == Creating(RUNNER, Declaration(1), RunnerKey("r"), NO_LOGIN);
    ExecSnoc(s0, labels, ok);
    labels := labels + [ok];
    var s3 := Apply(s2, ok);
    assert s3.Pc(Runner) == Storing(RUNNER, Declaration(1), RunnerKey("r"), NO_LOGIN, "id", "minted");
    ExecSnoc(s0, labels, ok);
    labels := labels + [ok];
    var s4 := Apply(s3, ok);
    assert s4.Pc(Runner).Saving? && s4.secrets == s0.secrets;
    ExecSnoc(s0, labels, ok);
    labels := labels + [ok];
  }
}
