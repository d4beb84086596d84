/** A record is registered at most once: over every run, whatever the declarations, the Secrets and the
    faults are, so long as nobody removes the record by hand. It rests on the serial worker of each kind
    and on the lookup before the create, and on no check by the platform. */
module Registration {
  import opened Status
  import opened Paging
  import opened Provisioning

  /** A declaration is of its name's kind, and so is a worker's copy; its key is of its kind; about to
      create, it has found the key free, and only minted tokens are stored. */
  ghost predicate Inv(s: State) {
    && (forall name :: name in s.objects ==> s.objects[name].spec.Kind() == name.kind)
    && forall kind :: InPlace(s, kind, s.Pc(kind))
  }

  predicate InPlace(s: State, kind: Kind, pc: Pc) {
    pc.Idle? ||
    (pc.name.kind == kind && pc.obj.spec.Kind() == kind &&
     match pc
     case Looking(_, _, key, _) => key.Of(kind)
     case Checking(_, _, key, _, _) => key.Of(kind)
     case Updating(_, _, key, _, _, _) => key.Of(kind)
     case Creating(_, _, key, _) => key.Of(kind) && key !in s.records
     case Storing(_, obj, key, _, _, _) => key.Of(kind) && obj.spec.Minting()
     case _ => true)
  }

  // ---- Every step ----

  lemma CallStaysInPlace(s: State, l: Label)
    requires l.Answer? && InPlace(s, l.kind, s.Pc(l.kind)) && !Writing(s.Pc(l.kind))
    ensures InPlace(Apply(s, l), l.kind, Apply(s, l).Pc(l.kind))
  {
  }

  predicate Writing(pc: Pc) { pc.Updating? || pc.Creating? || pc.Storing? || pc.Saving? }

  lemma WriteStaysInPlace(s: State, l: Label)
    requires l.Answer? && InPlace(s, l.kind, s.Pc(l.kind)) && Writing(s.Pc(l.kind))
    ensures InPlace(Apply(s, l), l.kind, Apply(s, l).Pc(l.kind))
  {
    match s.Pc(l.kind) {
      case Updating(_, _, _, _, _, _) => assert Apply(s, l) == Update(s, l.kind, l.reply);
      case Creating(_, _, _, _) => assert Apply(s, l) == Create(s, l.kind, l.reply, l.id, l.token);
      case Storing(_, _, _, _, _, _) => assert Apply(s, l) == WriteSecret(s, l.kind, l.reply);
      case Saving(_, _, _, _) => assert Apply(s, l) == SaveStatus(s, l.kind, l.reply);
    }
  }

  /** An answer adds records only by a create, at the worker's own key; the others keep id and token. */
  lemma AnswerKeepsRecords(s: State, l: Label)
    requires l.Answer? && InPlace(s, l.kind, s.Pc(l.kind))
    ensures forall key :: key in s.records ==> HasRecord(Apply(s, l), key, s.records[key].id, s.records[key].token)
    ensures forall key: Key :: key in Apply(s, l).records && key !in s.records ==>
              s.Pc(l.kind).Creating? && key == s.Pc(l.kind).key && key.Of(l.kind)
    ensures Apply(s, l).log.created == s.log.created ||
            (s.Pc(l.kind).Creating? && s.Pc(l.kind).key !in s.records &&
             Apply(s, l).log.created == s.log.created + [Minted(s.Pc(l.kind).key, l.id, l.token)] &&
             HasRecord(Apply(s, l), s.Pc(l.kind).key, l.id, l.token))
  {
    match s.Pc(l.kind) {
      case Creating(_, _, _, _) => assert Apply(s, l) == Create(s, l.kind, l.reply, l.id, l.token);
      case Updating(_, _, _, _, _, _) => assert Apply(s, l) == Update(s, l.kind, l.reply);
      case Storing(_, _, _, _, _, _) => assert Apply(s, l) == WriteSecret(s, l.kind, l.reply);
      case Saving(_, _, _, _) => assert Apply(s, l) == SaveStatus(s, l.kind, l.reply);
      case _ =>
    }
  }

  lemma OfOneKind(key: Key, a: Kind, b: Kind)
    requires key.Of(a) && key.Of(b)
    ensures a == b
  {
  }

  lemma AnswerKeepsInv(s: State, l: Label)
    requires Inv(s) && l.Answer?
    ensures Inv(Apply(s, l))
  {
    var e := Apply(s, l);
    assert InPlace(s, l.kind, s.Pc(l.kind));
    if Writing(s.Pc(l.kind)) { WriteStaysInPlace(s, l); } else { CallStaysInPlace(s, l); }
    AnswerKeepsRecords(s, l);
    AnswerMovesItsWorker(s, l);
    AnswerSettles(s, l);
    forall kind ensures InPlace(e, kind, e.Pc(kind)) {
      if kind != l.kind {
        assert InPlace(s, kind, s.Pc(kind));
        if s.Pc(kind).Creating? && s.Pc(kind).key in e.records { OfOneKind(s.Pc(kind).key, kind, l.kind); }
      }
    }
  }

  lemma WorldKeepsInv(s: State, l: Label)
    requires Inv(s) && !l.Answer?
    ensures Inv(Apply(s, l))
  {
    forall kind ensures InPlace(Apply(s, l), kind, Apply(s, l).Pc(kind)) { assert InPlace(s, kind, s.Pc(kind)); }
  }

  lemma StepKeepsInv(s: State, l: Label)
    requires Inv(s)
    ensures Inv(Apply(s, l))
  {
    if l.Answer? { AnswerKeepsInv(s, l); } else { WorldKeepsInv(s, l); }
  }

  lemma {:induction false} RunKeepsInv(s: State, labels: seq<Label>)
    requires Inv(s)
    ensures Inv(Exec(s, labels))
  {
    if labels != [] {
      RunKeepsInv(s, labels[..|labels| - 1]);
      StepKeepsInv(Exec(s, labels[..|labels| - 1]), labels[|labels| - 1]);
    }
  }

  // ---- At most once ----

  /** Declarations of the kind of their name, and workers at rest. */
  ghost predicate Quiescent(s: State) {
    (forall name :: name in s.objects ==> s.objects[name].spec.Kind() == name.kind) && forall kind :: s.Pc(kind).Idle?
  }

  /** Whatever was created under a key is there, and was created once. */
  ghost predicate Once(s: State, key: Key) {
    forall i :: 0 <= i < |s.log.created| && s.log.created[i].key == key ==>
      && HasRecord(s, key, s.log.created[i].id, s.log.created[i].token)
      && forall j :: 0 <= j < |s.log.created| && j != i ==> s.log.created[j].key != key
  }

  lemma StepKeepsOnce(s: State, l: Label, key: Key)
    requires Inv(s) && Once(s, key) && l != Forget(key)
    ensures Once(Apply(s, l), key)
  {
    if l.Answer? {
      assert InPlace(s, l.kind, s.Pc(l.kind));
      AnswerKeepsRecords(s, l);
    }
  }

  lemma {:induction false} RunKeepsOnce(s: State, labels: seq<Label>, key: Key)
    requires Inv(s) && Once(s, key) && Forget(key) !in labels
    ensures Once(Exec(s, labels), key)
  {
    if labels != [] {
      var before, l := labels[..|labels| - 1], labels[|labels| - 1];
      RunKeepsOnce(s, before, key);
      RunKeepsInv(s, before);
      StepKeepsOnce(Exec(s, before), l, key);
    }
  }

  /** At most one registration: over every run in which a created record is not removed by hand, it is
      still there with the id and token it was created with, and nothing else was created under its
      key. Shared and foreign Secrets, edits of keys, crashes, lost saves and calls that landed with an
      error are all allowed. */
  lemma CreatedAtMostOnce(s: State, labels: seq<Label>, i: nat)
    requires Quiescent(s) && s.log.created == [] && i < |Exec(s, labels).log.created|
    requires Forget(Exec(s, labels).log.created[i].key) !in labels
    ensures var c := Exec(s, labels).log.created;
            && HasRecord(Exec(s, labels), c[i].key, c[i].id, c[i].token)
            && forall j :: 0 <= j < |c| && j != i ==> c[j].key != c[i].key
  {
    RunKeepsOnce(s, labels, Exec(s, labels).log.created[i].key);
  }

  lemma StepCreatesOnlyNew(s: State, l: Label, key: Key)
    requires Inv(s) && key in s.records && l != Forget(key)
    ensures HasRecord(Apply(s, l), key, s.records[key].id, s.records[key].token)
    ensures s.log.created <= Apply(s, l).log.created
    ensures forall i :: |s.log.created| <= i < |Apply(s, l).log.created| ==> Apply(s, l).log.created[i].key != key
  {
    if l.Answer? {
      assert InPlace(s, l.kind, s.Pc(l.kind));
      AnswerKeepsRecords(s, l);
    }
  }

  /** A record that was there at the start, and is not removed by hand, keeps id and token, and nothing
      is ever created under its key. */
  lemma {:induction false} RunCreatesOnlyNew(s: State, labels: seq<Label>, key: Key)
    requires Quiescent(s) && key in s.records && Forget(key) !in labels
    ensures HasRecord(Exec(s, labels), key, s.records[key].id, s.records[key].token)
    ensures s.log.created <= Exec(s, labels).log.created
    ensures forall i :: |s.log.created| <= i < |Exec(s, labels).log.created| ==>
              Exec(s, labels).log.created[i].key != key
  {
    if labels != [] {
      var before, l := labels[..|labels| - 1], labels[|labels| - 1];
      RunCreatesOnlyNew(s, before, key);
      RunKeepsInv(s, before);
      StepCreatesOnlyNew(Exec(s, before), l, key);
    }
  }
}
