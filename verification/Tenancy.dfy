/** Images and apps are only ever created inside an organization that exists. */
module Tenancy {
  import opened Status
  import opened Paging
  import opened Provisioning

  /** Some organization on the platform has this id. */
  ghost predicate Hosted(s: State, id: string) {
    exists key :: key in s.records && key.OrganizationKey? && s.records[key].id == id
  }

  predicate Inside(key: Key) { key.ImageKey? || key.AppKey? }

  /** An id an Organization's status carries is a real one. */
  ghost predicate Known(s: State, name: Name, obj: Object) {
    name.kind.Organization? && obj.status.platformId != "" ==> Hosted(s, obj.status.platformId)
  }

  ghost predicate Placed(s: State, kind: Kind, pc: Pc) {
    pc.Idle? ||
    (pc.name.kind == kind && pc.obj.spec.Kind() == kind && Known(s, pc.name, pc.obj) &&
     match pc
     case Resolving(_, _) => !kind.Organization?
     case ReadingCredentials(_, _, organization) => !kind.Organization? && Hosted(s, organization)
     case Looking(_, _, key, _) => Keyed(s, kind, key)
     case Checking(_, _, key, _, _) => !kind.Organization? && Keyed(s, kind, key)
     case Updating(_, _, key, _, id, _) => Keyed(s, kind, key) && (kind.Organization? ==> Hosted(s, id))
     case Creating(_, _, key, _) => Keyed(s, kind, key) && (kind.Organization? ==> key !in s.records)
     case Storing(_, _, key, _, _, _) => !kind.Organization? && Keyed(s, kind, key)
     case _ => true)
  }

  ghost predicate Keyed(s: State, kind: Kind, key: Key) {
    (kind.Organization? <==> key.OrganizationKey?) && (Inside(key) ==> Hosted(s, key.organization))
  }

  ghost predicate Inv(s: State) {
    && (forall name :: name in s.objects ==>
          s.objects[name].spec.Kind() == name.kind && Known(s, name, s.objects[name]))
    && (forall kind :: Placed(s, kind, s.Pc(kind)))
    && (forall i :: 0 <= i < |s.log.created| && Inside(s.log.created[i].key) ==>
          Hosted(s, s.log.created[i].key.organization))
  }

  /** No organization is removed from the platform by hand. */
  predicate Gentle(l: Label) { l.Forget? ==> !l.key.OrganizationKey? }

  // ---- Organizations stay ----

  ghost predicate KeepsHosts(s: State, e: State) { forall id :: Hosted(s, id) ==> Hosted(e, id) }

  lemma StepKeepsHosts(s: State, l: Label)
    requires Gentle(l) && Placed(s, Organization, s.Pc(Organization)) && (l.Answer? ==> Placed(s, l.kind, s.Pc(l.kind)))
    ensures KeepsHosts(s, Apply(s, l))
  {
    forall id | Hosted(s, id) ensures Hosted(Apply(s, l), id) {
      var key :| key in s.records && key.OrganizationKey? && s.records[key].id == id;
      if l.Answer? { AnswerKeepsHost(s, l, key); }
      assert key in Apply(s, l).records && Apply(s, l).records[key].id == id;
    }
  }

  lemma AnswerKeepsHost(s: State, l: Label, key: Key)
    requires l.Answer? && Placed(s, l.kind, s.Pc(l.kind)) && key in s.records && key.OrganizationKey?
    ensures key in Apply(s, l).records && Apply(s, l).records[key].id == s.records[key].id
  {
    match s.Pc(l.kind) {
      case Creating(_, _, _, _) => assert Apply(s, l) == Create(s, l.kind, l.reply, l.id, l.token);
      case Updating(_, _, _, _, _, _) => assert Apply(s, l) == Update(s, l.kind, l.reply);
      case _ =>
    }
  }

  lemma PlacedStays(s: State, e: State, kind: Kind)
    requires Placed(s, kind, s.Pc(kind)) && e.Pc(kind) == s.Pc(kind) && KeepsHosts(s, e)
    requires kind.Organization? ==> forall key: Key :: key.OrganizationKey? && key in e.records ==> key in s.records
    ensures Placed(e, kind, e.Pc(kind))
  {
  }

  // ---- Steps ----

  lemma ResolveStep(s: State, l: Label)
    requires Inv(s) && l.Answer? && s.Pc(l.kind).Resolving?
    ensures var e := Apply(s, l); e == s.Move(l.kind, e.Pc(l.kind)) && Placed(s, l.kind, e.Pc(l.kind))
  {
    assert Placed(s, l.kind, s.Pc(l.kind));
    var organization := Name(Organization, Reference(s.Pc(l.kind).obj.spec));
    assert organization in s.objects ==> Known(s, organization, s.objects[organization]);
  }

  lemma LookStep(s: State, l: Label)
    requires l.Answer? && Placed(s, l.kind, s.Pc(l.kind)) && s.Pc(l.kind).Looking?
    ensures var e := Apply(s, l); e == s.Move(l.kind, e.Pc(l.kind)) && Placed(s, l.kind, e.Pc(l.kind))
  {
    var key := s.Pc(l.kind).key;
    assert key in s.records && key.OrganizationKey? ==> Hosted(s, s.records[key].id);
  }

  lemma CheckStep(s: State, l: Label)
    requires l.Answer? && Placed(s, l.kind, s.Pc(l.kind)) &&
             (s.Pc(l.kind).Checking? || s.Pc(l.kind).ReadingCredentials?)
    ensures var e := Apply(s, l); e == s.Move(l.kind, e.Pc(l.kind)) && Placed(s, l.kind, e.Pc(l.kind))
  {
  }

  lemma CreateStep(s: State, l: Label)
    requires Inv(s) && l.Answer? && s.Pc(l.kind).Creating?
    ensures var e := Apply(s, l);
            && Placed(e, l.kind, e.Pc(l.kind)) && e.objects == s.objects
            && (forall i :: 0 <= i < |e.log.created| && Inside(e.log.created[i].key) ==>
                  Hosted(e, e.log.created[i].key.organization))
            && (l.kind != Organization ==> forall key: Key :: key.OrganizationKey? && key in e.records ==>
                  key in s.records)
  {
    assert Placed(s, l.kind, s.Pc(l.kind));
    var e := Apply(s, l);
    assert e == Create(s, l.kind, l.reply, l.id, l.token);
    StepKeepsHosts(s, l) by { assert Placed(s, Organization, s.Pc(Organization)); }
    var key := s.Pc(l.kind).key;
    if key in e.records && key.OrganizationKey? { assert Hosted(e, e.records[key].id); }
  }

  lemma UpdateStep(s: State, l: Label)
    requires Inv(s) && l.Answer? && s.Pc(l.kind).Updating?
    ensures var e := Apply(s, l);
            && Placed(e, l.kind, e.Pc(l.kind)) && e.objects == s.objects && e.log.created == s.log.created
            && e.records.Keys == s.records.Keys
  {
    assert Placed(s, l.kind, s.Pc(l.kind));
    assert Apply(s, l) == Update(s, l.kind, l.reply);
    StepKeepsHosts(s, l) by { assert Placed(s, Organization, s.Pc(Organization)); }
  }

  lemma StoreStep(s: State, l: Label)
    requires l.Answer? && Placed(s, l.kind, s.Pc(l.kind)) && s.Pc(l.kind).Storing?
    ensures var e := Apply(s, l);
            && Placed(e, l.kind, e.Pc(l.kind)) && e.objects == s.objects && e.log == s.log && e.records == s.records
  {
    assert Apply(s, l) == WriteSecret(s, l.kind, l.reply);
  }

  lemma SaveStep(s: State, l: Label)
    requires l.Answer? && Placed(s, l.kind, s.Pc(l.kind)) && s.Pc(l.kind).Saving?
    requires forall name :: name in s.objects ==>
             s.objects[name].spec.Kind() == name.kind && Known(s, name, s.objects[name])
    ensures var e := Apply(s, l);
            && e.Pc(l.kind).Idle? && e.log == s.log && e.records == s.records
            && (forall name :: name in e.objects ==>
                  e.objects[name].spec.Kind() == name.kind && Known(e, name, e.objects[name]))
  {
    assert Apply(s, l) == SaveStatus(s, l.kind, l.reply);
  }

  /** What an answer's own part of the state has to satisfy. */
  ghost predicate Tidy(s: State, e: State, kind: Kind) {
    && KeepsHosts(s, e) && Placed(e, kind, e.Pc(kind))
    && (forall name :: name in e.objects ==>
          e.objects[name].spec.Kind() == name.kind && Known(e, name, e.objects[name]))
    && (forall i :: 0 <= i < |e.log.created| && Inside(e.log.created[i].key) ==>
          Hosted(e, e.log.created[i].key.organization))
    && (kind != Organization ==> forall key: Key :: key.OrganizationKey? && key in e.records ==> key in s.records)
  }

  lemma AnswerIsTidy(s: State, l: Label)
    requires Inv(s) && l.Answer?
    ensures Tidy(s, Apply(s, l), l.kind)
  {
    assert Placed(s, Organization, s.Pc(Organization)) && Placed(s, l.kind, s.Pc(l.kind));
    StepKeepsHosts(s, l);
    match s.Pc(l.kind) {
      case Idle(_) =>
      case Resolving(_, _) => ResolveStep(s, l);
      case Looking(_, _, _, _) => LookStep(s, l);
      case Creating(_, _, _, _) => CreateStep(s, l);
      case Updating(_, _, _, _, _, _) => UpdateStep(s, l);
      case Storing(_, _, _, _, _, _) => StoreStep(s, l);
      case Saving(_, _, _, _) => SaveStep(s, l);
      case _ => CheckStep(s, l);
    }
  }

  lemma AnswerKeepsInv(s: State, l: Label)
    requires Inv(s) && l.Answer?
    ensures Inv(Apply(s, l))
  {
    var e := Apply(s, l);
    AnswerIsTidy(s, l);
    AnswerMovesItsWorker(s, l);
    forall kind ensures Placed(e, kind, e.Pc(kind)) {
      if kind != l.kind {
        assert Placed(s, kind, s.Pc(kind));
        PlacedStays(s, e, kind);
      }
    }
  }

  lemma BeginKeepsInv(s: State, name: Name)
    requires Inv(s)
    ensures Inv(Apply(s, Begin(name)))
  {
    var e := Apply(s, Begin(name));
    forall kind ensures Placed(e, kind, e.Pc(kind)) {
      assert Placed(s, kind, s.Pc(kind));
      if e.Pc(kind) == s.Pc(kind) { PlacedStays(s, e, kind); }
    }
    forall n | n in e.objects ensures Known(e, n, e.objects[n]) { assert Known(s, n, s.objects[n]); }
  }

  lemma ObjectsStayKnown(s: State, l: Label, name: Name)
    requires Inv(s) && Gentle(l) && !l.Answer? && KeepsHosts(s, Apply(s, l)) && name in Apply(s, l).objects
    ensures Apply(s, l).objects[name].spec.Kind() == name.kind && Known(Apply(s, l), name, Apply(s, l).objects[name])
  {
    if name in s.objects { assert Known(s, name, s.objects[name]); }
  }

  lemma OtherKeepsInv(s: State, l: Label)
    requires Inv(s) && Gentle(l) && !l.Answer? && !l.Begin?
    ensures Inv(Apply(s, l))
  {
    var e := Apply(s, l);
    assert Placed(s, Organization, s.Pc(Organization));
    StepKeepsHosts(s, l);
    forall kind ensures Placed(e, kind, e.Pc(kind)) {
      assert Placed(s, kind, s.Pc(kind));
      if e.Pc(kind) == s.Pc(kind) { PlacedStays(s, e, kind); }
    }
    forall name | name in e.objects
        ensures e.objects[name].spec.Kind() == name.kind && Known(e, name, e.objects[name]) {
      ObjectsStayKnown(s, l, name);
    }
  }

  ghost predicate Init(s: State) {
    s.objects == map[] && (forall kind :: s.Pc(kind).Idle?) && s.log.created == []
  }

  lemma {:induction false} Reachable(s: State, labels: seq<Label>)
    requires Init(s) && forall l :: l in labels ==> Gentle(l)
    ensures Inv(Exec(s, labels))
  {
    if labels != [] {
      var before, l := labels[..|labels| - 1], labels[|labels| - 1];
      Reachable(s, before);
      if l.Answer? {
        AnswerKeepsInv(Exec(s, before), l);
      } else if l.Begin? {
        BeginKeepsInv(Exec(s, before), l.name);
      } else {
        OtherKeepsInv(Exec(s, before), l);
      }
    }
  }

  /** Over every run in which no organization is removed by hand, with every fault, edit and crash: each
      image and app the controller ever created is inside an organization that exists. */
  lemma CreatedInsideAnOrganization(s: State, labels: seq<Label>, i: nat)
    requires Init(s) && forall l :: l in labels ==> Gentle(l)
    requires i < |Exec(s, labels).log.created| && Inside(Exec(s, labels).log.created[i].key)
    ensures Hosted(Exec(s, labels), Exec(s, labels).log.created[i].key.organization)
  {
    Reachable(s, labels);
  }
}
