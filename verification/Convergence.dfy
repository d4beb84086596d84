/** Nothing is sequenced and the declaration is authoritative: while no call fails, every run in which
    each declaration gets a pass, and each dependent one after its organization's, ends in the same
    place and stays there, however the calls of the workers interleave. */
module Convergence {
  import opened Status
  import opened Paging
  import opened Provisioning
  import opened Declarations
  import opened FaultFree
  import CredentialGuarantees
  import Credentials
  import Reporting

  // ---- How far a declaration has come ----

  /** Its record is at its target, its Secret holds a token, its status says so, and the running pass
      will not say otherwise. */
  predicate Settled(s0: State, s: State, name: Name) {
    && name in s.objects && WellFormed(s.objects[name].spec) && Finished(s0, s, name, s.objects[name].status)
    && !(At(s, name) && Pends(s.Pc(name.kind)))
  }

  /** A pass is under way that will settle it. */
  predicate Bound(s: State, name: Name) {
    At(s, name) && name in s.objects && Unblocked(s, s.objects[name].spec) && !Pends(s.Pc(name.kind))
  }

  predicate OnItsWay(s0: State, s: State, name: Name) { Bound(s, name) || Settled(s0, s, name) }

  lemma OwnRead(s0: State, s: State, l: Label)
    requires Due(s0, s, l) && Reads(s.Pc(l.kind))
    requires s.Pc(l.kind).Checking? && s.Pc(l.kind).obj.spec.RunnerSpec? ==> s.Pc(l.kind).found.body.RunnerBody?
    ensures Bound(s, s.Pc(l.kind).name) ==> Bound(Apply(s, l), s.Pc(l.kind).name)
    ensures Settled(s0, s, s.Pc(l.kind).name) ==> Settled(s0, Apply(s, l), s.Pc(l.kind).name)
  {
    ReadAdvances(s0, s, l);
  }

  lemma OwnCreate(s0: State, s: State, l: Label)
    requires Due(s0, s, l) && s.Pc(l.kind).Creating?
    ensures Bound(s, s.Pc(l.kind).name) ==> Bound(Apply(s, l), s.Pc(l.kind).name)
    ensures !Settled(s0, s, s.Pc(l.kind).name)
  {
    CreateComes(s0, s, l);
  }

  lemma OwnUpdate(s0: State, s: State, l: Label)
    requires Due(s0, s, l) && s.Pc(l.kind).Updating?
    requires var spec := s.objects[s.Pc(l.kind).name].spec; Matches(spec, LoginOf(s, spec), Target(s0, spec))
    ensures Bound(s, s.Pc(l.kind).name) ==> Bound(Apply(s, l), s.Pc(l.kind).name)
    ensures !Settled(s0, s, s.Pc(l.kind).name)
  {
    UpdateComes(s0, s, l);
  }

  lemma OwnStore(s0: State, s: State, l: Label)
    requires Due(s0, s, l) && s.Pc(l.kind).Storing?
    ensures Bound(s, s.Pc(l.kind).name) ==> Bound(Apply(s, l), s.Pc(l.kind).name)
    ensures Settled(s0, s, s.Pc(l.kind).name) ==>
            Settled(s0, Apply(s, l), s.Pc(l.kind).name) && Apply(s, l).secrets == s.secrets
  {
    StoreWrites(s, l);
    StoreComes(s0, s, l);
  }

  lemma OwnSave(s0: State, s: State, l: Label)
    requires Due(s0, s, l) && s.Pc(l.kind).Saving?
    ensures OnItsWay(s0, s, s.Pc(l.kind).name) ==> Settled(s0, Apply(s, l), s.Pc(l.kind).name)
    ensures Settled(s0, s, s.Pc(l.kind).name) ==>
              Apply(s, l).objects[s.Pc(l.kind).name].status == s.objects[s.Pc(l.kind).name].status
  {
    SaveComes(s0, s, l);
  }

  lemma OwnGoesOn(s0: State, s: State, l: Label)
    requires Sound(s0, s) && Due(s0, s, l)
    ensures OnItsWay(s0, s, s.Pc(l.kind).name) ==> OnItsWay(s0, Apply(s, l), s.Pc(l.kind).name)
    ensures Settled(s0, s, s.Pc(l.kind).name) ==> Settled(s0, Apply(s, l), s.Pc(l.kind).name)
  {
    match s.Pc(l.kind) {
      case Updating(name, _, _, _, _, _) =>
        TargetMatches(s0, name);
        LoginStays(s0, s, name);
        OwnUpdate(s0, s, l);
      case Creating(_, _, _, _) => OwnCreate(s0, s, l);
      case Storing(_, _, _, _, _, _) => OwnStore(s0, s, l);
      case Saving(_, _, _, _) => OwnSave(s0, s, l);
      case Checking(_, _, key, _, _) =>
        assert Reporting.Typed(key, s.records[key].body);
        OwnRead(s0, s, l);
      case _ => OwnRead(s0, s, l);
    }
  }

  /** Another worker's step, and a pass begun, leave the declaration where it is. */
  lemma OtherStays(s0: State, s: State, e: State, name: Name)
    requires Alike(s, e, name) && (At(e, name) ==> At(s, name) || !e.Pc(name.kind).Saving?)
    requires At(s, name) ==> e.Pc(name.kind) == s.Pc(name.kind)
    requires At(e, name) && At(s, name) ==> e.Pc(name.kind) == s.Pc(name.kind)
    ensures Bound(s, name) ==> Bound(e, name)
    ensures Settled(s0, s, name) ==> Settled(s0, e, name)
  {
  }

  /** Every step without faults keeps the invariant, and lets no declaration slip back. */
  lemma AnswerAdvances(s0: State, s: State, l: Label)
    requires Sound(s0, s) && Smooth(s, l) && l.Answer? && !s.Pc(l.kind).Idle?
    ensures Advances(s0, s, Apply(s, l), l.kind, l.id)
    ensures Apply(s, l).Pc(l.kind).Idle? || Apply(s, l).Pc(l.kind).name == s.Pc(l.kind).name
  {
    AnswerMovesItsWorker(s, l);
    if Reads(s.Pc(l.kind)) {
      ReadKeepsSound(s0, s, l);
    } else if s.Pc(l.kind).Storing? {
      StoreKeepsSound(s0, s, l);
    } else if s.Pc(l.kind).Saving? {
      SaveKeepsSound(s0, s, l);
    } else {
      WriteKeepsSound(s0, s, l);
    }
  }

  lemma OtherGoesOn(s0: State, s: State, e: State, n: Name, id: string, name: Name)
    requires World(s) && n in s.objects && name in s.objects && n != name && At(s, n) &&
             (e.Pc(n.kind).Idle? || At(e, n))
    requires New(s, id) && Grown(s, e, n, id) && Declarable(e, n)
    ensures Bound(s, name) ==> Bound(e, name)
    ensures Settled(s0, s, name) ==> Settled(s0, e, name)
  {
    OtherAlike(s, e, n, id, name);
    OtherStays(s0, s, e, name);
  }

  lemma AnswerGoesOn(s0: State, s: State, l: Label, name: Name)
    requires Sound(s0, s) && Smooth(s, l) && l.Answer? && !s.Pc(l.kind).Idle? && name in s.objects
    ensures Sound(s0, Apply(s, l))
    ensures OnItsWay(s0, s, name) ==> OnItsWay(s0, Apply(s, l), name)
    ensures Settled(s0, s, name) ==> Settled(s0, Apply(s, l), name)
    ensures Unblocked(s, s.objects[name].spec) ==> Unblocked(Apply(s, l), s.objects[name].spec)
  {
    var n, e := s.Pc(l.kind).name, Apply(s, l);
    AnswerAdvances(s0, s, l);
    assert Declarable(e, n);
    if Unblocked(s, s.objects[name].spec) { OrganizedStays(s, e, n, l.id, s.objects[name].spec); }
    if n == name {
      SmoothIsDue(s0, s, l);
      OwnGoesOn(s0, s, l);
    } else {
      OtherGoesOn(s0, s, e, n, l.id, name);
    }
  }

  lemma BeginGoesOn(s0: State, s: State, n: Name, name: Name)
    requires name in s.objects && (n in s.objects ==> Local(s0, s, n))
    ensures OnItsWay(s0, s, name) ==> OnItsWay(s0, Apply(s, Begin(n)), name)
    ensures Settled(s0, s, name) ==> Settled(s0, Apply(s, Begin(n)), name)
    ensures Unblocked(s, s.objects[name].spec) ==> Unblocked(Apply(s, Begin(n)), s.objects[name].spec)
    ensures s.Pc(n.kind).Idle? && n == name && Unblocked(s, s.objects[name].spec) ==> Bound(Apply(s, Begin(n)), name)
  {
    if s.Pc(n.kind).Idle? && n in s.objects {
      BeginTracks(s0, s, n);
      OtherStays(s0, s, Apply(s, Begin(n)), name);
    }
  }

  /** Nothing is lost on the way from `s` to `e`. */
  predicate Onward(s0: State, s: State, e: State, name: Name, spec: Spec) {
    && (OnItsWay(s0, s, name) ==> OnItsWay(s0, e, name))
    && (Settled(s0, s, name) ==> Settled(s0, e, name))
    && (Unblocked(s, spec) ==> Unblocked(e, spec))
  }

  lemma OnwardTrans(s0: State, a: State, b: State, c: State, name: Name, spec: Spec)
    requires Onward(s0, a, b, name, spec) && Onward(s0, b, c, name, spec)
    ensures Onward(s0, a, c, name, spec)
  {
  }

  lemma StepGoesOn(s0: State, s: State, l: Label, name: Name)
    requires Sound(s0, s) && Smooth(s, l) && name in s.objects
    ensures Onward(s0, s, Apply(s, l), name, s.objects[name].spec)
    ensures l == Begin(name) && s.Pc(name.kind).Idle? && Unblocked(s, s.objects[name].spec) ==> Bound(Apply(s, l), name)
  {
    if l.Begin? {
      if l.name in s.objects { SoundIsLocal(s0, s, l.name); }
      BeginGoesOn(s0, s, l.name, name);
    } else if !s.Pc(l.kind).Idle? {
      AnswerGoesOn(s0, s, l, name);
    }
  }

  // ---- Runs ----

  lemma TownIsSound(s0: State)
    requires Town(s0)
    ensures Sound(s0, s0)
  {
    forall name | name in s0.objects ensures WellFormed(s0.objects[name].spec) { assert Declarable(s0, name); }
  }

  lemma {:induction false} RunIsSound(s0: State, labels: seq<Label>, i: nat)
    requires Town(s0) && Undisturbed(s0, labels) && i <= |labels|
    ensures Sound(s0, Before(s0, labels, i))
  {
    if i == 0 {
      TownIsSound(s0);
    } else {
      RunIsSound(s0, labels, i - 1);
      BeforeNext(s0, labels, i - 1);
      var s, l := Before(s0, labels, i - 1), labels[i - 1];
      if l.Begin? { BeginKeepsSound(s0, s, l.name); } else if !s.Pc(l.kind).Idle? { AnswerAdvances(s0, s, l); }
    }
  }

  /** What has been reached is not lost, and once unblocked is unblocked for good. */
  lemma RunGoesOn(s0: State, labels: seq<Label>, i: nat, j: nat, name: Name)
    requires Town(s0) && Undisturbed(s0, labels) && i <= j <= |labels| && name in s0.objects
    ensures Onward(s0, Before(s0, labels, i), Before(s0, labels, j), name, s0.objects[name].spec)
  {
    forall k | i <= k < j ensures Onward(s0, Before(s0, labels, k), Before(s0, labels, k + 1), name,
        s0.objects[name].spec) {
      NextGoesOn(s0, labels, k, name);
    }
    OnwardStretch(s0, labels, i, j, name, s0.objects[name].spec);
  }

  lemma {:induction false} OnwardStretch(s0: State, labels: seq<Label>, i: nat, j: nat, name: Name, spec: Spec)
    requires i <= j <= |labels|
    requires forall k :: i <= k < j ==> Onward(s0, Before(s0, labels, k), Before(s0, labels, k + 1), name, spec)
    ensures Onward(s0, Before(s0, labels, i), Before(s0, labels, j), name, spec)
    decreases j
  {
    if i < j {
      OnwardStretch(s0, labels, i, j - 1, name, spec);
      assert Onward(s0, Before(s0, labels, j - 1), Before(s0, labels, j - 1 + 1), name, spec);
      OnwardTrans(s0, Before(s0, labels, i), Before(s0, labels, j - 1), Before(s0, labels, j), name, spec);
    }
  }

  predicate Launches(s: State, l: Label, name: Name, spec: Spec) {
    l == Begin(name) && s.Pc(name.kind).Idle? && Unblocked(s, spec)
  }

  lemma NextGoesOn(s0: State, labels: seq<Label>, i: nat, name: Name)
    requires Town(s0) && Undisturbed(s0, labels) && i < |labels| && name in s0.objects
    ensures Onward(s0, Before(s0, labels, i), Before(s0, labels, i + 1), name, s0.objects[name].spec)
    ensures Launches(Before(s0, labels, i), labels[i], name, s0.objects[name].spec) ==>
            Bound(Before(s0, labels, i + 1), name)
  {
    RunIsSound(s0, labels, i);
    BeforeNext(s0, labels, i);
    StepGoesOn(s0, Before(s0, labels, i), labels[i], name);
  }

  /** A pass over a declaration begins at `i` and is over at `j`. */
  predicate Passed(s0: State, labels: seq<Label>, i: int, j: int, name: Name) {
    && 0 <= i < j <= |labels| && labels[i] == Begin(name)
    && Before(s0, labels, i).Pc(name.kind).Idle? && Before(s0, labels, j).Pc(name.kind).Idle?
  }

  /** A dependent declaration's organization had a pass first. */
  ghost predicate Introduced(s0: State, labels: seq<Label>, i: int, spec: Spec) {
    Dependent(spec) ==> exists i0, j0 :: j0 <= i && Passed(s0, labels, i0, j0, Name(Organization, Reference(spec)))
  }

  /** Every declaration gets a pass, a dependent one after its organization's. */
  ghost predicate Covers(s0: State, labels: seq<Label>) {
    forall name :: name in s0.objects ==>
      exists i, j :: Passed(s0, labels, i, j, name) && Introduced(s0, labels, i, s0.objects[name].spec)
  }

  lemma PassSettles(s0: State, labels: seq<Label>, i: nat, j: nat, name: Name)
    requires Town(s0) && Undisturbed(s0, labels) && name in s0.objects && Passed(s0, labels, i, j, name)
    requires Unblocked(Before(s0, labels, i), s0.objects[name].spec)
    ensures Settled(s0, Before(s0, labels, j), name)
  {
    NextGoesOn(s0, labels, i, name);
    RunGoesOn(s0, labels, i + 1, j, name);
  }

  /** A settled organization has an id. */
  lemma SettledHasId(s0: State, s: State, organization: Name)
    requires Sound(s0, s) && Settled(s0, s, organization) && organization.kind.Organization?
    ensures s.objects[organization].status.platformId != ""
  {
    assert Declarable(s, organization);
  }

  lemma IntroducedIsUnblocked(s0: State, labels: seq<Label>, i: nat, name: Name)
    requires Town(s0) && Undisturbed(s0, labels) && i <= |labels| && name in s0.objects
    requires Introduced(s0, labels, i, s0.objects[name].spec)
    ensures Unblocked(Before(s0, labels, i), s0.objects[name].spec)
  {
    var spec := s0.objects[name].spec;
    if Dependent(spec) {
      var organization := Name(Organization, Reference(spec));
      assert Declarable(s0, name) && Declarable(s0, organization);
      var i0, j0 :| j0 <= i && Passed(s0, labels, i0, j0, organization);
      PassSettles(s0, labels, i0, j0, organization);
      RunGoesOn(s0, labels, j0, i, organization);
      RunIsSound(s0, labels, i);
      SettledHasId(s0, Before(s0, labels, i), organization);
    }
  }

  /** Every run without faults that covers the declarations settles all of them. */
  lemma RunSettles(s0: State, labels: seq<Label>, name: Name)
    requires Town(s0) && Undisturbed(s0, labels) && Covers(s0, labels) && name in s0.objects
    ensures Settled(s0, Before(s0, labels, |labels|), name)
  {
    var i, j :| Passed(s0, labels, i, j, name) && Introduced(s0, labels, i, s0.objects[name].spec);
    IntroducedIsUnblocked(s0, labels, i, name);
    PassSettles(s0, labels, i, j, name);
    RunGoesOn(s0, labels, j, |labels|, name);
  }

  // ---- Where every run ends ----

  /** A declaration is Ready for its present generation, its record is there with the recorded id and
      agrees with it on every compared field, and a minting one has a Secret with some token. */
  predicate InForce(s: State, name: Name) {
    && name in s.objects && WellFormed(s.objects[name].spec)
    && var o := s.objects[name]; var home := Home(s, o.spec);
       && o.status.verdict == Set(Reconciled) && o.status.observed == o.generation
       && home.Some? && home.value in s.records && s.records[home.value].id == o.status.platformId
       && Matches(o.spec, LoginOf(s, o.spec), s.records[home.value].body)
       && HasToken(s, o.spec) && (o.spec.Minting() ==> o.status.tokenRef == o.spec.tokenSecret)
  }

  lemma SettledIsInForce(s0: State, s: State, name: Name)
    requires Sound(s0, s) && Settled(s0, s, name)
    ensures InForce(s, name) && s.records[Home(s, s.objects[name].spec).value].body == Target(s0, s.objects[name].spec)
  {
    assert Declarable(s0, name);
    TargetMatches(s0, name);
    LoginStays(s0, s, name);
    KeyIsHome(s, name);
  }

  // ---- Whose token the Secrets hold ----

  function PlanOf(s: State): Credentials.Plan {
    map name | name in s.objects :: Credentials.AnchorOf(s.objects[name].spec)
  }

  /** A minting declaration's Secret holds the token of its own record. */
  predicate OwnToken(s: State, name: Name) {
    name in s.objects && var spec := s.objects[name].spec; var home := Home(s, spec);
    spec.Minting() ==>
      && home.Some? && home.value in s.records && spec.tokenSecret in s.secrets
      && Credentials.Holds(s.secrets[spec.tokenSecret], s.records[home.value], Credentials.AnchorOf(spec))
  }

  ghost predicate SecretsDiffer(s: State) {
    forall a, b :: a in s.objects && b in s.objects && a != b ==>
      s.objects[a].spec.Minting() && s.objects[b].spec.Minting() ==>
        s.objects[a].spec.tokenSecret != s.objects[b].spec.tokenSecret
  }

  /** No two declarations share a token Secret, and those that exist are not foreign. */
  ghost predicate Unspoilt(s: State) {
    && SecretsDiffer(s)
    && (forall name ::
          name in s.objects && s.objects[name].spec.Minting() && s.objects[name].spec.tokenSecret in s.secrets ==>
            OwnToken(s, name))
  }

  lemma KeyAsPlanned(s0: State, s: State, name: Name)
    requires World(s0) && Kept(s0, s) && name in s0.objects
    ensures Credentials.PlannedKey(PlanOf(s0), s, name) == Home(s, s0.objects[name].spec)
  {
    var spec := s0.objects[name].spec;
    assert Declarable(s0, name);
    if Dependent(spec) { assert Declarable(s0, Name(Organization, Reference(spec))); }
  }

  lemma AnchorsFollow(spec: Spec)
    ensures var anchor := Credentials.AnchorOf(spec);
            && anchor.Kind() == spec.Kind() && (anchor.Minting() <==> spec.Minting())
            && (spec.Minting() ==> anchor.secret == spec.tokenSecret)
  {
  }

  lemma PlanIsDistinct(s: State)
    requires SecretsDiffer(s) && forall name :: name in s.objects ==> Declarable(s, name)
    ensures Credentials.Disjoint(PlanOf(s))
  {
    forall name | name in s.objects
      ensures var anchor, spec := PlanOf(s)[name], s.objects[name].spec;
              && anchor.Kind() == name.kind && (anchor.Minting() <==> spec.Minting())
              && (spec.Minting() ==> anchor.secret == spec.tokenSecret)
              && (anchor.ImageAnchor? || anchor.AppAnchor? ==> Name(Organization, anchor.organization) in s.objects)
    {
      assert Declarable(s, name);
      AnchorsFollow(s.objects[name].spec);
    }
  }

  lemma ObjectIsAnchored(s: State, name: Name)
    requires name in s.objects && Declarable(s, name)
    ensures Credentials.Anchored(PlanOf(s), s, name, s.objects[name])
  {
    assert name.kind.Organization? ==> name == Name(Organization, name.name);
  }

  lemma SecretIsVouched(s: State, name: Name)
    requires World(s) && name in s.objects && s.objects[name].spec.Minting()
    requires s.objects[name].spec.tokenSecret in s.secrets && OwnToken(s, name)
    ensures Credentials.Vouched(PlanOf(s), s, name)
  {
    KeyAsPlanned(s, s, name);
  }

  lemma TownIsPlanned(s0: State)
    requires Town(s0) && Unspoilt(s0)
    ensures Credentials.Init(PlanOf(s0), s0)
  {
    PlanIsDistinct(s0);
    forall name | name in s0.objects ensures Credentials.Anchored(PlanOf(s0), s0, name, s0.objects[name]) {
      assert Declarable(s0, name);
      ObjectIsAnchored(s0, name);
    }
    SecretsAreVouched(s0);
  }

  lemma SecretsAreVouched(s: State)
    requires World(s) && Unspoilt(s)
    ensures Credentials.Agreement(PlanOf(s), s)
  {
    var plan := PlanOf(s);
    forall name | name in plan && plan[name].Minting() && plan[name].secret in s.secrets
      ensures Credentials.Vouched(plan, s, name)
    {
      assert OwnToken(s, name);
      SecretIsVouched(s, name);
    }
  }

  /** Over a run without faults from there, a token Secret that exists is its declaration's own. */
  lemma TokensAreOwn(s0: State, labels: seq<Label>, name: Name)
    requires Town(s0) && Unspoilt(s0) && Undisturbed(s0, labels) && name in s0.objects
    requires Kept(s0, Exec(s0, labels)) && InForce(Exec(s0, labels), name)
    ensures OwnToken(Exec(s0, labels), name)
  {
    var spec, e := s0.objects[name].spec, Exec(s0, labels);
    if spec.Minting() {
      TownIsPlanned(s0);
      forall l | l in labels ensures Credentials.Admissible(PlanOf(s0), l) {
        var i :| 0 <= i < |labels| && labels[i] == l;
        assert Smooth(Exec(s0, labels[..i]), labels[i]);
      }
      CredentialGuarantees.SecretsHoldTheirTokens(PlanOf(s0), s0, labels, name);
      KeyAsPlanned(s0, e, name);
    }
  }

  /** From any declared world, whatever the interleaving: at the end of a covering run without faults
      every declaration is in force; and if no Secret was foreign or shared, each one holds the token of
      its own record. */
  lemma EveryScheduleConverges(s0: State, labels: seq<Label>)
    requires Town(s0) && Undisturbed(s0, labels) && Covers(s0, labels)
    ensures forall name :: name in s0.objects ==> InForce(Exec(s0, labels), name)
    ensures Unspoilt(s0) ==> forall name :: name in s0.objects ==> OwnToken(Exec(s0, labels), name)
  {
    assert labels[..|labels|] == labels;
    RunIsSound(s0, labels, |labels|);
    forall name | name in s0.objects ensures InForce(Exec(s0, labels), name) {
      RunSettles(s0, labels, name);
      SettledIsInForce(s0, Exec(s0, labels), name);
    }
    if Unspoilt(s0) {
      forall name | name in s0.objects ensures OwnToken(Exec(s0, labels), name) { TokensAreOwn(s0, labels, name); }
    }
  }

  /** Two worlds with the same declarations hold the same, up to the ids and tokens the platform chose
      for records that are new since `s0`. */
  ghost predicate SameEnd(s0: State, a: State, b: State) {
    && a.objects.Keys == b.objects.Keys
    && (forall name :: name in a.objects ==> SameRecord(s0, a, b, name))
    && (forall key :: key in s0.records ==> SameIdentity(a, b, key))
    && (forall key :: key in a.records ==> IsHome(a, key) || (key in b.records && b.records[key] == a.records[key]))
    && (forall key :: key in b.records ==> IsHome(b, key) || (key in a.records && a.records[key] == b.records[key]))
  }

  predicate SameIdentity(a: State, b: State, key: Key) {
    && key in a.records && key in b.records
    && a.records[key].id == b.records[key].id && a.records[key].token == b.records[key].token
  }

  predicate SameRecord(s0: State, a: State, b: State, name: Name) {
    && name in a.objects && name in b.objects && a.objects[name].spec == b.objects[name].spec
    && var spec := a.objects[name].spec; var x, y := Home(a, spec), Home(b, spec);
       && a.objects[name].status.verdict == b.objects[name].status.verdict
       && x.Some? && y.Some? && x.value in a.records && y.value in b.records
       && a.records[x.value].body == b.records[y.value].body
       && (Home(s0, spec).Some? || x.value in s0.records || y.value in s0.records ==> x == y)
  }

  /** A home that was known or occupied at the start stays where it is. */
  lemma OldHomeStays(s0: State, s: State, name: Name)
    requires Sound(s0, s) && name in s0.objects
    ensures var spec := s0.objects[name].spec; var home := Home(s, spec);
            Home(s0, spec).Some? || (home.Some? && home.value in s.records && home.value in s0.records) ==>
              home == Home(s0, spec)
  {
    var spec := s0.objects[name].spec;
    assert Midway(s0, s, s.objects[name].spec);
    if Home(s0, spec).Some? { HomeStays(s0, s, spec); }
  }

  lemma RecordsAgree(s0: State, a: State, b: State, name: Name)
    requires Sound(s0, a) && Sound(s0, b) && name in s0.objects && Settled(s0, a, name) && Settled(s0, b, name)
    ensures SameRecord(s0, a, b, name)
  {
    SettledIsInForce(s0, a, name);
    SettledIsInForce(s0, b, name);
    OldHomeStays(s0, a, name);
    OldHomeStays(s0, b, name);
  }

  /** A record that was there from the start is a home in every run, or in none. */
  lemma OldHomesAgree(s0: State, a: State, b: State, key: Key)
    requires Sound(s0, a) && Sound(s0, b) && key in s0.records && IsHome(b, key)
    ensures IsHome(a, key)
  {
    var name :| name in b.objects && Home(b, b.objects[name].spec) == Some(key);
    assert Midway(s0, b, b.objects[name].spec);
    HomeStays(s0, a, s0.objects[name].spec);
    assert Home(a, a.objects[name].spec) == Some(key);
  }

  lemma RestAgrees(s0: State, a: State, b: State, key: Key)
    requires Sound(s0, a) && Sound(s0, b) && key in a.records && !IsHome(a, key)
    ensures key in b.records && b.records[key] == a.records[key]
  {
    assert Untouched(s0, a, key) && key in s0.records && key in b.records;
    if !Untouched(s0, b, key) { OldHomesAgree(s0, a, b, key); }
  }

  /** Confluence: any two covering runs without faults end the same. */
  lemma EveryScheduleAgrees(s0: State, labels: seq<Label>, others: seq<Label>)
    requires Town(s0) && Undisturbed(s0, labels) && Covers(s0, labels) && Undisturbed(s0, others) && Covers(s0, others)
    ensures SameEnd(s0, Exec(s0, labels), Exec(s0, others))
  {
    assert labels[..|labels|] == labels && others[..|others|] == others;
    var a, b := Exec(s0, labels), Exec(s0, others);
    RunIsSound(s0, labels, |labels|);
    RunIsSound(s0, others, |others|);
    forall name | name in s0.objects ensures Settled(s0, a, name) && Settled(s0, b, name) {
      RunSettles(s0, labels, name);
      RunSettles(s0, others, name);
    }
    EndsAgree(s0, a, b);
  }

  lemma RestsAgree(s0: State, a: State, b: State)
    requires Sound(s0, a) && Sound(s0, b)
    ensures forall key :: key in a.records ==> IsHome(a, key) || (key in b.records && b.records[key] == a.records[key])
  {
    forall key | key in a.records && !IsHome(a, key) ensures key in b.records && b.records[key] == a.records[key] {
      RestAgrees(s0, a, b, key);
    }
  }

  lemma IdentitiesAgree(s0: State, a: State, b: State)
    requires Kept(s0, a) && Kept(s0, b)
    ensures a.objects.Keys == b.objects.Keys == s0.objects.Keys
    ensures forall key :: key in s0.records ==> SameIdentity(a, b, key)
  {
  }

  lemma EndsAgree(s0: State, a: State, b: State)
    requires Sound(s0, a) && Sound(s0, b)
    requires forall name :: name in s0.objects ==> Settled(s0, a, name) && Settled(s0, b, name)
    ensures SameEnd(s0, a, b)
  {
    IdentitiesAgree(s0, a, b);
    RestsAgree(s0, a, b);
    RestsAgree(s0, b, a);
    forall name | name in s0.objects ensures SameRecord(s0, a, b, name) { RecordsAgree(s0, a, b, name); }
  }

  /** Nothing is written to the platform or the Secrets, and no status changes. */
  ghost predicate Quiet(s: State, e: State) {
    && e.records == s.records && e.secrets == s.secrets && e.log.writes == s.log.writes
    && e.objects.Keys == s.objects.Keys
    && forall name :: name in s.objects ==> e.objects[name].status == s.objects[name].status
  }

  lemma SaveIsQuiet(s0: State, s: State, l: Label)
    requires Due(s0, s, l) && s.Pc(l.kind).Saving? && Settled(s0, s, s.Pc(l.kind).name)
    ensures Quiet(s, Apply(s, l))
  {
    SaveComes(s0, s, l);
  }

  lemma StoreIsQuiet(s0: State, s: State, l: Label)
    requires Due(s0, s, l) && s.Pc(l.kind).Storing? && Settled(s0, s, s.Pc(l.kind).name)
    ensures Quiet(s, Apply(s, l))
  {
    StoreWrites(s, l);
  }

  lemma StepIsQuiet(s0: State, s: State, l: Label)
    requires Due(s0, s, l) && Settled(s0, s, s.Pc(l.kind).name)
    requires s.Pc(l.kind).Updating? ==>
               var spec := s.objects[s.Pc(l.kind).name].spec; Matches(spec, LoginOf(s, spec), Target(s0, spec))
    requires s.Pc(l.kind).Checking? && s.Pc(l.kind).obj.spec.RunnerSpec? ==> s.Pc(l.kind).found.body.RunnerBody?
    ensures Quiet(s, Apply(s, l))
  {
    match s.Pc(l.kind) {
      case Updating(_, _, _, _, _, _) => OwnUpdate(s0, s, l);
      case Creating(_, _, _, _) => OwnCreate(s0, s, l);
      case Storing(_, _, _, _, _, _) => StoreIsQuiet(s0, s, l);
      case Saving(_, _, _, _) => SaveIsQuiet(s0, s, l);
      case _ => ReadAdvances(s0, s, l);
    }
  }

  lemma SettledIsQuiet(s0: State, s: State, l: Label)
    requires Sound(s0, s) && Smooth(s, l) && l.Answer? && !s.Pc(l.kind).Idle? && Settled(s0, s, s.Pc(l.kind).name)
    ensures Quiet(s, Apply(s, l))
  {
    var name := s.Pc(l.kind).name;
    SmoothIsDue(s0, s, l);
    TargetMatches(s0, name);
    LoginStays(s0, s, name);
    if s.Pc(l.kind).Checking? { assert Reporting.Typed(s.Pc(l.kind).key, s.records[s.Pc(l.kind).key].body); }
    StepIsQuiet(s0, s, l);
  }

  lemma AllSettledIsQuiet(s0: State, s: State, l: Label)
    requires Sound(s0, s) && Smooth(s, l) && forall name :: name in s0.objects ==> Settled(s0, s, name)
    ensures Quiet(s, Apply(s, l))
  {
    if l.Answer? && !s.Pc(l.kind).Idle? {
      assert Track(s0, s, l.kind);
      SettledIsQuiet(s0, s, l);
    }
  }

  lemma PrefixUndisturbed(s0: State, labels: seq<Label>, k: nat)
    requires Undisturbed(s0, labels) && k <= |labels|
    ensures Undisturbed(s0, labels[..k])
  {
    forall i | 0 <= i < k ensures Smooth(Exec(s0, labels[..k][..i]), labels[..k][i]) {
      assert labels[..k][..i] == labels[..i];
    }
  }

  lemma StillSettled(s0: State, labels: seq<Label>, k: nat, j: nat, name: Name)
    requires Town(s0) && Undisturbed(s0, labels) && k <= j <= |labels| && Covers(s0, labels[..k]) && name in s0.objects
    ensures Settled(s0, Before(s0, labels, j), name)
  {
    PrefixUndisturbed(s0, labels, k);
    assert labels[..k][..k] == labels[..k];
    RunSettles(s0, labels[..k], name);
    RunGoesOn(s0, labels, k, j, name);
  }

  lemma NextIsQuiet(s0: State, labels: seq<Label>, k: nat, j: nat)
    requires Town(s0) && Undisturbed(s0, labels) && k <= j < |labels| && Covers(s0, labels[..k])
    ensures Quiet(Before(s0, labels, j), Before(s0, labels, j + 1))
  {
    RunIsSound(s0, labels, j);
    BeforeNext(s0, labels, j);
    forall name | name in s0.objects ensures Settled(s0, Before(s0, labels, j), name) {
      StillSettled(s0, labels, k, j, name);
    }
    AllSettledIsQuiet(s0, Before(s0, labels, j), labels[j]);
  }

  lemma {:induction false} QuietStretch(s0: State, labels: seq<Label>, k: nat, j: nat)
    requires k <= j <= |labels| && forall i :: k <= i < j ==> Quiet(Before(s0, labels, i), Before(s0, labels, i + 1))
    ensures Quiet(Before(s0, labels, k), Before(s0, labels, j))
    decreases j
  {
    if k < j {
      QuietStretch(s0, labels, k, j - 1);
      assert Quiet(Before(s0, labels, j - 1), Before(s0, labels, j - 1 + 1));
      QuietTrans(Before(s0, labels, k), Before(s0, labels, j - 1), Before(s0, labels, j));
    }
  }

  /** Fixpoint: once the declarations have been covered, whatever follows without faults issues no
      platform write, touches no Secret and changes no status. */
  lemma NothingIsLeftToDo(s0: State, labels: seq<Label>, k: nat, j: nat)
    requires Town(s0) && Undisturbed(s0, labels) && k <= j <= |labels| && Covers(s0, labels[..k])
    ensures Quiet(Before(s0, labels, k), Before(s0, labels, j))
  {
    forall i | k <= i < j ensures Quiet(Before(s0, labels, i), Before(s0, labels, i + 1)) {
      NextIsQuiet(s0, labels, k, i);
    }
    QuietStretch(s0, labels, k, j);
  }

  lemma QuietTrans(a: State, b: State, c: State)
    requires Quiet(a, b) && Quiet(b, c)
    ensures Quiet(a, c)
  {
  }

  // ---- There are such runs ----

  lemma {:induction false} BoundedLengths(texts: set<string>) returns (n: nat)
    ensures forall text :: text in texts ==> |text| <= n
    decreases |texts|
  {
    if texts == {} {
      n := 0;
    } else {
      var text :| text in texts;
      var m := BoundedLengths(texts - {text});
      n := if |text| <= m then m else |text|;
    }
  }

  /** The platform can always hand out a new id. */
  lemma NewIdExists(s: State) returns (id: string)
    ensures New(s, id)
  {
    var ids := set key | key in s.records :: s.records[key].id;
    var owners := set key | key in s.records && (key.ImageKey? || key.AppKey?) :: key.organization;
    var n := BoundedLengths(ids + owners);
    id := seq(n + 1, _ => 'x');
    forall key | key in s.records ensures s.records[key].id != id && !Under(key, id) {
      assert s.records[key].id in ids;
      if key.ImageKey? || key.AppKey? { assert key.organization in owners; }
    }
  }

  lemma Undisturb(s0: State, labels: seq<Label>, l: Label)
    requires Undisturbed(s0, labels) && Smooth(Exec(s0, labels), l)
    ensures Undisturbed(s0, labels + [l]) && Exec(s0, labels + [l]) == Apply(Exec(s0, labels), l)
  {
    ExecSnoc(s0, labels, l);
    forall i | 0 <= i < |labels| + 1 ensures Smooth(Exec(s0, (labels + [l])[..i]), (labels + [l])[i]) {
      assert (labels + [l])[..i] == labels[..i];
      assert labels[..|labels|] == labels;
    }
  }

  predicate AtRest(s: State) { forall kind :: s.Pc(kind).Idle? }

  predicate OthersAtRest(s: State, kind: Kind) { forall other :: other != kind ==> s.Pc(other).Idle? }

  lemma BeginAlone(s: State, name: Name)
    requires AtRest(s)
    ensures OthersAtRest(Apply(s, Begin(name)), name.kind)
  {
    forall other | other != name.kind ensures Apply(s, Begin(name)).Pc(other).Idle? { assert s.Pc(other).Idle?; }
  }

  lemma CallAlone(s: State, l: Label)
    requires l.Answer? && OthersAtRest(s, l.kind) && !s.Pc(l.kind).Idle?
    ensures OthersAtRest(Apply(s, l), l.kind) && Remaining(Apply(s, l).Pc(l.kind)) < Remaining(s.Pc(l.kind))
  {
    PassesAreShort(s, l);
    AnswerMovesItsWorker(s, l);
  }

  lemma NextCall(s0: State, labels: seq<Label>, kind: Kind) returns (l: Label)
    requires Undisturbed(s0, labels) && OthersAtRest(Exec(s0, labels), kind) && !Exec(s0, labels).Pc(kind).Idle?
    ensures Undisturbed(s0, labels + [l]) && OthersAtRest(Exec(s0, labels + [l]), kind)
    ensures Remaining(Exec(s0, labels + [l]).Pc(kind)) < Remaining(Exec(s0, labels).Pc(kind))
  {
    var id := NewIdExists(Exec(s0, labels));
    l := Answer(kind, Accepted, id, "token");
    Undisturb(s0, labels, l);
    CallAlone(Exec(s0, labels), l);
  }

  /** A pass that has begun can be brought to its end. */
  lemma {:induction false} PassCanEnd(s0: State, labels: seq<Label>, kind: Kind) returns (all: seq<Label>)
    requires Undisturbed(s0, labels) && OthersAtRest(Exec(s0, labels), kind)
    ensures labels <= all && Undisturbed(s0, all) && AtRest(Exec(s0, all))
    decreases Remaining(Exec(s0, labels).Pc(kind))
  {
    if Exec(s0, labels).Pc(kind).Idle? {
      all := labels;
    } else {
      var l := NextCall(s0, labels, kind);
      all := PassCanEnd(s0, labels + [l], kind);
    }
  }

  /** And a pass over a declaration can be appended to any run that is at rest. */
  lemma PassCanFollow(s0: State, labels: seq<Label>, name: Name) returns (all: seq<Label>)
    requires Undisturbed(s0, labels) && AtRest(Exec(s0, labels))
    ensures labels < all && Undisturbed(s0, all) && AtRest(Exec(s0, all)) && Passed(s0, all, |labels|, |all|, name)
  {
    var l := Begin(name);
    Undisturb(s0, labels, l);
    BeginAlone(Exec(s0, labels), name);
    all := PassCanEnd(s0, labels + [l], name.kind);
    assert all[..|labels|] == labels && all[..|all|] == all && all[|labels|] == (labels + [l])[|labels|];
  }

  lemma PassedStays(s0: State, labels: seq<Label>, all: seq<Label>, i: int, j: int, name: Name)
    requires labels <= all && Passed(s0, labels, i, j, name)
    ensures Passed(s0, all, i, j, name)
  {
    assert all[..i] == labels[..i] && all[..j] == labels[..j];
  }

  ghost predicate PassedFrom(s0: State, labels: seq<Label>, start: int, name: Name) {
    exists i, j :: start <= i && Passed(s0, labels, i, j, name)
  }

  lemma PassedFromStays(s0: State, labels: seq<Label>, all: seq<Label>, start: int, name: Name)
    requires labels <= all && PassedFrom(s0, labels, start, name)
    ensures PassedFrom(s0, all, start, name)
  {
    var i, j :| start <= i && Passed(s0, labels, i, j, name);
    PassedStays(s0, labels, all, i, j, name);
  }

  lemma {:induction false} PassesCanFollow(s0: State, labels: seq<Label>, names: set<Name>) returns (all: seq<Label>)
    requires Undisturbed(s0, labels) && AtRest(Exec(s0, labels))
    ensures labels <= all && Undisturbed(s0, all) && AtRest(Exec(s0, all))
    ensures forall name :: name in names ==> PassedFrom(s0, all, |labels|, name)
    decreases |names|
  {
    if names == {} {
      all := labels;
    } else {
      var name :| name in names;
      var before := PassesCanFollow(s0, labels, names - {name});
      all := PassCanFollow(s0, before, name);
      forall n | n in names - {name} ensures PassedFrom(s0, all, |labels|, n) {
        PassedFromStays(s0, before, all, |labels|, n);
      }
    }
  }

  /** From every declared world some run without faults covers the declarations: first a pass over each
      organization, then one over everything. */
  lemma EveryTownCanConverge(s0: State) returns (labels: seq<Label>)
    requires Town(s0)
    ensures Undisturbed(s0, labels) && Covers(s0, labels)
    ensures forall name :: name in s0.objects ==> InForce(Exec(s0, labels), name)
    ensures Unspoilt(s0) ==> forall name :: name in s0.objects ==> OwnToken(Exec(s0, labels), name)
  {
    var organizations := set name | name in s0.objects && name.kind.Organization?;
    var first := PassesCanFollow(s0, [], organizations);
    labels := PassesCanFollow(s0, first, s0.objects.Keys);
    forall name | name in s0.objects
      ensures exists i, j :: Passed(s0, labels, i, j, name) && Introduced(s0, labels, i, s0.objects[name].spec)
    {
      var i, j :| |first| <= i && Passed(s0, labels, i, j, name);
      if Dependent(s0.objects[name].spec) {
        var organization := Name(Organization, Reference(s0.objects[name].spec));
        assert Declarable(s0, name) && organization in organizations;
        var i0, j0 :| 0 <= i0 && Passed(s0, first, i0, j0, organization);
        PassedStays(s0, first, labels, i0, j0, organization);
      }
    }
    EveryScheduleConverges(s0, labels);
  }
}
