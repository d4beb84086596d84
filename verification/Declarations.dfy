/** A declared world, where each declaration's record lives in it, and how that record has to end. */
module Declarations {
  import opened Status
  import opened Paging
  import opened Provisioning
  import Reporting

  // ---- A declared world ----

  /** What a declaration names, by the declared organization rather than its id. */
  function Place(spec: Spec): Key {
    match spec
    case OrganizationSpec(slug, _) => OrganizationKey(slug)
    case ImageSpec(organization, name, _, _, _, _, _, _) => ImageKey(organization, name)
    case AppSpec(organization, slug, _, _, _, _) => AppKey(organization, slug)
    case RunnerSpec(name, _, _, _) => RunnerKey(name)
  }

  /** The record of the organization a dependent names. */
  function Host(s: State, spec: Spec): Key {
    var organization := Name(Organization, Reference(spec));
    OrganizationKey(if organization in s.objects && s.objects[organization].spec.OrganizationSpec?
                    then s.objects[organization].spec.slug else "")
  }

  /** The platform key of a declaration, once its organization exists there. */
  function Home(s: State, spec: Spec): Option<Key> {
    match spec
    case OrganizationSpec(slug, _) => Some(OrganizationKey(slug))
    case RunnerSpec(name, _, _, _) => Some(RunnerKey(name))
    case ImageSpec(_, name, _, _, _, _, _, _) =>
      if Host(s, spec) in s.records then Some(ImageKey(s.records[Host(s, spec)].id, name)) else None
    case AppSpec(_, slug, _, _, _, _) =>
      if Host(s, spec) in s.records then Some(AppKey(s.records[Host(s, spec)].id, slug)) else None
  }

  /** Valid, its references declared, and an organization's recorded id is the platform's. */
  predicate Declarable(s: State, name: Name)
    requires name in s.objects
  {
    var o := s.objects[name];
    && !o.deleting && o.spec.Kind() == name.kind && WellFormed(o.spec)
    && (Dependent(o.spec) ==> Name(Organization, Reference(o.spec)) in s.objects)
    && Readable(s, o.spec)
    && (name.kind.Organization? && o.status.platformId != "" ==>
          Place(o.spec) in s.records && s.records[Place(o.spec)].id == o.status.platformId)
  }

  /** Organizations have ids of their own. */
  ghost predicate Identified(s: State) {
    && (forall key: Key :: key.OrganizationKey? && key in s.records ==> s.records[key].id != "")
    && (forall a: Key, b: Key ::
          a.OrganizationKey? && b.OrganizationKey? && a != b && a in s.records && b in s.records ==>
            s.records[a].id != s.records[b].id)
  }

  /** Valid declarations of distinct things, and a platform that is consistent with what their
      statuses already say. It may hold any other records, drifted ones included. */
  ghost predicate World(s: State) {
    && (forall name :: name in s.objects ==> Declarable(s, name))
    && (forall a, b :: a in s.objects && b in s.objects && a != b ==>
          Place(s.objects[a].spec) != Place(s.objects[b].spec))
    && (forall key :: key in s.records ==> Reporting.Typed(key, s.records[key].body))
    && Identified(s)
  }

  /** Later states keep declarations, Secrets, and the identity of records. */
  ghost predicate Kept(s0: State, s: State) {
    && s.objects.Keys == s0.objects.Keys
    && (forall name :: name in s0.objects ==>
          s.objects[name].spec == s0.objects[name].spec && s.objects[name].generation == s0.objects[name].generation)
    && (forall secret :: secret in s0.secrets ==> secret in s.secrets && s.secrets[secret] == s0.secrets[secret])
    && (forall key :: key in s0.records ==>
          key in s.records && s.records[key].id == s0.records[key].id && s.records[key].token == s0.records[key].token)
  }

  lemma KeptTrans(a: State, b: State, c: State)
    requires Kept(a, b) && Kept(b, c)
    ensures Kept(a, c)
  {
  }

  lemma HomeStays(s: State, s': State, spec: Spec)
    requires Kept(s, s') && Home(s, spec).Some?
    ensures Home(s', spec) == Home(s, spec)
  {
  }

  lemma LoginStays(s: State, s': State, name: Name)
    requires Kept(s, s') && name in s.objects && Declarable(s, name)
    ensures LoginOf(s', s.objects[name].spec) == LoginOf(s, s.objects[name].spec)
  {
  }

  /** Different declarations have different homes. */
  lemma HomesDiffer(s: State, a: Name, b: Name)
    requires World(s) && a in s.objects && b in s.objects && a != b
    requires Home(s, s.objects[a].spec).Some?
    ensures Home(s, s.objects[a].spec) != Home(s, s.objects[b].spec)
  {
    var x, y := s.objects[a].spec, s.objects[b].spec;
    assert Declarable(s, a) && Declarable(s, b);
    assert Place(x) != Place(y);
    if Dependent(x) && Dependent(y) && Reference(x) != Reference(y) {
      var p, q := Name(Organization, Reference(x)), Name(Organization, Reference(y));
      assert Declarable(s, p) && Declarable(s, q) && Place(s.objects[p].spec) != Place(s.objects[q].spec);
      assert Host(s, x) != Host(s, y);
    }
  }

  /** A declaration that is not blocked is looked up at its home. */
  lemma KeyIsHome(s: State, name: Name)
    requires World(s) && name in s.objects && Unblocked(s, s.objects[name].spec)
    ensures Home(s, s.objects[name].spec) == Some(KeyOf(s, s.objects[name].spec))
  {
    var spec := s.objects[name].spec;
    assert Declarable(s, name);
    if Dependent(spec) {
      var organization := Name(Organization, Reference(spec));
      assert Declarable(s, organization);
      assert Host(s, spec) == Place(s.objects[organization].spec);
    }
  }

  // ---- Where a record ends ----

  /** The body a declaration's record ends with: a record that was there keeps what is not compared,
      and is left alone if it agreed; a new one is as declared. */
  function Target(s0: State, spec: Spec): Body
    requires WellFormed(spec)
  {
    var home, login := Home(s0, spec), LoginOf(s0, spec);
    if home.Some? && home.value in s0.records then Reporting.AfterPass(spec, login, s0.records[home.value].body)
    else Declared(spec, login)
  }

  /** The target agrees with the declaration. */
  lemma TargetMatches(s0: State, name: Name)
    requires World(s0) && name in s0.objects
    ensures Declarable(s0, name)
    ensures Matches(s0.objects[name].spec, LoginOf(s0, s0.objects[name].spec), Target(s0, s0.objects[name].spec))
  {
    var spec := s0.objects[name].spec;
    assert Declarable(s0, name);
    var home := Home(s0, spec);
    if home.Some? && home.value in s0.records {
      Reporting.CorrectedMatches(spec, LoginOf(s0, spec), s0.records[home.value].body);
    }
  }

  predicate Untouched(s0: State, s: State, key: Key) {
    key in s0.records && key in s.records && s.records[key] == s0.records[key]
  }

  /** A declaration's record is as at the start, or already at its target; and a home that has
      appeared since was empty at the start. */
  predicate Midway(s0: State, s: State, spec: Spec)
    requires WellFormed(spec)
  {
    var home := Home(s, spec);
    home.Some? && home.value in s.records ==>
      && (s.records[home.value].body == Target(s0, spec) || Untouched(s0, s, home.value))
      && (home.value in s0.records ==> Home(s0, spec) == home)
  }

  /** The body a pass leaves at its key. */
  function BodyAfter(s: State, spec: Spec): Body
    requires WellFormed(spec)
  {
    var key, login := KeyOf(s, spec), LoginOf(s, spec);
    if key in s.records then Reporting.AfterPass(spec, login, s.records[key].body) else Declared(spec, login)
  }

  /** Whatever a pass finds, it leaves the target. */
  lemma TargetIsNext(s0: State, s: State, name: Name)
    requires World(s0) && World(s) && Kept(s0, s) && name in s.objects && Unblocked(s, s.objects[name].spec)
    requires WellFormed(s.objects[name].spec) && Midway(s0, s, s.objects[name].spec)
    ensures BodyAfter(s, s.objects[name].spec) == Target(s0, s.objects[name].spec)
  {
    var spec := s.objects[name].spec;
    KeyIsHome(s, name);
    assert Declarable(s0, name);
    LoginStays(s0, s, name);
    if Home(s0, spec).Some? { HomeStays(s0, s, spec); }
    var key := KeyOf(s, spec);
    if key in s.records && !Untouched(s0, s, key) {
      TargetMatches(s0, name);
    }
  }

  lemma BodyAfterIsTyped(s: State, spec: Spec)
    requires WellFormed(spec)
    requires KeyOf(s, spec) in s.records ==> Reporting.Typed(KeyOf(s, spec), s.records[KeyOf(s, spec)].body)
    ensures Reporting.Typed(KeyOf(s, spec), BodyAfter(s, spec))
  {
    if KeyOf(s, spec) in s.records {
      Reporting.CorrectedMatches(spec, LoginOf(s, spec), s.records[KeyOf(s, spec)].body);
    }
  }
}
