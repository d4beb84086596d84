/** How far the declaration is authoritative: what one pass makes of a record that was changed by hand. */
module Drift {
  import opened Status
  import opened Paging
  import opened Provisioning
  import Reporting
  import Words

  /** A declaration whose worker is at rest and whose record is on the platform. */
  predicate Takeable(s: State, name: Name) {
    && s.Pc(name.kind).Idle? && name in s.objects && !s.objects[name].deleting
    && var spec := s.objects[name].spec;
       && spec.Kind() == name.kind && WellFormed(spec) && Unblocked(s, spec) && KeyOf(s, spec) in s.records
       && Words.Comparable(spec, s.records[KeyOf(s, spec)].body)
  }

  /** The guards a pass has to get past before it compares anything: the credentials Secret of an image
      is there, and so is the token of an app. */
  predicate Compares(s: State, spec: Spec) {
    Readable(s, spec) && (spec.AppSpec? ==> HasToken(s, spec))
  }

  /** The body a pass leaves at its key. */
  function Outcome(s: State, spec: Spec): Body
    requires WellFormed(spec) && KeyOf(s, spec) in s.records
  {
    var body := s.records[KeyOf(s, spec)].body;
    if Compares(s, spec) then Reporting.AfterPass(spec, LoginOf(s, spec), body) else body
  }

  /** A pass in which every call is accepted. */
  function Pass(name: Name, id: string, token: string): seq<Label> {
    [Begin(name)] + seq(6, _ => Answer(name.kind, Accepted, id, token))
  }

  /** What the pass has left untouched so far. */
  predicate Since(s0: State, s: State, name: Name, key: Key) {
    && name in s0.objects && name in s.objects && s.objects[name].spec == s0.objects[name].spec
    && key in s0.records && key in s.records && s.secrets == s0.secrets
    && s.records == s0.records[key := s0.records[key].(body := s.records[key].body)]
  }

  /** Where the worker is, and that its pass is heading for `target`. */
  predicate Heads(s0: State, s: State, name: Name, target: Body)
    requires Takeable(s0, name)
  {
    var spec := s0.objects[name].spec;
    var key, login := KeyOf(s0, spec), LoginOf(s0, spec);
    && Since(s0, s, name, key)
    && match s.Pc(name.kind)
       case Idle(_) => s.records[key].body == target
       case Saving(_, _, _, _) => s.records[key].body == target
       case Resolving(n, obj) =>
           s == s0.Move(name.kind, s.Pc(name.kind)).(log := s.log) && obj == s0.objects[name] && Dependent(spec)
       case ReadingCredentials(n, obj, organization) =>
         && s.records == s0.records && obj == s0.objects[name] && spec.ImageSpec? && spec.credentials.Some?
         && organization == Organized(s0, spec)
       case Looking(n, obj, k, l) =>
         && s.records == s0.records && obj == s0.objects[name] && k == key && l == login
         && (spec.ImageSpec? && spec.credentials.Some? ==> spec.credentials.value in s0.secrets)
       case Checking(n, obj, k, l, found) =>
         s.records == s0.records && obj.spec == spec && k == key && l == login && found == s0.records[key] &&
             spec.Minting()
       case Updating(n, obj, k, l, id, _) =>
         && s.records == s0.records && obj.spec == spec && k == key && l == login && id == s0.records[key].id
         && target == Corrected(spec, login, s0.records[key].body)
       case _ => false
  }

  lemma BeginHeads(s: State, name: Name)
    requires Takeable(s, name)
    ensures Heads(s, Apply(s, Begin(name)), name, Outcome(s, s.objects[name].spec))
  {
  }

  lemma ReadHeads(s0: State, s: State, name: Name, ok: Label)
    requires Takeable(s0, name) && Heads(s0, s, name, Outcome(s0, s0.objects[name].spec))
    requires ok.Answer? && ok.kind == name.kind && ok.reply.Accepted?
    requires s.Pc(name.kind).Resolving? || s.Pc(name.kind).ReadingCredentials?
    ensures Heads(s0, Apply(s, ok), name, Outcome(s0, s0.objects[name].spec))
  {
  }

  lemma LookHeads(s0: State, s: State, name: Name, ok: Label)
    requires Takeable(s0, name) && Heads(s0, s, name, Outcome(s0, s0.objects[name].spec))
    requires ok.Answer? && ok.kind == name.kind && ok.reply.Accepted? && s.Pc(name.kind).Looking?
    ensures Heads(s0, Apply(s, ok), name, Outcome(s0, s0.objects[name].spec))
  {
  }

  lemma CheckHeads(s0: State, s: State, name: Name, ok: Label)
    requires Takeable(s0, name) && Heads(s0, s, name, Outcome(s0, s0.objects[name].spec))
    requires ok.Answer? && ok.kind == name.kind && ok.reply.Accepted? && s.Pc(name.kind).Checking?
    ensures Heads(s0, Apply(s, ok), name, Outcome(s0, s0.objects[name].spec))
  {
  }

  lemma UpdateHeads(s0: State, s: State, name: Name, ok: Label)
    requires Takeable(s0, name) && Heads(s0, s, name, Outcome(s0, s0.objects[name].spec))
    requires ok.Answer? && ok.kind == name.kind && ok.reply.Accepted? && s.Pc(name.kind).Updating?
    ensures Heads(s0, Apply(s, ok), name, Outcome(s0, s0.objects[name].spec))
  {
    assert Apply(s, ok) == Update(s, name.kind, Accepted);
  }

  lemma SaveHeads(s0: State, s: State, name: Name, ok: Label)
    requires Takeable(s0, name) && Heads(s0, s, name, Outcome(s0, s0.objects[name].spec))
    requires ok.Answer? && ok.kind == name.kind && ok.reply.Accepted? && s.Pc(name.kind).Saving?
    ensures Heads(s0, Apply(s, ok), name, Outcome(s0, s0.objects[name].spec))
  {
    assert Apply(s, ok) == SaveStatus(s, name.kind, Accepted);
  }

  lemma AnswerHeads(s0: State, s: State, name: Name, ok: Label)
    requires Takeable(s0, name) && Heads(s0, s, name, Outcome(s0, s0.objects[name].spec))
    requires ok.Answer? && ok.kind == name.kind && ok.reply.Accepted?
    ensures Heads(s0, Apply(s, ok), name, Outcome(s0, s0.objects[name].spec))
  {
    match s.Pc(name.kind) {
      case Idle(_) =>
      case Looking(_, _, _, _) => LookHeads(s0, s, name, ok);
      case Checking(_, _, _, _, _) => CheckHeads(s0, s, name, ok);
      case Updating(_, _, _, _, _, _) => UpdateHeads(s0, s, name, ok);
      case Saving(_, _, _, _) => SaveHeads(s0, s, name, ok);
      case _ => ReadHeads(s0, s, name, ok);
    }
  }

  lemma {:induction false} SettleHeads(s0: State, name: Name, ok: Label, n: nat)
    requires Takeable(s0, name) && ok.Answer? && ok.kind == name.kind && ok.reply.Accepted?
    ensures Heads(s0, Settle(Apply(s0, Begin(name)), ok, n), name, Outcome(s0, s0.objects[name].spec))
  {
    if n == 0 {
      BeginHeads(s0, name);
    } else {
      SettleHeads(s0, name, ok, n - 1);
      AnswerHeads(s0, Settle(Apply(s0, Begin(name)), ok, n - 1), name, ok);
    }
  }

  lemma NextEnds(s: State, ok: Label, n: nat)
    requires ok.Answer?
    ensures var left := Remaining(Settle(s, ok, n + 1).Pc(ok.kind));
            left == 0 || left < Remaining(Settle(s, ok, n).Pc(ok.kind))
  {
    var e := Settle(s, ok, n);
    assert Settle(s, ok, n + 1) == Apply(e, ok);
    if !e.Pc(ok.kind).Idle? { PassesAreShort(e, ok); }
  }

  lemma SixEnd(s: State, ok: Label)
    requires ok.Answer? && Remaining(s.Pc(ok.kind)) <= 6
    ensures Settle(s, ok, 6).Pc(ok.kind).Idle?
  {
    ghost var left := seq(7, n requires n >= 0 => Remaining(Settle(s, ok, n).Pc(ok.kind)));
    assert left[0] <= 6;
    forall n | 0 <= n < 6 ensures left[n + 1] == 0 || left[n + 1] < left[n] { NextEnds(s, ok, n); }
    assert left[1] <= 5 && left[2] <= 4 && left[3] <= 3 && left[4] <= 2 && left[5] <= 1 && left[6] == 0;
  }

  /** What a pass makes of the platform when the record is there: its body becomes the outcome, and
      nothing else changes. */
  lemma PassCorrects(s: State, name: Name, id: string, token: string)
    requires Takeable(s, name)
    ensures var e := Exec(s, Pass(name, id, token)); var spec := s.objects[name].spec; var key := KeyOf(s, spec);
            e.Pc(name.kind).Idle? && e.records == s.records[key := s.records[key].(body := Outcome(s, spec))]
  {
    var ok := Answer(name.kind, Accepted, id, token);
    SettleHeads(s, name, ok, 6);
    SixEnd(Apply(s, Begin(name)), ok);
    OneStep(s, Begin(name));
    SettleIsARun(s, [Begin(name)], ok, 6);
  }

  /** A change made by hand is undone by the next pass, to exactly what is declared, if and only if
      nothing was changed that no pass compares, and either the pass gets to compare or there is
      nothing to correct. */
  lemma DriftIsUndoneIff(s: State, name: Name, id: string, token: string)
    requires Takeable(s, name)
    ensures var spec := s.objects[name].spec; var key, login := KeyOf(s, spec), LoginOf(s, spec);
            var e, body := Exec(s, Pass(name, id, token)), s.records[key].body;
            && key in e.records
            && (e.records[key].body == Declared(spec, login) <==>
                  Reporting.RestAsDeclared(spec, login, body) && (Compares(s, spec) || Matches(spec, login, body)))
  {
    var spec := s.objects[name].spec;
    PassCorrects(s, name, id, token);
    Reporting.CorrectionIsExactIff(spec, LoginOf(s, spec), s.records[KeyOf(s, spec)].body);
  }

  // ---- Both guards are needed ----

  const HOST := Name(Organization, "o")
  const APP := Name(App, "a")
  const SPEC := AppSpec("o", "slug", "declared", "public", ["read"], "s")
  const KEY := AppKey("org", "slug")

  /** An organization and an app of it, with this record and these Secrets. */
  function Drifted(body: Body, secrets: map<string, Data>): State {
    State(map[HOST := Object(1, 1, false, OrganizationSpec("o", ""), Standing("org", "", Set(Reconciled), 1)),
              APP := Object(2, 1, false, SPEC, Standing("id", "s", Set(Reconciled), 1))],
          map[OrganizationKey("o") := Record("org", OrganizationBody("o"), ""), KEY := Record("id", body, "token")],
          secrets, map[], 2, Log([], 0, {}))
  }

  /** An app whose Secret is gone keeps a name given to it by hand. */
  lemma ALostAppKeepsItsDrift(id: string, token: string)
    ensures var body := AppBody("by hand", Public, ["read"]);
            && Reporting.RestAsDeclared(SPEC, NO_LOGIN, body) && Takeable(Drifted(body, map[]), APP)
            && Exec(Drifted(body, map[]), Pass(APP, id, token)).records == Drifted(body, map[]).records
  {
    var s := Drifted(AppBody("by hand", Public, ["read"]), map[]);
    assert KeyOf(s, SPEC) == KEY;
    PassCorrects(s, APP, id, token);
  }

  /** Permissions changed by hand stay, with the Secret in place. */
  lemma DriftedPermissionsStay(id: string, token: string)
    ensures var body := AppBody("declared", Public, ["read", "write"]);
            var secrets := map["s" := map["token" := "token"]];
            && Takeable(Drifted(body, secrets), APP) && Compares(Drifted(body, secrets), SPEC)
            && Exec(Drifted(body, secrets), Pass(APP, id, token)).records == Drifted(body, secrets).records
  {
    var s := Drifted(AppBody("declared", Public, ["read", "write"]), map["s" := map["token" := "token"]]);
    assert KeyOf(s, SPEC) == KEY;
    PassCorrects(s, APP, id, token);
  }
}
