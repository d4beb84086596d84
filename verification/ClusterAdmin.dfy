/** The cluster admin grant as a protocol, one step per external call.

    The controller's local state is the pass it is in; everything it shares with the rest of the
    world is the stored declaration (every version of it, because reads may be stale), the roster,
    and the grants that took effect. `Apply` is total: a label that is not possible in a state leaves
    it unchanged, so every list of labels is a run, and a theorem about `Exec` for all labels is a
    theorem about every interleaving of passes, failures, crashes and edits. */
module ClusterAdmin {
  import opened Strings
  import opened Status
  import opened Paging

  // ---- Looking up and recording identities ----

  datatype User = User(id: string, email: string)

  /** Whether an account asserts an address: letter case and surrounding space do not matter. */
  function Asserts(address: string): User -> bool {
    (user: User) => Normalize(user.email) == Normalize(address)
  }

  function Ids(users: seq<User>): seq<string> {
    seq(|users|, i requires 0 <= i < |users| => users[i].id)
  }

  /** What findByAddress answers on a whole roster. */
  function Lookup(roster: seq<User>, address: string): seq<string> {
    Sort(Ids(Filter(roster, Asserts(address))))
  }

  lemma {:induction false} FilterExactly(roster: seq<User>, wanted: User -> bool)
    ensures forall u :: u in Filter(roster, wanted) <==> u in roster && wanted(u)
  {
    if roster != [] {
      FilterExactly(roster[1..], wanted);
      assert roster == [roster[0]] + roster[1..];
    }
  }

  /** How many accounts with this id assert the address. */
  ghost function Accounts(roster: seq<User>, id: string, address: string): nat {
    if roster == [] then 0
    else
      var one := if roster[0].id == id && SameAddress(roster[0].email, address) then 1 else 0;
      one + Accounts(roster[1..], id, address)
  }

  lemma {:induction false} FilterCounts(roster: seq<User>, address: string, id: string)
    ensures Occurrences(Ids(Filter(roster, Asserts(address))), id) == Accounts(roster, id, address)
  {
    if roster != [] {
      FilterCounts(roster[1..], address, id);
      NormalizeForgets(roster[0].email, address);
      var rest := Filter(roster[1..], Asserts(address));
      if Asserts(address)(roster[0]) {
        var ids := Ids([roster[0]] + rest);
        assert ids[0] == roster[0].id && ids[1..] == Ids(rest);
      }
    }
  }

  /** The lookup answers exactly the accounts that assert the address, sorted, an id as often as it
      is listed; an address is the same text, but for blanks at its ends and letter case. */
  lemma LookupExactly(roster: seq<User>, address: string)
    ensures Sorted(Lookup(roster, address))
    ensures multiset(Lookup(roster, address)) == multiset(Ids(Filter(roster, Asserts(address))))
    ensures forall id :: multiset(Lookup(roster, address))[id] == Accounts(roster, id, address)
    ensures Elements(Lookup(roster, address)) == set u | u in roster && SameAddress(u.email, address) :: u.id
  {
    var matching := Filter(roster, Asserts(address));
    SortSorts(Ids(matching));
    forall id ensures multiset(Ids(matching))[id] == Accounts(roster, id, address) {
      FilterCounts(roster, address, id);
      OccurrencesCount(Ids(matching), id);
    }
    LookupHasElements(roster, address);
    forall u | u in roster ensures Normalize(u.email) == Normalize(address) <==> SameAddress(u.email, address) {
      NormalizeForgets(u.email, address);
    }
  }

  lemma LookupHasElements(roster: seq<User>, address: string)
    ensures Elements(Lookup(roster, address)) ==
            set u | u in roster && Normalize(u.email) == Normalize(address) :: u.id
  {
    var matching := Filter(roster, Asserts(address));
    SortSorts(Ids(matching));
    FilterExactly(roster, Asserts(address));
    forall id ensures id in Ids(matching) <==>
                      exists u :: u in roster && Normalize(u.email) == Normalize(address) && u.id == id
    {
      if id in Ids(matching) {
        var i :| 0 <= i < |matching| && Ids(matching)[i] == id;
        assert matching[i] in matching;
      }
      if u :| u in roster && Normalize(u.email) == Normalize(address) && u.id == id {
        assert u in matching;
        var i :| 0 <= i < |matching| && matching[i] == u;
        assert Ids(matching)[i] == id;
      }
    }
  }

  /** Appends the strings not seen before, in order. */
  function Merge(all: seq<string>, more: seq<string>): seq<string>
    decreases more
  {
    if more == [] then all else Merge(if more[0] in all then all else all + [more[0]], more[1..])
  }

  function UnionOf(existing: seq<string>, found: seq<string>): seq<string> {
    Sort(Merge(Merge([], existing), found))
  }

  lemma {:induction false} MergeKeeps(all: seq<string>, more: seq<string>)
    requires Distinct(all)
    ensures Distinct(Merge(all, more)) && Elements(Merge(all, more)) == Elements(all) + Elements(more)
    decreases more
  {
    if more != [] {
      var next := if more[0] in all then all else all + [more[0]];
      MergeKeeps(next, more[1..]);
      assert more == [more[0]] + more[1..];
      assert Elements(next) == Elements(all) + {more[0]};
    }
  }

  /** union is the canonical list of both sets. */
  lemma UnionIsCanonical(existing: seq<string>, found: seq<string>)
    ensures Canonical(UnionOf(existing, found))
    ensures Elements(UnionOf(existing, found)) == Elements(existing) + Elements(found)
  {
    MergeKeeps([], existing);
    MergeKeeps(Merge([], existing), found);
    SortKeepsDistinct(Merge(Merge([], existing), found));
  }

  /** So a canonical record is unchanged by union exactly when it already holds everything found:
      comparing the lists tells whether something new was granted. */
  lemma UnionUnchangedIff(existing: seq<string>, found: seq<string>)
    requires Canonical(existing)
    ensures UnionOf(existing, found) == existing <==> Elements(found) <= Elements(existing)
  {
    UnionIsCanonical(existing, found);
    if Elements(found) <= Elements(existing) {
      assert Elements(existing) + Elements(found) == Elements(existing);
      CanonicalUnique(UnionOf(existing, found), existing);
    }
  }

  // ---- The declaration and the world ----

  /** One stored version of the declaration. */
  datatype Object = Object(generation: nat, deleting: bool, finalizer: bool, address: string,
                           ids: seq<string>, verdict: Verdict, observed: nat)

  /** Where the worker is between two calls. `at` is the version it read, `obj` its local copy. A
      pass remembers which identities it has itself granted or cleared, and which it was refused. */
  datatype Pc =
    | Idle
    | AddingFinalizer(at: nat, obj: Object)
    | Searching(at: nat, obj: Object)
    | Granting(at: nat, obj: Object, matches: seq<string>, next: nat, done: set<string>)
    | Saving(at: nat, obj: Object, retry: Retry, matches: seq<string>, done: set<string>)
    | Revoking(at: nat, obj: Object, next: nat, done: set<string>, denied: set<string>)
    | Dropping(at: nat, obj: Object, done: set<string>, denied: set<string>)

  datatype State = State(
    versions: seq<Object>,   // every version stored so far; the last one is current
    gone: bool,              // the declaration has been removed from the store
    seen: nat,               // the version of the last read; the cache never goes back
    roster: seq<User>,
    pc: Pc,
    outcome: Outcome,        // what the last finished pass returned
    log: Log)
  {
    predicate Valid() { versions != [] && seen < |versions| }
    function Current(): Object requires versions != [] { versions[|versions| - 1] }
    /** The version check: a write based on version `at` is accepted only if that is current. */
    predicate Writable(at: nat) { !gone && at + 1 == |versions| }
    function Answered(at: nat, reply: Reply): WriteResult {
      if reply.Failed? || gone then Error else if Writable(at) then Written else Conflict
    }
    function End(outcome: Outcome): State { this.(pc := Idle, outcome := outcome) }
    function Store(obj: Object): State { this.(versions := versions + [obj]) }
  }

  /** What has taken effect so far. */
  datatype Log = Log(
    held: set<string>,       // identities whose last effective role write from here was a grant
    granted: set<string>,    // identities a grant ever took effect on
    cleared: set<string>,    // identities a clear ever took effect on
    looked: set<string>,     // every identity a lookup ever returned
    landed: set<string>,     // matches of the passes whose Ready save landed
    saves: nat,              // Ready saves that landed
    dropped: bool,           // the controller removed its finalizer
    refused: set<string>)    // identities whose clear was permanently refused in the pass that did

  datatype Label =
    | Begin(at: nat)             // a pass starts and reads version `at`
    | Answer(reply: Reply)       // the pending call ends
    | Crash
    | Roster(roster: seq<User>)  // accounts come and go
    | Edit(address: string)
    | Touch                      // somebody else writes the object's metadata
    | Delete
    | Vanish                     // the store removes a deleted object without finalizers

  // ---- The controller's moves ----

  function AfterRead(at: nat, obj: Object): Pc {
    if obj.deleting then (if obj.finalizer then AfterRevoke(at, obj, 0, {}, {}) else Idle)
    else if obj.finalizer then Searching(at, obj)
    else AddingFinalizer(at, obj)
  }

  function AfterGrant(at: nat, obj: Object, matches: seq<string>, next: nat, done: set<string>): Pc {
    if next < |matches| then Granting(at, obj, matches, next, done)
    else Saving(at, obj.(ids := UnionOf(obj.ids, matches), verdict := Set(Reconciled), observed := obj.generation),
                Done, matches, done)
  }

  function AfterRevoke(at: nat, obj: Object, next: nat, done: set<string>, denied: set<string>): Pc {
    if next < |obj.ids| then Revoking(at, obj, next, done, denied) else Dropping(at, obj, done, denied)
  }

  function Conclude(at: nat, obj: Object, reason: Reason, retry: Retry): Pc {
    Saving(at, obj.(verdict := Set(reason), observed := obj.generation), retry, [], {})
  }

  function Apply(s: State, l: Label): State
    requires s.Valid()
    ensures Apply(s, l).Valid()
  {
    match l
    case Begin(at) =>
      if s.pc.Idle? && s.seen <= at < |s.versions| then
        s.(seen := at, pc := AfterRead(at, s.versions[at]), outcome := Nothing)
      else if s.pc.Idle? && s.gone then s.End(Nothing)
      else s
    case Answer(reply) => Continue(s, reply)
    case Crash => s.(pc := Idle)
    case Roster(roster) => s.(roster := roster)
    case Edit(address) =>
      if s.gone then s
      else s.Store(s.Current().(address := address, generation := s.Current().generation + 1))
    case Touch => if s.gone then s else s.Store(s.Current())
    case Delete =>
      if s.gone || s.Current().deleting then s
      else s.Store(s.Current().(deleting := true, generation := s.Current().generation + 1))
    case Vanish => if s.Current().deleting && !s.Current().finalizer then s.(gone := true) else s
  }

  /** The pending call ends with a reply. */
  function Continue(s: State, reply: Reply): State
    requires s.Valid()
    ensures Continue(s, reply).Valid()
  {
    match s.pc
    case Idle => s
    case AddingFinalizer(at, obj) =>
      var lands := s.Writable(at) && reply.TookEffect();
      var s' := if lands then s.Store(s.Current().(finalizer := true)) else s;
      if lands && reply.Accepted? then s'.(pc := Searching(|s.versions|, s'.Current()))
      else s'.End(AfterWrite(s.Answered(at, reply), Nothing))
    case Searching(at, obj) =>
      if !reply.Accepted? then s.(pc := Conclude(at, obj, Pending, Requeue))
      else
        var matches := Lookup(s.roster, obj.address);
        s.(log := s.log.(looked := s.log.looked + Elements(matches)),
           pc := if matches == [] then Conclude(at, obj, Pending, Requeue) else AfterGrant(at, obj, matches, 0, {}))
    case Granting(at, obj, matches, next, done) =>
      if next >= |matches| then s
      else
        var s' := if reply.TookEffect()
                then s.(log := s.log.(held := s.log.held + {matches[next]}, granted := s.log.granted + {matches[next]}))
                else s;
        s'.(pc := if reply.Accepted? then AfterGrant(at, obj, matches, next + 1, done + {matches[next]})
                  else if reply.Refused() then Conclude(at, obj, Rejected, Done)
                  else Conclude(at, obj, Pending, Requeue))
    case Saving(at, obj, retry, matches, done) =>
      var s' := s.End(AfterWrite(s.Answered(at, reply), Again(retry)));
      if s.Writable(at) && reply.TookEffect() then
        s'.Store(s.Current().(ids := obj.ids, verdict := obj.verdict, observed := obj.observed))
        .(log := s.log.(landed := s.log.landed + Elements(matches),
                        saves := s.log.saves + if obj.verdict == Set(Reconciled) then 1 else 0))
      else s'
    case Revoking(at, obj, next, done, denied) =>
      if next >= |obj.ids| then s
      else
        var id := obj.ids[next];
        var s' := if reply.TookEffect()
                  then s.(log := s.log.(held := s.log.held - {id}, cleared := s.log.cleared + {id})) else s;
        if reply.Transient() then s'.End(Again(Requeue))
        else s'.(pc := AfterRevoke(at, obj, next + 1, if reply.Accepted? then done + {id} else done,
                                   if reply.Refused() then denied + {id} else denied))
    case Dropping(at, obj, done, denied) =>
      var s' := s.End(AfterWrite(s.Answered(at, reply), Nothing));
      if s.Writable(at) && reply.TookEffect() then
        s'.Store(s.Current().(finalizer := false)).(log := s.log.(dropped := true, refused := denied))
      else s'
  }

  /** A declaration as it is first stored: no status, no finalizer, nothing granted. */
  ghost predicate Init(s: State) {
    && |s.versions| == 1 && !s.gone && s.seen == 0 && s.pc.Idle?
    && !s.Current().deleting && !s.Current().finalizer
    && s.Current().ids == [] && s.Current().verdict.Unset? && s.Current().observed == 0
    && s.log.held == s.log.granted == s.log.cleared == s.log.looked == s.log.landed == s.log.refused == {}
    && s.log.saves == 0 && !s.log.dropped
  }

  function Exec(s: State, labels: seq<Label>): State
    requires s.Valid()
    ensures Exec(s, labels).Valid()
  {
    if labels == [] then s else Apply(Exec(s, labels[..|labels| - 1]), labels[|labels| - 1])
  }

  lemma ExecSnoc(s: State, labels: seq<Label>, l: Label)
    requires s.Valid()
    ensures Exec(s, labels + [l]) == Apply(Exec(s, labels), l)
  {
    assert (labels + [l])[..|labels|] == labels;
  }

  // ---- What every step keeps ----

  /** What a later version keeps of an earlier one. */
  ghost predicate Follows(earlier: Object, later: Object) {
    && (earlier.deleting ==> later.deleting && later.ids == earlier.ids)
    && (earlier.deleting && later.finalizer ==> earlier.finalizer)
    && Elements(earlier.ids) <= Elements(later.ids)
    && earlier.generation <= later.generation
    && earlier.observed <= later.observed
  }

  ghost predicate Versions(s: State) {
    && s.Valid()
    && (forall i, j :: 0 <= i < j < |s.versions| ==> Follows(s.versions[i], s.versions[j]))
    && (!s.log.dropped ==> forall i, j :: 0 <= i < j < |s.versions| && s.versions[i].finalizer ==>
          s.versions[j].finalizer)
    && (s.gone ==> s.Current().deleting && !s.Current().finalizer)
    && (forall i :: 0 <= i < |s.versions| ==> s.versions[i].observed <= s.versions[i].generation)
  }

  ghost predicate Ledger(s: State)
    requires s.Valid()
  {
    && Elements(s.Current().ids) == s.log.landed
    && s.log.held == s.log.granted - s.log.cleared
    && s.log.cleared <= s.log.landed <= s.log.granted <= s.log.looked
    && (s.log.cleared != {} || s.log.dropped ==> s.versions[s.seen].deleting)
    && (s.log.dropped ==>
          && s.Current().deleting && !s.Current().finalizer
          && s.log.refused <= s.log.landed <= s.log.cleared + s.log.refused)
    && (s.log.granted != {} && !s.log.dropped ==> s.Current().finalizer)
  }

  /** A granting pass read a version that was not being deleted and had the finalizer. */
  ghost predicate GrantingPass(s: State, at: nat)
    requires s.Valid()
  {
    && s.seen <= at < |s.versions| && !s.versions[at].deleting && s.versions[at].finalizer
    && !s.versions[s.seen].deleting
  }

  ghost predicate RevokingPass(s: State, at: nat, obj: Object, done: set<string>, denied: set<string>)
    requires s.Valid()
  {
    at == s.seen && obj == s.versions[at] && obj.deleting && obj.finalizer
    && denied <= Elements(obj.ids) && done <= s.log.cleared
  }

  ghost predicate Local(s: State)
    requires s.Valid()
  {
    match s.pc
    case Idle => true
    case AddingFinalizer(at, obj) =>
      at == s.seen && obj == s.versions[at] && !obj.deleting && !obj.finalizer
    case Searching(at, obj) => GrantingPass(s, at) && obj == s.versions[at]
    case Granting(at, obj, matches, next, done) =>
      && GrantingPass(s, at) && obj == s.versions[at] && next < |matches|
      && Elements(matches) <= s.log.looked && Elements(matches[..next]) <= done <= s.log.granted
    case Saving(at, obj, retry, matches, done) =>
      && GrantingPass(s, at)
      && obj == s.versions[at].(ids := obj.ids, verdict := obj.verdict, observed := obj.generation)
      && obj.verdict.Set?
      && retry == (if obj.verdict == Set(Pending) then Requeue else Done)
      && (matches != [] <==> obj.verdict == Set(Reconciled))
      && Elements(matches) <= done <= s.log.granted
      && obj.ids == (if matches == [] then s.versions[at].ids else UnionOf(s.versions[at].ids, matches))
    case Revoking(at, obj, next, done, denied) =>
      && RevokingPass(s, at, obj, done, denied) && next < |obj.ids|
      && Elements(obj.ids[..next]) <= done + denied
    case Dropping(at, obj, done, denied) =>
      && RevokingPass(s, at, obj, done, denied) && Elements(obj.ids) <= done + denied
  }

  ghost predicate Inv(s: State) {
    Versions(s) && Ledger(s) && Local(s)
  }

  lemma StoreKeepsVersions(s: State, obj: Object)
    requires Versions(s) && !s.gone && Follows(s.Current(), obj)
    requires !s.log.dropped && s.Current().finalizer ==> obj.finalizer
    requires obj.observed <= obj.generation
    ensures Versions(s.Store(obj))
  {
    var s' := s.Store(obj);
    var n := |s.versions|;
    forall i, j | 0 <= i < j < |s'.versions|
      ensures Follows(s'.versions[i], s'.versions[j])
      ensures !s.log.dropped && s'.versions[i].finalizer ==> s'.versions[j].finalizer
    {
      if j == n && i < n - 1 {
        assert Follows(s.versions[i], s.versions[n - 1]);
      }
    }
  }

  /** A write by somebody else leaves the record and the finalizer alone. */
  lemma ForeignWriteKeepsInv(s: State, obj: Object)
    requires Inv(s) && !s.gone && Follows(s.Current(), obj)
    requires obj.ids == s.Current().ids && obj.finalizer == s.Current().finalizer && obj.observed <= obj.generation
    ensures Inv(s.Store(obj))
  {
    StoreKeepsVersions(s, obj);
    assert s.Store(obj).Current() == obj;
  }

  lemma BeginKeepsInv(s: State, at: nat)
    requires Inv(s)
    ensures Inv(Apply(s, Begin(at)))
  {
    if s.pc.Idle? && s.seen <= at < |s.versions| {
      assert s.seen < at ==> Follows(s.versions[s.seen], s.versions[at]);
      assert s.versions[at].ids[..0] == [];
    }
  }

  lemma EditKeepsInv(s: State, l: Label)
    requires Inv(s) && (l.Edit? || l.Touch? || l.Delete?)
    ensures Inv(Apply(s, l))
  {
    var o := s.Current();
    if !s.gone {
      match l {
        case Edit(address) => ForeignWriteKeepsInv(s, o.(address := address, generation := o.generation + 1));
        case Touch => ForeignWriteKeepsInv(s, o);
        case Delete =>
          if !o.deleting { ForeignWriteKeepsInv(s, o.(deleting := true, generation := o.generation + 1)); }
      }
    }
  }

  lemma EnvironmentKeepsInv(s: State, l: Label)
    requires Inv(s) && !l.Answer?
    ensures Inv(Apply(s, l))
  {
    if l.Begin? {
      BeginKeepsInv(s, l.at);
    } else if l.Edit? || l.Touch? || l.Delete? {
      EditKeepsInv(s, l);
    }
  }

  /** While a granting pass runs nothing has been cleared and the current version has the finalizer. */
  lemma GrantingPassIsEarly(s: State, at: nat)
    requires Versions(s) && Ledger(s) && GrantingPass(s, at)
    ensures s.log.cleared == {} && !s.log.dropped && s.Current().finalizer && !s.gone
  {
    assert at < |s.versions| - 1 ==> s.versions[|s.versions| - 1].finalizer;
  }

  lemma TakeOne(list: seq<string>, next: nat)
    requires next < |list|
    ensures Elements(list[..next + 1]) == Elements(list[..next]) + {list[next]}
  {
    assert list[..next + 1] == list[..next] + [list[next]];
  }

  lemma SearchKeepsInv(s: State, reply: Reply)
    requires Inv(s) && s.pc.Searching?
    ensures Inv(Continue(s, reply))
  {
    var matches := Lookup(s.roster, s.pc.obj.address);
    assert matches[..0] == [];
  }

  lemma GrantKeepsInv(s: State, reply: Reply)
    requires Inv(s) && s.pc.Granting?
    ensures Inv(Continue(s, reply))
  {
    var Granting(at, obj, matches, next, done) := s.pc;
    GrantingPassIsEarly(s, at);
    TakeOne(matches, next);
    assert matches[next] in Elements(matches);
    assert matches[..|matches|] == matches;
    var e := Continue(s, reply);
    assert e.versions == s.versions && e.log.cleared == s.log.cleared && e.log.dropped == s.log.dropped;
    assert Versions(e) && Ledger(e);
  }

  lemma SaveKeepsInv(s: State, reply: Reply)
    requires Inv(s) && s.pc.Saving?
    ensures Inv(Continue(s, reply))
  {
    var Saving(at, obj, retry, matches, done) := s.pc;
    GrantingPassIsEarly(s, at);
    if s.Writable(at) && reply.TookEffect() {
      UnionIsCanonical(s.versions[at].ids, matches);
      var o, e := s.Current().(ids := obj.ids, verdict := obj.verdict, observed := obj.observed), Continue(s, reply);
      StoreKeepsVersions(s, o);
      assert e.Current() == o && e.versions == s.Store(o).versions;
      assert Versions(e) && Ledger(e);
    }
  }

  /** A version that is being deleted has the final record. */
  lemma RecordIsFinal(s: State, at: nat)
    requires Versions(s) && Ledger(s) && at < |s.versions| && s.versions[at].deleting
    ensures Elements(s.versions[at].ids) == s.log.landed && s.Current().deleting
  {
    assert at < |s.versions| - 1 ==> Follows(s.versions[at], s.versions[|s.versions| - 1]);
  }

  lemma RevokeKeepsInv(s: State, reply: Reply)
    requires Inv(s) && s.pc.Revoking?
    ensures Inv(Continue(s, reply))
  {
    var Revoking(at, obj, next, done, denied) := s.pc;
    RecordIsFinal(s, at);
    TakeOne(obj.ids, next);
    var id, before := obj.ids[next], Elements(obj.ids[..next]);
    assert id in Elements(obj.ids);
    assert obj.ids[..|obj.ids|] == obj.ids;
    var s' := Continue(s, reply);
    var cleared := if reply.TookEffect() then s.log.cleared + {id} else s.log.cleared;
    var done' := if reply.Accepted? then done + {id} else done;
    var denied' := if reply.Refused() then denied + {id} else denied;
    assert s'.log.cleared == cleared && s'.versions == s.versions;
    assert Ledger(s') by {
      assert s.log.granted - (s.log.cleared + {id}) == (s.log.granted - s.log.cleared) - {id};
    }
    if !reply.Transient() {
      assert s'.pc == AfterRevoke(at, obj, next + 1, done', denied');
      assert before + {id} <= done' + denied' && done' <= cleared;
    }
  }

  lemma DropKeepsInv(s: State, reply: Reply)
    requires Inv(s) && s.pc.Dropping?
    ensures Inv(Continue(s, reply))
  {
    RecordIsFinal(s, s.pc.at);
    if s.Writable(s.pc.at) && reply.TookEffect() {
      var o := s.Current().(finalizer := false);
      StoreKeepsVersions(s.(log := s.log.(dropped := true, refused := s.pc.denied), pc := Idle), o);
      assert Continue(s, reply).Current() == o;
    }
  }

  lemma AddFinalizerKeepsInv(s: State, reply: Reply)
    requires Inv(s) && s.pc.AddingFinalizer?
    ensures Inv(Continue(s, reply))
  {
    if s.Writable(s.pc.at) && reply.TookEffect() {
      var o := s.Current().(finalizer := true);
      StoreKeepsVersions(s, o);
      assert Continue(s, reply).Current() == o;
    }
  }

  /** Every step of every actor keeps the invariant. */
  lemma StepKeepsInv(s: State, l: Label)
    requires Inv(s)
    ensures Inv(Apply(s, l))
  {
    if !l.Answer? {
      EnvironmentKeepsInv(s, l);
    } else {
      match s.pc {
        case Idle =>
        case AddingFinalizer(_, _) => AddFinalizerKeepsInv(s, l.reply);
        case Searching(_, _) => SearchKeepsInv(s, l.reply);
        case Granting(_, _, _, _, _) => GrantKeepsInv(s, l.reply);
        case Saving(_, _, _, _, _) => SaveKeepsInv(s, l.reply);
        case Revoking(_, _, _, _, _) => RevokeKeepsInv(s, l.reply);
        case Dropping(_, _, _, _) => DropKeepsInv(s, l.reply);
      }
    }
  }

  lemma {:induction false} RunKeepsInv(s: State, labels: seq<Label>)
    requires Inv(s)
    ensures Inv(Exec(s, labels))
  {
    if labels != [] {
      RunKeepsInv(s, labels[..|labels| - 1]);
      StepKeepsInv(Exec(s, labels[..|labels| - 1]), labels[|labels| - 1]);
    }
  }

  lemma ReachableInv(s: State, labels: seq<Label>)
    requires Init(s)
    ensures Inv(Exec(s, labels))
  {
    RunKeepsInv(s, labels);
  }

  // ---- The record stays canonical ----

  ghost predicate CanonicalRecords(s: State) {
    && (forall i :: 0 <= i < |s.versions| ==> Canonical(s.versions[i].ids))
    && (!s.pc.Idle? ==> Canonical(s.pc.obj.ids))
  }

  lemma StepKeepsCanonical(s: State, l: Label)
    requires s.Valid() && CanonicalRecords(s)
    ensures CanonicalRecords(Apply(s, l))
  {
    if l.Answer? && (s.pc.Searching? || s.pc.Granting?) {
      var matches := if s.pc.Granting? then s.pc.matches else Lookup(s.roster, s.pc.obj.address);
      UnionIsCanonical(s.pc.obj.ids, matches);
    }
  }

  lemma {:induction false} RunKeepsCanonical(s: State, labels: seq<Label>)
    requires s.Valid() && CanonicalRecords(s)
    ensures CanonicalRecords(Exec(s, labels))
  {
    if labels != [] {
      RunKeepsCanonical(s, labels[..|labels| - 1]);
      StepKeepsCanonical(Exec(s, labels[..|labels| - 1]), labels[|labels| - 1]);
    }
  }
}
