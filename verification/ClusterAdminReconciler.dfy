/** internal/controller/clusteradmin_controller.go, as code over the store and the Users API. Every
    call lets the rest of the world act first, ends however it likes, and is recorded; each method is
    proved to perform a run of the protocol in ClusterAdmin. */
module ClusterAdminReconciler {
  import opened Runs
  import opened Strings
  import opened Status
  import opened Paging
  import opened ClusterAdmin

  /** What the rest of the world may do between two calls of a pass. */
  predicate Foreign(l: Label) {
    l.Roster? || l.Edit? || l.Touch? || l.Delete? || l.Vanish?
  }

  predicate Begins(l: Label) { l.Begin? }

  /** The worker, in the shared world. Whatever happens is a step of the protocol; the code itself
      takes up passes one by one, and does not crash. */
  class Reconciler {
    ghost const origin: State
    ghost var history: seq<Label>
    ghost var passes: nat
    var s: State

    ghost predicate Valid()
      reads this
    {
      && origin.Valid() && s == Exec(origin, history)
      && passes == Times(history, Begins) && Crash !in history
    }

    constructor (start: State)
      requires start.Valid()
      ensures Valid() && s == origin == start && passes == 0
    {
      origin, history, passes, s := start, [], 0, start;
    }

    method Perform(l: Label)
      requires Valid() && !l.Crash?
      modifies this
      ensures Valid() && s == Apply(old(s), l)
      ensures passes == if l.Begin? then old(passes) + 1 else old(passes)
    {
      ExecSnoc(origin, history, l);
      TimesSnoc(history, l, Begins);
      s := Apply(s, l);
      history := history + [l];
      passes := if l.Begin? then passes + 1 else passes;
    }

    /** Any number of foreign actions. */
    method Interfere()
      requires Valid()
      modifies this
      ensures Valid() && s.pc == old(s.pc) && s.outcome == old(s.outcome) && passes == old(passes)
      ensures old(s.versions) <= s.versions && s.seen == old(s.seen)
    {
      var rounds: nat :| 0 <= rounds;
      for i := 0 to rounds
        invariant Valid() && s.pc == old(s.pc) && s.outcome == old(s.outcome) && passes == old(passes)
        invariant old(s.versions) <= s.versions && s.seen == old(s.seen)
      {
        var l: Label := *;
        if Foreign(l) {
          Perform(l);
        }
      }
    }

    /** Reads the declaration from the cache: some version no older than the last one read. */
    method Get() returns (found: bool, at: nat, obj: Object)
      requires Valid() && s.pc.Idle?
      modifies this
      ensures Valid() && passes == old(passes) + 1
      ensures found ==> at < |s.versions| && obj == s.versions[at] && s.pc == AfterRead(at, obj)
      ensures !found ==> s.pc.Idle?
      ensures s.outcome == Nothing
    {
      Interfere();
      at := *;
      if s.gone && at >= |s.versions| {
        Perform(Begin(at));
        return false, 0, s.Current();
      }
      if at < s.seen || at >= |s.versions| {
        at := |s.versions| - 1;
      }
      obj := s.versions[at];
      Perform(Begin(at));
      found := true;
    }

    /** UpdateUser: writes the cluster role of an identity. */
    method UpdateUser(id: string, grant: bool) returns (reply: Reply)
      requires Valid()
      requires grant ==> s.pc.Granting? && s.pc.next < |s.pc.matches| && s.pc.matches[s.pc.next] == id
      requires !grant ==> s.pc.Revoking? && s.pc.next < |s.pc.obj.ids| && s.pc.obj.ids[s.pc.next] == id
      modifies this
      ensures Valid() && passes == old(passes)
      ensures grant ==> var p := old(s.pc);
                s.pc == if reply.Accepted? then AfterGrant(p.at, p.obj, p.matches, p.next + 1, p.done + {id})
                        else if reply.Refused() then Conclude(p.at, p.obj, Rejected, Done)
                        else Conclude(p.at, p.obj, Pending, Requeue)
      ensures !grant ==> var p := old(s.pc);
                if reply.Transient() then s.pc.Idle? && s.outcome == Again(Requeue)
                else s.pc == AfterRevoke(p.at, p.obj, p.next + 1, if reply.Accepted? then p.done + {id} else p.done,
                                         if reply.Refused() then p.denied + {id} else p.denied)
      ensures grant && reply.Failed? ==> s.pc.Saving? && s.pc.obj.verdict.Set?
      ensures grant && reply.Failed? && (reply.code == InvalidArgument || reply.code == AlreadyExists) ==>
                s.pc.obj.verdict == Set(Rejected) && s.pc.retry == Done
      ensures grant && reply.Failed? && reply.code != InvalidArgument && reply.code != AlreadyExists ==>
                s.pc.obj.verdict == Set(Pending) && s.pc.retry == Requeue
      ensures !grant && reply.Failed? && (reply.code == InvalidArgument || reply.code == AlreadyExists) ==>
                s.pc.Revoking? || s.pc.Dropping?
      ensures !grant && reply.Failed? && reply.code != InvalidArgument && reply.code != AlreadyExists ==>
                s.pc.Idle? && s.outcome == Again(Requeue)
      ensures grant && reply.Accepted? ==> id in s.log.held
      ensures !grant && reply.Accepted? ==> id !in s.log.held
    {
      Interfere();
      reply := *;
      Perform(Answer(reply));
    }

    /** Update with the finalizer added or removed; the store checks the version. */
    method UpdateFinalizer(at: nat, obj: Object) returns (result: WriteResult, now: nat, stored: Object)
      requires Valid() && (s.pc == AddingFinalizer(at, obj) || (s.pc.Dropping? && s.pc.at == at && s.pc.obj == obj))
      modifies this
      ensures Valid() && passes == old(passes)
      ensures old(s.pc.AddingFinalizer?) ==>
                if result.Written? then s.pc == Searching(now, stored)
                else s.pc.Idle? && s.outcome == AfterWrite(result, Nothing)
      ensures old(s.pc.Dropping?) ==> s.pc.Idle? && s.outcome == AfterWrite(result, Nothing)
      ensures old(s.pc.Dropping?) && result.Written? ==> s.log.dropped
    {
      Interfere();
      var reply: Reply :| reply.Accepted? || reply.Failed?;
      result := s.Answered(at, reply);
      Perform(Answer(reply));
      now, stored := |s.versions| - 1, s.Current();
    }

    /** What a save that answered so has left: the status stored, or a newer version than the pass read. */
    predicate Left(result: WriteResult, at: nat, obj: Object)
      requires s.versions != []
      reads this
    {
      match result
      case Written => s.Current() == s.Current().(ids := obj.ids, verdict := obj.verdict, observed := obj.observed)
      case Conflict => !s.Writable(at)
      case Error => true
    }

    /** Status().Update, then what the pass returns: the intended schedule if the status was stored, the
        short retry on a conflict, otherwise the error. */
    method Save(at: nat, obj: Object, retry: Retry) returns (outcome: Outcome)
      requires Valid() && s.pc.Saving? && s.pc.at == at && s.pc.obj == obj && s.pc.retry == retry
      modifies this
      ensures Valid() && passes == old(passes)
      ensures s.pc.Idle? && outcome == s.outcome && s.versions != []
      ensures exists result :: outcome == AfterWrite(result, Again(retry)) && Left(result, at, obj)
    {
      Interfere();
      var reply: Reply :| reply.Accepted? || reply.Failed?;
      var result := s.Answered(at, reply);
      Perform(Answer(reply));
      assert Left(result, at, obj);
      match result
      case Written => outcome := Again(retry);
      case Conflict => outcome := Again(Requeue);
      case Error => outcome := Errored;
    }

    /** The roster as ListUsers will serve it for one lookup. */
    method Users() returns (users: Listing<User>)
      requires Valid()
      modifies this
      ensures Valid() && passes == old(passes) && s.pc == old(s.pc)
      ensures fresh(users) && WellTokened(users.pages) && Concat(users.pages) == s.roster
    {
      Interfere();
      var broken: set<string> := *;
      ghost var whole := [Page("", s.roster)];
      assert Concat(whole) == whole[0].items + Concat<User>([]);
      var pages: seq<Page<User>> :| WellTokened(pages) && Concat(pages) == s.roster;
      users := new Listing(pages, broken);
    }

    // ---- The reconciler ----

    method Reconcile() returns (outcome: Outcome)
      requires Valid() && s.pc.Idle?
      modifies this
      ensures Valid() && passes == old(passes) + 1
      ensures s.pc.Idle? && outcome == s.outcome
    {
      var found, at, admin := Get();
      if !found {
        return Nothing;
      }
      if admin.deleting {
        outcome := Revoke(at, admin);
        return;
      }

      if !admin.finalizer {
        var result, now, stored := UpdateFinalizer(at, admin);
        match result {
          case Conflict => return Again(Requeue);
          case Error => return Errored;
          case Written => at, admin := now, stored;
        }
      }

      var failed, matches := FindByAddress(admin.address);
      if failed {
        admin := admin.(verdict := Set(Pending), observed := admin.generation);
        outcome := Save(at, admin, Requeue);
        return;
      }
      if |matches| == 0 {
        admin := admin.(verdict := Set(Pending), observed := admin.generation);
        outcome := Save(at, admin, Requeue);
        return;
      }
      ghost var done: set<string> := {};
      for i := 0 to |matches|
        invariant Valid() && passes == old(passes) + 1 && s.pc == AfterGrant(at, admin, matches, i, done)
      {
        var reply := UpdateUser(matches[i], true);
        if reply.Failed? {
          if Permanent(reply.code) {
            admin := admin.(verdict := Set(Rejected), observed := admin.generation);
            outcome := Save(at, admin, Done);
            return;
          }
          admin := admin.(verdict := Set(Pending), observed := admin.generation);
          outcome := Save(at, admin, Requeue);
          return;
        }
        done := done + {matches[i]};
      }

      var granted := Union(admin.ids, matches);
      admin := admin.(ids := granted, verdict := Set(Reconciled), observed := admin.generation);
      outcome := Save(at, admin, Done);
    }

    method Revoke(at: nat, admin: Object) returns (outcome: Outcome)
      requires Valid() && admin.deleting && s.pc == AfterRead(at, admin) && s.outcome == Nothing
      modifies this
      ensures Valid() && passes == old(passes)
      ensures s.pc.Idle? && outcome == s.outcome
      ensures outcome == Nothing && admin.finalizer ==> s.log.dropped
    {
      if !admin.finalizer {
        return Nothing;
      }
      ghost var cleared: set<string>, denied: set<string> := {}, {};
      for i := 0 to |admin.ids|
        invariant Valid() && passes == old(passes) && s.pc == AfterRevoke(at, admin, i, cleared, denied)
      {
        var reply := UpdateUser(admin.ids[i], false);
        if reply.Failed? && !Permanent(reply.code) {
          return Again(Requeue);
        }
        cleared := if reply.Accepted? then cleared + {admin.ids[i]} else cleared;
        denied := if reply.Refused() then denied + {admin.ids[i]} else denied;
      }
      var result, _, _ := UpdateFinalizer(at, admin);
      match result
      case Written => return Nothing;
      case Conflict => return Again(Requeue);
      case Error => return Errored;
    }

    /** findByAddress. */
    method FindByAddress(address: string) returns (failed: bool, found: seq<string>)
      requires Valid() && s.pc.Searching? && s.pc.obj.address == address
      modifies this
      ensures Valid() && passes == old(passes)
      ensures var p := old(s.pc);
              s.pc == if failed || found == [] then Conclude(p.at, p.obj, Pending, Requeue)
                      else AfterGrant(p.at, p.obj, found, 0, {})
      ensures !failed ==> found == Lookup(s.roster, address)
    {
      var users := Users();
      var accounts;
      failed, accounts := users.FindAll(Asserts(address));
      found := Sort(Ids(accounts));
      Perform(Answer(if failed then Failed(Unavailable, false) else Accepted));
    }
  }

  /** union, with its seen set and its sort: the canonical list of both groups. */
  method Union(existing: seq<string>, found: seq<string>) returns (all: seq<string>)
    ensures all == UnionOf(existing, found)
    ensures Canonical(all) && Elements(all) == Elements(existing) + Elements(found)
  {
    var seen: map<string, bool> := map[];
    all := [];
    var groups := [existing, found];
    for g := 0 to |groups|
      invariant Elements(all) == seen.Keys
      invariant g == 0 ==> all == []
      invariant g == 1 ==> all == Merge([], existing)
      invariant g == 2 ==> all == Merge(Merge([], existing), found)
    {
      ghost var whole := Merge(all, groups[g]);
      for i := 0 to |groups[g]|
        invariant Elements(all) == seen.Keys
        invariant Merge(all, groups[g][i..]) == whole
      {
        var id := groups[g][i];
        assert groups[g][i..][1..] == groups[g][i + 1..];
        assert id in seen <==> id in all;
        if id in seen {
          continue;
        }
        seen := seen[id := true];
        all := all + [id];
      }
      assert groups[g][|groups[g]|..] == [];
    }
    all := Sort(all);
    UnionIsCanonical(existing, found);
  }
}
