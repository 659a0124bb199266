/**
 * The daily password security recheck: refresh the reference database when
 * it is stale, rescore every revision whose status is not 2, persist the
 * status changes, count per user the changes that hit a model's current
 * revision, then notify and mail every counted user.
 */
module PasswordCheck {
  import opened Common

  /** The status the scan skips. */
  const SkippedStatus: int := 2

  datatype PasswordRevision = PasswordRevision(uuid: Uuid, model: Uuid, userId: string, status: int)

  /** The collaborators the job calls: whether the reference database needs
      a refresh and whether refreshing it throws, the security level of a
      revision (a function of the revision's immutable content, named by its
      uuid), and whether the notification for (user, count) throws an
      `ApiException`. */
  datatype Env = Env(
    dbUpdateRequired: bool,
    updateDbFails: bool,
    score: Uuid -> int,
    notifyFails: (string, nat) -> bool)

  /** The calls the job makes to the outside world, in order. */
  datatype Event =
    | DbUpdated
    | Scored(uuid: Uuid)
    | Persisted(rev: PasswordRevision)
    | Notified(user: string, count: nat)
    | Mailed(user: string, count: nat)

  // ---------------------------------------------------------------------------
  // Reference definitions
  // ---------------------------------------------------------------------------

  predicate DistinctUuids(rows: seq<PasswordRevision>) {
    forall i, j :: 0 <= i < j < |rows| ==> rows[i].uuid != rows[j].uuid
  }

  /** `findAllMatching(['status', 2, '!='])`: the rows whose status is not 2,
      in table order. */
  function Matching(rows: seq<PasswordRevision>): (found: seq<PasswordRevision>)
    ensures |found| <= |rows|
  {
    if rows == [] then []
    else
      var last := rows[|rows| - 1];
      Matching(rows[..|rows| - 1]) + (if last.status != SkippedStatus then [last] else [])
  }

  /** The status changes a scan of `revs` makes, each as the revision holding
      its new status. */
  function Changes(revs: seq<PasswordRevision>, score: Uuid -> int): (cs: seq<PasswordRevision>)
    ensures |cs| <= |revs|
  {
    if revs == [] then []
    else
      var last := revs[|revs| - 1];
      Changes(revs[..|revs| - 1], score)
      + (if score(last.uuid) != last.status then [last.(status := score(last.uuid))] else [])
  }

  /** `update($revision)`: the row with the revision's uuid takes its content. */
  function Replace(rows: seq<PasswordRevision>, r: PasswordRevision): (rows': seq<PasswordRevision>)
    ensures |rows'| == |rows|
    ensures forall k :: 0 <= k < |rows| ==> rows'[k].uuid == rows[k].uuid
  {
    seq(|rows|, k requires 0 <= k < |rows| => if rows[k].uuid == r.uuid then r else rows[k])
  }

  /** The table after the updates `cs`, in order. */
  function ApplyAll(rows: seq<PasswordRevision>, cs: seq<PasswordRevision>): (rows': seq<PasswordRevision>)
    ensures |rows'| == |rows|
    ensures forall k :: 0 <= k < |rows| ==> rows'[k].uuid == rows[k].uuid
  {
    if cs == [] then rows else Replace(ApplyAll(rows, cs[..|cs| - 1]), cs[|cs| - 1])
  }

  /** A row after a scan: rescored unless its status is 2. */
  function Rescore(r: PasswordRevision, score: Uuid -> int): PasswordRevision {
    if r.status != SkippedStatus then r.(status := score(r.uuid)) else r
  }

  /** Every row as a scan leaves it. */
  function RescoreAll(rows: seq<PasswordRevision>, score: Uuid -> int): (rows': seq<PasswordRevision>)
    ensures |rows'| == |rows|
    ensures forall k :: 0 <= k < |rows| ==> rows'[k] == Rescore(rows[k], score)
  {
    seq(|rows|, k requires 0 <= k < |rows| => Rescore(rows[k], score))
  }

  /** What the scan touches: the table, the per-user counter and its key
      order, and the calls made. */
  datatype ScanState = ScanState(rows: seq<PasswordRevision>, bad: map<string, nat>, users: seq<string>, log: seq<Event>)

  /** One pass of the scan loop over revision `r`. */
  function Step(st: ScanState, r: PasswordRevision, score: Uuid -> int, current: map<Uuid, Uuid>): ScanState {
    var scored := st.log + [Scored(r.uuid)];
    if score(r.uuid) == r.status then st.(log := scored)
    else
      var updated := r.(status := score(r.uuid));
      var (b, us) := Credit(st.bad, st.users, updated, current);
      ScanState(Replace(st.rows, updated), b, us, scored + [Persisted(updated)])
  }

  /** The scan loop over `revs`, pass by pass. */
  function ScanFrom(st: ScanState, revs: seq<PasswordRevision>, score: Uuid -> int, current: map<Uuid, Uuid>): ScanState {
    if revs == [] then st
    else Step(ScanFrom(st, revs[..|revs| - 1], score, current), revs[|revs| - 1], score, current)
  }

  /** What the scan loop calls, per revision: the scorer, then `update` for a
      change. */
  function ScanLog(revs: seq<PasswordRevision>, score: Uuid -> int): seq<Event> {
    if revs == [] then []
    else
      var last := revs[|revs| - 1];
      ScanLog(revs[..|revs| - 1], score)
      + [Scored(last.uuid)]
      + (if score(last.uuid) != last.status then [Persisted(last.(status := score(last.uuid)))] else [])
  }

  /** The uuids of `revs`, in order. */
  function UuidsOf(revs: seq<PasswordRevision>): (us: seq<Uuid>)
    ensures |us| == |revs|
  {
    if revs == [] then [] else UuidsOf(revs[..|revs| - 1]) + [revs[|revs| - 1].uuid]
  }

  /** The revisions scored, in order. */
  function ScoredUuids(log: seq<Event>): seq<Uuid> {
    if log == [] then []
    else ScoredUuids(log[..|log| - 1]) + (if log[|log| - 1].Scored? then [log[|log| - 1].uuid] else [])
  }

  /** The revisions written back, in order. */
  function Writes(log: seq<Event>): seq<PasswordRevision> {
    if log == [] then []
    else Writes(log[..|log| - 1]) + (if log[|log| - 1].Persisted? then [log[|log| - 1].rev] else [])
  }

  /** The per-user counter: keys in first-insertion order, every count at least 1. */
  predicate CountsValid(bad: map<string, nat>, users: seq<string>) {
    && (forall u :: u in bad ==> bad[u] >= 1)
    && (forall u :: u in bad ==> u in users)
    && (forall u :: u in users ==> u in bad)
    && (forall i, j :: 0 <= i < j < |users| ==> users[i] != users[j])
  }

  /** One user's count, 0 when the user has none yet. */
  function CountOf(bad: map<string, nat>, u: string): nat {
    if u in bad then bad[u] else 0
  }

  /** Whether the changed revision is the current revision of its model; a
      model without a current revision throws, which the job swallows. */
  predicate IsCurrent(current: map<Uuid, Uuid>, r: PasswordRevision) {
    r.model in current && current[r.model] == r.uuid
  }

  /** The per-user counter after crediting changes `cs`. */
  function Tally(bad: map<string, nat>, users: seq<string>, cs: seq<PasswordRevision>, current: map<Uuid, Uuid>)
    : (map<string, nat>, seq<string>)
  {
    if cs == [] then (bad, users)
    else
      var (b, us) := Tally(bad, users, cs[..|cs| - 1], current);
      Credit(b, us, cs[|cs| - 1], current)
  }

  /** `sendBadPasswordNotification`: one more for the revision's user when it
      is current; a new user starts at 1 and goes last in key order. */
  function Credit(bad: map<string, nat>, users: seq<string>, r: PasswordRevision, current: map<Uuid, Uuid>)
    : (map<string, nat>, seq<string>)
  {
    if !IsCurrent(current, r) then (bad, users)
    else if r.userId in bad then (bad[r.userId := bad[r.userId] + 1], users)
    else (bad[r.userId := 1], users + [r.userId])
  }

  /** The changes of `cs` that credit user `u`. */
  function Hits(cs: seq<PasswordRevision>, current: map<Uuid, Uuid>, u: string): nat {
    if cs == [] then 0
    else Hits(cs[..|cs| - 1], current, u) + (if IsCurrent(current, cs[|cs| - 1]) && cs[|cs| - 1].userId == u then 1 else 0)
  }

  /** The changes of `cs` that credit anyone. */
  function TotalHits(cs: seq<PasswordRevision>, current: map<Uuid, Uuid>): nat {
    if cs == [] then 0
    else TotalHits(cs[..|cs| - 1], current) + (if IsCurrent(current, cs[|cs| - 1]) then 1 else 0)
  }

  /** The sum of the counts of `users`. */
  function Total(bad: map<string, nat>, users: seq<string>): nat {
    if users == [] then 0
    else Total(bad, users[..|users| - 1]) + CountOf(bad, users[|users| - 1])
  }

  /** What `notifyUsers` sends to one user: the notification, then the mail,
      both with the user's count; a failed notification skips the mail. */
  function UserSends(u: string, n: nat, env: Env): seq<Event> {
    [Notified(u, n)] + (if env.notifyFails(u, n) then [] else [Mailed(u, n)])
  }

  /** `notifyUsers`: the sends of every user, in key order. */
  function Dispatch(bad: map<string, nat>, users: seq<string>, env: Env): seq<Event> {
    if users == [] then []
    else
      var u := users[|users| - 1];
      Dispatch(bad, users[..|users| - 1], env) + UserSends(u, CountOf(bad, u), env)
  }

  /** One more user extends the dispatch by that user's sends. */
  lemma DispatchStep(bad: map<string, nat>, users: seq<string>, i: nat, env: Env)
    requires i < |users|
    ensures Dispatch(bad, users[..i + 1], env)
            == Dispatch(bad, users[..i], env) + UserSends(users[i], CountOf(bad, users[i]), env)
  {
    assert users[..i + 1][..i] == users[..i];
  }

  /** The users notified, in order. */
  function Recipients(log: seq<Event>): seq<string> {
    if log == [] then []
    else Recipients(log[..|log| - 1]) + (if log[|log| - 1].Notified? then [log[|log| - 1].user] else [])
  }

  /** The users mailed, in order. */
  function MailRecipients(log: seq<Event>): seq<string> {
    if log == [] then []
    else MailRecipients(log[..|log| - 1]) + (if log[|log| - 1].Mailed? then [log[|log| - 1].user] else [])
  }

  /** The users whose notification goes through, in order. */
  function Delivered(bad: map<string, nat>, users: seq<string>, env: Env): seq<string> {
    if users == [] then []
    else
      var u := users[|users| - 1];
      Delivered(bad, users[..|users| - 1], env) + (if env.notifyFails(u, CountOf(bad, u)) then [] else [u])
  }

  // ---------------------------------------------------------------------------
  // The store and the job
  // ---------------------------------------------------------------------------

  /** The password revision table, and each model's current revision. */
  class RevisionMapper {
    var rows: seq<PasswordRevision>
    var current: map<Uuid, Uuid>

    predicate Valid()
      reads this
    {
      DistinctUuids(rows)
    }

    constructor(rows: seq<PasswordRevision>, current: map<Uuid, Uuid>)
      requires DistinctUuids(rows)
      ensures Valid() && this.rows == rows && this.current == current
    {
      this.rows := rows;
      this.current := current;
    }

    /** `update`: writes the revision back over the row with its uuid. */
    method Update(r: PasswordRevision)
      requires Valid()
      modifies this
      ensures Valid()
      ensures rows == Replace(old(rows), r) && current == old(current)
    {
      rows := Replace(rows, r);
    }
  }

  class CheckPasswordsJob {
    const mapper: RevisionMapper
    /** `badPasswords`: count per user, and the order its keys were added. */
    var badPasswords: map<string, nat>
    var users: seq<string>
    /** The calls made to the collaborators. */
    var log: seq<Event>

    predicate Valid()
      reads this, mapper
    {
      mapper.Valid() && CountsValid(badPasswords, users)
    }

    constructor(mapper: RevisionMapper)
      requires mapper.Valid()
      ensures Valid() && this.mapper == mapper
      ensures badPasswords == map[] && users == [] && log == []
    {
      this.mapper := mapper;
      badPasswords := map[];
      users := [];
      log := [];
    }

    /** `run`: refresh the reference database when required, then scan. A
        failing refresh throws out of the run before anything is scored. */
    method Run(env: Env) returns (completed: bool)
      requires Valid()
      modifies this, mapper
      ensures Valid()
      ensures completed <==> !(env.dbUpdateRequired && env.updateDbFails)
      ensures var revs := Matching(old(mapper.rows));
              var cs := Changes(revs, env.score);
              var (b, us) := Tally(old(badPasswords), old(users), cs, old(mapper.current));
              var refresh := if env.dbUpdateRequired then [DbUpdated] else [];
              if completed then
                && mapper.rows == ApplyAll(old(mapper.rows), cs)
                && badPasswords == b && users == us
                && log == old(log) + refresh + ScanLog(revs, env.score) + Dispatch(b, us, env)
              else
                && mapper.rows == old(mapper.rows)
                && badPasswords == old(badPasswords) && users == old(users)
                && log == old(log) + refresh
      ensures mapper.current == old(mapper.current)
    {
      ghost var log0 := log;
      if env.dbUpdateRequired {
        log := log + [DbUpdated];
        if env.updateDbFails {
          return false;
        }
      }
      ghost var log1 := log;
      assert log1 == log0 + if env.dbUpdateRequired then [DbUpdated] else [];
      ghost var revs := Matching(mapper.rows);
      ghost var cs := Changes(revs, env.score);
      ghost var tally := Tally(badPasswords, users, cs, mapper.current);
      var _, _ := CheckRevisionStatus(env);
      assert log == log1 + ScanLog(revs, env.score) + Dispatch(tally.0, tally.1, env);
      completed := true;
    }

    /** `checkRevisionStatus`: rescore, persist and credit every change, then
        notify; `changed` is `badRevisionCounter`. */
    method CheckRevisionStatus(env: Env) returns (checked: nat, changed: nat)
      requires Valid()
      modifies this, mapper
      ensures Valid()
      ensures var revs := Matching(old(mapper.rows));
              var cs := Changes(revs, env.score);
              var (b, us) := Tally(old(badPasswords), old(users), cs, old(mapper.current));
              && checked == |revs| && changed == |cs|
              && mapper.rows == ApplyAll(old(mapper.rows), cs)
              && badPasswords == b && users == us
              && log == old(log) + ScanLog(revs, env.score) + Dispatch(b, us, env)
      ensures mapper.current == old(mapper.current)
    {
      var revs := Matching(mapper.rows);
      TallyKeepsCountsValid(badPasswords, users, Changes(revs, env.score), mapper.current);
      ScanFromSummary(Snapshot(), revs, env.score, mapper.current);
      changed := Scan(revs, env);
      checked := |revs|;
      NotifyUsers(env);
    }

    /** The state the scan reads and writes. */
    function Snapshot(): ScanState
      reads this, mapper
    {
      ScanState(mapper.rows, badPasswords, users, log)
    }

    /** The scan loop over the revisions found. */
    method Scan(revs: seq<PasswordRevision>, env: Env) returns (changed: nat)
      requires mapper.Valid()
      modifies this, mapper
      ensures mapper.Valid()
      ensures mapper.current == old(mapper.current)
      ensures changed == |Changes(revs, env.score)|
      ensures Snapshot() == ScanFrom(old(Snapshot()), revs, env.score, mapper.current)
    {
      ghost var st0 := Snapshot();
      changed := 0;
      for j := 0 to |revs|
        invariant mapper.Valid()
        invariant mapper.current == old(mapper.current)
        invariant changed == |Changes(revs[..j], env.score)|
        invariant Snapshot() == ScanFrom(st0, revs[..j], env.score, mapper.current)
      {
        ScanStep(revs, j, env.score);
        assert revs[..j + 1][..j] == revs[..j];
        var wasChanged := CheckRevision(revs[j], env);
        if wasChanged {
          changed := changed + 1;
        }
      }
      assert revs[..|revs|] == revs;
    }

    /** One pass of the scan loop: score the revision and, when its status
        changes, write it back and credit its user. */
    method CheckRevision(revision: PasswordRevision, env: Env) returns (wasChanged: bool)
      requires mapper.Valid()
      modifies this, mapper
      ensures mapper.Valid()
      ensures mapper.current == old(mapper.current)
      ensures wasChanged <==> env.score(revision.uuid) != revision.status
      ensures Snapshot() == Step(old(Snapshot()), revision, env.score, mapper.current)
    {
      var oldStatus := revision.status;
      log := log + [Scored(revision.uuid)];
      var newStatus := env.score(revision.uuid);
      wasChanged := oldStatus != newStatus;
      if wasChanged {
        var updated := revision.(status := newStatus);
        mapper.Update(updated);
        log := log + [Persisted(updated)];
        SendBadPasswordNotification(updated);
      }
    }

    /** `sendBadPasswordNotification`: credits the revision's user when it is
        the current revision of its model. */
    method SendBadPasswordNotification(revision: PasswordRevision)
      modifies this
      ensures (badPasswords, users) == Credit(old(badPasswords), old(users), revision, mapper.current)
      ensures log == old(log)
    {
      if revision.model in mapper.current {
        var currentUuid := mapper.current[revision.model];
        if currentUuid == revision.uuid {
          var user := revision.userId;
          if user !in badPasswords {
            badPasswords := badPasswords[user := 1];
            users := users + [user];
          } else {
            badPasswords := badPasswords[user := badPasswords[user] + 1];
          }
        }
      }
    }

    /** `notifyUsers`: every counted user, in key order; a failing
        notification only skips that user's mail. */
    method NotifyUsers(env: Env)
      requires Valid()
      modifies this
      ensures Valid()
      ensures badPasswords == old(badPasswords) && users == old(users)
      ensures log == old(log) + Dispatch(badPasswords, users, env)
    {
      var keys, counts := users, badPasswords;
      ghost var log0 := log;
      for i := 0 to |keys|
        invariant users == keys && badPasswords == counts
        invariant log == log0 + Dispatch(counts, keys[..i], env)
      {
        var user := keys[i];
        var count := counts[user];
        ghost var sends := UserSends(user, CountOf(counts, user), env);
        DispatchStep(counts, keys, i, env);
        ghost var before := log;
        log := log + [Notified(user, count)];
        if !env.notifyFails(user, count) {
          log := log + [Mailed(user, count)];
        }
        assert log == before + sends;
      }
      assert keys[..|keys|] == keys;
    }
  }

  // ---------------------------------------------------------------------------
  // Properties
  // ---------------------------------------------------------------------------

  /** One pass of the scan extends each of the scan's reference definitions
      by that revision's contribution. */
  lemma ScanStep(revs: seq<PasswordRevision>, j: nat, score: Uuid -> int)
    requires j < |revs|
    ensures var c := revs[j];
            Changes(revs[..j + 1], score)
            == Changes(revs[..j], score) + (if score(c.uuid) != c.status then [c.(status := score(c.uuid))] else [])
  {
    assert revs[..j + 1][..j] == revs[..j];
  }

  /** The scan loop writes back exactly the status changes, credits exactly
      those that hit a current revision, and calls the scorer and `update`
      as `ScanLog` says. */
  lemma ScanFromSummary(st: ScanState, revs: seq<PasswordRevision>, score: Uuid -> int, current: map<Uuid, Uuid>)
    ensures var cs := Changes(revs, score);
            ScanFrom(st, revs, score, current)
            == ScanState(ApplyAll(st.rows, cs), Tally(st.bad, st.users, cs, current).0,
                         Tally(st.bad, st.users, cs, current).1, st.log + ScanLog(revs, score))
  {
    ScanFromRows(st, revs, score, current);
    ScanFromCounts(st, revs, score, current);
    ScanFromLog(st, revs, score, current);
  }

  lemma {:induction false} ScanFromRows(st: ScanState, revs: seq<PasswordRevision>, score: Uuid -> int,
                                        current: map<Uuid, Uuid>)
    ensures ScanFrom(st, revs, score, current).rows == ApplyAll(st.rows, Changes(revs, score))
  {
    if revs != [] {
      var init := revs[..|revs| - 1];
      var c := revs[|revs| - 1];
      ScanFromRows(st, init, score, current);
      var cs := Changes(init, score);
      if score(c.uuid) != c.status {
        var updated := c.(status := score(c.uuid));
        assert Changes(revs, score) == cs + [updated];
        assert (cs + [updated])[..|cs|] == cs;
      } else {
        assert Changes(revs, score) == cs;
      }
    }
  }

  lemma {:induction false} ScanFromCounts(st: ScanState, revs: seq<PasswordRevision>, score: Uuid -> int,
                                          current: map<Uuid, Uuid>)
    ensures var after := ScanFrom(st, revs, score, current);
            (after.bad, after.users) == Tally(st.bad, st.users, Changes(revs, score), current)
  {
    if revs != [] {
      var init := revs[..|revs| - 1];
      var c := revs[|revs| - 1];
      ScanFromCounts(st, init, score, current);
      var cs := Changes(init, score);
      if score(c.uuid) != c.status {
        var updated := c.(status := score(c.uuid));
        assert Changes(revs, score) == cs + [updated];
        assert (cs + [updated])[..|cs|] == cs;
      } else {
        assert Changes(revs, score) == cs;
      }
    }
  }

  lemma {:induction false} ScanFromLog(st: ScanState, revs: seq<PasswordRevision>, score: Uuid -> int,
                                       current: map<Uuid, Uuid>)
    ensures ScanFrom(st, revs, score, current).log == st.log + ScanLog(revs, score)
  {
    if revs != [] {
      var init := revs[..|revs| - 1];
      ScanFromLog(st, init, score, current);
    }
  }

  /** Only revisions whose status is not 2 are scanned, and each of them is. */
  lemma {:induction false} MatchingMembers(rows: seq<PasswordRevision>)
    ensures forall r :: r in Matching(rows) <==> r in rows && r.status != SkippedStatus
  {
    if rows != [] {
      var init := rows[..|rows| - 1];
      MatchingMembers(init);
      LastSplit(rows);
    }
  }

  /** Every revision scanned is scored, once and in order. */
  lemma {:induction false} ScanLogScoresAll(revs: seq<PasswordRevision>, score: Uuid -> int)
    ensures ScoredUuids(ScanLog(revs, score)) == UuidsOf(revs)
  {
    if revs != [] {
      var init := revs[..|revs| - 1];
      var last := revs[|revs| - 1];
      ScanLogScoresAll(init, score);
      var tail := if score(last.uuid) != last.status then [Persisted(last.(status := score(last.uuid)))] else [];
      ScoredSplit(ScanLog(init, score) + [Scored(last.uuid)], tail);
      ScoredSplit(ScanLog(init, score), [Scored(last.uuid)]);
      assert ScoredUuids([Scored(last.uuid)]) == [last.uuid];
      assert ScoredUuids(tail) == [] by {
        if tail != [] {
          assert tail[..0] == [];
        }
      }
    }
  }

  /** Exactly the status changes are written back, in order, holding their
      new status. */
  lemma {:induction false} ScanLogWritesChanges(revs: seq<PasswordRevision>, score: Uuid -> int)
    ensures Writes(ScanLog(revs, score)) == Changes(revs, score)
  {
    if revs != [] {
      var init := revs[..|revs| - 1];
      var last := revs[|revs| - 1];
      ScanLogWritesChanges(init, score);
      var tail := if score(last.uuid) != last.status then [Persisted(last.(status := score(last.uuid)))] else [];
      WritesSplit(ScanLog(init, score) + [Scored(last.uuid)], tail);
      WritesSplit(ScanLog(init, score), [Scored(last.uuid)]);
      assert Writes([Scored(last.uuid)]) == [] by {
        assert [Scored(last.uuid)][..0] == [];
      }
      if tail != [] {
        assert tail[..0] == [];
      }
    }
  }

  lemma {:induction false} ScoredSplit(a: seq<Event>, b: seq<Event>)
    ensures ScoredUuids(a + b) == ScoredUuids(a) + ScoredUuids(b)
  {
    if b == [] {
      assert a + b == a;
    } else {
      var init := b[..|b| - 1];
      ScoredSplit(a, init);
      assert (a + b)[..|a + b| - 1] == a + init;
    }
  }

  lemma {:induction false} WritesSplit(a: seq<Event>, b: seq<Event>)
    ensures Writes(a + b) == Writes(a) + Writes(b)
  {
    if b == [] {
      assert a + b == a;
    } else {
      var init := b[..|b| - 1];
      WritesSplit(a, init);
      assert (a + b)[..|a + b| - 1] == a + init;
    }
  }

  lemma {:induction false} RecipientsSplit(a: seq<Event>, b: seq<Event>)
    ensures Recipients(a + b) == Recipients(a) + Recipients(b)
  {
    if b == [] {
      assert a + b == a;
    } else {
      var init := b[..|b| - 1];
      RecipientsSplit(a, init);
      assert (a + b)[..|a + b| - 1] == a + init;
    }
  }

  lemma {:induction false} MailRecipientsSplit(a: seq<Event>, b: seq<Event>)
    ensures MailRecipients(a + b) == MailRecipients(a) + MailRecipients(b)
  {
    if b == [] {
      assert a + b == a;
    } else {
      var init := b[..|b| - 1];
      MailRecipientsSplit(a, init);
      assert (a + b)[..|a + b| - 1] == a + init;
    }
  }

  /** A status change is recorded exactly when the score differs, whatever
      the direction of the change. */
  lemma {:induction false} ChangesAreStatusChanges(revs: seq<PasswordRevision>, score: Uuid -> int)
    ensures forall c :: c in Changes(revs, score) <==>
              exists i :: 0 <= i < |revs| && score(revs[i].uuid) != revs[i].status
                          && c == revs[i].(status := score(revs[i].uuid))
  {
    if revs != [] {
      var init := revs[..|revs| - 1];
      ChangesAreStatusChanges(init, score);
      forall i | 0 <= i < |init| ensures init[i] == revs[i] { }
    }
  }

  lemma ChangesAppend(a: seq<PasswordRevision>, b: seq<PasswordRevision>, score: Uuid -> int)
    requires |b| <= 1
    ensures Changes(a + b, score) == Changes(a, score) + Changes(b, score)
  {
    if b != [] {
      assert (a + b)[..|a + b| - 1] == a;
      assert b[..0] == [];
    } else {
      assert a + b == a;
    }
  }

  lemma {:induction false} ChangesUuids(revs: seq<PasswordRevision>, score: Uuid -> int)
    ensures forall c :: c in Changes(revs, score) ==> exists i :: 0 <= i < |revs| && revs[i].uuid == c.uuid
  {
    if revs != [] {
      var init := revs[..|revs| - 1];
      ChangesUuids(init, score);
      forall i | 0 <= i < |init| ensures init[i] == revs[i] { }
    }
  }

  /** Updates that name none of the appended row leave it alone. */
  lemma {:induction false} ApplyAllAppendRow(rows: seq<PasswordRevision>, x: PasswordRevision, cs: seq<PasswordRevision>)
    requires forall c :: c in cs ==> c.uuid != x.uuid
    ensures ApplyAll(rows + [x], cs) == ApplyAll(rows, cs) + [x]
  {
    if cs != [] {
      ApplyAllAppendRow(rows, x, cs[..|cs| - 1]);
    }
  }

  /** The updates of a scan of the rows before `x` never name `x`. */
  lemma EarlierChangesAvoid(init: seq<PasswordRevision>, x: PasswordRevision, score: Uuid -> int)
    requires DistinctUuids(init + [x])
    ensures forall c :: c in Changes(Matching(init), score) ==> c.uuid != x.uuid
  {
    var m := Matching(init);
    ChangesUuids(m, score);
    MatchingMembers(init);
    forall c | c in Changes(m, score) ensures c.uuid != x.uuid {
      var i :| 0 <= i < |m| && m[i].uuid == c.uuid;
      assert m[i] in init;
      var j :| 0 <= j < |init| && init[j] == m[i];
      assert (init + [x])[j] == init[j] && (init + [x])[|init|] == x;
    }
  }

  /** After the scan every row whose status is not 2 holds its score and no
      other row changes. */
  lemma {:induction false} ScanRescores(rows: seq<PasswordRevision>, score: Uuid -> int)
    requires DistinctUuids(rows)
    ensures ApplyAll(rows, Changes(Matching(rows), score)) == RescoreAll(rows, score)
  {
    if rows != [] {
      var init := rows[..|rows| - 1];
      var x := rows[|rows| - 1];
      LastSplit(rows);
      ScanRescores(init, score);
      var m := Matching(init);
      var xs := if x.status != SkippedStatus then [x] else [];
      assert Matching(rows) == m + xs;
      ChangesAppend(m, xs, score);
      var cs := Changes(m, score);
      EarlierChangesAvoid(init, x, score);
      ApplyAllAppendRow(init, x, cs);
      var base := RescoreAll(init, score);
      ApplyAllSnoc(rows, cs, Changes(xs, score));
      LastRescore(init, x, score, base, cs);
    }
  }

  lemma LastRescore(init: seq<PasswordRevision>, x: PasswordRevision, score: Uuid -> int,
                    base: seq<PasswordRevision>, cs: seq<PasswordRevision>)
    requires DistinctUuids(init + [x])
    requires base == RescoreAll(init, score)
    ensures var xs := if x.status != SkippedStatus then [x] else [];
            (if Changes(xs, score) == [] then base + [x] else Replace(base + [x], Changes(xs, score)[0]))
            == RescoreAll(init + [x], score)
  {
    var rows := init + [x];
    var xs := if x.status != SkippedStatus then [x] else [];
    var target := RescoreAll(rows, score);
    var d := Changes(xs, score);
    if d == [] {
      assert Rescore(x, score) == x;
      assert base + [x] == target;
    } else {
      assert xs == [x];
      assert d == [x.(status := score(x.uuid))];
      var r := Replace(base + [x], d[0]);
      forall k | 0 <= k < |rows| ensures r[k] == target[k] {
        if k < |init| {
          assert rows[k] == init[k] && rows[|init|] == x;
          assert rows[k].uuid != x.uuid;
          assert (base + [x])[k] == base[k];
        }
      }
    }
  }

  /** Applying at most one more update after `cs`. */
  lemma ApplyAllSnoc(rows: seq<PasswordRevision>, cs: seq<PasswordRevision>, d: seq<PasswordRevision>)
    requires |d| <= 1
    ensures ApplyAll(rows, cs + d) == if d == [] then ApplyAll(rows, cs) else Replace(ApplyAll(rows, cs), d[0])
  {
    if d == [] {
      assert cs + d == cs;
    } else {
      assert (cs + d)[..|cs + d| - 1] == cs;
    }
  }

  /** A revision whose status already equals its score is not changed. */
  lemma {:induction false} NoChangesWhenScored(revs: seq<PasswordRevision>, score: Uuid -> int)
    requires forall i :: 0 <= i < |revs| ==> revs[i].status == score(revs[i].uuid)
    ensures Changes(revs, score) == []
  {
    if revs != [] {
      NoChangesWhenScored(revs[..|revs| - 1], score);
    }
  }

  /** Rescanning with the same scorer changes nothing. */
  lemma SecondScanChangesNothing(rows: seq<PasswordRevision>, score: Uuid -> int)
    requires DistinctUuids(rows)
    ensures Changes(Matching(ApplyAll(rows, Changes(Matching(rows), score))), score) == []
  {
    ScanRescores(rows, score);
    RescoredRowsAreSettled(rows, score);
  }

  /** Every row a scan leaves with a status other than 2 already holds its score. */
  lemma {:induction false} RescoredRowsAreSettled(rows: seq<PasswordRevision>, score: Uuid -> int)
    ensures Changes(Matching(RescoreAll(rows, score)), score) == []
  {
    if rows != [] {
      var init := rows[..|rows| - 1];
      var all := RescoreAll(rows, score);
      var last := all[|all| - 1];
      assert all[..|all| - 1] == RescoreAll(init, score);
      RescoredRowsAreSettled(init, score);
      var xs := if last.status != SkippedStatus then [last] else [];
      assert Matching(all) == Matching(RescoreAll(init, score)) + xs;
      ChangesAppend(Matching(RescoreAll(init, score)), xs, score);
      if xs != [] {
        assert xs[..0] == [];
        assert Changes(xs, score) == [];
      }
    }
  }

  /** Crediting keeps every count at least 1 and the key order duplicate-free. */
  lemma {:induction false} TallyKeepsCountsValid(bad: map<string, nat>, users: seq<string>,
                                                 cs: seq<PasswordRevision>, current: map<Uuid, Uuid>)
    requires CountsValid(bad, users)
    ensures CountsValid(Tally(bad, users, cs, current).0, Tally(bad, users, cs, current).1)
  {
    if cs != [] {
      TallyKeepsCountsValid(bad, users, cs[..|cs| - 1], current);
    }
  }

  /** A user's count grows by exactly the changes that hit a current revision
      of theirs. */
  lemma {:induction false} TallyCounts(bad: map<string, nat>, users: seq<string>,
                                       cs: seq<PasswordRevision>, current: map<Uuid, Uuid>, u: string)
    ensures CountOf(Tally(bad, users, cs, current).0, u) == CountOf(bad, u) + Hits(cs, current, u)
  {
    if cs != [] {
      TallyCounts(bad, users, cs[..|cs| - 1], current, u);
    }
  }

  /** A user's credited changes are at most all the credited changes, which
      are at most all the changes. */
  lemma {:induction false} HitsBounded(cs: seq<PasswordRevision>, current: map<Uuid, Uuid>, u: string)
    ensures Hits(cs, current, u) <= TotalHits(cs, current) <= |cs|
  {
    if cs != [] {
      HitsBounded(cs[..|cs| - 1], current, u);
    }
  }

  /** Summed over all users, the counts grow by exactly the credited changes,
      so by no more than `badRevisionCounter`. */
  lemma {:induction false} TallyTotal(bad: map<string, nat>, users: seq<string>,
                                      cs: seq<PasswordRevision>, current: map<Uuid, Uuid>)
    requires CountsValid(bad, users)
    ensures var (b, us) := Tally(bad, users, cs, current);
            Total(b, us) == Total(bad, users) + TotalHits(cs, current)
    ensures TotalHits(cs, current) <= |cs|
  {
    HitsBounded(cs, current, "");
    if cs != [] {
      var init := cs[..|cs| - 1];
      TallyTotal(bad, users, init, current);
      TallyKeepsCountsValid(bad, users, init, current);
      var (b, us) := Tally(bad, users, init, current);
      var r := cs[|cs| - 1];
      if IsCurrent(current, r) {
        if r.userId in b {
          TotalBump(b, us, r.userId);
        } else {
          TotalOther(b, us, r.userId, 1);
          assert (us + [r.userId])[..|us|] == us;
        }
      }
    }
  }

  /** Changing the count of a user outside `users` leaves their total alone. */
  lemma {:induction false} TotalOther(bad: map<string, nat>, users: seq<string>, u: string, n: nat)
    requires u !in users
    ensures Total(bad[u := n], users) == Total(bad, users)
  {
    if users != [] {
      TotalOther(bad, users[..|users| - 1], u, n);
    }
  }

  /** Adding one to a listed user's count adds one to the total. */
  lemma {:induction false} TotalBump(bad: map<string, nat>, users: seq<string>, u: string)
    requires u in bad && u in users
    requires forall i, j :: 0 <= i < j < |users| ==> users[i] != users[j]
    ensures Total(bad[u := bad[u] + 1], users) == Total(bad, users) + 1
  {
    var init := users[..|users| - 1];
    var last := users[|users| - 1];
    if last == u {
      assert u !in init by {
        forall i | 0 <= i < |init| ensures init[i] != u {
          assert init[i] == users[i];
        }
      }
      TotalOther(bad, init, u, bad[u] + 1);
    } else {
      assert u in init by {
        var i :| 0 <= i < |users| && users[i] == u;
        assert init[i] == u;
      }
      TotalBump(bad, init, u);
    }
  }

  /** Every counted user is notified exactly once, in key order. */
  lemma {:induction false} DispatchNotifiesEachUserOnce(bad: map<string, nat>, users: seq<string>, env: Env)
    ensures Recipients(Dispatch(bad, users, env)) == users
  {
    if users != [] {
      var init := users[..|users| - 1];
      var u := users[|users| - 1];
      var sends := UserSends(u, CountOf(bad, u), env);
      assert Dispatch(bad, users, env) == Dispatch(bad, init, env) + sends;
      DispatchNotifiesEachUserOnce(bad, init, env);
      RecipientsSplit(Dispatch(bad, init, env), sends);
      UserSendsRecipients(u, CountOf(bad, u), env);
      assert Recipients(Dispatch(bad, users, env)) == init + [u];
      LastSplit(users);
    }
  }

  /** One user's sends: one notification, and a mail unless it failed. */
  lemma UserSendsRecipients(u: string, n: nat, env: Env)
    ensures Recipients(UserSends(u, n, env)) == [u]
    ensures MailRecipients(UserSends(u, n, env)) == if env.notifyFails(u, n) then [] else [u]
  {
    var note := [Notified(u, n)];
    assert note[..0] == [];
    assert Recipients(note) == [u];
    assert MailRecipients(note) == [];
    if !env.notifyFails(u, n) {
      var sends := UserSends(u, n, env);
      assert sends[..1] == note;
    }
  }

  /** The mail goes exactly to the users whose notification went through, in
      key order. */
  lemma {:induction false} DispatchMailsDelivered(bad: map<string, nat>, users: seq<string>, env: Env)
    ensures MailRecipients(Dispatch(bad, users, env)) == Delivered(bad, users, env)
  {
    if users != [] {
      var init := users[..|users| - 1];
      var u := users[|users| - 1];
      var sends := UserSends(u, CountOf(bad, u), env);
      assert Dispatch(bad, users, env) == Dispatch(bad, init, env) + sends;
      DispatchMailsDelivered(bad, init, env);
      MailRecipientsSplit(Dispatch(bad, init, env), sends);
      UserSendsRecipients(u, CountOf(bad, u), env);
    }
  }

  /** A user's mail is delivered exactly when their notification does not
      fail. */
  lemma {:induction false} DeliveredMembers(bad: map<string, nat>, users: seq<string>, env: Env)
    ensures forall u :: u in Delivered(bad, users, env) <==> u in users && !env.notifyFails(u, CountOf(bad, u))
  {
    if users != [] {
      var init := users[..|users| - 1];
      DeliveredMembers(bad, init, env);
      LastSplit(users);
    }
  }

  /** Every notification and mail carries the user's count. */
  lemma {:induction false} DispatchCarriesCounts(bad: map<string, nat>, users: seq<string>, env: Env)
    ensures forall e :: e in Dispatch(bad, users, env) ==>
              (e.Notified? || e.Mailed?) && e.user in users && e.count == CountOf(bad, e.user)
  {
    if users != [] {
      var init := users[..|users| - 1];
      DispatchCarriesCounts(bad, init, env);
      LastSplit(users);
    }
  }

  /** `badPasswords` is never cleared: a second run of the same job with the
      same scorer finds no change, yet sends every counted user the same
      notification and mail again. */
  lemma SecondRunRepeatsNotifications(rows: seq<PasswordRevision>, bad: map<string, nat>, users: seq<string>,
                                      current: map<Uuid, Uuid>, env: Env)
    requires DistinctUuids(rows)
    ensures var cs1 := Changes(Matching(rows), env.score);
            var (b1, us1) := Tally(bad, users, cs1, current);
            var cs2 := Changes(Matching(ApplyAll(rows, cs1)), env.score);
            var (b2, us2) := Tally(b1, us1, cs2, current);
            && cs2 == []
            && Dispatch(b2, us2, env) == Dispatch(b1, us1, env)
            && Recipients(Dispatch(b2, us2, env)) == us1
  {
    SecondScanChangesNothing(rows, env.score);
    var cs1 := Changes(Matching(rows), env.score);
    var (b1, us1) := Tally(bad, users, cs1, current);
    DispatchNotifiesEachUserOnce(b1, us1, env);
  }
}
