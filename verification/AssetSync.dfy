/** Transferring a model file to a remote host without ever destroying one: prepare, upload and
    commit, with an interruption possible at every step. */
module AssetSync {
  import opened Results

  /** The two hashes of the protocol: of a file's contents, and of a plan's size and file hash. */
  datatype Digests = Digests(content: string -> string, plan: (nat, string) -> string)

  ghost predicate Collisionless(d: Digests) {
    forall a, b :: d.content(a) == d.content(b) ==> a == b
  }

  datatype Plan = Plan(size: nat, sha: string, token: string)

  function BuildPlan(d: Digests, source: string): Plan {
    Plan(|source|, d.content(source), d.plan(|source|, d.content(source)))
  }

  datatype Reason = Stale | Redundant | Replaced

  /** The target file, the staged files by the first characters of their hash, and the backup
      directory, whose names carry a fresh identifier. */
  datatype Place = Target | Part(prefix: string) | Backup(reason: Reason, guid: nat)

  datatype State = State(files: map<Place, string>, guids: nat)

  predicate WellFormed(s: State) {
    forall p :: p in s.files && p.Backup? ==> p.guid < s.guids
  }

  function Staged(plan: Plan): Place {
    Part(if |plan.sha| <= 16 then plan.sha else plan.sha[..16])
  }

  predicate Matches(d: Digests, content: string, plan: Plan) {
    |content| == plan.size && d.content(content) == plan.sha
  }

  predicate Current(d: Digests, s: State, plan: Plan) {
    Target in s.files && Matches(d, s.files[Target], plan)
  }

  /** Renames a file to a fresh name of the backup directory. */
  function SetAside(s: State, from: Place, reason: Reason): State
    requires from in s.files
  {
    State((s.files - {from})[Backup(reason, s.guids) := s.files[from]], s.guids + 1)
  }

  function Prepared(s: State, plan: Plan): State {
    if Staged(plan) in s.files then SetAside(s, Staged(plan), Stale) else s
  }

  /** What the transfer leaves in the staged place: the whole file, a part of it, anything. */
  function Uploaded(s: State, plan: Plan, landed: string): State {
    s.(files := s.files[Staged(plan) := landed])
  }

  predicate Committable(d: Digests, s: State, plan: Plan) {
    Staged(plan) in s.files && Matches(d, s.files[Staged(plan)], plan)
  }

  function Committed(d: Digests, s: State, plan: Plan): State {
    if !Committable(d, s, plan) then s
    else if Target in s.files && d.content(s.files[Target]) == plan.sha then SetAside(s, Staged(plan), Redundant)
    else
      var cleared := if Target in s.files then SetAside(s, Target, Replaced) else s;
      cleared.(files := (cleared.files - {Staged(plan)})[Target := s.files[Staged(plan)]])
  }

  /** How a remote step ends: done, or interrupted before or after its effect. */
  datatype Fate = Done | Before | After

  /** One call: what the caller asks for, and what befalls the steps. */
  datatype Attempt = Attempt(source: string, apply: bool, confirmation: string,
                             queryFails: bool, prepare: Fate, landed: Option<string>, uploadFails: bool, commit: Fate)

  datatype Report = AlreadyCurrent | DryRun | Applied | Refused | Failed

  /** The upload of an attempt is reached. */
  predicate Uploads(d: Digests, s: State, a: Attempt) {
    var plan := BuildPlan(d, a.source);
    !a.queryFails && !Current(d, s, plan) && a.apply && a.confirmation == plan.token && a.prepare.Done?
  }

  /** The whole effect of one attempt and what it reports. */
  function Sync(d: Digests, s: State, a: Attempt): (State, Report) {
    var plan := BuildPlan(d, a.source);
    if a.queryFails then (s, Failed)
    else if Current(d, s, plan) then (s, AlreadyCurrent)
    else if !a.apply then (s, DryRun)
    else if a.confirmation != plan.token then (s, Refused)
    else if a.prepare.Before? then (s, Failed)
    else
      var prepared := Prepared(s, plan);
      if a.prepare.After? then (prepared, Failed)
      else
        var uploaded := if a.landed.Some? then Uploaded(prepared, plan, a.landed.value) else prepared;
        if a.uploadFails || a.commit.Before? then (uploaded, Failed)
        else
          (Committed(d, uploaded, plan), if a.commit.Done? && Committable(d, uploaded, plan) then Applied else Failed)
  }

  function Run(d: Digests, s: State, attempts: seq<Attempt>): State
    decreases |attempts|
  {
    if attempts == [] then s
    else Sync(d, Run(d, s, attempts[..|attempts| - 1]), attempts[|attempts| - 1]).0
  }

  // ---- the remote host and the driver ----

  class RemoteHost {
    const digests: Digests
    var files: map<Place, string>
    var guids: nat

    constructor (digests: Digests, files: map<Place, string>, guids: nat)
      ensures this.digests == digests && Now() == State(files, guids)
    {
      this.digests, this.files, this.guids := digests, files, guids;
    }

    function Now(): State
      reads this
    {
      State(files, guids)
    }

    method Move(from: Place, to: Place)
      requires from in files
      modifies this`files
      ensures files == (old(files) - {from})[to := old(files)[from]]
    {
      var content := files[from];
      files := files - {from};
      files := files[to := content];
    }

    method Prepare(plan: Plan)
      modifies this
      ensures Now() == Prepared(old(Now()), plan)
    {
      if Staged(plan) in files {
        Move(Staged(plan), Backup(Stale, guids));
        guids := guids + 1;
      }
    }

    method Receive(plan: Plan, landed: string)
      modifies this
      ensures Now() == Uploaded(old(Now()), plan, landed)
    {
      files := files[Staged(plan) := landed];
    }

    /** The commit script: refuses a missing or wrong staged file, sets a redundant one aside,
        and otherwise replaces the target, keeping what it displaces. */
    method Commit(plan: Plan) returns (ok: bool)
      modifies this
      ensures Now() == Committed(digests, old(Now()), plan)
      ensures ok == Committable(digests, old(Now()), plan)
    {
      if Staged(plan) !in files {
        return false;
      }
      if |files[Staged(plan)]| != plan.size || digests.content(files[Staged(plan)]) != plan.sha {
        return false;
      }
      if Target in files {
        if digests.content(files[Target]) == plan.sha {
          Move(Staged(plan), Backup(Redundant, guids));
          guids := guids + 1;
          return true;
        }
        Move(Target, Backup(Replaced, guids));
        guids := guids + 1;
      }
      Move(Staged(plan), Target);
      return true;
    }
  }

  /** One call of the driver against the host. */
  method SyncRemoteModel(host: RemoteHost, a: Attempt) returns (report: Report)
    modifies host
    ensures (host.Now(), report) == Sync(host.digests, old(host.Now()), a)
  {
    var plan := BuildPlan(host.digests, a.source);
    if a.queryFails {
      return Failed;
    }
    if Current(host.digests, host.Now(), plan) {
      return AlreadyCurrent;
    }
    if !a.apply {
      return DryRun;
    }
    if a.confirmation != plan.token {
      return Refused;
    }
    if a.prepare.Before? {
      return Failed;
    }
    host.Prepare(plan);
    if a.prepare.After? {
      return Failed;
    }
    if a.landed.Some? {
      host.Receive(plan, a.landed.value);
    }
    if a.uploadFails || a.commit.Before? {
      return Failed;
    }
    var ok := host.Commit(plan);
    report := if a.commit.Done? && ok then Applied else Failed;
  }

  // ---- nothing is lost ----

  /** How many files hold this content. */
  ghost function Copies(files: map<Place, string>, content: string): nat {
    |set p | p in files && files[p] == content|
  }

  lemma MoveKeepsCopies(files: map<Place, string>, from: Place, to: Place, content: string)
    requires from in files && to !in files
    ensures Copies((files - {from})[to := files[from]], content) == Copies(files, content)
  {
    var after := (files - {from})[to := files[from]];
    var before := set p | p in files && files[p] == content;
    var now := set p | p in after && after[p] == content;
    if files[from] == content {
      assert now == before - {from} + {to};
    } else {
      assert now == before;
    }
  }

  lemma AddCopy(files: map<Place, string>, to: Place, added: string, content: string)
    requires to !in files
    ensures Copies(files[to := added], content) == Copies(files, content) + if added == content then 1 else 0
  {
    var after := files[to := added];
    var before := set p | p in files && files[p] == content;
    var now := set p | p in after && after[p] == content;
    assert now == if added == content then before + {to} else before;
  }

  lemma SetAsideKeeps(s: State, from: Place, reason: Reason, content: string)
    requires WellFormed(s) && from in s.files
    ensures WellFormed(SetAside(s, from, reason))
    ensures Copies(SetAside(s, from, reason).files, content) == Copies(s.files, content)
  {
    assert Backup(reason, s.guids) !in s.files;
    MoveKeepsCopies(s.files, from, Backup(reason, s.guids), content);
  }

  lemma PreparedKeeps(s: State, plan: Plan, content: string)
    requires WellFormed(s)
    ensures WellFormed(Prepared(s, plan)) && Staged(plan) !in Prepared(s, plan).files
    ensures Copies(Prepared(s, plan).files, content) == Copies(s.files, content)
  {
    if Staged(plan) in s.files {
      SetAsideKeeps(s, Staged(plan), Stale, content);
    }
  }

  lemma CommittedKeeps(d: Digests, s: State, plan: Plan, content: string)
    requires WellFormed(s)
    ensures WellFormed(Committed(d, s, plan))
    ensures Copies(Committed(d, s, plan).files, content) == Copies(s.files, content)
  {
    if Committable(d, s, plan) {
      if Target in s.files && d.content(s.files[Target]) == plan.sha {
        SetAsideKeeps(s, Staged(plan), Redundant, content);
      } else {
        var cleared := s;
        if Target in s.files {
          SetAsideKeeps(s, Target, Replaced, content);
          cleared := SetAside(s, Target, Replaced);
        }
        MoveKeepsCopies(cleared.files, Staged(plan), Target, content);
      }
    }
  }

  /** What an attempt adds to the host: what its transfer left there. */
  function Landed(d: Digests, s: State, a: Attempt, content: string): nat {
    if Uploads(d, s, a) && a.landed == Some(content) then 1 else 0
  }

  lemma SyncKeeps(d: Digests, s: State, a: Attempt, content: string)
    requires WellFormed(s)
    ensures WellFormed(Sync(d, s, a).0)
    ensures Copies(Sync(d, s, a).0.files, content) == Copies(s.files, content) + Landed(d, s, a, content)
  {
    var plan := BuildPlan(d, a.source);
    PreparedKeeps(s, plan, content);
    var prepared := Prepared(s, plan);
    if a.landed.Some? {
      AddCopy(prepared.files, Staged(plan), a.landed.value, content);
      CommittedKeeps(d, Uploaded(prepared, plan, a.landed.value), plan, content);
    } else {
      CommittedKeeps(d, prepared, plan, content);
    }
  }

  function LandedIn(d: Digests, s: State, attempts: seq<Attempt>, content: string): nat
    decreases |attempts|
  {
    if attempts == [] then 0
    else
      var init := attempts[..|attempts| - 1];
      LandedIn(d, s, init, content) + Landed(d, Run(d, s, init), attempts[|attempts| - 1], content)
  }

  /** Over any sequence of attempts, interrupted anywhere and receiving anything, the host ends
      up holding every content exactly as often as before, plus once for each transfer that
      left it there: no file is ever overwritten or deleted. */
  lemma {:induction false} NothingIsLost(d: Digests, s: State, attempts: seq<Attempt>, content: string)
    requires WellFormed(s)
    ensures WellFormed(Run(d, s, attempts))
    ensures Copies(Run(d, s, attempts).files, content) == Copies(s.files, content) + LandedIn(d, s, attempts, content)
    decreases |attempts|
  {
    if attempts != [] {
      var init := attempts[..|attempts| - 1];
      NothingIsLost(d, s, init, content);
      SyncKeeps(d, Run(d, s, init), attempts[|attempts| - 1], content);
    }
  }

  // ---- where each file goes ----

  /** From one state to a later one: a backup stays as it is, and a target or staged file that
      is no longer in its place is in the backup directory, or is now the target. */
  predicate Accounted(before: State, p: Place, after: State)
    requires p in before.files
  {
    var content := before.files[p];
    || (p in after.files && after.files[p] == content)
    || (!p.Backup? && exists q :: q in after.files && q.Backup? && after.files[q] == content)
    || (p.Part? && Target in after.files && after.files[Target] == content)
  }

  /** Every file of the one state is accounted for in the other. */
  ghost predicate AllAccounted(before: State, after: State) {
    forall p :: p in before.files ==> Accounted(before, p, after)
  }

  lemma AccountedThrough(before: State, p: Place, mid: State, after: State)
    requires p in before.files && Accounted(before, p, mid) && AllAccounted(mid, after)
    ensures Accounted(before, p, after)
  {
  }

  lemma PreparedAccounts(s: State, plan: Plan)
    requires WellFormed(s)
    ensures AllAccounted(s, Prepared(s, plan))
  {
    if Staged(plan) in s.files {
      assert Backup(Stale, s.guids) in Prepared(s, plan).files;
    }
  }

  lemma UploadedAccounts(s: State, plan: Plan, landed: string)
    requires Staged(plan) !in s.files
    ensures AllAccounted(s, Uploaded(s, plan, landed))
  {
  }

  lemma CommittedAccounts(d: Digests, s: State, plan: Plan)
    requires WellFormed(s)
    ensures AllAccounted(s, Committed(d, s, plan))
  {
    if Committable(d, s, plan) && Target in s.files {
      assert Backup(if d.content(s.files[Target]) == plan.sha then Redundant else Replaced, s.guids)
             in Committed(d, s, plan).files;
    }
  }

  lemma SyncAccounts(d: Digests, s: State, a: Attempt, p: Place)
    requires WellFormed(s) && p in s.files
    ensures Accounted(s, p, Sync(d, s, a).0)
  {
    var plan := BuildPlan(d, a.source);
    var prepared := Prepared(s, plan);
    var uploaded := if a.landed.Some? then Uploaded(prepared, plan, a.landed.value) else prepared;
    PreparedKeeps(s, plan, "");
    PreparedAccounts(s, plan);
    if a.landed.Some? {
      UploadedAccounts(prepared, plan, a.landed.value);
    }
    AccountedThrough(s, p, prepared, uploaded);
    CommittedAccounts(d, uploaded, plan);
    AccountedThrough(s, p, uploaded, Committed(d, uploaded, plan));
  }

  /** The same over any sequence of attempts. */
  lemma {:induction false} RunAccounts(d: Digests, s: State, attempts: seq<Attempt>, p: Place)
    requires WellFormed(s) && p in s.files
    ensures Accounted(s, p, Run(d, s, attempts))
    decreases |attempts|
  {
    if attempts != [] {
      var init, last := attempts[..|attempts| - 1], attempts[|attempts| - 1];
      var mid := Run(d, s, init);
      NothingIsLost(d, s, init, "");
      RunAccounts(d, s, init, p);
      forall q | q in mid.files
        ensures Accounted(mid, q, Sync(d, mid, last).0)
      {
        SyncAccounts(d, mid, last, q);
      }
      AccountedThrough(s, p, mid, Run(d, s, attempts));
    }
  }

  // ---- the target ----

  predicate SameTarget(s: State, t: State) {
    && (Target in t.files <==> Target in s.files)
    && (Target in s.files ==> t.files[Target] == s.files[Target])
  }

  /** One attempt leaves the target alone or makes it its own source, which it does only when
      asked to, with the digest of this very plan. */
  lemma TargetStep(d: Digests, s: State, a: Attempt)
    requires Collisionless(d) && WellFormed(s)
    ensures var (after, report) := Sync(d, s, a);
            || SameTarget(s, after)
            || (Target in after.files && after.files[Target] == a.source
                && a.apply && a.confirmation == BuildPlan(d, a.source).token)
    ensures Sync(d, s, a).1 in {AlreadyCurrent, Applied} ==>
              Target in Sync(d, s, a).0.files && Sync(d, s, a).0.files[Target] == a.source
  {
  }

  /** The content is the source of one of the attempts that asked for it with its own plan's digest. */
  predicate AskedFor(d: Digests, attempts: seq<Attempt>, content: string) {
    exists i :: 0 <= i < |attempts| && attempts[i].source == content && attempts[i].apply
                && attempts[i].confirmation == BuildPlan(d, content).token
  }

  /** Whatever happens, the target is what it was at the start, or the whole source of some
      confirmed attempt. */
  lemma {:induction false} TargetIsAlwaysWhole(d: Digests, s: State, attempts: seq<Attempt>)
    requires Collisionless(d) && WellFormed(s)
    ensures var after := Run(d, s, attempts);
            || SameTarget(s, after)
            || (Target in after.files && AskedFor(d, attempts, after.files[Target]))
    decreases |attempts|
  {
    if attempts != [] {
      var init, last := attempts[..|attempts| - 1], attempts[|attempts| - 1];
      assert attempts == init + [last];
      TargetIsAlwaysWhole(d, s, init);
      NothingIsLost(d, s, init, "");
      TargetStep(d, Run(d, s, init), last);
    }
  }

  /** From whatever earlier attempts left behind, an uninterrupted confirmed attempt whose
      transfer is whole reaches the source; and then any further attempt for it changes nothing. */
  lemma RetryReaches(d: Digests, s: State, attempts: seq<Attempt>, a: Attempt, again: Attempt)
    requires Collisionless(d) && WellFormed(s)
    requires !a.queryFails && a.apply && a.confirmation == BuildPlan(d, a.source).token
    requires a.prepare.Done? && a.landed == Some(a.source) && !a.uploadFails && a.commit.Done?
    requires again.source == a.source
    ensures var reached := Run(d, s, attempts + [a]);
            && Target in reached.files && reached.files[Target] == a.source
            && Sync(d, Run(d, s, attempts), a).1 in {AlreadyCurrent, Applied}
            && Sync(d, reached, again).0 == reached
  {
    assert (attempts + [a])[..|attempts|] == attempts;
  }
}
