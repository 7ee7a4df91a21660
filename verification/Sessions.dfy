/** The on-disk checkpoint store: directory scans for the newest checkpoint and
    the resume list, and the suspend and kill entry points. */
module Sessions {
  import opened Wrappers
  import opened Text
  import opened Checkpoints
  import J = Journal

  // ---- Order ---------------------------------------------------------------

  /** Lexicographic order of texts. */
  predicate Before(s: string, t: string) {
    t != "" && (s == "" || s[0] < t[0] || (s[0] == t[0] && Before(s[1..], t[1..])))
  }

  lemma {:induction false} BeforeTotal(s: string, t: string)
    ensures s == t || Before(s, t) || Before(t, s)
  {
    if s != "" && t != "" && s[0] == t[0] {
      BeforeTotal(s[1..], t[1..]);
      assert s == [s[0]] + s[1..] && t == [t[0]] + t[1..];
    }
  }

  lemma {:induction false} BeforeIrreflexive(s: string)
    ensures !Before(s, s)
  {
    if s != "" {
      BeforeIrreflexive(s[1..]);
    }
  }

  lemma {:induction false} BeforeTransitive(s: string, t: string, u: string)
    requires Before(s, t) && Before(t, u)
    ensures Before(s, u)
  {
    if s != "" && s[0] == t[0] && t[0] == u[0] {
      BeforeTransitive(s[1..], t[1..], u[1..]);
    }
  }

  /** `s` comes after `t`: they agree up to a position at which `t` has ended or
      has the smaller character. */
  ghost predicate Above(s: string, t: string) {
    exists i: nat :: AboveAt(s, t, i)
  }

  ghost predicate AboveAt(s: string, t: string, i: nat) {
    i < |s| && i <= |t| && s[..i] == t[..i] && (i == |t| || s[i] > t[i])
  }

  lemma {:induction false} BeforeExactly(s: string, t: string)
    ensures Before(t, s) <==> Above(s, t)
  {
    if s != "" && t != "" && s[0] == t[0] {
      BeforeExactly(s[1..], t[1..]);
      AboveTail(s, t);
    } else if s != "" && (t == "" || s[0] > t[0]) {
      assert AboveAt(s, t, 0);
    } else {
      forall i: nat
        ensures !AboveAt(s, t, i)
      {
        if 0 < i < |s| && i <= |t| {
          assert s[..i][0] == s[0] && t[..i][0] == t[0];
        }
      }
    }
  }

  lemma AboveTail(s: string, t: string)
    requires s != "" && t != "" && s[0] == t[0]
    ensures Above(s, t) <==> Above(s[1..], t[1..])
  {
    if Above(s, t) {
      var i: nat :| AboveAt(s, t, i);
      assert s[1..][..i - 1] == s[..i][1..] && t[1..][..i - 1] == t[..i][1..];
      assert AboveAt(s[1..], t[1..], i - 1);
    }
    if Above(s[1..], t[1..]) {
      var i: nat :| AboveAt(s[1..], t[1..], i);
      assert s[..i + 1] == [s[0]] + s[1..][..i] && t[..i + 1] == [t[0]] + t[1..][..i];
      assert AboveAt(s, t, i + 1);
    }
  }

  /** `cp` started no later than `top`, and of two that started together its task
      id is not above the other's. */
  ghost predicate NoNewer(cp: Checkpoint, top: Checkpoint) {
    && cp.handle.startedAt <= top.handle.startedAt
    && (cp.handle.startedAt == top.handle.startedAt ==> !Above(cp.handle.taskId, top.handle.taskId))
  }

  /** Strictly newer: by start, then by task id. */
  predicate Newer(a: Checkpoint, b: Checkpoint) {
    a.handle.startedAt > b.handle.startedAt
    || (a.handle.startedAt == b.handle.startedAt && Before(b.handle.taskId, a.handle.taskId))
  }

  lemma NewerExactly(cp: Checkpoint, top: Checkpoint)
    ensures !Newer(cp, top) <==> NoNewer(cp, top)
  {
    BeforeExactly(cp.handle.taskId, top.handle.taskId);
  }

  lemma NewerTransitive(a: Checkpoint, b: Checkpoint, c: Checkpoint)
    ensures Newer(a, b) && Newer(b, c) ==> Newer(a, c)
    ensures !Newer(a, b) && !Newer(b, c) ==> !Newer(a, c)
  {
    var x, y, z := a.handle.taskId, b.handle.taskId, c.handle.taskId;
    if Before(y, x) && Before(z, y) {
      BeforeTransitive(z, y, x);
    }
    BeforeTotal(x, y);
    BeforeTotal(y, z);
    if Before(x, y) && Before(y, z) {
      BeforeTransitive(x, y, z);
    }
    BeforeAsymmetric(x, z);
    BeforeAsymmetric(x, y);
  }

  lemma BeforeAsymmetric(s: string, t: string)
    ensures !(Before(s, t) && Before(t, s))
  {
    if Before(s, t) && Before(t, s) {
      BeforeTransitive(s, t, s);
      BeforeIrreflexive(s);
    }
  }

  // ---- Scanning a directory ------------------------------------------------

  /** One directory entry: not a `.json` file, or one that cannot be read or
      parsed, or a checkpoint. */
  datatype File = Foreign | Unreadable | Corrupt | Stored(checkpoint: Checkpoint)

  predicate Resumable(cp: Checkpoint) {
    cp.status.Running? || cp.status.Suspended?
  }

  /** The checkpoints of the directory with a wanted status, in its order. */
  function Matching(files: seq<File>, wanted: set<SessionStatus>): seq<Checkpoint> {
    if files == [] then []
    else
      Matching(files[..|files| - 1], wanted)
      + match files[|files| - 1]
        case Stored(cp) => if cp.status in wanted then [cp] else []
        case _ => []
  }

  function Better(newest: Option<Checkpoint>, cp: Checkpoint): Option<Checkpoint> {
    if newest.None? || Newer(cp, newest.value) then Some(cp) else newest
  }

  function Newest(best: Option<Checkpoint>, cps: seq<Checkpoint>): Option<Checkpoint>
    decreases |cps|
  {
    if cps == [] then best else Newest(Better(best, cps[0]), cps[1..])
  }

  lemma {:induction false} NewestMore(best: Option<Checkpoint>, cps: seq<Checkpoint>, cp: Checkpoint)
    ensures Newest(best, cps + [cp]) == Better(Newest(best, cps), cp)
    decreases |cps|
  {
    if cps == [] {
      assert [cp][1..] == [] && [] + [cp] == [cp];
    } else {
      assert (cps + [cp])[1..] == cps[1..] + [cp];
      NewestMore(Better(best, cps[0]), cps[1..], cp);
    }
  }

  /** What every scan has to find: a wanted checkpoint if there is one, and none
      that is newer than it. */
  ghost predicate IsNewest(files: seq<File>, wanted: set<SessionStatus>, newest: Option<Checkpoint>) {
    && (newest.Some? ==> Stored(newest.value) in files && newest.value.status in wanted)
    && forall cp | Stored(cp) in files && cp.status in wanted :: newest.Some? && NoNewer(cp, newest.value)
  }

  method Latest(files: seq<File>, wanted: set<SessionStatus>) returns (newest: Option<Checkpoint>)
    ensures newest == Newest(None, Matching(files, wanted))
    ensures IsNewest(files, wanted, newest)
  {
    NewestIsNewest(files, wanted);
    hide IsNewest;
    newest := None;
    var k := 0;
    while k < |files|
      invariant 0 <= k <= |files|
      invariant newest == Newest(None, Matching(files[..k], wanted))
    {
      ghost var before := Matching(files[..k], wanted);
      assert files[..k + 1][..k] == files[..k];
      match files[k] {
        case Stored(cp) =>
          if cp.status in wanted {
            NewestMore(None, before, cp);
            if newest.None? || Newer(cp, newest.value) {
              newest := Some(cp);
            }
          } else {
            assert before + [] == before;
          }
        case _ =>
          assert before + [] == before;
      }
      k := k + 1;
    }
    assert files[..k] == files;
  }

  const RESUMABLE := {Running, Suspended}

  method ListIncomplete(files: seq<File>) returns (list: seq<Checkpoint>)
    ensures list == Sorted(Matching(files, RESUMABLE))
    ensures NewestFirst(list)
    ensures forall cp :: cp in list <==> Stored(cp) in files && (cp.status == Running || cp.status == Suspended)
  {
    var running: seq<Checkpoint> := [];
    var k := 0;
    while k < |files|
      invariant 0 <= k <= |files|
      invariant running == Matching(files[..k], RESUMABLE)
    {
      assert files[..k + 1][..k] == files[..k];
      match files[k] {
        case Stored(cp) =>
          if cp.status == Running || cp.status == Suspended {
            running := running + [cp];
          }
        case _ =>
      }
      k := k + 1;
    }
    assert files[..k] == files;
    list := Sorted(running);
    LatestIsHeadOfList(files);
  }

  // ---- The stable sort, newest first ---------------------------------------

  /** Put `cp` in front of everything that is not strictly newer. */
  function Insert(cp: Checkpoint, cps: seq<Checkpoint>): seq<Checkpoint> {
    if cps == [] || !Newer(cps[0], cp) then [cp] + cps else [cps[0]] + Insert(cp, cps[1..])
  }

  function Sorted(cps: seq<Checkpoint>): seq<Checkpoint> {
    if cps == [] then [] else Insert(cps[0], Sorted(cps[1..]))
  }

  ghost predicate Descending(cps: seq<Checkpoint>) {
    forall i, j | 0 <= i < j < |cps| :: !Newer(cps[j], cps[i])
  }

  /** Starts do not rise along the list, and of equal starts the ids do not. */
  ghost predicate NewestFirst(cps: seq<Checkpoint>) {
    forall i, j | 0 <= i < j < |cps| :: NoNewer(cps[j], cps[i])
  }

  lemma DescendingExactly(cps: seq<Checkpoint>)
    ensures Descending(cps) <==> NewestFirst(cps)
  {
    hide Newer, NoNewer;
    forall i, j | 0 <= i < j < |cps|
      ensures !Newer(cps[j], cps[i]) <==> NoNewer(cps[j], cps[i])
    {
      NewerExactly(cps[j], cps[i]);
    }
  }

  predicate SameKey(a: Checkpoint, b: Checkpoint) {
    a.handle.startedAt == b.handle.startedAt && a.handle.taskId == b.handle.taskId
  }

  lemma SameKeyExactly(a: Checkpoint, b: Checkpoint)
    ensures SameKey(a, b) <==> !Newer(a, b) && !Newer(b, a)
  {
    BeforeTotal(a.handle.taskId, b.handle.taskId);
    BeforeIrreflexive(a.handle.taskId);
  }

  /** The checkpoints with the start and the id of `key`, in order. */
  function Ties(cps: seq<Checkpoint>, key: Checkpoint): seq<Checkpoint> {
    if cps == [] then [] else (if SameKey(cps[0], key) then [cps[0]] else []) + Ties(cps[1..], key)
  }

  lemma {:induction false} InsertSorts(cp: Checkpoint, cps: seq<Checkpoint>)
    requires Descending(cps)
    ensures Descending(Insert(cp, cps))
    ensures multiset(Insert(cp, cps)) == multiset(cps) + multiset{cp}
  {
    if cps == [] || !Newer(cps[0], cp) {
      var out := [cp] + cps;
      forall i, j | 0 <= i < j < |out|
        ensures !Newer(out[j], out[i])
      {
        if i == 0 && j > 1 {
          assert !Newer(cps[j - 1], cps[0]);
          NewerTransitive(cps[j - 1], cps[0], cp);
        }
      }
    } else {
      var rest := Insert(cp, cps[1..]);
      InsertSorts(cp, cps[1..]);
      assert cps == [cps[0]] + cps[1..];
      forall j | 0 <= j < |rest|
        ensures !Newer(rest[j], cps[0])
      {
        assert rest[j] in multiset(rest);
        if rest[j] == cp {
          NewerTransitive(cp, cps[0], cp);
          NewerNotSelf(cp);
        } else {
          assert rest[j] in cps[1..];
        }
      }
    }
  }

  lemma NewerNotSelf(cp: Checkpoint)
    ensures !Newer(cp, cp)
  {
    BeforeIrreflexive(cp.handle.taskId);
  }

  lemma {:induction false} InsertKeepsTies(cp: Checkpoint, cps: seq<Checkpoint>, key: Checkpoint)
    ensures Ties(Insert(cp, cps), key) == Ties([cp] + cps, key)
  {
    assert ([cp] + cps)[1..] == cps;
    if cps != [] && Newer(cps[0], cp) {
      var rest := Insert(cp, cps[1..]);
      InsertKeepsTies(cp, cps[1..], key);
      assert ([cps[0]] + rest)[1..] == rest;
      assert ([cp] + cps[1..])[1..] == cps[1..];
      SameKeyExactly(cps[0], cp);
    }
  }

  lemma {:induction false} SortedTies(cps: seq<Checkpoint>, key: Checkpoint)
    ensures Ties(Sorted(cps), key) == Ties(cps, key)
  {
    hide Insert, SameKey;
    if cps != [] {
      SortedTies(cps[1..], key);
      InsertKeepsTies(cps[0], Sorted(cps[1..]), key);
      assert ([cps[0]] + Sorted(cps[1..]))[1..] == Sorted(cps[1..]);
    }
  }

  lemma {:induction false} SortedDescends(cps: seq<Checkpoint>)
    ensures Descending(Sorted(cps)) && multiset(Sorted(cps)) == multiset(cps)
  {
    hide Insert, Newer;
    if cps != [] {
      SortedDescends(cps[1..]);
      InsertSorts(cps[0], Sorted(cps[1..]));
      assert cps == [cps[0]] + cps[1..];
    }
  }

  /** It is the stable sort, newest first: a descending permutation in which
      checkpoints that tie keep their order. */
  lemma SortedIsStable(cps: seq<Checkpoint>)
    ensures NewestFirst(Sorted(cps))
    ensures multiset(Sorted(cps)) == multiset(cps)
    ensures forall key :: Ties(Sorted(cps), key) == Ties(cps, key)
  {
    hide *;
    SortedDescends(cps);
    DescendingExactly(Sorted(cps));
    forall key
      ensures Ties(Sorted(cps), key) == Ties(cps, key)
    {
      SortedTies(cps, key);
    }
  }

  // ---- The two scans agree -------------------------------------------------

  function Head(cps: seq<Checkpoint>): Option<Checkpoint> {
    if cps == [] then None else Some(cps[0])
  }

  lemma {:induction false} NewestFrom(best: Checkpoint, cps: seq<Checkpoint>)
    ensures var h := Head(Sorted(cps));
            Newest(Some(best), cps) == if h.Some? && Newer(h.value, best) then h else Some(best)
    decreases |cps|
  {
    if cps != [] {
      var y, rest := cps[0], cps[1..];
      NewestFrom(if Newer(y, best) then y else best, rest);
      var h := Head(Sorted(rest));
      if h.Some? {
        NewerTransitive(h.value, y, best);
        NewerTransitive(h.value, best, y);
        NewerTransitive(y, h.value, best);
      }
    }
  }

  /** The search keeps a checkpoint that nothing it has seen is newer than. */
  lemma {:induction false} NewestBeats(best: Option<Checkpoint>, cps: seq<Checkpoint>)
    ensures var newest := Newest(best, cps);
            && (newest.Some? ==> newest == best || newest.value in cps)
            && forall cp | best == Some(cp) || cp in cps :: newest.Some? && !Newer(cp, newest.value)
    decreases |cps|
  {
    if cps == [] {
      if best.Some? {
        NewerNotSelf(best.value);
      }
    } else {
      var better, newest := Better(best, cps[0]), Newest(best, cps);
      NewestBeats(better, cps[1..]);
      forall cp | best == Some(cp) || cp in cps
        ensures !Newer(cp, newest.value)
      {
        if best == Some(cp) || cp == cps[0] {
          NewerNotSelf(cp);
          BeforeAsymmetric(cp.handle.taskId, better.value.handle.taskId);
          NewerTransitive(cp, better.value, newest.value);
        }
      }
    }
  }

  lemma NewestIsNewest(files: seq<File>, wanted: set<SessionStatus>)
    ensures IsNewest(files, wanted, Newest(None, Matching(files, wanted)))
  {
    var newest := Newest(None, Matching(files, wanted));
    hide Newest, NoNewer, Newer;
    MatchingExact(files, wanted);
    NewestBeats(None, Matching(files, wanted));
    forall cp | Stored(cp) in files && cp.status in wanted
      ensures newest.Some? && NoNewer(cp, newest.value)
    {
      NewerExactly(cp, newest.value);
    }
  }

  /** The newest resumable checkpoint is the head of the resume list, and the
      list is exactly the running and suspended checkpoints, newest first: for
      every order of the directory, ties and broken files included. */
  lemma LatestIsHeadOfList(files: seq<File>)
    ensures var found := Matching(files, RESUMABLE);
            && Newest(None, found) == Head(Sorted(found))
            && NewestFirst(Sorted(found)) && multiset(Sorted(found)) == multiset(found)
            && forall cp :: cp in Sorted(found)
                            <==> Stored(cp) in files && (cp.status == Running || cp.status == Suspended)
  {
    hide Newest, Sorted, NewestFirst, Ties, Matching;
    var found := Matching(files, RESUMABLE);
    HeadIsNewest(found);
    SortedIsStable(found);
    MatchingExact(files, RESUMABLE);
    forall cp
      ensures cp in Sorted(found) <==> Stored(cp) in files && (cp.status == Running || cp.status == Suspended)
    {
      SameMembers(Sorted(found), found, cp);
    }
  }

  lemma HeadIsNewest(found: seq<Checkpoint>)
    ensures Newest(None, found) == Head(Sorted(found))
  {
    if found != [] {
      NewestFrom(found[0], found[1..]);
    }
  }

  lemma SameMembers(xs: seq<Checkpoint>, ys: seq<Checkpoint>, cp: Checkpoint)
    requires multiset(xs) == multiset(ys)
    ensures cp in xs <==> cp in ys
  {
    assert cp in xs <==> cp in multiset(xs);
    assert cp in ys <==> cp in multiset(ys);
  }

  lemma {:induction false} MatchingExact(files: seq<File>, wanted: set<SessionStatus>)
    ensures forall cp :: cp in Matching(files, wanted) <==> Stored(cp) in files && cp.status in wanted
  {
    if files != [] {
      var n := |files| - 1;
      MatchingExact(files[..n], wanted);
      assert files == files[..n] + [files[n]];
    }
  }

  // ---- Suspend and kill ----------------------------------------------------

  const SUSPENDED := "agent_suspended"
  const KILLED := "agent_killed"

  type Path = (string, string)   // directory, task id

  /** The `:` of a chat tenant becomes `-`. */
  function DirFor(tenant: string): string {
    if tenant == "" then "" else [if tenant[0] == ':' then '-' else tenant[0]] + DirFor(tenant[1..])
  }

  function PathOf(cp: Checkpoint): Path {
    (DirFor(cp.handle.tenant), cp.handle.taskId)
  }

  datatype Disk = Disk(files: map<Path, Checkpoint>, journals: map<Path, string>)

  function JournalAt(d: Disk, at: Path): string {
    if at in d.journals then d.journals[at] else ""
  }

  function Write(d: Disk, cp: Checkpoint): Disk {
    d.(files := d.files[PathOf(cp) := cp])
  }

  function Draft(eventType: string, taskId: string, payload: Option<string>, now: nat): J.Marker {
    J.Marker(0, eventType, taskId, None, payload, now)
  }

  function Note(c: J.Codec, d: Disk, at: Path, draft: J.Marker): Disk {
    d.(journals := d.journals[at := J.Appended(c, JournalAt(d, at), draft)])
  }

  function Events(c: J.Codec, d: Disk, at: Path): seq<J.Marker> {
    J.ReadLines(c, J.Lines(JournalAt(d, at)))
  }

  predicate EndsKilled(events: seq<J.Marker>) {
    events != [] && events[|events| - 1].eventType == KILLED
  }

  datatype Done = NotFound | AlreadyDead | Marked(sequence: nat)

  datatype Effect = Effect(disk: Disk, done: Done)

  function Suspend(c: J.Codec, d: Disk, tenant: string, taskId: string, now: nat): Effect {
    var at := (DirFor(tenant), taskId);
    if at !in d.files then Effect(d, NotFound)
    else
      var cp := d.files[at].(status := Suspended);
      var d1 := Write(d, cp);
      Effect(Note(c, d1, at, Draft(SUSPENDED, taskId, Some(Decimal(cp.stepsUsed)), now)),
             Marked(J.Next(JournalAt(d1, at))))
  }

  function Kill(c: J.Codec, d: Disk, tenant: string, taskId: string, now: nat): Effect {
    var at := (DirFor(tenant), taskId);
    if at !in d.files then Effect(d, NotFound)
    else if EndsKilled(Events(c, d, at)) then Effect(d, AlreadyDead)
    else
      var d1 := Write(d, d.files[at].(status := Killed));
      Effect(Note(c, d1, at, Draft(KILLED, taskId, None, now)), Marked(J.Next(JournalAt(d1, at))))
  }

  class JsonCheckpointStore {
    const c: J.Codec
    var files: map<Path, Checkpoint>
    var journals: map<Path, string>

    function View(): Disk
      reads this
    {
      Disk(files, journals)
    }

    constructor (c: J.Codec)
      ensures this.c == c && View() == Disk(map[], map[])
    {
      this.c, files, journals := c, map[], map[];
    }

    method Save(cp: Checkpoint)
      modifies this
      ensures View() == Write(old(View()), cp)
    {
      files := files[PathOf(cp) := cp];
    }

    method AppendJournal(at: Path, draft: J.Marker) returns (sequence: nat)
      modifies this`journals
      ensures View() == Note(c, old(View()), at, draft)
      ensures sequence == J.Next(JournalAt(old(View()), at))
    {
      var text := if at in journals then journals[at] else "";
      sequence := |J.Lines(text)| + 1;
      journals := journals[at := text + c.encode(draft.(sequence := sequence)) + [NEWLINE]];
    }

    method SuspendTask(tenant: string, taskId: string, now: nat) returns (done: Done)
      modifies this
      ensures Effect(View(), done) == Suspend(c, old(View()), tenant, taskId, now)
      ensures done == NotFound <==> (DirFor(tenant), taskId) !in old(files)
      ensures done == NotFound ==> View() == old(View())
    {
      var at := (DirFor(tenant), taskId);
      if at !in files {
        return NotFound;
      }
      var cp := files[at].(status := Suspended);
      Save(cp);
      var sequence := AppendJournal(at, Draft(SUSPENDED, taskId, Some(Decimal(cp.stepsUsed)), now));
      done := Marked(sequence);
    }

    method KillTask(tenant: string, taskId: string, now: nat) returns (done: Done)
      modifies this
      ensures Effect(View(), done) == Kill(c, old(View()), tenant, taskId, now)
      ensures done == NotFound <==> (DirFor(tenant), taskId) !in old(files)
      ensures done == NotFound || done == AlreadyDead ==> View() == old(View())
    {
      var at := (DirFor(tenant), taskId);
      if at !in files {
        return NotFound;
      }
      var events := J.ReadLines(c, J.Lines(JournalAt(View(), at)));
      if EndsKilled(events) {
        return AlreadyDead;
      }
      Save(files[at].(status := Killed));
      var sequence := AppendJournal(at, Draft(KILLED, taskId, None, now));
      done := Marked(sequence);
    }
  }

  /** A second kill finds the task dead and changes nothing exactly when the first
      one's marker could be read back, or what it destroyed uncovered an older
      kill: a torn line before the first kill swallows its marker. */
  lemma KillIsIdempotentExactly(c: J.Codec, d: Disk, tenant: string, taskId: string, now: nat, later: nat)
    requires J.CodecOk(c)
    requires var at := (DirFor(tenant), taskId);
             at in d.files && PathOf(d.files[at]) == at && J.JournalOk(c, JournalAt(d, at))
    requires Kill(c, d, tenant, taskId, now).done.Marked?
    ensures var at := (DirFor(tenant), taskId);
            var text := JournalAt(d, at);
            var once := Kill(c, d, tenant, taskId, now).disk;
            var twice := Kill(c, once, tenant, taskId, later);
            && once.files[at].status == Killed
            && (twice == Effect(once, AlreadyDead) <==>
                  Remainder(text) == "" || EndsKilled(J.ReadLines(c, J.Lines(text)[..|J.Lines(text)| - 1])))
  {
    var at := (DirFor(tenant), taskId);
    hide J.CodecOk, J.JournalOk, J.Lines, J.ReadLines, Remainder, DirFor, J.Appended;
    J.AppendIsReadBack(c, JournalAt(d, at), Draft(KILLED, taskId, None, now));
    J.OpenLine(JournalAt(d, at));
  }

  lemma {:induction false} DirForExactly(tenant: string)
    ensures |DirFor(tenant)| == |tenant|
    ensures forall i | 0 <= i < |tenant| :: DirFor(tenant)[i] == if tenant[i] == ':' then '-' else tenant[i]
  {
    if tenant != "" {
      DirForExactly(tenant[1..]);
    }
  }

  /** The one file and the one journal that a suspend or a kill touches. */
  ghost predicate OnlyChanges(d: Disk, d': Disk, at: Path, status: SessionStatus) {
    && at in d.files && at in d'.journals
    && d'.files == d.files[at := d.files[at].(status := status)]
    && d'.journals == d.journals[at := d'.journals[at]]
  }

  /** Suspending and killing leave a marker of their own behind, with the next
      number, on a journal without an open line, and touch nothing of another
      task. */
  lemma MarkersAreWritten(c: J.Codec, d: Disk, tenant: string, taskId: string, now: nat)
    requires J.CodecOk(c)
    requires var at := (DirFor(tenant), taskId);
             && at in d.files && PathOf(d.files[at]) == at
             && J.JournalOk(c, JournalAt(d, at)) && Remainder(JournalAt(d, at)) == ""
    ensures var at := (DirFor(tenant), taskId);
            var before, n := Events(c, d, at), |J.Lines(JournalAt(d, at))| + 1;
            var suspended, killed := Suspend(c, d, tenant, taskId, now), Kill(c, d, tenant, taskId, now);
            && OnlyChanges(d, suspended.disk, at, Suspended) && suspended.done == Marked(n)
            && Events(c, suspended.disk, at)
               == before + [J.Marker(n, "agent_suspended", taskId, None, Some(Decimal(d.files[at].stepsUsed)), now)]
            && (before == [] || before[|before| - 1].eventType != "agent_killed" ==>
                  && OnlyChanges(d, killed.disk, at, Killed) && killed.done == Marked(n)
                  && Events(c, killed.disk, at)
                     == before + [J.Marker(n, "agent_killed", taskId, None, None, now)])
  {
    hide J.CodecOk, J.JournalOk, J.Lines, J.ReadLines, Remainder, DirFor, J.Appended, Decimal;
    var at := (DirFor(tenant), taskId);
    var text := JournalAt(d, at);
    J.AppendIsReadBack(c, text, Draft(SUSPENDED, taskId, Some(Decimal(d.files[at].stepsUsed)), now));
    J.AppendIsReadBack(c, text, Draft(KILLED, taskId, None, now));
  }

  /** Suspending does not look at the old status: a killed task is resumable
      again, and its next kill is not the end either way. */
  lemma SuspendRevives(c: J.Codec, d: Disk, tenant: string, taskId: string, now: nat)
    requires var at := (DirFor(tenant), taskId); at in d.files && PathOf(d.files[at]) == at
    ensures var at := (DirFor(tenant), taskId);
            var after := Suspend(c, d, tenant, taskId, now).disk;
            && Resumable(after.files[at])
            && after.files == d.files[at := d.files[at].(status := Suspended)]
  {
    hide DirFor, J.Appended, J.Next;
  }

  /** A killed task whose loop saves once more is running again, and a further
      kill leaves it so exactly as long as its journal still ends in the old one. */
  lemma SaveAfterKillCannotBeKilled(c: J.Codec, d: Disk, tenant: string, taskId: string, cp: Checkpoint, now: nat)
    requires PathOf(cp) == (DirFor(tenant), taskId) && cp.status.Running?
    ensures var saved := Write(d, cp);
            var killed := Kill(c, saved, tenant, taskId, now);
            && saved.files[PathOf(cp)].status.Running?
            && (killed.disk.files[PathOf(cp)].status.Running? <==> EndsKilled(Events(c, d, PathOf(cp))))
            && (EndsKilled(Events(c, d, PathOf(cp))) ==> killed == Effect(saved, AlreadyDead))
  {
    hide DirFor, J.Lines, J.ReadLines, J.Appended, J.Next;
  }
}
