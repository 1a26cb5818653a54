/** The same approvals when requests overlap: a submission reads its row, and other requests run
    before its decision is committed. */
module DeviceRaces {
  import opened Wrappers
  import opened DeviceApproval

  type Session = nat

  /** What a session will write: the row is found again by its primary key. */
  datatype Decision = Decision(id: nat, submission: Submission)

  datatype State = State(rows: Table, issued: set<nat>, open: map<Session, Decision>, approvals: seq<Approval>)

  datatype Step = Issued(userCode: UserCode, id: nat, expiresAt: int) | Read(session: Session, submission: Submission) | Commit(session: Session)

  const START := State(map[], {}, map[], [])

  predicate Possible(s: State, e: Step) {
    match e
    case Issued(code, id, _) => code !in s.rows && id !in s.issued
    case Read(p, sub) => p !in s.open && sub.checkTime <= sub.stampTime
    case Commit(p) => p in s.open
  }

  /** The decision is about a row that is still there. */
  predicate About(rows: Table, d: Decision, c: UserCode) {
    c == d.submission.userCode && c in rows && rows[c].id == d.id
  }

  function Written(row: Row, d: Decision): Row {
    row.(userId := d.submission.bearer, authorizedAt := Some(d.submission.stampTime))
  }

  /** The update or deletion by primary key; without the row nothing is written. */
  function Committed(rows: Table, d: Decision): Table {
    var c := d.submission.userCode;
    if !About(rows, d, c) then rows
    else if d.submission.action == "allow" then rows[c := Written(rows[c], d)]
    else rows - {c}
  }

  function Recorded(rows: Table, d: Decision): seq<Approval> {
    var sub := d.submission;
    if About(rows, d, sub.userCode) && sub.action == "allow" && sub.bearer.Some? then
      [Approval(d.id, sub.bearer.value, sub.checkTime, sub.stampTime, rows[sub.userCode].expiresAt)]
    else []
  }

  /** A submission that may not decide answers at once; the others stay open. */
  function After(s: State, e: Step): State
    requires Possible(s, e)
  {
    match e
    case Issued(code, id, expiresAt) =>
      s.(rows := s.rows[code := Row(id, expiresAt, None, None)], issued := s.issued + {id})
    case Read(p, sub) =>
      if Decidable(s.rows, sub) then s.(open := s.open[p := Decision(s.rows[sub.userCode].id, sub)]) else s
    case Commit(p) =>
      s.(rows := Committed(s.rows, s.open[p]), open := s.open - {p}, approvals := s.approvals + Recorded(s.rows, s.open[p]))
  }

  predicate Steps(states: seq<State>, steps: seq<Step>) {
    && |states| == |steps| + 1
    && forall i :: 0 <= i < |steps| ==> Possible(states[i], steps[i]) && states[i + 1] == After(states[i], steps[i])
  }

  /** A run from the empty table. */
  predicate Reachable(states: seq<State>, steps: seq<Step>) { Steps(states, steps) && states[0] == START }

  // --------------------------------------------------------------- invariant

  /** The last approval of this id on record. */
  predicate LastApproval(approvals: seq<Approval>, k: nat, id: nat) {
    && k < |approvals| && approvals[k].id == id
    && forall i :: k < i < |approvals| ==> approvals[i].id != id
  }

  ghost predicate Backed(s: State, row: Row) {
    if row.authorizedAt.Some? then
      exists k: nat :: LastApproval(s.approvals, k, row.id) && Vouches(s.approvals[k], row)
    else row.userId == None && forall a :: a in s.approvals ==> a.id != row.id
  }

  ghost predicate Sound(s: State) {
    && (forall c :: c in s.rows ==> s.rows[c].id in s.issued && Backed(s, s.rows[c]))
    && (forall c, d :: c in s.rows && d in s.rows && s.rows[c].id == s.rows[d].id ==> c == d)
    && (forall p :: p in s.open ==> s.open[p].id in s.issued && s.open[p].submission.bearer.Some?)
    && (forall p, c :: p in s.open && c in s.rows && s.rows[c].id == s.open[p].id ==>
          c == s.open[p].submission.userCode && s.open[p].submission.checkTime <= s.rows[c].expiresAt)
    && (forall a :: a in s.approvals ==> a.id in s.issued && a.checkedAt <= a.expiresAt)
  }

  lemma CommitKeepsBacked(s: State, p: Session, x: UserCode)
    requires Sound(s) && p in s.open && x in After(s, Commit(p)).rows
    ensures Backed(After(s, Commit(p)), After(s, Commit(p)).rows[x])
  {
    var t, d := After(s, Commit(p)), s.open[p];
    var c := d.submission.userCode;
    assert Backed(s, s.rows[x]);
    if About(s.rows, d, c) && x == c {
      assert LastApproval(t.approvals, |s.approvals|, d.id) && Vouches(t.approvals[|s.approvals|], t.rows[x]);
    } else if t.rows[x].authorizedAt.Some? {
      var k: nat :| LastApproval(s.approvals, k, t.rows[x].id) && Vouches(s.approvals[k], t.rows[x]);
      assert LastApproval(t.approvals, k, t.rows[x].id);
    }
  }

  lemma CommitKeepsSound(s: State, p: Session)
    requires Sound(s) && p in s.open
    ensures Sound(After(s, Commit(p)))
  {
    var t, d := After(s, Commit(p)), s.open[p];
    assert forall a :: a in t.approvals <==> a in s.approvals || a in Recorded(s.rows, d);
    hide Backed;
    forall x | x in t.rows ensures Backed(t, t.rows[x]) {
      CommitKeepsBacked(s, p, x);
    }
  }

  lemma StepKeepsSound(s: State, e: Step)
    requires Sound(s) && Possible(s, e)
    ensures Sound(After(s, e))
  {
    match e
    case Commit(p) => CommitKeepsSound(s, p);
    case Read(_, _) =>
      var t := After(s, e);
      assert forall c :: c in t.rows ==> Backed(s, s.rows[c]);
    case Issued(code, _, _) =>
      var t := After(s, e);
      forall c | c in t.rows ensures Backed(t, t.rows[c]) {
        if c != code {
          assert Backed(s, s.rows[c]);
        }
      }
  }

  lemma {:induction false} RunIsSound(states: seq<State>, steps: seq<Step>, i: nat)
    requires Reachable(states, steps) && i < |states|
    ensures Sound(states[i])
  {
    if i > 0 {
      RunIsSound(states, steps, i - 1);
      StepKeepsSound(states[i - 1], steps[i - 1]);
    }
  }

  /** What overlapping leaves intact: an authorised row carries the user and the stamp of the
      approval committed last, and that approval was checked against the expiry time. */
  lemma RowsCarryLastApproval(states: seq<State>, steps: seq<Step>, i: nat, c: UserCode)
    requires Reachable(states, steps) && i < |states|
    requires c in states[i].rows && states[i].rows[c].authorizedAt.Some?
    ensures var s := states[i];
      exists k: nat :: LastApproval(s.approvals, k, s.rows[c].id) && Vouches(s.approvals[k], s.rows[c])
        && s.approvals[k].checkedAt <= s.approvals[k].expiresAt
  {
    RunIsSound(states, steps, i);
    var s := states[i];
    assert Backed(s, s.rows[c]);
    var k: nat :| LastApproval(s.approvals, k, s.rows[c].id) && Vouches(s.approvals[k], s.rows[c]);
    assert s.approvals[k] in s.approvals;
  }

  // ------------------------------------------------- authorised rows that change

  /** An open decision, read before the row was authorised, that writes something else to it. */
  predicate Overwrites(s: State, p: Session, c: UserCode)
    requires c in s.rows
  {
    p in s.open && About(s.rows, s.open[p], c)
      && (s.open[p].submission.action != "allow" || Written(s.rows[c], s.open[p]) != s.rows[c])
  }

  lemma StepKeepsRow(s: State, e: Step, c: UserCode)
    requires Possible(s, e) && c in s.rows && s.rows[c].authorizedAt.Some?
    requires forall p :: !Overwrites(s, p, c)
    ensures c in After(s, e).rows && After(s, e).rows[c] == s.rows[c]
    ensures forall p :: !Overwrites(After(s, e), p, c)
  {
    if e.Commit? {
      assert !Overwrites(s, e.session, c);
    }
    var t := After(s, e);
    forall p ensures !Overwrites(t, p, c) {
      assert !Overwrites(s, p, c);
    }
  }

  lemma {:induction false} RowKept(states: seq<State>, steps: seq<Step>, c: UserCode, i: nat)
    requires Steps(states, steps) && i < |states|
    requires c in states[0].rows && states[0].rows[c].authorizedAt.Some?
    requires forall p :: !Overwrites(states[0], p, c)
    ensures c in states[i].rows && states[i].rows[c] == states[0].rows[c]
    ensures forall p :: !Overwrites(states[i], p, c)
  {
    if i > 0 {
      RowKept(states, steps, c, i - 1);
      StepKeepsRow(states[i - 1], steps[i - 1], c);
    }
  }

  /** Some continuation changes or deletes the row. */
  ghost predicate CanChange(s: State, c: UserCode)
    requires c in s.rows
  {
    exists states: seq<State>, steps: seq<Step> ::
      Steps(states, steps) && states[0] == s && Changed(s, states[|steps|], c)
  }

  predicate Changed(s: State, t: State, c: UserCode)
    requires c in s.rows
  {
    c !in t.rows || t.rows[c] != s.rows[c]
  }

  /** MAIN RESULT. With overlapping requests an authorised row can still be rebound or deleted
      exactly when a decision that read it earlier is open and writes something else. */
  lemma AuthorisedRowCanChangeIff(s: State, c: UserCode)
    requires c in s.rows && s.rows[c].authorizedAt.Some?
    ensures CanChange(s, c) <==> exists p :: Overwrites(s, p, c)
  {
    if p :| Overwrites(s, p, c) {
      var t := After(s, Commit(p));
      assert Steps([s, t], [Commit(p)]) && Changed(s, [s, t][|[Commit(p)]|], c);
    }
    if CanChange(s, c) {
      var states: seq<State>, steps: seq<Step> :| Steps(states, steps) && states[0] == s && Changed(s, states[|steps|], c);
      if forall p :: !Overwrites(s, p, c) {
        RowKept(states, steps, c, |steps|);
        assert false;
      }
    }
  }

  /** Two sessions hold a decision about the same row. */
  predicate Overlap(s: State, p: Session, q: Session) {
    p != q && p in s.open && q in s.open && s.open[p].id == s.open[q].id
  }

  ghost predicate NoneOverlap(states: seq<State>) { forall i, p, q :: 0 <= i < |states| ==> !Overlap(states[i], p, q) }

  lemma {:induction false} OpenMeansUnauthorised(states: seq<State>, steps: seq<Step>, i: nat, p: Session, c: UserCode)
    requires Reachable(states, steps) && NoneOverlap(states) && i < |states|
    requires p in states[i].open && c in states[i].rows && states[i].rows[c].id == states[i].open[p].id
    ensures states[i].rows[c].authorizedAt.None?
  {
    if i > 0 {
      var s, e := states[i - 1], steps[i - 1];
      RunIsSound(states, steps, i - 1);
      if e.Commit? {
        assert !Overlap(s, e.session, p);
        OpenMeansUnauthorised(states, steps, i - 1, p, c);
      } else if e.Read? && p !in s.open {
        assert Decidable(s.rows, e.submission) && states[i].open[p].id == s.rows[e.submission.userCode].id;
        assert c == e.submission.userCode;
      } else if p in s.open && c in s.rows {
        OpenMeansUnauthorised(states, steps, i - 1, p, c);
      }
    }
  }

  /** MAIN RESULT. In a run in which no two sessions hold a decision about the same row, an
      authorised row stays as it is: what holds for atomic submissions holds for these runs. */
  lemma {:induction false} AuthorisedRowsStayWithoutOverlap(states: seq<State>, steps: seq<Step>, i: nat, j: nat, c: UserCode)
    requires Reachable(states, steps) && NoneOverlap(states) && i <= j < |states|
    requires c in states[i].rows && states[i].rows[c].authorizedAt.Some?
    ensures c in states[j].rows && states[j].rows[c] == states[i].rows[c]
  {
    if i < j {
      AuthorisedRowsStayWithoutOverlap(states, steps, i, j - 1, c);
      var s := states[j - 1];
      forall p ensures !Overwrites(s, p, c) {
        if Overwrites(s, p, c) {
          OpenMeansUnauthorised(states, steps, j - 1, p, c);
        }
      }
      StepKeepsRow(s, steps[j - 1], c);
    }
  }

  /** A commit right after its read is the atomic submission. */
  lemma ReadThenCommitIsSubmit(s: State, p: Session, sub: Submission)
    requires Possible(s, Read(p, sub)) && Decidable(s.rows, sub)
    ensures var t := After(s, Read(p, sub));
      && Possible(t, Commit(p))
      && After(t, Commit(p)).rows == Submit(s.rows, sub) && After(t, Commit(p)).open == s.open
      && After(t, Commit(p)).approvals == s.approvals + Approved(s.rows, sub)
  {
    assert s.open[p := Decision(s.rows[sub.userCode].id, sub)] - {p} == s.open;
  }

  /** Two users approve one code at the same time: the second commit rebinds it. */
  lemma CodeIsRebound() returns (states: seq<State>, steps: seq<Step>)
    ensures Reachable(states, steps) && |states| == 6
    ensures "C" in states[4].rows && states[4].rows["C"].userId == Some("u") && states[4].rows["C"].authorizedAt == Some(1)
    ensures "C" in states[5].rows && states[5].rows["C"].userId == Some("v") && states[5].rows["C"].authorizedAt == Some(2)
    ensures |states[5].approvals| == 2 && states[5].approvals[0].id == states[5].approvals[1].id
  {
    var first, second := Submission(Some("u"), "C", "allow", 1, 1), Submission(Some("v"), "C", "allow", 2, 2);
    steps := [Issued("C", 0, 10), Read(0, first), Read(1, second), Commit(0), Commit(1)];
    var s1 := After(START, steps[0]);
    var s2 := After(s1, steps[1]);
    var s3 := After(s2, steps[2]);
    var s4 := After(s3, steps[3]);
    states := [START, s1, s2, s3, s4, After(s4, steps[4])];
    assert Steps(states, steps);
  }
}
