/** Approval of device codes in the control plane (section 3.3 of RFC 8628), each submission
    taken as one step. */
module DeviceApproval {
  import opened Wrappers

  type UserId = string
  type UserCode = string

  /** A row of the device-code table. Assumed: at most one row has a given user code (on two
      the source's query raises an error), so the table is kept by user code; and the primary
      key `id` is never reused. */
  datatype Row = Row(id: nat, expiresAt: int, userId: Option<UserId>, authorizedAt: Option<int>)

  type Table = map<UserCode, Row>

  datatype ResultPage = SignInRequired | InvalidCode | Expired | AlreadyUsed | Authorized | Denied

  /** One form submission. `bearer` is the user a valid access token names; the handler reads
      the clock once for the expiry check and once more when it stamps the approval. */
  datatype Submission = Submission(bearer: Option<UserId>, userCode: UserCode, action: string, checkTime: int, stampTime: int)

  function ResultOf(rows: Table, s: Submission): ResultPage {
    if s.bearer.None? then SignInRequired
    else if s.userCode !in rows then InvalidCode
    else if s.checkTime > rows[s.userCode].expiresAt then Expired
    else if rows[s.userCode].authorizedAt.Some? then AlreadyUsed
    else if s.action == "allow" then Authorized
    else Denied
  }

  function Submit(rows: Table, s: Submission): Table {
    match ResultOf(rows, s)
    case Authorized => rows[s.userCode := rows[s.userCode].(userId := s.bearer, authorizedAt := Some(s.stampTime))]
    case Denied => rows - {s.userCode}
    case _ => rows
  }

  /** The submission may decide about the row of its code. */
  predicate Decidable(rows: Table, s: Submission) {
    && s.bearer.Some? && s.userCode in rows
    && s.checkTime <= rows[s.userCode].expiresAt && rows[s.userCode].authorizedAt.None?
  }

  /** A submission decides exactly when its user is verified and the code is known, unexpired
      and unused; then "allow" binds the user and any other action deletes the row. */
  lemma DecisionRule(rows: Table, s: Submission)
    ensures Submit(rows, s) != rows <==> Decidable(rows, s)
    ensures s.userCode in rows && s.userCode !in Submit(rows, s) <==> Decidable(rows, s) && s.action != "allow"
    ensures Decidable(rows, s) && s.action == "allow" ==>
      Submit(rows, s) == rows[s.userCode :=
        Row(rows[s.userCode].id, rows[s.userCode].expiresAt, s.bearer, Some(s.stampTime))]
    ensures Decidable(rows, s) && s.action != "allow" ==> Submit(rows, s) == map c | c in rows && c != s.userCode :: rows[c]
  {
    var t := Submit(rows, s);
    if ResultOf(rows, s) == Authorized {
      assert t[s.userCode] != rows[s.userCode];
    } else if ResultOf(rows, s) == Denied {
      assert s.userCode !in t;
    }
  }

  /** Which page is shown: the first of the four refusals that applies, in this order, and otherwise
      the page of the decision. */
  lemma PageRule(rows: Table, s: Submission)
    ensures ResultOf(rows, s) == SignInRequired <==> s.bearer.None?
    ensures ResultOf(rows, s) == InvalidCode <==> s.bearer.Some? && s.userCode !in rows
    ensures ResultOf(rows, s) == Expired <==> s.bearer.Some? && s.userCode in rows && s.checkTime > rows[s.userCode].expiresAt
    ensures ResultOf(rows, s) == AlreadyUsed <==>
      s.bearer.Some? && s.userCode in rows && s.checkTime <= rows[s.userCode].expiresAt && rows[s.userCode].authorizedAt.Some?
    ensures ResultOf(rows, s) == Authorized <==> Decidable(rows, s) && s.action == "allow"
    ensures ResultOf(rows, s) == Denied <==> Decidable(rows, s) && s.action != "allow"
  {
  }

  /** A decision is answered with "already used" when it is sent again in time, and a denied code
      with "invalid". */
  lemma SecondSubmission(rows: Table, s: Submission, again: Submission)
    requires Decidable(rows, s) && again.bearer.Some? && again.userCode == s.userCode
    requires again.checkTime <= rows[s.userCode].expiresAt
    ensures ResultOf(Submit(rows, s), again) == if s.action == "allow" then AlreadyUsed else InvalidCode
    ensures Submit(Submit(rows, s), again) == Submit(rows, s)
  {
  }

  // -------------------------------------------------------------- whole runs

  /** Codes are issued by another handler; this one only decides about them. */
  datatype Event = Issue(userCode: UserCode, id: nat, expiresAt: int) | Post(submission: Submission)

  datatype Approval = Approval(id: nat, userId: UserId, checkedAt: int, authorizedAt: int, expiresAt: int)

  /** The table, the ids ever issued, the approvals given so far, and the last clock reading. */
  datatype System = System(rows: Table, issued: set<nat>, approvals: seq<Approval>, now: int)

  predicate Enabled(s: System, e: Event) {
    match e
    case Issue(code, id, _) => code !in s.rows && id !in s.issued
    case Post(p) => s.now <= p.checkTime <= p.stampTime
  }

  function Approved(rows: Table, p: Submission): seq<Approval> {
    if ResultOf(rows, p) == Authorized then
      [Approval(rows[p.userCode].id, p.bearer.value, p.checkTime, p.stampTime, rows[p.userCode].expiresAt)]
    else []
  }

  function Next(s: System, e: Event): System
    requires Enabled(s, e)
  {
    match e
    case Issue(code, id, expiresAt) =>
      s.(rows := s.rows[code := Row(id, expiresAt, None, None)], issued := s.issued + {id})
    case Post(p) =>
      s.(rows := Submit(s.rows, p), approvals := s.approvals + Approved(s.rows, p), now := p.stampTime)
  }

  const EMPTY := System(map[], {}, [], 0)

  predicate IsRun(trace: seq<System>, events: seq<Event>) {
    && |trace| == |events| + 1 && trace[0] == EMPTY
    && forall i :: 0 <= i < |events| ==> Enabled(trace[i], events[i]) && trace[i + 1] == Next(trace[i], events[i])
  }

  /** The approval that put the row into its authorised state. */
  predicate Vouches(a: Approval, row: Row) {
    a.id == row.id && row.userId == Some(a.userId) && row.authorizedAt == Some(a.authorizedAt)
      && a.expiresAt == row.expiresAt
  }

  ghost predicate RowVouched(s: System, row: Row) {
    if row.authorizedAt.Some? then exists a :: a in s.approvals && Vouches(a, row)
    else row.userId == None && forall a :: a in s.approvals ==> a.id != row.id
  }

  ghost predicate Invariant(s: System) {
    && (forall c :: c in s.rows ==> s.rows[c].id in s.issued && RowVouched(s, s.rows[c]))
    && (forall c, d :: c in s.rows && d in s.rows && s.rows[c].id == s.rows[d].id ==> c == d)
    && (forall a :: a in s.approvals ==>
          a.id in s.issued && a.checkedAt <= a.expiresAt && a.checkedAt <= a.authorizedAt <= s.now)
    && (forall i, j :: 0 <= i < j < |s.approvals| ==> s.approvals[i].id != s.approvals[j].id)
  }

  lemma IssueKeepsInvariant(s: System, e: Event)
    requires Invariant(s) && Enabled(s, e) && e.Issue?
    ensures Invariant(Next(s, e))
  {
    var t := Next(s, e);
    forall c | c in t.rows ensures RowVouched(t, t.rows[c]) {
      if c != e.userCode {
        assert RowVouched(s, s.rows[c]);
      }
    }
  }

  lemma PostKeepsInvariant(s: System, e: Event)
    requires Invariant(s) && Enabled(s, e) && e.Post?
    ensures Invariant(Next(s, e))
  {
    var t, p := Next(s, e), e.submission;
    assert forall a :: a in t.approvals <==> a in s.approvals || a in Approved(s.rows, p);
    if ResultOf(s.rows, p) == Authorized {
      assert RowVouched(s, s.rows[p.userCode]);
      var a := Approved(s.rows, p)[0];
      assert a in t.approvals && Vouches(a, t.rows[p.userCode]);
    }
    forall c | c in t.rows ensures RowVouched(t, t.rows[c]) {
      if t.rows[c] == s.rows[c] {
        assert RowVouched(s, s.rows[c]);
      }
    }
  }

  lemma {:induction false} RunKeepsInvariant(trace: seq<System>, events: seq<Event>, i: nat)
    requires IsRun(trace, events) && i < |trace|
    ensures Invariant(trace[i])
  {
    if i > 0 {
      RunKeepsInvariant(trace, events, i - 1);
      if events[i - 1].Issue? {
        IssueKeepsInvariant(trace[i - 1], events[i - 1]);
      } else {
        PostKeepsInvariant(trace[i - 1], events[i - 1]);
      }
    }
  }

  /** MAIN RESULT. In every run each device code is approved at most once, so it is bound to
      at most one user; and every authorised row carries the user and the stamp of the one
      approval whose expiry check read a time no later than `expiresAt`. */
  lemma CodesBoundOnceToVerifiedUser(trace: seq<System>, events: seq<Event>, i: nat)
    requires IsRun(trace, events) && i < |trace|
    ensures forall a, b :: a in trace[i].approvals && b in trace[i].approvals && a.id == b.id ==> a == b
    ensures forall c :: c in trace[i].rows && trace[i].rows[c].authorizedAt.Some? ==>
      exists a :: a in trace[i].approvals && Vouches(a, trace[i].rows[c]) && a.checkedAt <= a.expiresAt
    ensures forall c :: c in trace[i].rows && trace[i].rows[c].authorizedAt.None? ==> trace[i].rows[c].userId == None
  {
    RunKeepsInvariant(trace, events, i);
    forall c | c in trace[i].rows && trace[i].rows[c].authorizedAt.Some?
      ensures exists a :: a in trace[i].approvals && Vouches(a, trace[i].rows[c]) && a.checkedAt <= a.expiresAt
    {
      assert RowVouched(trace[i], trace[i].rows[c]);
    }
    forall c | c in trace[i].rows && trace[i].rows[c].authorizedAt.None?
      ensures trace[i].rows[c].userId == None
    {
      assert RowVouched(trace[i], trace[i].rows[c]);
    }
  }

  /** An allowing submission by a verified user. */
  predicate Gives(e: Event, a: Approval) {
    && e.Post? && e.submission.bearer == Some(a.userId) && e.submission.action == "allow"
    && e.submission.checkTime == a.checkedAt && e.submission.stampTime == a.authorizedAt
  }

  /** Each approval on record was given by the user its access token named. */
  lemma {:induction false} ApprovalsComeFromBearers(trace: seq<System>, events: seq<Event>, i: nat, a: Approval)
    requires IsRun(trace, events) && i < |trace| && a in trace[i].approvals
    ensures exists k :: 0 <= k < i && Gives(events[k], a)
  {
    if i > 0 && a in trace[i - 1].approvals {
      ApprovalsComeFromBearers(trace, events, i - 1, a);
    } else if i > 0 {
      assert events[i - 1].Post? && a in Approved(trace[i - 1].rows, events[i - 1].submission);
      assert Gives(events[i - 1], a);
    }
  }

  /** MAIN RESULT. Once authorised, a row is never changed or deleted, as long as each submission
      is atomic; `DeviceRaces` says what remains of this when submissions overlap. */
  lemma {:induction false} AuthorisedRowsStay(trace: seq<System>, events: seq<Event>, i: nat, j: nat, c: UserCode)
    requires IsRun(trace, events) && i <= j < |trace|
    requires c in trace[i].rows && trace[i].rows[c].authorizedAt.Some?
    ensures c in trace[j].rows && trace[j].rows[c] == trace[i].rows[c]
  {
    if i < j {
      AuthorisedRowsStay(trace, events, i, j - 1, c);
    }
  }

  /** A submission that approves the code with this id. */
  predicate Approves(s: System, e: Event, id: nat) {
    e.Post? && ResultOf(s.rows, e.submission) == Authorized && s.rows[e.submission.userCode].id == id
  }

  /** Every approval on record comes from one submission, with its two clock readings. */
  lemma {:induction false} ApprovalsComeFromPosts(trace: seq<System>, events: seq<Event>, i: nat, a: Approval)
    requires IsRun(trace, events) && i < |trace| && a in trace[i].approvals
    ensures exists k :: 0 <= k < i && Approves(trace[k], events[k], a.id) && a in Approved(trace[k].rows, events[k].submission)
  {
    if i > 0 && a in trace[i - 1].approvals {
      ApprovalsComeFromPosts(trace, events, i - 1, a);
    } else if i > 0 {
      assert Approves(trace[i - 1], events[i - 1], a.id);
    }
  }

  /** And every approving submission is on record from then on. */
  lemma {:induction false} PostsAreRecorded(trace: seq<System>, events: seq<Event>, k: nat, i: nat, id: nat)
    requires IsRun(trace, events) && k < i < |trace| && Approves(trace[k], events[k], id)
    ensures Approved(trace[k].rows, events[k].submission)[0] in trace[i].approvals
  {
    if k + 1 < i {
      PostsAreRecorded(trace, events, k, i - 1, id);
    }
  }

  /** MAIN RESULT. The clock is read twice. In every state of every run an authorised row carries
      a stamp after its expiry time exactly when some earlier submission approved that code with
      a check no later than the expiry time and a stamp after it. */
  lemma StampAfterExpiryIff(trace: seq<System>, events: seq<Event>, i: nat, c: UserCode)
    requires IsRun(trace, events) && i < |trace|
    requires c in trace[i].rows && trace[i].rows[c].authorizedAt.Some?
    ensures var row := trace[i].rows[c];
      row.authorizedAt.value > row.expiresAt <==>
        exists k :: 0 <= k < i && Approves(trace[k], events[k], row.id)
          && events[k].submission.checkTime <= row.expiresAt < events[k].submission.stampTime
  {
    var row := trace[i].rows[c];
    RunKeepsInvariant(trace, events, i);
    assert RowVouched(trace[i], row);
    var a :| a in trace[i].approvals && Vouches(a, row);
    ApprovalsComeFromPosts(trace, events, i, a);
    forall k | 0 <= k < i && Approves(trace[k], events[k], row.id)
      ensures events[k].submission.stampTime == row.authorizedAt.value
    {
      PostsAreRecorded(trace, events, k, i, row.id);
      CodesBoundOnceToVerifiedUser(trace, events, i);
      assert Approved(trace[k].rows, events[k].submission)[0] == a;
    }
  }

  lemma StampAfterExpiryHappens() returns (trace: seq<System>, events: seq<Event>)
    ensures IsRun(trace, events) && |trace| == 3
    ensures "C" in trace[2].rows
    ensures trace[2].rows["C"].authorizedAt == Some(11) && trace[2].rows["C"].expiresAt == 10
  {
    events := [Issue("C", 0, 10), Post(Submission(Some("u"), "C", "allow", 10, 11))];
    var s1 := Next(EMPTY, events[0]);
    trace := [EMPTY, s1, Next(s1, events[1])];
    assert IsRun(trace, events);
  }

  /** The handler, with its table. */
  class ControlPlane {
    var rows: Table

    constructor ()
      ensures rows == map[]
    {
      rows := map[];
    }

    /** `device_authorization_submit`. */
    method DeviceAuthorizationSubmit(s: Submission) returns (page: ResultPage)
      modifies this
      ensures rows == Submit(old(rows), s) && page == ResultOf(old(rows), s)
      ensures forall c :: c != s.userCode ==> (c in rows <==> c in old(rows)) && (c in rows ==> rows[c] == old(rows)[c])
    {
      if s.bearer.None? {
        return SignInRequired;
      }
      if s.userCode !in rows {
        return InvalidCode;
      }
      var dc := rows[s.userCode];
      if s.checkTime > dc.expiresAt {
        return Expired;
      }
      if dc.authorizedAt.Some? {
        return AlreadyUsed;
      }
      if s.action == "allow" {
        rows := rows[s.userCode := dc.(userId := s.bearer, authorizedAt := Some(s.stampTime))];
        return Authorized;
      } else {
        rows := rows - {s.userCode};
        return Denied;
      }
    }
  }
}
