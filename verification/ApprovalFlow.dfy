/** Approval requests: submitted with a snapshot of a chain, then approved level by
    level, rejected or cancelled, one call at a time. */
module ApprovalFlow {
  import opened Common
  import opened ApprovalConfigs

  type RequestId = nat

  /** The document a request is about. */
  type Doc = nat

  datatype RowStatus = Pending | LevelApproved | LevelRejected | Skipped

  /** One level row: who may act, snapshotted at submission, and who did. */
  datatype Row = Row(level: int, eligible: seq<UserId>, status: RowStatus, actor: Option<UserId>)

  datatype RequestStatus = Waiting | Approved | Rejected | Cancelled

  datatype Request = Request(doc: Doc, submitter: UserId, status: RequestStatus, current: Option<int>, total: int, finalizedBy: Option<UserId>)

  /** The two tables. */
  datatype Desk = Desk(requests: map<RequestId, Request>, rows: map<RequestId, seq<Row>>)

  datatype Call =
    | Submit(id: RequestId, doc: Doc, user: UserId, chain: seq<ChainLevel>)
    | Approve(id: RequestId, user: UserId)
    | Reject(id: RequestId, user: UserId)
    | Cancel(id: RequestId, user: UserId)

  datatype FlowError = RequestAlreadyExists | RequestNotFound | RequestNotWaiting | LevelRowMissing | NotEligible | CannotCancel

  // ----- What each call does to the tables -----

  function Snapshot(chain: seq<ChainLevel>): seq<Row> {
    seq(|chain|, i requires 0 <= i < |chain| => Row(chain[i].level as int, chain[i].approvers, Pending, None))
  }

  /** The row of a level, if there is one. */
  function FindRow(rows: seq<Row>, level: int): Option<Row> {
    if rows == [] then None
    else if rows[0].level == level then Some(rows[0])
    else FindRow(rows[1..], level)
  }

  /** The statement that sets a level's row. */
  function MarkLevel(rows: seq<Row>, level: int, status: RowStatus, user: UserId): seq<Row> {
    seq(|rows|, i requires 0 <= i < |rows| => if rows[i].level == level then rows[i].(status := status, actor := Some(user)) else rows[i])
  }

  /** The statement that skips what is still pending. */
  function SkipPending(rows: seq<Row>): seq<Row> {
    seq(|rows|, i requires 0 <= i < |rows| => if rows[i].status == Pending then rows[i].(status := Skipped) else rows[i])
  }

  ghost predicate DocWaits(d: Desk, doc: Doc) {
    exists id :: id in d.requests && d.requests[id].doc == doc && d.requests[id].status == Waiting
  }

  function NewRequest(doc: Doc, user: UserId, chain: seq<ChainLevel>): Request {
    if chain == [] then Request(doc, user, Approved, None, 0, Some(user))
    else Request(doc, user, Waiting, Some(1), Wrap(|chain|) as int, None)
  }

  /** Why an approval or a rejection is refused, if it is. */
  function ActRefusal(d: Desk, id: RequestId, user: UserId): Option<FlowError> {
    if id !in d.requests || id !in d.rows then Some(RequestNotFound)
    else if d.requests[id].status != Waiting || d.requests[id].current == None then Some(RequestNotWaiting)
    else
      match FindRow(d.rows[id], d.requests[id].current.value)
      case None => Some(LevelRowMissing)
      case Some(row) => if user in row.eligible then None else Some(NotEligible)
  }

  function CancelRefusal(d: Desk, id: RequestId, user: UserId): Option<FlowError> {
    if id !in d.requests || id !in d.rows then Some(RequestNotFound)
    else if d.requests[id].status != Waiting then Some(RequestNotWaiting)
    else if d.requests[id].submitter != user then Some(CannotCancel)
    else None
  }

  ghost function Refusal(d: Desk, c: Call): Option<FlowError> {
    match c
    case Submit(_, doc, _, _) => if DocWaits(d, doc) then Some(RequestAlreadyExists) else None
    case Approve(id, user) => ActRefusal(d, id, user)
    case Reject(id, user) => ActRefusal(d, id, user)
    case Cancel(id, user) => CancelRefusal(d, id, user)
  }

  function Put(d: Desk, id: RequestId, request: Request, rows: seq<Row>): Desk {
    Desk(d.requests[id := request], d.rows[id := rows])
  }

  function Advanced(request: Request, user: UserId): Request
    requires request.current.Some?
  {
    if request.current.value >= request.total then request.(status := Approved, current := None, finalizedBy := Some(user))
    else request.(current := Some(request.current.value + 1))
  }

  function Finished(request: Request, status: RequestStatus, user: UserId): Request {
    request.(status := status, current := None, finalizedBy := Some(user))
  }

  /** The tables after a call; a refused call leaves them alone. */
  ghost function After(d: Desk, c: Call): Desk {
    if Refusal(d, c).Some? then d
    else
      match c
      case Submit(id, doc, user, chain) => Put(d, id, NewRequest(doc, user, chain), Snapshot(chain))
      case Approve(id, user) =>
        Put(d, id, Advanced(d.requests[id], user), MarkLevel(d.rows[id], d.requests[id].current.value, LevelApproved, user))
      case Reject(id, user) =>
        Put(d, id, Finished(d.requests[id], Rejected, user), SkipPending(MarkLevel(d.rows[id], d.requests[id].current.value, LevelRejected, user)))
      case Cancel(id, user) => Put(d, id, Finished(d.requests[id], Cancelled, user), SkipPending(d.rows[id]))
  }

  // ----- The shape of a request -----

  predicate RowApproved(row: Row) {
    row.status == LevelApproved && row.actor.Some? && row.actor.value in row.eligible
  }

  /** Levels below k are approved by users their snapshots name. */
  predicate ApprovedBelow(rows: seq<Row>, k: int) {
    forall i :: 0 <= i < |rows| && rows[i].level < k ==> RowApproved(rows[i])
  }

  predicate LevelsFrom(rows: seq<Row>, k: int, status: RowStatus) {
    forall i :: 0 <= i < |rows| && rows[i].level >= k ==> rows[i].status == status && rows[i].actor == None
  }

  /** Rejected at k: k by one of its snapshotted users, the rest skipped. */
  predicate RejectedAt(rows: seq<Row>, k: int) {
    && ApprovedBelow(rows, k) && LevelsFrom(rows, k + 1, Skipped)
    && forall i :: 0 <= i < |rows| && rows[i].level == k ==>
        rows[i].status == LevelRejected && rows[i].actor.Some? && rows[i].actor.value in rows[i].eligible
  }

  predicate CancelledAt(rows: seq<Row>, k: int) {
    ApprovedBelow(rows, k) && LevelsFrom(rows, k, Skipped)
  }

  /** Who acted on level k. */
  predicate ActedAt(rows: seq<Row>, k: int, actor: Option<UserId>) {
    forall i :: 0 <= i < |rows| && rows[i].level == k ==> rows[i].actor == actor
  }

  /** The rows are the levels 1..N, each once. */
  predicate Numbered(rows: seq<Row>) {
    && (forall i, j :: 0 <= i < j < |rows| ==> rows[i].level != rows[j].level)
    && (forall i :: 0 <= i < |rows| ==> 1 <= rows[i].level <= |rows|)
    && (forall k :: 1 <= k <= |rows| ==> FindRow(rows, k).Some?)
  }

  ghost predicate ShapeOk(request: Request, rows: seq<Row>) {
    match request.status
    case Waiting =>
      && request.current.Some? && 1 <= request.current.value <= |rows|
      && ApprovedBelow(rows, request.current.value) && LevelsFrom(rows, request.current.value, Pending)
    case Approved =>
      && request.current == None && ApprovedBelow(rows, |rows| + 1)
      && (rows == [] ==> request.finalizedBy == Some(request.submitter)) && ActedAt(rows, |rows|, request.finalizedBy)
    case Rejected => request.current == None && exists k :: 1 <= k <= |rows| && RejectedAt(rows, k) && ActedAt(rows, k, request.finalizedBy)
    case Cancelled =>
      && request.current == None && (exists k :: 1 <= k <= |rows| && CancelledAt(rows, k))
      && request.finalizedBy == Some(request.submitter)
  }

  ghost predicate RequestOk(request: Request, rows: seq<Row>) {
    && Numbered(rows) && request.total == |rows|
    && ShapeOk(request, rows)
    && (request.status == Waiting <==> request.finalizedBy == None)
  }

  /** Both requests wait, and on the same document. */
  ghost predicate WaitsOn(d: Desk, a: RequestId, b: RequestId) {
    && a in d.requests && b in d.requests
    && d.requests[a].status == Waiting && d.requests[b].status == Waiting
    && d.requests[a].doc == d.requests[b].doc
  }

  /** Every request has its shape, and a document waits on one request at most. */
  ghost predicate Good(d: Desk) {
    && d.requests.Keys == d.rows.Keys
    && (forall id :: id in d.requests ==> RequestOk(d.requests[id], d.rows[id]))
    && (forall a, b :: WaitsOn(d, a, b) ==> a == b)
  }

  /** A call that can be made: new requests have new ids and a stored chain. */
  ghost predicate Admissible(d: Desk, c: Call) {
    c.Submit? ==> c.id !in d.requests && c.id !in d.rows && StoredChain(c.chain)
  }

  // ----- Rows -----

  lemma {:induction false} FindRowIs(rows: seq<Row>, k: int)
    ensures FindRow(rows, k).Some? ==> FindRow(rows, k).value in rows && FindRow(rows, k).value.level == k
    ensures FindRow(rows, k) == None ==> forall i :: 0 <= i < |rows| ==> rows[i].level != k
  {
    if rows != [] && rows[0].level != k {
      FindRowIs(rows[1..], k);
    }
  }

  /** Same levels in the same places: the same levels are found. */
  predicate SameLevels(a: seq<Row>, b: seq<Row>) {
    |a| == |b| && forall i :: 0 <= i < |a| ==> b[i].level == a[i].level && b[i].eligible == a[i].eligible
  }

  lemma NumberedKept(a: seq<Row>, b: seq<Row>)
    requires Numbered(a) && SameLevels(a, b)
    ensures Numbered(b)
  {
    forall k | 1 <= k <= |b| ensures FindRow(b, k).Some? {
      FindRowIs(a, k);
      FindRowIs(b, k);
      var i :| 0 <= i < |a| && a[i] == FindRow(a, k).value;
      assert b[i].level == k;
    }
  }

  lemma SnapshotNumbered(chain: seq<ChainLevel>)
    requires StoredChain(chain)
    ensures Numbered(Snapshot(chain))
  {
    var rows := Snapshot(chain);
    forall i | 0 <= i < |rows| ensures 1 <= rows[i].level <= |rows| {
      assert chain[i].level as int in LevelSet(chain);
    }
    forall k | 1 <= k <= |rows| ensures FindRow(rows, k).Some? {
      assert k in UpTo(|chain|) && k in LevelSet(chain);
      var i :| 0 <= i < |chain| && chain[i].level as int == k;
      FindRowIs(rows, k);
      assert rows[i].level == k;
    }
  }

  // ----- What each call means to its caller -----

  /** The first row of the level lists the user. */
  ghost predicate ListedFirst(rows: seq<Row>, level: int, user: UserId) {
    exists i :: 0 <= i < |rows| && rows[i].level == level && user in rows[i].eligible && forall j :: 0 <= j < i ==> rows[j].level != level
  }

  /** A document that waits on no request gets one: of the chain given, level by level,
      or approved at once without one. */
  ghost predicate SubmitMeans(d: Desk, id: RequestId, doc: Doc, user: UserId, chain: seq<ChainLevel>, error: Option<FlowError>, d2: Desk) {
    var waits := exists r :: r in d.requests && d.requests[r].doc == doc && d.requests[r].status == Waiting;
    && (error == Some(RequestAlreadyExists) <==> waits)
    && (error == None <==> !waits)
    && (error != None ==> d2 == d)
    && (error == None ==>
          && id in d2.requests && id in d2.rows
          && d2 == Desk(d.requests[id := d2.requests[id]], d.rows[id := d2.rows[id]])
          && |d2.rows[id]| == |chain|
          && (forall i :: 0 <= i < |chain| ==> d2.rows[id][i] == Row(chain[i].level as int, chain[i].approvers, Pending, None))
          && (chain == [] ==> d2.requests[id] == Request(doc, user, Approved, None, 0, Some(user)))
          && (0 < |chain| < 0x8000 ==> d2.requests[id] == Request(doc, user, Waiting, Some(1), |chain|, None)))
  }

  /** Who may act on the request now, and what anybody else is told. */
  ghost predicate ActorMeans(d: Desk, id: RequestId, user: UserId, error: Option<FlowError>) {
    var known := id in d.requests && id in d.rows;
    var waits := known && d.requests[id].status == Waiting && d.requests[id].current.Some?;
    && (error == Some(RequestNotFound) <==> !known)
    && (error == Some(RequestNotWaiting) <==> known && !waits)
    && (error == Some(LevelRowMissing) <==>
          waits && forall i :: 0 <= i < |d.rows[id]| ==> d.rows[id][i].level != d.requests[id].current.value)
    && (error == None <==> waits && ListedFirst(d.rows[id], d.requests[id].current.value, user))
    && error != Some(RequestAlreadyExists) && error != Some(CannotCancel)
  }

  /** Only the rows of the current level change in an approval; the last one finishes
      the request, any other moves it to the next level. */
  ghost predicate ApproveMeans(d: Desk, id: RequestId, user: UserId, error: Option<FlowError>, d2: Desk) {
    && ActorMeans(d, id, user, error)
    && (error != None ==> d2 == d)
    && (error == None ==>
          var r, rows, level := d.requests[id], d.rows[id], d.requests[id].current.value;
          && id in d2.rows && |d2.rows[id]| == |rows|
          && (forall i :: 0 <= i < |rows| ==>
                d2.rows[id][i] == if rows[i].level == level then Row(level, rows[i].eligible, LevelApproved, Some(user)) else rows[i])
          && d2.rows == d.rows[id := d2.rows[id]]
          && d2.requests == d.requests[id :=
               if level < r.total then Request(r.doc, r.submitter, Waiting, Some(level + 1), r.total, r.finalizedBy)
               else Request(r.doc, r.submitter, Approved, None, r.total, Some(user))])
  }

  /** A rejection ends the request: the current level is rejected and whatever is still
      pending is skipped. */
  ghost predicate RejectMeans(d: Desk, id: RequestId, user: UserId, error: Option<FlowError>, d2: Desk) {
    && ActorMeans(d, id, user, error)
    && (error != None ==> d2 == d)
    && (error == None ==>
          var r, rows, level := d.requests[id], d.rows[id], d.requests[id].current.value;
          && id in d2.rows && |d2.rows[id]| == |rows|
          && (forall i :: 0 <= i < |rows| ==>
                d2.rows[id][i] == if rows[i].level == level then Row(level, rows[i].eligible, LevelRejected, Some(user))
                                  else if rows[i].status == Pending then Row(rows[i].level, rows[i].eligible, Skipped, rows[i].actor) else rows[i])
          && d2.rows == d.rows[id := d2.rows[id]]
          && d2.requests == d.requests[id := Request(r.doc, r.submitter, Rejected, None, r.total, Some(user))])
  }

  /** The submitter, and nobody else, cancels a request, and only while it waits. */
  ghost predicate CancelMeans(d: Desk, id: RequestId, user: UserId, error: Option<FlowError>, d2: Desk) {
    var known := id in d.requests && id in d.rows;
    var waits := known && d.requests[id].status == Waiting;
    && (error == Some(RequestNotFound) <==> !known)
    && (error == Some(RequestNotWaiting) <==> known && !waits)
    && (error == Some(CannotCancel) <==> waits && d.requests[id].submitter != user)
    && (error == None <==> waits && d.requests[id].submitter == user)
    && (error != None ==> d2 == d)
    && (error == None ==>
          var r, rows := d.requests[id], d.rows[id];
          && id in d2.rows && |d2.rows[id]| == |rows|
          && (forall i :: 0 <= i < |rows| ==>
                d2.rows[id][i] == if rows[i].status == Pending then Row(rows[i].level, rows[i].eligible, Skipped, rows[i].actor) else rows[i])
          && d2.rows == d.rows[id := d2.rows[id]]
          && d2.requests == d.requests[id := Request(r.doc, r.submitter, Cancelled, None, r.total, Some(user))])
  }

  ghost predicate Means(d: Desk, c: Call, error: Option<FlowError>, d2: Desk) {
    match c
    case Submit(id, doc, user, chain) => SubmitMeans(d, id, doc, user, chain, error, d2)
    case Approve(id, user) => ApproveMeans(d, id, user, error, d2)
    case Reject(id, user) => RejectMeans(d, id, user, error, d2)
    case Cancel(id, user) => CancelMeans(d, id, user, error, d2)
  }

  lemma {:induction false} FindRowFirst(rows: seq<Row>, level: int, user: UserId)
    ensures ListedFirst(rows, level, user) <==> FindRow(rows, level).Some? && user in FindRow(rows, level).value.eligible
  {
    if rows != [] && rows[0].level != level {
      FindRowFirst(rows[1..], level, user);
      if ListedFirst(rows, level, user) {
        var i :| 0 <= i < |rows| && rows[i].level == level && user in rows[i].eligible && forall j :: 0 <= j < i ==> rows[j].level != level;
        assert rows[1..][i - 1] == rows[i];
        assert forall j :: 0 <= j < i - 1 ==> rows[1..][j] == rows[j + 1];
      }
      if ListedFirst(rows[1..], level, user) {
        var i :| 0 <= i < |rows[1..]| && rows[1..][i].level == level && user in rows[1..][i].eligible
                 && forall j :: 0 <= j < i ==> rows[1..][j].level != level;
        assert rows[i + 1] == rows[1..][i];
        assert forall j :: 0 < j < i + 1 ==> rows[j] == rows[1..][j - 1];
      }
    } else if rows != [] {
      assert user in rows[0].eligible ==> ListedFirst(rows, level, user);
    }
  }

  lemma ActorMeant(d: Desk, id: RequestId, user: UserId)
    ensures ActorMeans(d, id, user, ActRefusal(d, id, user))
  {
    if id in d.requests && id in d.rows && d.requests[id].current.Some? {
      hide ListedFirst, FindRow;
      FindRowFirst(d.rows[id], d.requests[id].current.value, user);
      FindRowIs(d.rows[id], d.requests[id].current.value);
    }
  }

  /** Every call does what it means. */
  lemma CallMeant(d: Desk, c: Call)
    ensures Means(d, c, Refusal(d, c), After(d, c))
  {
    hide ActRefusal, ListedFirst;
    match c
    case Submit(_, _, _, chain) => if |chain| <= 0x1_0000 { WrapOf(|chain|); }
    case Approve(id, user) => ActorMeant(d, id, user);
    case Reject(id, user) => ActorMeant(d, id, user);
    case Cancel(_, _) =>
  }

  // ----- Each call keeps the shape -----

  lemma SubmitOk(doc: Doc, user: UserId, chain: seq<ChainLevel>)
    requires StoredChain(chain)
    ensures RequestOk(NewRequest(doc, user, chain), Snapshot(chain))
  {
    SnapshotNumbered(chain);
    WrapOf(|chain|);
  }

  /** What a call that acts on the current level may rely on. */
  ghost predicate MayAct(request: Request, rows: seq<Row>, user: UserId) {
    && RequestOk(request, rows) && request.status == Waiting
    && FindRow(rows, request.current.value).Some? && user in FindRow(rows, request.current.value).value.eligible
  }

  lemma CurrentEligible(rows: seq<Row>, k: int, user: UserId)
    requires Numbered(rows) && FindRow(rows, k).Some? && user in FindRow(rows, k).value.eligible
    ensures forall i :: 0 <= i < |rows| && rows[i].level == k ==> user in rows[i].eligible
  {
    FindRowIs(rows, k);
    var j :| 0 <= j < |rows| && rows[j] == FindRow(rows, k).value;
    forall i | 0 <= i < |rows| && rows[i].level == k ensures user in rows[i].eligible {
      assert i == j;
    }
  }

  lemma ApproveOk(request: Request, rows: seq<Row>, user: UserId)
    requires MayAct(request, rows, user)
    ensures RequestOk(Advanced(request, user), MarkLevel(rows, request.current.value, LevelApproved, user))
  {
    var k := request.current.value;
    var marked := MarkLevel(rows, k, LevelApproved, user);
    CurrentEligible(rows, k, user);
    NumberedKept(rows, marked);
  }

  lemma RejectOk(request: Request, rows: seq<Row>, user: UserId)
    requires MayAct(request, rows, user)
    ensures RequestOk(Finished(request, Rejected, user), SkipPending(MarkLevel(rows, request.current.value, LevelRejected, user)))
  {
    var k := request.current.value;
    var marked := SkipPending(MarkLevel(rows, k, LevelRejected, user));
    CurrentEligible(rows, k, user);
    NumberedKept(rows, marked);
    assert RejectedAt(marked, k) && ActedAt(marked, k, Some(user));
  }

  lemma CancelOk(request: Request, rows: seq<Row>, user: UserId)
    requires RequestOk(request, rows) && request.status == Waiting && request.submitter == user
    ensures RequestOk(Finished(request, Cancelled, user), SkipPending(rows))
  {
    NumberedKept(rows, SkipPending(rows));
    assert CancelledAt(SkipPending(rows), request.current.value);
  }

  /** The branch for a missing current-level row cannot be taken. */
  lemma CurrentRowExists(d: Desk, id: RequestId, user: UserId)
    requires Good(d)
    ensures ActRefusal(d, id, user) != Some(LevelRowMissing)
    ensures id in d.requests && d.requests[id].status == Waiting ==>
      ActRefusal(d, id, user) == None || ActRefusal(d, id, user) == Some(NotEligible)
  {
    if id in d.requests {
      assert RequestOk(d.requests[id], d.rows[id]);
    }
  }

  lemma PutKeeps(d: Desk, id: RequestId, request: Request, rows: seq<Row>)
    requires Good(d) && RequestOk(request, rows)
    requires request.status == Waiting ==>
      if id in d.requests then d.requests[id].status == Waiting && d.requests[id].doc == request.doc else !DocWaits(d, request.doc)
    ensures Good(Put(d, id, request, rows))
  {
    var d2 := Put(d, id, request, rows);
    forall a, b | WaitsOn(d2, a, b) ensures a == b {
      if a != id && b != id {
        assert WaitsOn(d, a, b);
      } else if a == id && b != id && id in d.requests {
        assert WaitsOn(d, id, b);
      } else if b == id && a != id && id in d.requests {
        assert WaitsOn(d, a, id);
      }
    }
  }

  /** Every call keeps every request in its shape. */
  lemma CallKeeps(d: Desk, c: Call)
    requires Good(d) && Admissible(d, c)
    ensures Good(After(d, c))
  {
    if Refusal(d, c) == None {
      match c
      case Submit(id, doc, user, chain) =>
        SubmitOk(doc, user, chain);
        PutKeeps(d, id, NewRequest(doc, user, chain), Snapshot(chain));
      case Approve(id, user) =>
        ApproveOk(d.requests[id], d.rows[id], user);
        PutKeeps(d, id, Advanced(d.requests[id], user), MarkLevel(d.rows[id], d.requests[id].current.value, LevelApproved, user));
      case Reject(id, user) =>
        RejectOk(d.requests[id], d.rows[id], user);
        PutKeeps(d, id, Finished(d.requests[id], Rejected, user),
                 SkipPending(MarkLevel(d.rows[id], d.requests[id].current.value, LevelRejected, user)));
      case Cancel(id, user) =>
        CancelOk(d.requests[id], d.rows[id], user);
        PutKeeps(d, id, Finished(d.requests[id], Cancelled, user), SkipPending(d.rows[id]));
    }
  }

  // ----- Runs -----

  ghost function RunCalls(d: Desk, calls: seq<Call>): Desk
    decreases |calls|
  {
    if calls == [] then d else RunCalls(After(d, calls[0]), calls[1..])
  }

  ghost predicate AllAdmissible(d: Desk, calls: seq<Call>)
    decreases |calls|
  {
    calls == [] || (Admissible(d, calls[0]) && AllAdmissible(After(d, calls[0]), calls[1..]))
  }

  /** Every serial run from an empty desk keeps the chain shape of every request. */
  lemma {:induction false} RunKeepsShape(d: Desk, calls: seq<Call>)
    requires Good(d) && AllAdmissible(d, calls)
    ensures Good(RunCalls(d, calls))
    decreases |calls|
  {
    if calls != [] {
      CallKeeps(d, calls[0]);
      RunKeepsShape(After(d, calls[0]), calls[1..]);
    }
  }

  lemma {:induction false} EveryRunKeepsShape(calls: seq<Call>)
    requires AllAdmissible(Desk(map[], map[]), calls)
    ensures Good(RunCalls(Desk(map[], map[]), calls))
  {
    RunKeepsShape(Desk(map[], map[]), calls);
  }

  /** How many approvals a waiting request still needs. */
  ghost function Remaining(d: Desk, id: RequestId): int {
    if id in d.requests && d.requests[id].status == Waiting && d.requests[id].current.Some?
    then d.requests[id].total - d.requests[id].current.value + 1
    else 0
  }

  /** A call on the request that is not refused. */
  ghost predicate ActsOn(d: Desk, c: Call, id: RequestId) {
    !c.Submit? && c.id == id && Refusal(d, c) == None
  }

  /** How many calls of the run act on the request. */
  ghost function Actions(d: Desk, calls: seq<Call>, id: RequestId): nat
    decreases |calls|
  {
    if calls == [] then 0
    else (if ActsOn(d, calls[0], id) then 1 else 0) + Actions(After(d, calls[0]), calls[1..], id)
  }

  lemma CallUsesUp(d: Desk, c: Call, id: RequestId)
    requires Good(d) && Admissible(d, c) && id in d.requests
    ensures id in After(d, c).requests
    ensures Remaining(d, id) >= 0
    ensures ActsOn(d, c, id) ==> Remaining(After(d, c), id) < Remaining(d, id)
    ensures ActsOn(d, c, id) && c.Approve? ==> Remaining(After(d, c), id) == Remaining(d, id) - 1
    ensures !ActsOn(d, c, id) ==> After(d, c).requests[id] == d.requests[id] && After(d, c).rows[id] == d.rows[id]
  {
    assert RequestOk(d.requests[id], d.rows[id]);
  }

  /** At most N calls ever act on a request of N levels, and then it is final. */
  lemma {:induction false} AtMostNActions(d: Desk, calls: seq<Call>, id: RequestId)
    requires Good(d) && AllAdmissible(d, calls) && id in d.requests
    ensures id in RunCalls(d, calls).requests
    ensures Actions(d, calls, id) + Remaining(RunCalls(d, calls), id) <= Remaining(d, id) <= |d.rows[id]|
    decreases |calls|
  {
    assert RequestOk(d.requests[id], d.rows[id]);
    if calls != [] {
      CallKeeps(d, calls[0]);
      CallUsesUp(d, calls[0], id);
      AtMostNActions(After(d, calls[0]), calls[1..], id);
    }
  }

  /** A request that no longer waits never changes again. */
  lemma {:induction false} FinalStays(d: Desk, calls: seq<Call>, id: RequestId)
    requires Good(d) && AllAdmissible(d, calls) && id in d.requests && d.requests[id].status != Waiting
    ensures id in RunCalls(d, calls).requests && id in RunCalls(d, calls).rows
    ensures RunCalls(d, calls).requests[id] == d.requests[id] && RunCalls(d, calls).rows[id] == d.rows[id]
    decreases |calls|
  {
    if calls != [] {
      CallKeeps(d, calls[0]);
      CallUsesUp(d, calls[0], id);
      FinalStays(After(d, calls[0]), calls[1..], id);
    }
  }

  lemma CallKeepsLevels(d: Desk, c: Call, id: RequestId)
    requires Good(d) && Admissible(d, c) && id in d.requests
    ensures id in After(d, c).rows && SameLevels(d.rows[id], After(d, c).rows[id])
  {}

  /** Who may approve which level is settled at submission: later calls, and later
      changes to the configuration, leave it. */
  lemma {:induction false} SnapshotStays(d: Desk, calls: seq<Call>, id: RequestId)
    requires Good(d) && AllAdmissible(d, calls) && id in d.requests
    ensures id in RunCalls(d, calls).rows && SameLevels(d.rows[id], RunCalls(d, calls).rows[id])
    decreases |calls|
  {
    if calls != [] {
      var d1 := After(d, calls[0]);
      CallKeeps(d, calls[0]);
      CallKeepsLevels(d, calls[0], id);
      SnapshotStays(d1, calls[1..], id);
    }
  }

  // ----- The service -----

  class ApprovalService {
    const store: ConfigStore
    var requests: map<RequestId, Request>
    var rows: map<RequestId, seq<Row>>

    ghost function Tables(): Desk
      reads this
    {
      Desk(requests, rows)
    }

    constructor (configs: ConfigStore)
      ensures store == configs && Tables() == Desk(map[], map[]) && Good(Tables())
    {
      store, requests, rows := configs, map[], map[];
    }

    /** The call c was carried out on the tables d, or refused. */
    ghost predicate Did(d: Desk, c: Call, error: Option<FlowError>)
      reads this
    {
      Tables() == After(d, c) && error == Refusal(d, c)
    }

    static method ContainsId(ids: seq<UserId>, target: UserId) returns (found: bool)
      ensures found <==> target in ids
    {
      var n := 0;
      while n < |ids|
        invariant 0 <= n <= |ids| && target !in ids[..n]
      {
        if ids[n] == target {
          return true;
        }
        n := n + 1;
      }
      assert ids[..n] == ids;
      return false;
    }

    /** The loop over the level rows that stops at the current one. */
    static method CurrentRow(levels: seq<Row>, level: int) returns (row: Option<Row>)
      ensures row == FindRow(levels, level)
    {
      var n := 0;
      while n < |levels|
        invariant 0 <= n <= |levels| && FindRow(levels[n..], level) == FindRow(levels, level)
      {
        assert levels[n..][0] == levels[n] && levels[n..][1..] == levels[n + 1..];
        if levels[n].level == level {
          return Some(levels[n]);
        }
        n := n + 1;
      }
      return None;
    }

    /** One pending row for each level of the chain. */
    static method SnapshotLevels(chain: seq<ChainLevel>) returns (snapshot: seq<Row>)
      ensures snapshot == Snapshot(chain)
    {
      snapshot := [];
      var n := 0;
      while n < |chain|
        invariant 0 <= n <= |chain| && |snapshot| == n
        invariant forall i :: 0 <= i < n ==> snapshot[i] == Snapshot(chain)[i]
      {
        snapshot := snapshot + [Row(chain[n].level as int, chain[n].approvers, Pending, None)];
        n := n + 1;
      }
    }

    /** Submits a document for the approvals its scope now asks for. */
    method SubmitRequest(id: RequestId, doc: Doc, user: UserId, scope: Scope) returns (error: Option<FlowError>)
      requires store.Valid()
      modifies this
      ensures Did(old(Tables()), Submit(id, doc, user, ActiveChain(store.configs, scope)), error)
      ensures forall chain :: IsChainOf(store.configs, scope, chain) ==> SubmitMeans(old(Tables()), id, doc, user, chain, error, Tables())
      ensures exists chain :: IsChainOf(store.configs, scope, chain) && StoredChain(chain)
    {
      hide SubmitMeans, StoredChain;
      ghost var now := ActiveChain(store.configs, scope);
      CallMeant(Tables(), Submit(id, doc, user, now));
      ActiveChainStored(store.configs, scope);
      assert IsChainOf(store.configs, scope, now) && forall chain :: IsChainOf(store.configs, scope, chain) ==> chain == now;
      if active :| active in requests && requests[active].doc == doc && requests[active].status == Waiting {
        return Some(RequestAlreadyExists);
      }
      var found := store.FindActive(scope);
      var chain := if found.Some? then found.value else [];
      var request := Request(doc, user, Waiting, Some(1), Wrap(|chain|) as int, None);
      if |chain| == 0 {
        WrapOf(0);
        request := Request(doc, user, Approved, None, Wrap(0) as int, Some(user));
      }
      var snapshot := SnapshotLevels(chain);
      requests := requests[id := request];
      rows := rows[id := snapshot];
      return None;
    }

    /** The checks an approval and a rejection share. */
    method CheckActor(id: RequestId, user: UserId) returns (error: Option<FlowError>)
      ensures error == ActRefusal(Tables(), id, user)
    {
      if id !in requests || id !in rows {
        return Some(RequestNotFound);
      }
      if requests[id].status != Waiting || requests[id].current == None {
        return Some(RequestNotWaiting);
      }
      var row := CurrentRow(rows[id], requests[id].current.value);
      if row == None {
        return Some(LevelRowMissing);
      }
      var eligible := ContainsId(row.value.eligible, user);
      error := if eligible then None else Some(NotEligible);
    }

    method MarkLevelAction(id: RequestId, level: int, status: RowStatus, user: UserId)
      requires id in rows
      modifies this`rows
      ensures rows == old(rows)[id := MarkLevel(old(rows)[id], level, status, user)]
    {
      rows := rows[id := MarkLevel(rows[id], level, status, user)];
    }

    method SkipRemainingPending(id: RequestId)
      requires id in rows
      modifies this`rows
      ensures rows == old(rows)[id := SkipPending(old(rows)[id])]
    {
      rows := rows[id := SkipPending(rows[id])];
    }

    method ApproveRequest(id: RequestId, user: UserId) returns (error: Option<FlowError>)
      modifies this
      ensures Did(old(Tables()), Approve(id, user), error)
      ensures ApproveMeans(old(Tables()), id, user, error, Tables())
    {
      hide ApproveMeans;
      CallMeant(Tables(), Approve(id, user));
      error := CheckActor(id, user);
      if error != None {
        return;
      }
      var request := requests[id];
      var level := request.current.value;
      MarkLevelAction(id, level, LevelApproved, user);
      if level >= request.total {
        requests := requests[id := request.(status := Approved, current := None, finalizedBy := Some(user))];
      } else {
        requests := requests[id := request.(current := Some(level + 1))];
      }
    }

    method RejectRequest(id: RequestId, user: UserId) returns (error: Option<FlowError>)
      modifies this
      ensures Did(old(Tables()), Reject(id, user), error)
      ensures RejectMeans(old(Tables()), id, user, error, Tables())
    {
      hide RejectMeans;
      CallMeant(Tables(), Reject(id, user));
      error := CheckActor(id, user);
      if error != None {
        return;
      }
      var request := requests[id];
      MarkLevelAction(id, request.current.value, LevelRejected, user);
      SkipRemainingPending(id);
      requests := requests[id := request.(status := Rejected, current := None, finalizedBy := Some(user))];
    }

    method CancelRequest(id: RequestId, user: UserId) returns (error: Option<FlowError>)
      modifies this
      ensures Did(old(Tables()), Cancel(id, user), error)
      ensures CancelMeans(old(Tables()), id, user, error, Tables())
    {
      hide CancelMeans;
      CallMeant(Tables(), Cancel(id, user));
      if id !in requests || id !in rows {
        return Some(RequestNotFound);
      }
      var request := requests[id];
      if request.status != Waiting {
        return Some(RequestNotWaiting);
      }
      if request.submitter != user {
        return Some(CannotCancel);
      }
      SkipRemainingPending(id);
      requests := requests[id := request.(status := Cancelled, current := None, finalizedBy := Some(user))];
      return None;
    }
  }

  lemma NeverMissing(d: Desk, c: Call)
    requires Good(d)
    ensures Refusal(d, c) != Some(LevelRowMissing)
  {
    if c.Approve? || c.Reject? {
      CurrentRowExists(d, c.id, c.user);
    }
  }

  // ----- Configurations and requests together -----

  /** The configurations and the two request tables. */
  datatype Office = Office(configs: Configs, desk: Desk)

  /** A change to the configurations, a submission, or a call on a request. */
  datatype Act =
    | Configure(change: ConfigChange)
    | Ask(id: RequestId, doc: Doc, user: UserId, scope: Scope)
    | Answer(call: Call)

  /** The call an act makes of the requests, if it makes one: a submission snapshots
      the chain its scope has at that moment. */
  ghost function CallOf(office: Office, act: Act): Option<Call> {
    match act
    case Configure(_) => None
    case Ask(id, doc, user, scope) =>
      if id in office.desk.requests || id in office.desk.rows then None
      else Some(Submit(id, doc, user, ActiveChain(office.configs, scope)))
    case Answer(call) => if call.Submit? then None else Some(call)
  }

  /** An act that cannot happen, for want of a new id, changes nothing, so every list
      of acts is a run. */
  ghost function Acted(office: Office, act: Act): Office {
    var call := CallOf(office, act);
    if call.Some? then office.(desk := After(office.desk, call.value))
    else if act.Configure? && !(act.change.AddConfig? && act.change.id in office.configs)
    then office.(configs := Changed(office.configs, act.change))
    else office
  }

  ghost function RunActs(office: Office, acts: seq<Act>): Office
    decreases |acts|
  {
    if acts == [] then office else RunActs(Acted(office, acts[0]), acts[1..])
  }

  lemma ActKeeps(office: Office, act: Act)
    requires ConfigsOk(office.configs) && Good(office.desk)
    ensures ConfigsOk(Acted(office, act).configs) && Good(Acted(office, act).desk)
    ensures CallOf(office, act).Some? ==>
      Admissible(office.desk, CallOf(office, act).value) && Refusal(office.desk, CallOf(office, act).value) != Some(LevelRowMissing)
  {
    var call := CallOf(office, act);
    if call.Some? {
      NeverMissing(office.desk, call.value);
      if act.Ask? {
        ActiveChainStored(office.configs, act.scope);
      }
      CallKeeps(office.desk, call.value);
    } else if act.Configure? && !(act.change.AddConfig? && act.change.id in office.configs) {
      ChangeKeeps(office.configs, act.change);
    }
  }

  /** What an act does, said without its calls: a change leaves the requests alone, a
      submission takes the chain its scope has now, and calls leave the configurations. */
  ghost predicate ActMeans(office: Office, act: Act, office2: Office) {
    match act
    case Configure(change) =>
      && office2.desk == office.desk
      && if change.AddConfig? && change.id in office.configs then office2 == office
         else exists done: bool :: ChangeMeans(office.configs, change, done, office2.configs)
    case Ask(id, doc, user, scope) =>
      && office2.configs == office.configs
      && if id in office.desk.requests || id in office.desk.rows then office2 == office
         else exists chain, error ::
           IsChainOf(office.configs, scope, chain) && SubmitMeans(office.desk, id, doc, user, chain, error, office2.desk)
    case Answer(call) =>
      && office2.configs == office.configs
      && if call.Submit? then office2 == office else exists error :: Means(office.desk, call, error, office2.desk)
  }

  lemma ActMeant(office: Office, act: Act)
    requires ConfigsOk(office.configs)
    ensures ActMeans(office, act, Acted(office, act))
  {
    hide ConfigsOk, SubmitMeans, ApproveMeans, RejectMeans, CancelMeans, After, Changed, ChangeMeans;
    match act
    case Configure(change) => ChangeMeant(office.configs, change);
    case Ask(id, doc, user, scope) =>
      ActiveChainStored(office.configs, scope);
      assert IsChainOf(office.configs, scope, ActiveChain(office.configs, scope));
      CallMeant(office.desk, Submit(id, doc, user, ActiveChain(office.configs, scope)));
    case Answer(call) => CallMeant(office.desk, call);
  }

  lemma {:induction false} RunActsKeeps(office: Office, acts: seq<Act>)
    requires ConfigsOk(office.configs) && Good(office.desk)
    ensures ConfigsOk(RunActs(office, acts).configs) && Good(RunActs(office, acts).desk)
    decreases |acts|
  {
    if acts != [] {
      ActKeeps(office, acts[0]);
      RunActsKeeps(Acted(office, acts[0]), acts[1..]);
    }
  }

  /** Whatever configurations are created, changed and deleted while requests are
      submitted, approved, rejected and cancelled: every stored chain is a permutation
      of 1..N, and every request has its chain shape. */
  lemma {:induction false} EveryOfficeRunKeepsShape(acts: seq<Act>)
    ensures var office := RunActs(Office(map[], Desk(map[], map[])), acts);
      ConfigsOk(office.configs) && Good(office.desk)
  {
    RunActsKeeps(Office(map[], Desk(map[], map[])), acts);
  }

  /** Who ended a request: its submitter if it was cancelled or had no levels, and
      otherwise the user, named by the snapshot, who rejected it or approved its last
      level; while it waits, nobody. */
  lemma {:induction false} EveryEndHasItsActor(acts: seq<Act>, id: RequestId)
    ensures var desk := RunActs(Office(map[], Desk(map[], map[])), acts).desk;
      id in desk.requests ==>
        && id in desk.rows
        && var r, rows := desk.requests[id], desk.rows[id];
        && (r.status == Waiting <==> r.finalizedBy == None)
        && (r.status == Cancelled ==> r.finalizedBy == Some(r.submitter))
        && (r.status == Rejected ==> exists i ::
              0 <= i < |rows| && rows[i].status == LevelRejected && rows[i].actor == r.finalizedBy && rows[i].actor.Some? && rows[i].actor.value in rows[i].eligible)
        && (r.status == Approved && rows == [] ==> r.finalizedBy == Some(r.submitter))
        && (r.status == Approved && rows != [] ==> exists i ::
              0 <= i < |rows| && rows[i].level == |rows| && rows[i].status == LevelApproved && rows[i].actor == r.finalizedBy)
        && (r.status == Approved ==> forall i :: 0 <= i < |rows| ==>
              rows[i].status == LevelApproved && rows[i].actor.Some? && rows[i].actor.value in rows[i].eligible)
  {
    var desk := RunActs(Office(map[], Desk(map[], map[])), acts).desk;
    EveryOfficeRunKeepsShape(acts);
    if id in desk.requests {
      var r, rows := desk.requests[id], desk.rows[id];
      assert RequestOk(r, rows);
      if r.status == Approved && rows != [] {
        LevelExists(rows, |rows|);
      } else if r.status == Rejected {
        var k :| 1 <= k <= |rows| && RejectedAt(rows, k) && ActedAt(rows, k, r.finalizedBy);
        LevelExists(rows, k);
      }
    }
  }

  lemma LevelExists(rows: seq<Row>, k: int)
    requires Numbered(rows) && 1 <= k <= |rows|
    ensures exists i :: 0 <= i < |rows| && rows[i].level == k
  {
    FindRowIs(rows, k);
    assert FindRow(rows, k).Some?;
  }

  /** Changes to the configurations never reach a request already submitted. */
  lemma {:induction false} OfficeKeepsSnapshot(office: Office, acts: seq<Act>, id: RequestId)
    requires ConfigsOk(office.configs) && Good(office.desk) && id in office.desk.requests
    ensures var desk := RunActs(office, acts).desk;
      id in desk.rows && SameLevels(office.desk.rows[id], desk.rows[id])
    decreases |acts|
  {
    if acts != [] {
      var next := Acted(office, acts[0]);
      ActKeeps(office, acts[0]);
      if CallOf(office, acts[0]).Some? {
        CallKeepsLevels(office.desk, CallOf(office, acts[0]).value, id);
      }
      OfficeKeepsSnapshot(next, acts[1..], id);
    }
  }
}
