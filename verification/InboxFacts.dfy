/** Requests, receipts and the rules by which a request file is refused. */
module InboxFacts {
  import opened Wrappers
  import opened ControlFacts

  function Priority(c: Command): nat {
    match c
    case HaltCommand => 0
    case DisarmCommand => 1
    case CancelCommand => 2
    case StopCommand => 3
  }

  datatype Request = Request(
    id: RequestId, command: Command, created: Time, expires: Time, host: string,
    reasonDigest: Option<string>)

  /** Seconds. */
  const MAX_TTL := 900

  predicate ValidRequest(r: Request) {
    r.created < r.expires <= r.created + MAX_TTL
  }

  datatype FileName = NamedFor(id: RequestId) | Other(name: string)

  /** A link, directory or badly protected or sized file; bytes that are not a canonical
      request; or a request. */
  datatype Content = Irregular(kind: string) | Garbage(raw: string, why: string) | Queued(request: Request)

  datatype Reason = Because(why: string)

  /** A digest is modelled by what it digests. */
  datatype Digest = OfContent(content: Content) | OfName(file: FileName, reason: Reason)

  datatype ReceiptId = ForRequest(id: RequestId) | ForInvalid(file: FileName, digest: Digest)

  datatype Outcome = Refused(reason: Reason) | Executed(result: string)

  datatype Receipt = Receipt(
    id: ReceiptId, command: Option<Command>, request: Digest, at: Time, outcome: Outcome)

  /** What the handler comes to. */
  datatype Execution = Execution(outcome: string, halted: bool, stop: bool)

  /** What consuming the directory once comes to: all receipts of this pass, and whether any
      request halted or stopped the runtime. */
  datatype Batch = Batch(receipts: seq<Receipt>, halted: bool, stop: bool)

  function Record(r: Request, outcome: string, stamp: ReceiptId -> Time): Receipt {
    Receipt(ForRequest(r.id), Some(r.command), OfContent(Queued(r)), stamp(ForRequest(r.id)), Executed(outcome))
  }

  datatype InboxError =
    | TtlInvalid
    | RequestIdCollision
    | AlreadyQueued
    | ReceiptCollision
    | HandlerRaised

  /** Why a file must not be acted on, if so. */
  function Refusal(name: FileName, content: Content, now: Time, host: string): Option<Reason> {
    match content
    case Irregular(kind) => Some(Because(kind))
    case Garbage(_, why) => Some(Because(why))
    case Queued(r) =>
      if !ValidRequest(r) then Some(Because("CONTROL_REQUEST_FIELDS_INVALID"))
      else if r.host != host then Some(Because("CONTROL_REQUEST_HOST_MISMATCH"))
      else if r.created > now then Some(Because("CONTROL_REQUEST_FROM_FUTURE"))
      else if r.expires <= now then Some(Because("CONTROL_REQUEST_EXPIRED"))
      else if name != NamedFor(r.id) then Some(Because("CONTROL_REQUEST_PATH_MISMATCH"))
      else None
  }

  /** A request that may be acted on now: for this host, alive, and for no more than a
      quarter of an hour. */
  predicate Actionable(r: Request, now: Time, host: string) {
    r.host == host && r.created <= now < r.expires && r.expires - r.created <= 15 * 60
  }

  /** A file is let through exactly when it holds an actionable request under its own name. */
  lemma LetThroughExactly(name: FileName, content: Content, now: Time, host: string)
    ensures Refusal(name, content, now, host).None? <==>
      content.Queued? && name == NamedFor(content.request.id) && Actionable(content.request, now, host)
  {
  }

  function DigestOf(name: FileName, content: Content, reason: Reason): Digest {
    if content.Irregular? then OfName(name, reason) else OfContent(content)
  }

  function RejectionId(name: FileName, content: Content, reason: Reason): ReceiptId {
    if name.NamedFor? then ForRequest(name.id) else ForInvalid(name, DigestOf(name, content, reason))
  }

  function Rejection(name: FileName, content: Content, reason: Reason, stamp: ReceiptId -> Time): Receipt {
    var id := RejectionId(name, content, reason);
    Receipt(id, None, DigestOf(name, content, reason), stamp(id), Refused(reason))
  }

  /** The receipts a file can lead to; no two files share one. */
  predicate Owns(name: FileName, id: ReceiptId) {
    match name
    case NamedFor(i) => id == ForRequest(i)
    case Other(_) => id.ForInvalid? && id.file == name
  }

  const COLLISION := Because("CONTROL_REQUEST_ID_COLLISION")

  /** Whether the file has to be rejected, and with which reason: refused for itself, or
      named like a request answered already with other contents. */
  function MustReject(
    name: FileName, content: Content, receipts: map<ReceiptId, Receipt>, now: Time, host: string
  ): Option<Reason> {
    var refusal := Refusal(name, content, now, host);
    if refusal.Some? then refusal
    else if content.Queued? && ForRequest(content.request.id) in receipts
         && receipts[ForRequest(content.request.id)].request != OfContent(content) then Some(COLLISION)
    else None
  }

  /** A file that can neither be acted on nor be rejected: the receipt its rejection would
      write is there already, with something else in it. */
  predicate Poison(
    name: FileName, content: Content, receipts: map<ReceiptId, Receipt>, now: Time, host: string,
    stamp: ReceiptId -> Time
  ) {
    var reason := MustReject(name, content, receipts, now, host);
    && reason.Some?
    && RejectionId(name, content, reason.value) in receipts
    && receipts[RejectionId(name, content, reason.value)] != Rejection(name, content, reason.value, stamp)
  }

  /** Exactly when a request that has been answered blocks the directory: once it has
      expired it must be rejected, and the receipt it already has says otherwise; before
      that only if the receipt answers other contents. */
  lemma AnsweredPoisonExactly(
    r: Request, receipts: map<ReceiptId, Receipt>, now: Time, host: string, stamp: ReceiptId -> Time
  )
    requires ValidRequest(r) && r.host == host && r.created <= now && ForRequest(r.id) in receipts
    ensures var answer := receipts[ForRequest(r.id)];
      Poison(NamedFor(r.id), Queued(r), receipts, now, host, stamp) <==>
        if r.expires <= now
        then answer != Rejection(NamedFor(r.id), Queued(r), Because("CONTROL_REQUEST_EXPIRED"), stamp)
        else answer.request != OfContent(Queued(r))
  {
  }

  /** A request that was run, recorded, and left in the directory by a crash before it
      expired, stops every later batch once it has expired. */
  lemma RunAndExpiredIsPoison(
    r: Request, receipts: map<ReceiptId, Receipt>, now: Time, host: string, stamp: ReceiptId -> Time
  )
    requires ValidRequest(r) && r.host == host && r.expires <= now
    requires ForRequest(r.id) in receipts && receipts[ForRequest(r.id)].outcome.Executed?
    ensures Poison(NamedFor(r.id), Queued(r), receipts, now, host, stamp)
  {
  }

  // --------------------------------------------------------------------- batch order

  /** Priority first, then age, then id. */
  predicate Before(a: Request, b: Request) {
    || Priority(a.command) < Priority(b.command)
    || (Priority(a.command) == Priority(b.command)
        && (a.created < b.created || (a.created == b.created && a.id <= b.id)))
  }

  predicate InOrder(rs: seq<Request>) {
    forall i, j :: 0 <= i < j < |rs| ==> Before(rs[i], rs[j])
  }

  predicate MoreUrgent(a: Command, b: Command) {
    match b
    case HaltCommand => false
    case DisarmCommand => a.HaltCommand?
    case CancelCommand => a.HaltCommand? || a.DisarmCommand?
    case StopCommand => !a.StopCommand?
  }

  /** Halts first, then disarms, then cancels, then stops; the same command by age, and at
      the same age by id. */
  predicate ByUrgency(rs: seq<Request>) {
    forall i, j :: 0 <= i < j < |rs| ==>
      && !MoreUrgent(rs[j].command, rs[i].command)
      && (rs[i].command == rs[j].command ==>
            rs[i].created < rs[j].created || (rs[i].created == rs[j].created && rs[i].id <= rs[j].id))
  }

  lemma InOrderExactly(rs: seq<Request>)
    ensures InOrder(rs) <==> ByUrgency(rs)
  {
    forall i, j | 0 <= i < j < |rs|
      ensures Before(rs[i], rs[j]) <==>
        !MoreUrgent(rs[j].command, rs[i].command)
        && (rs[i].command == rs[j].command ==>
              rs[i].created < rs[j].created || (rs[i].created == rs[j].created && rs[i].id <= rs[j].id))
    {
      UrgencyOfTwo(rs[i], rs[j]);
    }
  }

  lemma UrgencyOfTwo(a: Request, b: Request)
    ensures Before(a, b) <==>
      !MoreUrgent(b.command, a.command)
      && (a.command == b.command ==> a.created < b.created || (a.created == b.created && a.id <= b.id))
  {
  }

  function Insert(r: Request, rs: seq<Request>): seq<Request> {
    if rs == [] || Before(r, rs[0]) then [r] + rs else [rs[0]] + Insert(r, rs[1..])
  }

  function Sort(rs: seq<Request>): seq<Request> {
    if rs == [] then [] else Insert(rs[|rs| - 1], Sort(rs[..|rs| - 1]))
  }

  lemma BeforeIsTotal(a: Request, b: Request)
    ensures Before(a, b) || Before(b, a)
  {
  }

  lemma BeforeIsTransitive(a: Request, b: Request, c: Request)
    requires Before(a, b) && Before(b, c)
    ensures Before(a, c)
  {
  }

  lemma {:induction false} InsertKeepsAll(r: Request, rs: seq<Request>)
    ensures multiset(Insert(r, rs)) == multiset(rs) + multiset{r}
  {
    hide Before;
    if rs != [] {
      assert rs == [rs[0]] + rs[1..];
      InsertKeepsAll(r, rs[1..]);
    }
  }

  predicate FromAll(a: Request, rs: seq<Request>) {
    forall b :: b in rs ==> Before(a, b)
  }

  lemma OrderCons(a: Request, rs: seq<Request>)
    requires InOrder(rs) && FromAll(a, rs)
    ensures InOrder([a] + rs)
  {
    hide Before;
  }

  lemma {:induction false} InsertInOrder(r: Request, rs: seq<Request>)
    requires InOrder(rs)
    ensures InOrder(Insert(r, rs))
  {
    hide Before;
    if rs == [] {
    } else if Before(r, rs[0]) {
      forall b | b in rs ensures Before(r, b) {
        if b != rs[0] {
          BeforeIsTransitive(r, rs[0], b);
        }
      }
      OrderCons(r, rs);
    } else {
      InsertInOrder(r, rs[1..]);
      InsertKeepsAll(r, rs[1..]);
      BeforeIsTotal(r, rs[0]);
      forall b | b in Insert(r, rs[1..]) ensures Before(rs[0], b) {
        assert b in multiset(Insert(r, rs[1..]));
        assert b == r || b in rs[1..];
      }
      OrderCons(rs[0], Insert(r, rs[1..]));
    }
  }

  /** A batch is run in priority, age and id order, and is the whole batch. */
  lemma {:induction false} SortSorts(rs: seq<Request>)
    ensures InOrder(Sort(rs)) && multiset(Sort(rs)) == multiset(rs)
  {
    if rs != [] {
      var init, last := rs[..|rs| - 1], rs[|rs| - 1];
      SortSorts(init);
      InsertInOrder(last, Sort(init));
      InsertKeepsAll(last, Sort(init));
      assert rs == init + [last];
    }
  }
}
