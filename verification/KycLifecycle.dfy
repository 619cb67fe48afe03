/** The identity verification handlers: `RequestIDVerification`, `GetIDVerificationStatus`
    and `KYCWebhook`, as atomic steps over the stored rows. */
module KycLifecycle {
  import opened Prelude

  type Time = int // nanoseconds

  const MINUTE: Time := 60 * 1_000_000_000
  const HOUR: Time := 60 * MINUTE

  datatype Status = Pending | Success | Failed

  datatype Row = Row(
    address: string, signature: string, status: Status,
    platformRef: string, url: string, lastUrlCreatedAt: Time)

  /** The stored rows by id, the next fresh id, and the clock. `born` is a history
      variable: the time at which each row was created. */
  datatype State = State(rows: map<nat, Row>, nextId: nat, now: Time, born: map<nat, Time>)

  const EMPTY: State := State(map[], 0, 0, map[])

  /** Where the surroundings of a request may fail. */
  datatype Fault = NoFault | QueryFails | DeleteFails | ProviderFails | SaveFails

  function LowerCase(c: char): char {
    if 'A' <= c <= 'Z' then (c as int + 32) as char else c
  }

  /** The letters of an address without their case: what all spellings of a wallet share. */
  function Fold(address: string): string {
    seq(|address|, i requires 0 <= i < |address| => LowerCase(address[i]))
  }

  /** Two spellings of one address: letter by letter the same but for upper and lower case. */
  ghost predicate SameLetters(a: string, b: string) {
    && |a| == |b|
    && forall i :: 0 <= i < |a| ==>
         || a[i] == b[i]
         || ('A' <= a[i] <= 'Z' && b[i] as int == a[i] as int + 32)
         || ('A' <= b[i] <= 'Z' && a[i] as int == b[i] as int + 32)
  }

  lemma FoldsAlike(a: string, b: string)
    ensures Fold(a) == Fold(b) <==> SameLetters(a, b)
  {
    if Fold(a) == Fold(b) {
      assert |Fold(a)| == |a| && |Fold(b)| == |b|;
      forall i | 0 <= i < |a| ensures LowerCase(a[i]) == LowerCase(b[i]) {
        assert Fold(a)[i] == Fold(b)[i];
      }
    }
    if SameLetters(a, b) {
      assert Fold(a) == Fold(b);
    }
  }

  /** A request; `recovered` is the address that its signature recovers to, if it is well
      formed. That address is hexadecimal, so folding compares ASCII letters only. */
  datatype Request = Request(
    address: string, signature: string, recovered: Option<string>, fault: Fault, platformRef: string, link: string)
  {
    predicate Verified() {
      recovered.Some? && Fold(recovered.value) == Fold(address)
    }
  }

  /** A callback; `authentic` says that its own signature verifies. */
  datatype Callback = Callback(address: string, code: string, authentic: bool, fault: Fault)

  datatype Response =
    | InvalidSignature
    | SignatureUsed
    | AlreadyVerified
    | ProviderUnreachable
    | InternalError
    | Reused(url: string, expiresAt: Time)
    | Created(url: string, expiresAt: Time)

  datatype Reported = NotFound | Unavailable | Expired(url: string) | Current(status: Status, url: string)

  // ---- The rows ------------------------------------------------------------------------

  ghost function Matches(s: State, address: string): set<nat> {
    set i | i in s.rows && s.rows[i].address == address
  }

  /** `Only`: the single match, or why there is none. */
  datatype OnlyResult = NoRow | One(id: nat) | NotSingular

  ghost function Only(s: State, address: string): (r: OnlyResult)
    ensures r.One? ==> Matches(s, address) == {r.id}
    ensures r.NoRow? <==> Matches(s, address) == {}
  {
    var m := Matches(s, address);
    if m == {} then NoRow
    else
      var i :| i in m;
      if m == {i} then One(i) else NotSingular
  }

  /** A unique column already holds the value in some other row. */
  ghost predicate SignatureTaken(s: State, signature: string, except: set<nat>) {
    exists i :: i in s.rows && i !in except && s.rows[i].signature == signature
  }

  ghost predicate AddressTaken(s: State, address: string) {
    exists i :: i in s.rows && s.rows[i].address == address
  }

  // ---- The handlers as state functions ----------------------------------------------------

  /** What a request does before anything is created: an answer, or the state in which the
      identity provider is asked. */
  datatype Decision = Answer(state: State, response: Response) | Proceed(state: State)

  /** A row that a request deletes: failed, or pending beyond its window. */
  predicate Stale(row: Row, now: Time) {
    row.status == Failed || (row.status == Pending && row.lastUrlCreatedAt + 15 * MINUTE < now)
  }

  ghost function Decide(s: State, r: Request): Decision {
    if !r.Verified() then Answer(s, InvalidSignature)
    else if r.fault == QueryFails then Answer(s, InternalError)
    else
      match Only(s, r.address)
      case NotSingular => Answer(s, InternalError)
      case NoRow => Proceed(s)
      case One(i) =>
        var row := s.rows[i];
        if row.signature == r.signature then Answer(s, SignatureUsed)
        else if Stale(row, s.now) then
          if r.fault == DeleteFails then Answer(s, InternalError)
          else Proceed(s.(rows := s.rows - Matches(s, r.address)))
        else if row.status == Pending then
          if r.fault == SaveFails || SignatureTaken(s, r.signature, {i}) then Answer(s, InternalError)
          else Answer(s.(rows := s.rows[i := row.(signature := r.signature)]),
                      Reused(row.url, row.lastUrlCreatedAt))
        else Answer(s, AlreadyVerified)
  }

  ghost function Create(s: State, r: Request): (State, Response) {
    if r.fault == ProviderFails then (s, ProviderUnreachable)
    else if r.fault == SaveFails || SignatureTaken(s, r.signature, {}) || AddressTaken(s, r.address)
    then (s, InternalError)
    else
      var row := Row(r.address, r.signature, Pending, r.platformRef, r.link, s.now + 24 * HOUR);
      (State(s.rows[s.nextId := row], s.nextId + 1, s.now, s.born[s.nextId := s.now]),
       Created(row.url, row.lastUrlCreatedAt))
  }

  ghost function OnRequest(s: State, r: Request): (State, Response) {
    match Decide(s, r)
    case Answer(s1, response) => (s1, response)
    case Proceed(s1) => Create(s1, r)
  }

  const SUCCESS_CODES: set<string> := {"0810", "1020", "1012", "0820", "0840"}

  const FAILED_CODES: set<string> :=
    {"0811", "0812", "0813", "1022", "1023", "1011", "1013", "1014",
     "0821", "0911", "0912", "0921", "0922", "0841", "0941", "0942"}

  /** The status a result code stands for; the failed codes are looked up last. */
  function StatusOf(code: string): Status {
    if code in FAILED_CODES then Failed else if code in SUCCESS_CODES then Success else Pending
  }

  ghost function OnCallback(s: State, c: Callback): State {
    if !c.authentic || c.fault != NoFault then s
    else s.(rows := map i | i in s.rows ::
      if s.rows[i].address == c.address && s.rows[i].status == Pending
      then s.rows[i].(status := StatusOf(c.code)) else s.rows[i])
  }

  ghost function Report(s: State, address: string, fault: Fault): Reported {
    if fault != NoFault then Unavailable
    else
      match Only(s, address)
      case NoRow => NotFound
      case NotSingular => Unavailable
      case One(i) =>
        var row := s.rows[i];
        if row.lastUrlCreatedAt + 1 * HOUR < s.now then Expired(row.url) else Current(row.status, row.url)
  }

  datatype Event = Requested(request: Request) | CalledBack(callback: Callback) | Waited(duration: nat)

  ghost function Step(s: State, e: Event): State {
    match e
    case Requested(r) => OnRequest(s, r).0
    case CalledBack(c) => OnCallback(s, c)
    case Waited(d) => s.(now := s.now + d)
  }

  ghost function Run(s: State, events: seq<Event>): State
    decreases |events|
  {
    if events == [] then s else Run(Step(s, events[0]), events[1..])
  }

  // ---- The handlers over the store ----------------------------------------------------------

  class Controller {
    var rows: map<nat, Row>
    var nextId: nat
    var now: Time
    ghost var born: map<nat, Time>

    constructor (now: Time)
      ensures View() == State(map[], 0, now, map[])
    {
      rows, nextId, this.now, born := map[], 0, now, map[];
    }

    ghost function View(): State
      reads this
    {
      State(rows, nextId, now, born)
    }

    /** The first two ids that a query limited to two rows returns. */
    method QueryOnly(address: string) returns (r: OnlyResult)
      ensures r == Only(View(), address)
    {
      var ids := set i | i in rows && rows[i].address == address;
      assert ids == Matches(View(), address);
      if ids == {} {
        return NoRow;
      }
      var i :| i in ids;
      r := if ids == {i} then One(i) else NotSingular;
    }

    method RequestIDVerification(r: Request) returns (response: Response)
      modifies this
      ensures (View(), response) == OnRequest(old(View()), r)
      ensures response == InvalidSignature <==>
                r.recovered.None? || !SameLetters(r.recovered.value, r.address)
      ensures response == InvalidSignature ==> unchanged(this)
    {
      FoldsAlike(r.recovered.GetOr(r.address), r.address);
      if r.recovered.None? {
        return InvalidSignature;
      }
      if Fold(r.recovered.value) != Fold(r.address) {
        return InvalidSignature;
      }
      if r.fault == QueryFails {
        return InternalError;
      }
      var ivr := QueryOnly(r.address);
      if ivr.NotSingular? {
        return InternalError;
      }
      var timestamp := now;
      if ivr.One? {
        var row := rows[ivr.id];
        if row.signature == r.signature {
          return SignatureUsed;
        }
        var expiryPeriod := 15 * MINUTE;
        if row.status == Failed || (row.status == Pending && row.lastUrlCreatedAt + expiryPeriod < timestamp) {
          if r.fault == DeleteFails {
            return InternalError;
          }
          rows := rows - set i | i in rows && rows[i].address == r.address;
        } else if row.status == Pending && row.lastUrlCreatedAt + expiryPeriod >= timestamp {
          if r.fault == SaveFails || exists i :: i in rows && i != ivr.id && rows[i].signature == r.signature {
            return InternalError;
          }
          rows := rows[ivr.id := row.(signature := r.signature)];
          return Reused(row.url, row.lastUrlCreatedAt);
        }
        if row.status == Success {
          return AlreadyVerified;
        }
      }
      if r.fault == ProviderFails {
        return ProviderUnreachable;
      }
      if r.fault == SaveFails
         || exists i :: i in rows && (rows[i].signature == r.signature || rows[i].address == r.address) {
        return InternalError;
      }
      var created := Row(r.address, r.signature, Pending, r.platformRef, r.link, timestamp + 24 * HOUR);
      rows := rows[nextId := created];
      born := born[nextId := timestamp];
      nextId := nextId + 1;
      return Created(created.url, created.lastUrlCreatedAt);
    }

    method KYCWebhook(c: Callback) returns (ok: bool)
      modifies this`rows
      ensures View() == OnCallback(old(View()), c)
      ensures ok <==> c.authentic && c.fault == NoFault
      ensures !ok ==> rows == old(rows)
    {
      if !c.authentic {
        return false;
      }
      var status := Pending;
      if c.code in SUCCESS_CODES {
        status := Success;
      }
      if c.code in FAILED_CODES {
        status := Failed;
      }
      if c.fault != NoFault {
        return false;
      }
      rows := map i | i in rows ::
        if rows[i].address == c.address && rows[i].status == Pending then rows[i].(status := status) else rows[i];
      return true;
    }

    method GetIDVerificationStatus(address: string, fault: Fault) returns (reported: Reported)
      ensures reported == Report(View(), address, fault)
    {
      if fault != NoFault {
        return Unavailable;
      }
      var ivr := QueryOnly(address);
      match ivr
      case NoRow => return NotFound;
      case NotSingular => return Unavailable;
      case One(i) =>
        if rows[i].lastUrlCreatedAt + 1 * HOUR < now {
          return Expired(rows[i].url);
        }
        return Current(rows[i].status, rows[i].url);
    }
  }

  // ---- What each handler answers ---------------------------------------------------------------

  /** Every answer to a verified request, in nanoseconds: for a known address by its row, for
      an unknown one by whether the signature is in use, and what each fault breaks. */
  lemma RequestTable(s: State, r: Request, id: nat)
    requires Inv(s) && r.Verified()
    requires id in s.rows ==> s.rows[id].address == r.address
    requires id !in s.rows ==> forall i :: i in s.rows ==> s.rows[i].address != r.address
    ensures var (s', response) := OnRequest(s, r);
            var used := exists i :: i in s.rows && i != id && s.rows[i].signature == r.signature;
            var others := s.rows - {id};
            if r.fault == QueryFails then
              s' == s && response == InternalError
            else if id in s.rows && s.rows[id].signature == r.signature then
              s' == s && response == SignatureUsed
            else if id in s.rows && s.rows[id].status == Success then
              s' == s && response == AlreadyVerified
            else if id in s.rows && s.rows[id].status == Pending
                    && s.now <= s.rows[id].lastUrlCreatedAt + 900_000_000_000 then
              if used || r.fault == SaveFails then s' == s && response == InternalError
              else s' == s.(rows := s.rows[id := s.rows[id].(signature := r.signature)])
                   && response == Reused(s.rows[id].url, s.rows[id].lastUrlCreatedAt)
            else if id in s.rows && r.fault == DeleteFails then
              s' == s && response == InternalError
            else if r.fault == ProviderFails then
              s' == s.(rows := others) && response == ProviderUnreachable
            else if used || r.fault == SaveFails then
              s' == s.(rows := others) && response == InternalError
            else
              var created := Row(r.address, r.signature, Pending, r.platformRef, r.link, s.now + 86_400_000_000_000);
              && s'.rows == others[s.nextId := created] && s'.nextId == s.nextId + 1 && s'.now == s.now
              && s'.born == s.born[s.nextId := s.now] && response == Created(r.link, s.now + 86_400_000_000_000)
  {
    OnlyIsExact(s, r.address);
    if id in s.rows {
      OnlyRow(s, id);
    } else {
      assert Matches(s, r.address) == {};
      assert s.rows - {id} == s.rows;
    }
    CreationMeetsNoRow(s, r);
    if Decide(s, r).Proceed? {
      assert Decide(s, r).state == s.(rows := s.rows - {id});
      assert forall i :: i in s.rows && i != id ==> (s.rows - {id})[i] == s.rows[i];
    }
  }

  /** The status report: of the address's row, and of the hour after its stamp first. */
  lemma ReportTable(s: State, address: string, id: nat)
    requires Inv(s) && (id in s.rows ==> s.rows[id].address == address)
    requires id !in s.rows ==> forall i :: i in s.rows ==> s.rows[i].address != address
    ensures Report(s, address, QueryFails) == Unavailable
    ensures Report(s, address, NoFault)
            == if id !in s.rows then NotFound
               else if s.rows[id].lastUrlCreatedAt + 3_600_000_000_000 < s.now then Expired(s.rows[id].url)
               else Current(s.rows[id].status, s.rows[id].url)
  {
    OnlyIsExact(s, address);
    if id in s.rows {
      OnlyRow(s, id);
    } else {
      assert Matches(s, address) == {};
    }
  }

  /** A callback reaches exactly the pending rows of its address, and these codes decide. */
  lemma CallbackTable(s: State, c: Callback, i: nat)
    requires i in s.rows
    ensures OnCallback(s, c) == s.(rows := OnCallback(s, c).rows) && OnCallback(s, c).rows.Keys == s.rows.Keys
    ensures OnCallback(s, c).rows[i]
            == if !c.authentic || c.fault != NoFault || s.rows[i].address != c.address || s.rows[i].status != Pending
               then s.rows[i]
               else s.rows[i].(status :=
                 if c.code in {"0811", "0812", "0813", "1022", "1023", "1011", "1013", "1014", "0821", "0911",
                               "0912", "0921", "0922", "0841", "0941", "0942"} then Failed
                 else if c.code in {"0810", "1020", "1012", "0820", "0840"} then Success
                 else Pending)
  {
  }

  // ---- Unverified requests -------------------------------------------------------------------------

  /** The events without the requests whose signature does not recover to their address. */
  function Genuine(events: seq<Event>): seq<Event> {
    if events == [] then []
    else
      (if Unverified(events[0]) then [] else [events[0]]) + Genuine(events[1..])
  }

  predicate Unverified(e: Event) {
    e.Requested? && (e.request.recovered.None? || Fold(e.request.recovered.value) != Fold(e.request.address))
  }

  /** An unverified request is told so and changes nothing, whatever rows there are. */
  lemma UnverifiedIsRefused(s: State, r: Request)
    ensures OnRequest(s, r).1 == InvalidSignature <==>
              r.recovered.None? || !SameLetters(r.recovered.value, r.address)
    ensures OnRequest(s, r).1 == InvalidSignature ==> OnRequest(s, r).0 == s
  {
    FoldsAlike(r.recovered.GetOr(r.address), r.address);
  }

  /** So unverified requests can be left out of any run. */
  lemma {:induction false} UnverifiedLeaveNoTrace(s: State, events: seq<Event>)
    ensures Run(s, Genuine(events)) == Run(s, events)
    decreases |events|
  {
    if events != [] {
      var e := events[0];
      UnverifiedLeaveNoTrace(Step(s, e), events[1..]);
      if Unverified(e) {
        FoldsAlike(e.request.recovered.GetOr(e.request.address), e.request.address);
        UnverifiedIsRefused(s, e.request);
        assert Step(s, e) == s;
        assert Genuine(events) == Genuine(events[1..]);
      } else {
        assert Genuine(events) == [e] + Genuine(events[1..]);
        assert Genuine(events)[1..] == Genuine(events[1..]);
      }
    }
  }

  // ---- What every run keeps ------------------------------------------------------------------

  ghost predicate OneRowPerAddress(s: State) {
    forall i, j :: i in s.rows && j in s.rows && s.rows[i].address == s.rows[j].address ==> i == j
  }

  ghost predicate OneRowPerSignature(s: State) {
    forall i, j :: i in s.rows && j in s.rows && s.rows[i].signature == s.rows[j].signature ==> i == j
  }

  /** The invariant: unique addresses and signatures, used ids, and an expiry stamp that is
      the row's creation time plus a day. */
  ghost predicate Inv(s: State) {
    && OneRowPerAddress(s) && OneRowPerSignature(s)
    && (forall i :: i in s.rows ==> i in s.born && s.rows[i].lastUrlCreatedAt == s.born[i] + 24 * HOUR)
    && (forall i :: i in s.born ==> i < s.nextId && s.born[i] <= s.now)
  }

  lemma {:induction false} RunKeepsInv(s: State, events: seq<Event>)
    requires Inv(s)
    ensures Inv(Run(s, events))
    ensures s.now <= Run(s, events).now && s.nextId <= Run(s, events).nextId
    ensures forall i :: i in s.born ==> i in Run(s, events).born && Run(s, events).born[i] == s.born[i]
    decreases |events|
  {
    if events != [] {
      StepKeepsInv(s, events[0]);
      RunKeepsInv(Step(s, events[0]), events[1..]);
    }
  }

  lemma StepKeepsInv(s: State, e: Event)
    requires Inv(s)
    ensures var s' := Step(s, e);
            && Inv(s') && s.now <= s'.now && s.nextId <= s'.nextId
            && forall i :: i in s.born ==> i in s'.born && s'.born[i] == s.born[i]
  {
    match e
    case Requested(r) => RequestKeepsInv(s, r);
    case CalledBack(_) =>
    case Waited(_) =>
  }

  lemma RequestKeepsInv(s: State, r: Request)
    requires Inv(s)
    ensures var s' := OnRequest(s, r).0;
            && Inv(s') && s.now == s'.now && s.nextId <= s'.nextId
            && forall i :: i in s.born ==> i in s'.born && s'.born[i] == s.born[i]
  {
    DecideKeepsInv(s, r);
    if Decide(s, r).Proceed? {
      CreateKeepsInv(Decide(s, r).state, r);
    }
  }

  lemma DecideKeepsInv(s: State, r: Request)
    requires Inv(s)
    ensures var s' := Decide(s, r).state;
            Inv(s') && s' == s.(rows := s'.rows) && s'.rows.Keys <= s.rows.Keys
  {
    var s' := Decide(s, r).state;
    if Decide(s, r).Proceed? {
      DeleteKeepsInv(s, r.address);
      assert s' == s || s' == s.(rows := s.rows - Matches(s, r.address));
    } else if Decide(s, r).response.Reused? {
      var i := Only(s, r.address).id;
      RefreshKeepsInv(s, i, r.signature);
      assert s' == s.(rows := s.rows[i := s.rows[i].(signature := r.signature)]);
    } else {
      assert s' == s;
    }
  }

  lemma DeleteKeepsInv(s: State, address: string)
    requires Inv(s)
    ensures Inv(s.(rows := s.rows - Matches(s, address)))
  {
  }

  lemma RefreshKeepsInv(s: State, i: nat, signature: string)
    requires Inv(s) && i in s.rows && !SignatureTaken(s, signature, {i})
    ensures Inv(s.(rows := s.rows[i := s.rows[i].(signature := signature)]))
  {
  }

  lemma CreateKeepsInv(s: State, r: Request)
    requires Inv(s)
    ensures var s' := Create(s, r).0;
            && Inv(s') && s.now == s'.now && s.nextId <= s'.nextId
            && forall i :: i in s.born ==> i in s'.born && s'.born[i] == s.born[i]
  {
    var s' := Create(s, r).0;
    if s' != s {
      assert s.nextId !in s.rows;
      assert forall i :: i in s.rows ==> s.rows[i].address != r.address && s.rows[i].signature != r.signature;
    }
  }

  lemma OnlyIsExact(s: State, address: string)
    requires Inv(s)
    ensures match Only(s, address)
            case NotSingular => false
            case NoRow => forall i :: i in s.rows ==> s.rows[i].address != address
            case One(id) => id in s.rows && forall i :: i in s.rows && s.rows[i].address == address <==> i == id
  {
    var m := Matches(s, address);
    assert forall i :: i in s.rows && s.rows[i].address == address <==> i in m;
    if m != {} {
      var i :| i in m;
      assert m == {i};
    }
  }

  /** The query by address finds one row or none, and a request that gets as far as the
      identity provider does so with no row for its address. The insert can then be
      refused only because another address's row holds the signature. */
  lemma CreationMeetsNoRow(s: State, r: Request)
    requires Inv(s)
    ensures !Only(s, r.address).NotSingular?
    ensures Decide(s, r).Proceed? ==> !AddressTaken(Decide(s, r).state, r.address)
    ensures Decide(s, r).Proceed? && r.fault == NoFault ==>
              (OnRequest(s, r).1 == InternalError <==>
               exists i :: i in s.rows && s.rows[i].address != r.address && s.rows[i].signature == r.signature)
  {
    OnlyIsExact(s, r.address);
    if Decide(s, r).Proceed? {
      var s1 := Decide(s, r).state;
      assert forall i :: i in s1.rows <==> i in s.rows && s.rows[i].address != r.address;
      assert forall i :: i in s1.rows ==> s1.rows[i] == s.rows[i];
    }
  }

  /** From a state within the invariant, whatever happens, a successful row stays as it is. */
  lemma {:induction false} SuccessIsForever(s: State, events: seq<Event>, id: nat)
    requires Inv(s) && id in s.rows && s.rows[id].status == Success
    ensures id in Run(s, events).rows && Run(s, events).rows[id] == s.rows[id]
    decreases |events|
  {
    if events != [] {
      StepKeepsInv(s, events[0]);
      if events[0].Requested? {
        RequestKeepsSuccess(s, events[0].request, id);
      }
      SuccessIsForever(Step(s, events[0]), events[1..], id);
    }
  }

  lemma RequestKeepsSuccess(s: State, r: Request, id: nat)
    requires Inv(s) && id in s.rows && s.rows[id].status == Success
    ensures id in OnRequest(s, r).0.rows && OnRequest(s, r).0.rows[id] == s.rows[id]
  {
    OnlyIsExact(s, r.address);
  }

  lemma OnlyRow(s: State, id: nat)
    requires Inv(s) && id in s.rows
    ensures Matches(s, s.rows[id].address) == {id} && Only(s, s.rows[id].address) == One(id)
  {
  }

  /** A row never comes back: ids that are used and gone stay gone. */
  lemma {:induction false} GoneStaysGone(s: State, events: seq<Event>, id: nat)
    requires Inv(s) && id < s.nextId && id !in s.rows
    ensures id !in Run(s, events).rows
    decreases |events|
  {
    if events != [] {
      StepKeepsInv(s, events[0]);
      GoneAfterStep(s, events[0], id);
      GoneStaysGone(Step(s, events[0]), events[1..], id);
    }
  }

  lemma GoneAfterStep(s: State, e: Event, id: nat)
    requires Inv(s) && id < s.nextId && id !in s.rows
    ensures id !in Step(s, e).rows
  {
  }

  // ---- Expiry and reuse ------------------------------------------------------------------------

  /** A pending row is reused, by a request with a fresh signature, exactly until a day and a
      quarter of an hour after its creation; the URL it hands out is then reported as current. */
  lemma ReusedUntil(s: State, r: Request, id: nat)
    requires Inv(s) && id in s.rows && s.rows[id].address == r.address && s.rows[id].status == Pending
    requires r.Verified() && r.fault == NoFault && !SignatureTaken(s, r.signature, {})
    ensures var (s', response) := OnRequest(s, r);
            var row := s.rows[id];
            && (response == Reused(row.url, row.lastUrlCreatedAt) <==> s.now <= s.born[id] + 24 * HOUR + 15 * MINUTE)
            && (response.Reused? ==> s'.rows == s.rows[id := row.(signature := r.signature)]
                                     && Report(s', r.address, NoFault) == Current(Pending, row.url))
            && (!response.Reused? ==> id !in s'.rows && response == Created(r.link, s.now + 24 * HOUR))
  {
    OnlyRow(s, id);
    CreationMeetsNoRow(s, r);
    var (s', response) := OnRequest(s, r);
    if response.Reused? {
      RequestKeepsInv(s, r);
      OnlyRow(s', id);
    }
  }

  /** Once a row is successful, a request with a new signature is refused for good, and yet
      the status endpoint reports success only until 25 hours after the row's creation. */
  lemma SuccessIsReportedForADay(s: State, events: seq<Event>, id: nat, r: Request)
    requires Inv(s) && id in s.rows && s.rows[id].status == Success
    requires r.address == s.rows[id].address && r.Verified() && r.fault != QueryFails
    ensures var s' := Run(s, events);
            && OnRequest(s', r) == (s', if r.signature == s.rows[id].signature then SignatureUsed else AlreadyVerified)
            && Report(s', r.address, NoFault)
               == if s'.now <= s.born[id] + 25 * HOUR then Current(Success, s.rows[id].url) else Expired(s.rows[id].url)
  {
    RunKeepsInv(s, events);
    SuccessIsForever(s, events, id);
    OnlyRow(Run(s, events), id);
  }

  /** A request that was answered with a URL is refused when it is sent again at once, and
      the status endpoint then reports that URL as pending. */
  lemma ResentRequestIsRefused(s: State, r: Request)
    requires Inv(s) && r.fault == NoFault
    requires OnRequest(s, r).1.Created? || OnRequest(s, r).1.Reused?
    ensures var (s', response) := OnRequest(s, r);
            && OnRequest(s', r) == (s', SignatureUsed)
            && Report(s', r.address, NoFault) == Current(Pending, response.url)
  {
    var (s', response) := OnRequest(s, r);
    OnlyIsExact(s, r.address);
    RequestKeepsInv(s, r);
    CreationMeetsNoRow(s, r);
    var id := if response.Created? then s.nextId else Only(s, r.address).id;
    assert id in s'.rows && s'.rows[id].address == r.address && s'.rows[id].signature == r.signature;
    OnlyRow(s', id);
  }

  /** The signature that the address's row holds, if there is one. */
  ghost function Held(s: State, address: string): Option<string> {
    var only := Only(s, address);
    if only.One? && only.id in s.rows then Some(s.rows[only.id].signature) else None
  }

  /** What one event leaves held: an accepted signature replaces the held one, and a request
      that fails after it discarded the row leaves none. */
  ghost function HeldNext(s: State, e: Event, address: string, held: Option<string>): Option<string> {
    if !e.Requested? || e.request.address != address then held
    else
      var (_, response) := OnRequest(s, e.request);
      if response.Created? || response.Reused? then Some(e.request.signature)
      else if Decide(s, e.request).Proceed? then None
      else held
  }

  ghost function HeldAfter(s: State, events: seq<Event>, address: string, held: Option<string>): Option<string>
    decreases |events|
  {
    if events == [] then held
    else HeldAfter(Step(s, events[0]), events[1..], address, HeldNext(s, events[0], address, held))
  }

  lemma HeldStep(s: State, e: Event, address: string)
    requires Inv(s)
    ensures Held(Step(s, e), address) == HeldNext(s, e, address, Held(s, address))
  {
    StepKeepsInv(s, e);
    OnlyIsExact(s, address);
    OnlyIsExact(Step(s, e), address);
    if e.Requested? {
      HeldAfterRequest(s, e.request, address);
    } else if e.CalledBack? {
      assert Matches(Step(s, e), address) == Matches(s, address);
    }
  }

  lemma HeldAfterRequest(s: State, r: Request, address: string)
    requires Inv(s)
    ensures Held(OnRequest(s, r).0, address) == HeldNext(s, Requested(r), address, Held(s, address))
  {
    RequestKeepsInv(s, r);
    CreationMeetsNoRow(s, r);
    if address != r.address {
      HeldElsewhere(s, r, address);
    } else {
      var (s', response) := OnRequest(s, r);
      if response.Created? {
        OnlyRow(s', s.nextId);
      } else if response.Reused? {
        OnlyRow(s', Only(s, address).id);
      } else if Decide(s, r).Proceed? {
        assert Matches(s', address) == {};
      }
    }
  }

  lemma HeldElsewhere(s: State, r: Request, address: string)
    requires Inv(s) && address != r.address
    ensures Held(OnRequest(s, r).0, address) == Held(s, address)
  {
    RequestKeepsInv(s, r);
    var s' := OnRequest(s, r).0;
    forall i | i in s.rows || i in s'.rows
      ensures i in s.rows && s.rows[i].address == address <==> i in s'.rows && s'.rows[i].address == address
    {
      OtherRowStays(s, r, i);
    }
    OnlyIsExact(s, address);
    OnlyIsExact(s', address);
    if Only(s, address).One? {
      OtherRowStays(s, r, Only(s, address).id);
    }
  }

  lemma OtherRowStays(s: State, r: Request, i: nat)
    requires Inv(s)
    ensures var rows := OnRequest(s, r).0.rows;
            && (i in s.rows && s.rows[i].address != r.address ==> i in rows && rows[i] == s.rows[i])
            && (i in rows && rows[i].address != r.address ==> i in s.rows && rows[i] == s.rows[i])
  {
    CreationMeetsNoRow(s, r);
  }

  /** Over every run, an address's row holds the signature accepted last, if any. */
  lemma {:induction false} HeldIsLastAccepted(s: State, events: seq<Event>, address: string)
    requires Inv(s)
    ensures Held(Run(s, events), address) == HeldAfter(s, events, address, Held(s, address))
    decreases |events|
  {
    if events != [] {
      HeldStep(s, events[0], address);
      StepKeepsInv(s, events[0]);
      HeldIsLastAccepted(Step(s, events[0]), events[1..], address);
    }
  }

  /** A signature is refused as used exactly when it is the one accepted last for its
      address, not when it was accepted before. */
  lemma RefusedAsUsedIff(s: State, events: seq<Event>, r: Request)
    requires Inv(s) && r.Verified() && r.fault == NoFault
    ensures OnRequest(Run(s, events), r).1 == SignatureUsed
            <==> HeldAfter(s, events, r.address, Held(s, r.address)) == Some(r.signature)
  {
    RunKeepsInv(s, events);
    HeldIsLastAccepted(s, events, r.address);
    OnlyIsExact(Run(s, events), r.address);
  }

  /** So a used signature comes back: the first creates the row, a second refreshes it, and
      the first is then accepted again. */
  lemma UsedSignatureIsAcceptedAgain(s: State, r1: Request, r2: Request)
    requires Inv(s) && Matches(s, r1.address) == {} && r2.address == r1.address && r2.signature != r1.signature
    requires r1.Verified() && r2.Verified() && r1.fault == NoFault && r2.fault == NoFault
    requires !SignatureTaken(s, r1.signature, {}) && !SignatureTaken(s, r2.signature, {})
    ensures OnRequest(s, r1).1.Created?
    ensures OnRequest(OnRequest(s, r1).0, r2).1.Reused?
    ensures OnRequest(OnRequest(OnRequest(s, r1).0, r2).0, r1).1 == OnRequest(OnRequest(s, r1).0, r2).1
  {
    CreatedRow(s, r1);
    RefreshedTwice(OnRequest(s, r1).0, r1, r2, s.nextId);
  }

  lemma RefreshedTwice(s: State, r1: Request, r2: Request, id: nat)
    requires Inv(s) && id in s.rows && s.rows[id].status == Pending && s.rows[id].signature == r1.signature
    requires s.rows[id].address == r1.address == r2.address && r2.signature != r1.signature
    requires s.now <= s.born[id] + 24 * HOUR + 15 * MINUTE
    requires r1.Verified() && r2.Verified() && r1.fault == NoFault && r2.fault == NoFault
    requires !SignatureTaken(s, r2.signature, {})
    ensures OnRequest(s, r2).1 == Reused(s.rows[id].url, s.rows[id].lastUrlCreatedAt)
    ensures OnRequest(OnRequest(s, r2).0, r1).1 == OnRequest(s, r2).1
  {
    RefreshedRow(s, r2, id);
    var s' := s.(rows := s.rows[id := s.rows[id].(signature := r2.signature)]);
    assert forall i :: i in s.rows && i != id ==> s.rows[i].signature != r1.signature;
    RefreshedRow(s', r1, id);
  }

  lemma RefreshedRow(s: State, r: Request, id: nat)
    requires Inv(s) && id in s.rows && s.rows[id].address == r.address && s.rows[id].status == Pending
    requires r.Verified() && r.fault == NoFault && !SignatureTaken(s, r.signature, {})
    requires s.now <= s.born[id] + 24 * HOUR + 15 * MINUTE
    ensures var s' := s.(rows := s.rows[id := s.rows[id].(signature := r.signature)]);
            Inv(s') && OnRequest(s, r) == (s', Reused(s.rows[id].url, s.rows[id].lastUrlCreatedAt))
  {
    ReusedUntil(s, r, id);
    RefreshKeepsInv(s, id, r.signature);
    OnlyRow(s, id);
  }

  lemma CreatedRow(s: State, r: Request)
    requires Inv(s) && Matches(s, r.address) == {} && r.Verified() && r.fault == NoFault
    requires !SignatureTaken(s, r.signature, {})
    ensures var s' := OnRequest(s, r).0;
            && Inv(s') && OnRequest(s, r).1.Created? && s'.now == s.now
            && s'.rows == s.rows[s.nextId :=
                 Row(r.address, r.signature, Pending, r.platformRef, r.link, s.now + 24 * HOUR)]
            && s'.born == s.born[s.nextId := s.now]
  {
    RequestKeepsInv(s, r);
    CreationMeetsNoRow(s, r);
  }

  /** When the provider cannot be reached, the stale row is gone all the same. */
  lemma StaleRowIsLost(s: State, r: Request, id: nat)
    requires Inv(s) && id in s.rows && s.rows[id].address == r.address && Stale(s.rows[id], s.now)
    requires r.Verified() && r.fault == ProviderFails && r.signature != s.rows[id].signature
    ensures var (s', response) := OnRequest(s, r);
            response == ProviderUnreachable && s'.rows == s.rows - {id} && Report(s', r.address, NoFault) == NotFound
  {
    OnlyRow(s, id);
    var s' := OnRequest(s, r).0;
    assert Matches(s', r.address) == {};
  }

  // ---- Callbacks ----------------------------------------------------------------------------------

  predicate Terminal(c: Callback, address: string) {
    c.authentic && c.fault == NoFault && c.address == address && StatusOf(c.code) != Pending
  }

  /** The status that the first terminal callback for an address brings, else pending. */
  function FirstTerminal(events: seq<Event>, address: string): Status {
    if events == [] then Pending
    else if events[0].CalledBack? && Terminal(events[0].callback, address) then StatusOf(events[0].callback.code)
    else FirstTerminal(events[1..], address)
  }

  lemma {:induction false} SettledStays(s: State, events: seq<Event>, id: nat)
    requires Inv(s) && id in s.rows && s.rows[id].status != Pending && id in Run(s, events).rows
    ensures Run(s, events).rows[id].status == s.rows[id].status
    decreases |events|
  {
    if events != [] {
      var s' := Step(s, events[0]);
      StepKeepsInv(s, events[0]);
      RowSurvives(s, events, id);
      if events[0].Requested? {
        RequestKeepsStatus(s, events[0].request, id);
      }
      SettledStays(s', events[1..], id);
    }
  }

  /** A row that is there at the end of a run was there after its first step. */
  lemma RowSurvives(s: State, events: seq<Event>, id: nat)
    requires Inv(s) && id in s.rows && id in Run(s, events).rows && events != []
    ensures id in Step(s, events[0]).rows
  {
    StepKeepsInv(s, events[0]);
    if id !in Step(s, events[0]).rows {
      GoneStaysGone(Step(s, events[0]), events[1..], id);
    }
  }

  lemma RequestKeepsStatus(s: State, r: Request, id: nat)
    requires Inv(s) && id in s.rows && id in OnRequest(s, r).0.rows
    ensures var row := OnRequest(s, r).0.rows[id];
            row.status == s.rows[id].status && row.address == s.rows[id].address
  {
    CreationMeetsNoRow(s, r);
  }

  /** Over any run in which a pending row survives, whatever else happens in between, its
      final status is that of the first terminal callback for its address. */
  lemma {:induction false} FirstTerminalCallbackWins(s: State, events: seq<Event>, id: nat)
    requires Inv(s) && id in s.rows && s.rows[id].status == Pending && id in Run(s, events).rows
    ensures Run(s, events).rows[id].status == FirstTerminal(events, s.rows[id].address)
    decreases |events|
  {
    if events != [] {
      var s' := Step(s, events[0]);
      StepKeepsInv(s, events[0]);
      RowSurvives(s, events, id);
      if events[0].Requested? {
        RequestKeepsStatus(s, events[0].request, id);
      }
      if s'.rows[id].status == Pending {
        FirstTerminalCallbackWins(s', events[1..], id);
      } else {
        SettledStays(s', events[1..], id);
      }
    }
  }

  /** A callback changes something exactly when it is terminal and finds a pending row. */
  lemma CallbackActsIff(s: State, c: Callback)
    ensures OnCallback(s, c) != s <==>
              Terminal(c, c.address)
              && exists i :: i in s.rows && s.rows[i].address == c.address && s.rows[i].status == Pending
  {
  }

  /** Delivering a callback again, at any later point before the next request for its
      address, changes nothing: the run ends in the same state. */
  lemma ReplayChangesNothing(s: State, c: Callback, between: seq<Event>, after: seq<Event>)
    requires forall e <- between :: e.Requested? ==> e.request.address != c.address
    ensures Run(s, [CalledBack(c)] + between + [CalledBack(c)] + after) == Run(s, [CalledBack(c)] + between + after)
  {
    var s1 := Run(s, [CalledBack(c)] + between);
    assert [CalledBack(c)] + between + [CalledBack(c)] + after
        == ([CalledBack(c)] + between) + ([CalledBack(c)] + after);
    RunAppend(s, [CalledBack(c)] + between, [CalledBack(c)] + after);
    RunAppend(s, [CalledBack(c)] + between, after);
    assert ([CalledBack(c)] + between)[1..] == between;
    assert ([CalledBack(c)] + between)[0] == CalledBack(c);
    assert s1 == Run(Step(s, CalledBack(c)), between);
    if Terminal(c, c.address) {
      NoPendingWithoutRequest(OnCallback(s, c), c.address, between);
    }
    CallbackActsIff(s1, c);
    assert OnCallback(s1, c) == s1;
    assert ([CalledBack(c)] + after)[1..] == after;
    assert ([CalledBack(c)] + after)[0] == CalledBack(c);
    assert Run(s1, [CalledBack(c)] + after) == Run(Step(s1, CalledBack(c)), after);
    assert [CalledBack(c)] + between + after == ([CalledBack(c)] + between) + after;
  }

  ghost predicate NoPending(s: State, address: string) {
    forall i :: i in s.rows && s.rows[i].address == address ==> s.rows[i].status != Pending
  }

  /** Without a request for it, no pending row for an address appears. */
  lemma {:induction false} NoPendingWithoutRequest(s: State, address: string, events: seq<Event>)
    requires forall e <- events :: e.Requested? ==> e.request.address != address
    requires NoPending(s, address)
    ensures NoPending(Run(s, events), address)
    decreases |events|
  {
    if events != [] {
      assert events[0] in events;
      NoPendingWithoutRequest(Step(s, events[0]), address, events[1..]);
    }
  }

  lemma {:induction false} RunAppend(s: State, a: seq<Event>, b: seq<Event>)
    ensures Run(s, a + b) == Run(Run(s, a), b)
    decreases |a|
  {
    if a == [] {
      assert a + b == b;
    } else {
      assert (a + b)[1..] == a[1..] + b;
      RunAppend(Step(s, a[0]), a[1..], b);
    }
  }

  /** A replay is not harmless once a new request intervenes: rows are found by address, so
      the old failure fails the new row. */
  lemma ReplayHitsNewRow(address: string)
    ensures var first := Requested(Request(address, "s1", Some(address), NoFault, "p1", "u1"));
            var fail := CalledBack(Callback(address, "0811", true, NoFault));
            var second := Requested(Request(address, "s2", Some(address), NoFault, "p2", "u2"));
            var s := Run(EMPTY, [first, fail, second]);
            1 in s.rows && s.rows[1].status == Pending && Step(s, fail).rows[1].status == Failed
  {
    var s0 := EMPTY;
    var r1 := Request(address, "s1", Some(address), NoFault, "p1", "u1");
    var r2 := Request(address, "s2", Some(address), NoFault, "p2", "u2");
    var c := Callback(address, "0811", true, NoFault);
    assert Matches(s0, address) == {};
    var s1 := OnRequest(s0, r1).0;
    assert s1.rows == map[0 := Row(address, "s1", Pending, "p1", "u1", 24 * HOUR)];
    var s2 := OnCallback(s1, c);
    assert s2.rows[0].status == Failed && s2.rows.Keys == {0};
    assert Matches(s2, address) == {0};
    assert Only(s2, address) == One(0);
    var s3 := OnRequest(s2, r2).0;
    assert Decide(s2, r2) == Proceed(s2.(rows := s2.rows - {0}));
    assert 1 in s3.rows && s3.rows[1].status == Pending;
    var e1, e2, e3 := Requested(r1), CalledBack(c), Requested(r2);
    assert Run(s0, [e1, e2, e3]) == s3 by {
      assert [e1, e2, e3][1..] == [e2, e3] && [e2, e3][1..] == [e3] && [e3][1..] == [];
      assert Run(s2, [e3]) == Run(s3, []);
      assert Run(s1, [e2, e3]) == Run(s2, [e3]);
    }
  }

  // ---- One wallet, several spellings -----------------------------------------------------------------

  /** At most one row per wallet, however its address is spelled. */
  ghost predicate OneRowPerWallet(s: State) {
    forall i, j :: i in s.rows && j in s.rows && Fold(s.rows[i].address) == Fold(s.rows[j].address) ==> i == j
  }

  /** The signature check ignores the letter case of the address, the row lookup does not: a
      request creates a row although another spelling of its address has one. */
  ghost predicate Respells(s: State, e: Event) {
    && e.Requested? && OnRequest(s, e.request).1.Created?
    && exists i :: i in s.rows && Fold(s.rows[i].address) == Fold(e.request.address)
                   && s.rows[i].address != e.request.address
  }

  lemma StepKeepsOneRowIff(s: State, e: Event)
    requires Inv(s) && OneRowPerWallet(s)
    ensures OneRowPerWallet(Step(s, e)) <==> !Respells(s, e)
  {
    if e.Requested? && OnRequest(s, e.request).1.Created? {
      CreationKeepsOneRowIff(s, e.request);
    } else {
      OtherStepsAddNoRow(s, e);
    }
  }

  lemma CreationKeepsOneRowIff(s: State, r: Request)
    requires Inv(s) && OneRowPerWallet(s) && OnRequest(s, r).1.Created?
    ensures OneRowPerWallet(OnRequest(s, r).0) <==> !Respells(s, Requested(r))
  {
    CreationMeetsNoRow(s, r);
    var s1, s2 := Decide(s, r).state, OnRequest(s, r).0;
    assert s2.rows == s1.rows[s.nextId := s2.rows[s.nextId]];
    assert forall i :: i in s.rows && s.rows[i].address != r.address ==> i in s1.rows;
    if i :| i in s.rows && Fold(s.rows[i].address) == Fold(r.address) && s.rows[i].address != r.address {
      assert i in s2.rows && i != s.nextId && s2.rows[i].address == s.rows[i].address;
    }
  }

  /** No other step adds a row. */
  lemma OtherStepsAddNoRow(s: State, e: Event)
    requires Inv(s) && (e.Requested? ==> !OnRequest(s, e.request).1.Created?)
    ensures forall i :: i in Step(s, e).rows ==> i in s.rows && s.rows[i].address == Step(s, e).rows[i].address
  {
    if e.Requested? {
      CreationMeetsNoRow(s, e.request);
    }
  }

  /** One row per wallet after every step of the run. */
  ghost predicate OneRowThroughout(s: State, events: seq<Event>)
    decreases |events|
  {
    OneRowPerWallet(s) && (events != [] ==> OneRowThroughout(Step(s, events[0]), events[1..]))
  }

  ghost predicate NeverRespells(s: State, events: seq<Event>)
    decreases |events|
  {
    events != [] ==> !Respells(s, events[0]) && NeverRespells(Step(s, events[0]), events[1..])
  }

  /** A run keeps one row per wallet throughout exactly when no request of it respells. */
  lemma {:induction false} OneRowThroughoutIff(s: State, events: seq<Event>)
    requires Inv(s) && OneRowPerWallet(s)
    ensures OneRowThroughout(s, events) <==> NeverRespells(s, events)
    decreases |events|
  {
    if events != [] {
      StepKeepsInv(s, events[0]);
      StepKeepsOneRowIff(s, events[0]);
      if !Respells(s, events[0]) {
        OneRowThroughoutIff(Step(s, events[0]), events[1..]);
      }
    }
  }

  /** Every verified request is for one of these addresses. */
  ghost predicate For(events: seq<Event>, addresses: set<string>) {
    forall e <- events :: e.Requested? && e.request.Verified() ==> e.request.address in addresses
  }

  /** No wallet is spelled in two ways among them. */
  predicate OneSpelling(addresses: set<string>) {
    forall a <- addresses, b <- addresses :: Fold(a) == Fold(b) ==> a == b
  }

  /** Which addresses are safe: every run whose verified requests are for them keeps one row
      per wallet exactly when no two of them are spellings of one wallet. */
  lemma OneRowPerWalletIff(addresses: set<string>)
    ensures (forall events :: For(events, addresses) ==> OneRowPerWallet(Run(EMPTY, events)))
            <==> OneSpelling(addresses)
  {
    if OneSpelling(addresses) {
      forall events | For(events, addresses) ensures OneRowPerWallet(Run(EMPTY, events)) {
        RowsAreFor(EMPTY, events, addresses);
        RunKeepsInv(EMPTY, events);
      }
    } else {
      var a, b :| a in addresses && b in addresses && Fold(a) == Fold(b) && a != b;
      TwoSpellingsTwoRows(a, b);
      assert For([Asks(a, a, "s1"), Asks(b, a, "s2")], addresses);
    }
  }

  lemma {:induction false} RowsAreFor(s: State, events: seq<Event>, addresses: set<string>)
    requires Inv(s) && For(events, addresses) && forall i :: i in s.rows ==> s.rows[i].address in addresses
    ensures forall i :: i in Run(s, events).rows ==> Run(s, events).rows[i].address in addresses
    decreases |events|
  {
    if events != [] {
      var e := events[0];
      assert e in events;
      StepKeepsInv(s, e);
      if e.Requested? && OnRequest(s, e.request).1.Created? {
        CreationMeetsNoRow(s, e.request);
      } else {
        OtherStepsAddNoRow(s, e);
      }
      RowsAreFor(Step(s, e), events[1..], addresses);
    }
  }

  /** A fault-free request for `address`, signed by `wallet`. */
  function Asks(address: string, wallet: string, signature: string): Event {
    Requested(Request(address, signature, Some(wallet), NoFault, "p", "u"))
  }

  /** Two requests signed by one wallet that spell it in two ways leave two rows for it. */
  lemma TwoSpellingsTwoRows(a: string, b: string)
    requires Fold(a) == Fold(b) && a != b
    ensures Asks(a, a, "s1").request.Verified() && Asks(b, a, "s2").request.Verified()
    ensures var s := Run(EMPTY, [Asks(a, a, "s1"), Asks(b, a, "s2")]);
            && s.rows.Keys == {0, 1} && s.rows[0].address == a && s.rows[1].address == b
            && !OneRowPerWallet(s)
  {
    var e1, e2 := Asks(a, a, "s1"), Asks(b, a, "s2");
    assert Matches(EMPTY, a) == {};
    var s1 := Step(EMPTY, e1);
    assert s1.rows == map[0 := Row(a, "s1", Pending, "p", "u", 24 * HOUR)];
    assert Matches(s1, b) == {};
    var s2 := Step(s1, e2);
    assert s2.rows == s1.rows[1 := Row(b, "s2", Pending, "p", "u", 24 * HOUR)];
    assert Run(EMPTY, [e1, e2]) == s2 by {
      assert [e1, e2][1..] == [e2] && [e2][1..] == [];
      assert Run(s1, [e2]) == Run(s2, []);
    }
  }

  /** A wallet that is verified and reported as expired 26 hours later. */
  lemma VerifiedWalletExpires(a: string)
    ensures var success := CalledBack(Callback(a, "0810", true, NoFault));
            var s := Run(EMPTY, [Asks(a, a, "s1"), success, Waited(26 * HOUR)]);
            && s.rows.Keys == {0} && s.rows[0].status == Success && Report(s, a, NoFault) == Expired("u")
            && OnRequest(s, Asks(a, a, "s2").request) == (s, AlreadyVerified)
  {
    var e1, e2, e3 := Asks(a, a, "s1"), CalledBack(Callback(a, "0810", true, NoFault)), Waited(26 * HOUR);
    assert Matches(EMPTY, a) == {};
    var s1 := Step(EMPTY, e1);
    assert s1.rows == map[0 := Row(a, "s1", Pending, "p", "u", 24 * HOUR)];
    var s2 := Step(s1, e2);
    assert s2.rows == map[0 := Row(a, "s1", Success, "p", "u", 24 * HOUR)];
    var s3 := Step(s2, e3);
    assert Matches(s3, a) == {0} && Only(s3, a) == One(0);
    assert Run(EMPTY, [e1, e2, e3]) == s3 by {
      assert [e1, e2, e3][1..] == [e2, e3] && [e2, e3][1..] == [e3] && [e3][1..] == [];
      assert Run(s2, [e3]) == Run(s3, []);
      assert Run(s1, [e2, e3]) == Run(s2, [e3]);
    }
  }
}
