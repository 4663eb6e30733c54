/** The lead-scoring agent (`MCPAgent` in agent/aiagent.py): the priority rule, the
    analysis of one customer with its retries over the language model, and the batch run
    over all customers that flags high-priority leads and files follow-up tasks. The HTTP
    replies, the model's replies and today's date are inputs; every request the agent
    makes is recorded as an event, in order. */
module Agent {
  import opened Wrappers
  import opened Strings
  import opened Numbers
  import opened Utils
  import opened RfmParser

  /** `max_retries`: how many times the model is asked. */
  const MaxRetries: nat := 3

  /** The two priorities the agent assigns; the strings `High` and `Low`. */
  datatype Priority = High | Low

  function PriorityText(p: Priority): string {
    if p == High then "High" else "Low"
  }

  /** `priority.lower()`: the lower-cased name of a priority. */
  function PriorityLower(p: Priority): string {
    if p == High then "high" else "low"
  }

  lemma PriorityLowered(p: Priority)
    ensures PriorityLower(p) == Lower(PriorityText(p))
  {
  }

  /** `_calculate_priority(rfm_data)`: the business rule, which is looser than the
      30-day recency the prompt states. */
  function CalculatePriority(r: Rfm): Priority {
    if r.recency < 365 && r.frequency >= 3 && Exceeds(r.monetary, 5000.0) then High else Low
  }

  /** The rule's boundaries: a year since the last order, or exactly $5000, is not enough;
      three orders are. */
  lemma PriorityBoundaries(r: Rfm)
    ensures r.recency == 365 ==> CalculatePriority(r) == Low
    ensures r.monetary == Finite(5000.0) ==> CalculatePriority(r) == Low
    ensures r.recency < 365 && r.frequency == 3 && Exceeds(r.monetary, 5000.0) ==> CalculatePriority(r) == High
  {
  }

  /** A customer who ordered more recently, more often and for more stays at least as
      high a priority. */
  lemma PriorityMonotone(a: Rfm, b: Rfm)
    requires b.recency <= a.recency && b.frequency >= a.frequency
    requires a.monetary.Finite? && b.monetary.Finite? && b.monetary.value >= a.monetary.value
    ensures CalculatePriority(a) == High ==> CalculatePriority(b) == High
  {
  }

  /** The prompt's own criterion (recency under 30 days) implies the rule's, but not the
      other way round: a customer last seen 100 days ago is rated High by the rule. */
  lemma PromptCriterionStricter(r: Rfm)
    ensures r.recency < 30 && r.frequency >= 3 && Exceeds(r.monetary, 5000.0) ==> CalculatePriority(r) == High
    ensures CalculatePriority(Rfm(100, 3, Finite(6000.0), "Low")) == High
  {
  }

  /** What the model call of one attempt gave: an exception from the client, or the text of
      the first content block. */
  datatype LlmReply = ApiFailure(error: string) | Completion(text: string)

  datatype Status = Success | NoOrders | ParseError | ApiError | Unexpected

  /** The `status` string of an analysis. */
  function StatusText(s: Status): string {
    match s
    case Success => "success"
    case NoOrders => "No_orders"
    case ParseError => "parse_error"
    case ApiError => "api_error"
    case Unexpected => "error"
  }

  /** The `message` of an analysis, by kind, with the values its text is built from. */
  datatype Message =
    | NoOrderHistory
    | Analyzed(priority: Priority)
    | ParseFailed
    | ApiFailed(attempts: nat, error: string)
    | UnexpectedError(customer: Json, error: string)

  /** The dictionary `analyze_customer` returns; `rfm`, `attempt` and `raw_response` are
      present only on some paths. */
  datatype Analysis = Analysis(
    status: Status, priority: Priority, message: Message,
    rfm: Option<Rfm>, attempt: Option<nat>, rawResponse: Option<string>)

  /** A request the agent made, or a pause between attempts. */
  datatype Event =
    | GetCustomers
    | GetOrders(customer: Json)
    | AskModel(customer: Json, attempt: nat)
    | Backoff
    | SetStatus(customer: Json, leadStatus: string)
    | PostTask(task: Task)

  /** The follow-up task `create_task` posts; its description is fixed by the customer. */
  datatype Task = Task(customer: Json, assignedTo: string, dueDay: int)

  /** Overwrite the model's priority with the rule's when they differ other than in case. */
  function Reconcile(rfm: Rfm, calculated: Priority): Rfm {
    if Lower(rfm.priority) != PriorityLower(calculated) then rfm.(priority := PriorityText(calculated)) else rfm
  }

  /** After reconciling, the answer's priority agrees with the rule's up to case; nothing
      but the priority changes; an answer that already agrees is kept as it is, and one
      that does not gets exactly the rule's priority. */
  lemma ReconcileAgrees(rfm: Rfm, calculated: Priority)
    ensures Lower(Reconcile(rfm, calculated).priority) == Lower(PriorityText(calculated))
    ensures Reconcile(rfm, calculated).(priority := rfm.priority) == rfm
    ensures Lower(rfm.priority) == Lower(PriorityText(calculated)) ==> Reconcile(rfm, calculated) == rfm
    ensures Lower(rfm.priority) != Lower(PriorityText(calculated)) ==> Reconcile(rfm, calculated).priority == PriorityText(calculated)
  {
    PriorityLowered(calculated);
  }

  /** An answer the parser accepts. */
  predicate Parses(parse: string -> Option<Rfm>, reply: LlmReply) {
    reply.Completion? && parse(reply.text).Some?
  }

  /** Attempt `k` neither succeeds nor is the last, so another attempt follows. */
  predicate Continues(parse: string -> Option<Rfm>, llm: nat -> LlmReply, k: nat) {
    k < MaxRetries - 1 && !Parses(parse, llm(k))
  }

  /** The successful analysis of a parsed answer at attempt `k`. */
  function Succeeded(rfm: Rfm, k: nat): Analysis {
    var calculated := CalculatePriority(rfm);
    Analysis(Success, calculated, Analyzed(calculated), Some(Reconcile(rfm, calculated)), Some(k + 1), None)
  }

  function Failure(status: Status, message: Message): Analysis {
    Analysis(status, Low, message, None, None, None)
  }

  /** The result of the attempts from the `k`-th on. */
  function AttemptsFrom(parse: string -> Option<Rfm>, llm: nat -> LlmReply, k: nat): Analysis
    requires k < MaxRetries
    decreases MaxRetries - k
  {
    if Parses(parse, llm(k)) then Succeeded(parse(llm(k).text).value, k)
    else if Continues(parse, llm, k) then AttemptsFrom(parse, llm, k + 1)
    else
      match llm(k)
      case ApiFailure(e) => Failure(ApiError, ApiFailed(MaxRetries, e))
      case Completion(text) => Analysis(ParseError, Low, ParseFailed, None, None, Some(text))
  }

  /** The requests and pauses of the attempts from the `k`-th on: a pause follows an API
      error that is not the last attempt's. */
  function AttemptEvents(parse: string -> Option<Rfm>, id: Json, llm: nat -> LlmReply, k: nat): seq<Event>
    requires k < MaxRetries
    decreases MaxRetries - k
  {
    [AskModel(id, k)] +
    if Continues(parse, llm, k) then (if llm(k).ApiFailure? then [Backoff] else []) + AttemptEvents(parse, id, llm, k + 1)
    else []
  }

  /** `analyze_customer(CustomerID)`, as a specification. */
  function Analyze(parse: string -> Option<Rfm>, id: Json, ordersReply: Transport, llm: nat -> LlmReply): Analysis {
    match ApiRequest("GET", ordersReply)
    case Raised(e) => Failure(Unexpected, UnexpectedError(id, e))
    case Returned(orders) =>
      if !Truthy(orders) then Failure(NoOrders, NoOrderHistory) else AttemptsFrom(parse, llm, 0)
  }

  function AnalyzeEvents(parse: string -> Option<Rfm>, id: Json, ordersReply: Transport, llm: nat -> LlmReply): seq<Event> {
    var reply := ApiRequest("GET", ordersReply);
    [GetOrders(id)] + if reply.Returned? && Truthy(reply.json) then AttemptEvents(parse, id, llm, 0) else []
  }

  /** The requests and pauses of attempts `0` to `k - 1`, when each of them continued. */
  function EventsBefore(id: Json, llm: nat -> LlmReply, k: nat): seq<Event> {
    if k == 0 then []
    else EventsBefore(id, llm, k - 1) + [AskModel(id, k - 1)] + (if llm(k - 1).ApiFailure? then [Backoff] else [])
  }

  /** Attempts that all continued contribute their requests ahead of the rest, and leave
      the outcome to the later attempts. */
  lemma {:induction false} ContinuedAttempts(parse: string -> Option<Rfm>, id: Json, llm: nat -> LlmReply, k: nat)
    requires k < MaxRetries
    requires forall j :: 0 <= j < k ==> Continues(parse, llm, j)
    ensures AttemptEvents(parse, id, llm, 0) == EventsBefore(id, llm, k) + AttemptEvents(parse, id, llm, k)
    ensures AttemptsFrom(parse, llm, 0) == AttemptsFrom(parse, llm, k)
  {
    if k > 0 {
      ContinuedAttempts(parse, id, llm, k - 1);
      var pause: seq<Event> := if llm(k - 1).ApiFailure? then [Backoff] else [];
      var ask, before, rest := [AskModel(id, k - 1)], EventsBefore(id, llm, k - 1), AttemptEvents(parse, id, llm, k);
      assert AttemptEvents(parse, id, llm, k - 1) == ask + (pause + rest);
      assert EventsBefore(id, llm, k) == before + ask + pause;
      Regroup(before, ask, pause, rest);
    }
  }

  /** The first attempt that does not continue ends the requests with its own call and
      decides the outcome. */
  lemma StoppedAttempts(parse: string -> Option<Rfm>, id: Json, llm: nat -> LlmReply, k: nat)
    requires k < MaxRetries
    requires forall j :: 0 <= j < k ==> Continues(parse, llm, j)
    requires !Continues(parse, llm, k)
    ensures AttemptEvents(parse, id, llm, 0) == EventsBefore(id, llm, k) + [AskModel(id, k)]
    ensures AttemptsFrom(parse, llm, 0) == AttemptsFrom(parse, llm, k)
  {
    ContinuedAttempts(parse, id, llm, k);
  }

  lemma Regroup<T>(a: seq<T>, b: seq<T>, c: seq<T>, d: seq<T>)
    ensures a + (b + (c + d)) == (a + b + c) + d
  {
  }

  /** The number of model calls in an event list. */
  function Asks(events: seq<Event>): nat {
    if events == [] then 0 else (if events[0].AskModel? then 1 else 0) + Asks(events[1..])
  }

  lemma {:induction false} AsksAppend(a: seq<Event>, b: seq<Event>)
    ensures Asks(a + b) == Asks(a) + Asks(b)
    decreases |a|
  {
    if a == [] {
      assert a + b == b;
    } else {
      assert (a + b)[1..] == a[1..] + b;
      AsksAppend(a[1..], b);
    }
  }

  /** Attempts from the `k`-th on call the model at most once per remaining attempt. */
  lemma {:induction false} AttemptAsks(parse: string -> Option<Rfm>, id: Json, llm: nat -> LlmReply, k: nat)
    requires k < MaxRetries
    ensures 1 <= Asks(AttemptEvents(parse, id, llm, k)) <= MaxRetries - k
    decreases MaxRetries - k
  {
    var head := [AskModel(id, k)];
    assert Asks(head) == 1;
    if Continues(parse, llm, k) {
      var pause: seq<Event> := if llm(k).ApiFailure? then [Backoff] else [];
      assert Asks(pause) == 0;
      AttemptAsks(parse, id, llm, k + 1);
      AsksAppend(pause, AttemptEvents(parse, id, llm, k + 1));
      AsksAppend(head, pause + AttemptEvents(parse, id, llm, k + 1));
    } else {
      assert AttemptEvents(parse, id, llm, k) == head;
    }
  }

  /** The model is called at most three times, and not at all when the order fetch raised
      or returned nothing. */
  lemma AnalyzeAsks(parse: string -> Option<Rfm>, id: Json, ordersReply: Transport, llm: nat -> LlmReply)
    ensures Asks(AnalyzeEvents(parse, id, ordersReply, llm)) <= MaxRetries
    ensures var reply := ApiRequest("GET", ordersReply);
      !(reply.Returned? && Truthy(reply.json)) ==> AnalyzeEvents(parse, id, ordersReply, llm) == [GetOrders(id)]
  {
    var reply := ApiRequest("GET", ordersReply);
    if reply.Returned? && Truthy(reply.json) {
      AttemptAsks(parse, id, llm, 0);
      AsksAppend([GetOrders(id)], AttemptEvents(parse, id, llm, 0));
      assert Asks([GetOrders(id)]) == 0;
    }
  }

  /** The facts every analysis satisfies. */
  predicate WellShaped(a: Analysis) {
    && (a.status == Success ==>
          && a.rfm.Some? && a.attempt.Some? && 1 <= a.attempt.value <= MaxRetries
          && a.priority == CalculatePriority(a.rfm.value)
          && Lower(a.rfm.value.priority) == PriorityLower(a.priority)
          && a.message == Analyzed(a.priority))
    && (a.status != Success ==> a.priority == Low && a.rfm.None? && a.attempt.None?)
    && (a.rawResponse.Some? <==> a.status == ParseError)
  }

  lemma {:induction false} AttemptsWellShaped(parse: string -> Option<Rfm>, llm: nat -> LlmReply, k: nat)
    requires k < MaxRetries
    ensures WellShaped(AttemptsFrom(parse, llm, k))
    ensures AttemptsFrom(parse, llm, k).status in {Success, ParseError, ApiError}
    decreases MaxRetries - k
  {
    if Parses(parse, llm(k)) {
      var rfm := parse(llm(k).text).value;
      var r := Reconcile(rfm, CalculatePriority(rfm));
      assert CalculatePriority(r) == CalculatePriority(rfm) by {
        assert r.recency == rfm.recency && r.frequency == rfm.frequency && r.monetary == rfm.monetary;
      }
    } else if Continues(parse, llm, k) {
      AttemptsWellShaped(parse, llm, k + 1);
    }
  }

  /** Success carries the parsed values with the rule's priority, counted attempts 1 to 3;
      every other status has priority Low; only a parse failure carries the raw answer. */
  lemma AnalyzeWellShaped(parse: string -> Option<Rfm>, id: Json, ordersReply: Transport, llm: nat -> LlmReply)
    ensures WellShaped(Analyze(parse, id, ordersReply, llm))
  {
    if ApiRequest("GET", ordersReply).Returned? && Truthy(ApiRequest("GET", ordersReply).json) {
      AttemptsWellShaped(parse, llm, 0);
    }
  }

  /** A High analysis is a successful one: nothing else is rated High. The batch loop shows
      a customer's figures when the analysis has status `"success"` and an `rfm` entry,
      which is exactly when the analysis succeeded. */
  lemma HighIsSuccess(parse: string -> Option<Rfm>, id: Json, ordersReply: Transport, llm: nat -> LlmReply)
    ensures Analyze(parse, id, ordersReply, llm).priority == High ==> Analyze(parse, id, ordersReply, llm).status == Success
    ensures var a := Analyze(parse, id, ordersReply, llm);
      StatusText(a.status) == "success" && a.rfm.Some? <==> a.status == Success
  {
    AnalyzeWellShaped(parse, id, ordersReply, llm);
  }

  /** The attempts succeed exactly when some remaining answer parses, and then with the
      first such answer, reconciled. */
  lemma {:induction false} AttemptsSuccess(parse: string -> Option<Rfm>, llm: nat -> LlmReply, k: nat)
    requires k < MaxRetries
    ensures AttemptsFrom(parse, llm, k).status == Success <==> exists j :: k <= j < MaxRetries && Parses(parse, llm(j))
    ensures AttemptsFrom(parse, llm, k).status == Success ==>
      var n := AttemptsFrom(parse, llm, k).attempt.value - 1;
      && k <= n < MaxRetries && Parses(parse, llm(n))
      && (forall j :: k <= j < n ==> !Parses(parse, llm(j)))
      && AttemptsFrom(parse, llm, k) == Succeeded(parse(llm(n).text).value, n)
    decreases MaxRetries - k
  {
    if !Parses(parse, llm(k)) && k < MaxRetries - 1 {
      AttemptsSuccess(parse, llm, k + 1);
    }
  }

  /** When no answer parses, the last attempt decides the status: an API error gives
      `api_error` with its message, an unparsable text gives `parse_error` with that text. */
  lemma {:induction false} AttemptsExhausted(parse: string -> Option<Rfm>, llm: nat -> LlmReply, k: nat)
    requires k < MaxRetries
    requires forall j :: k <= j < MaxRetries ==> !Parses(parse, llm(j))
    ensures var last := llm(MaxRetries - 1);
      AttemptsFrom(parse, llm, k)
        == if last.ApiFailure? then Failure(ApiError, ApiFailed(MaxRetries, last.error))
           else Analysis(ParseError, Low, ParseFailed, None, None, Some(last.text))
    decreases MaxRetries - k
  {
    if k < MaxRetries - 1 {
      AttemptsExhausted(parse, llm, k + 1);
    }
  }

  /** Every pause directly follows a model call that raised and was not the last attempt. */
  predicate PausesFollowApiErrors(events: seq<Event>, llm: nat -> LlmReply) {
    forall x :: 0 <= x < |events| && events[x].Backoff? ==>
      && x > 0 && events[x - 1].AskModel?
      && events[x - 1].attempt < MaxRetries - 1
      && llm(events[x - 1].attempt).ApiFailure?
  }

  /** A model call that raised and was not the last attempt, which `time.sleep(1)` must
      follow. */
  predicate NeedsPause(e: Event, llm: nat -> LlmReply) {
    e.AskModel? && e.attempt < MaxRetries - 1 && llm(e.attempt).ApiFailure?
  }

  /** Every model call that raised and was not the last attempt is directly followed by a
      pause. */
  predicate ApiErrorsPaused(events: seq<Event>, llm: nat -> LlmReply) {
    forall x :: 0 <= x < |events| && NeedsPause(events[x], llm) ==> x + 1 < |events| && events[x + 1] == Backoff
  }

  lemma PausedAppend(a: seq<Event>, b: seq<Event>, llm: nat -> LlmReply)
    requires ApiErrorsPaused(a, llm) && ApiErrorsPaused(b, llm)
    requires a != [] ==> !NeedsPause(a[|a| - 1], llm)
    ensures ApiErrorsPaused(a + b, llm)
  {
    var c := a + b;
    forall x | 0 <= x < |c| && NeedsPause(c[x], llm)
      ensures x + 1 < |c| && c[x + 1] == Backoff
    {
      if x < |a| {
        assert NeedsPause(a[x], llm);
        if x + 1 < |a| {
          assert c[x + 1] == a[x + 1];
        }
      } else {
        assert c[x] == b[x - |a|];
        assert c[x + 1] == b[x - |a| + 1];
      }
    }
  }

  lemma PausesAppend(a: seq<Event>, b: seq<Event>, llm: nat -> LlmReply)
    requires PausesFollowApiErrors(a, llm) && PausesFollowApiErrors(b, llm)
    requires b != [] ==> !b[0].Backoff?
    ensures PausesFollowApiErrors(a + b, llm)
  {
    var c := a + b;
    forall x | 0 <= x < |c| && c[x].Backoff?
      ensures x > 0 && c[x - 1].AskModel? && c[x - 1].attempt < MaxRetries - 1 && llm(c[x - 1].attempt).ApiFailure?
    {
      if x < |a| {
        assert a[x].Backoff?;
      } else {
        assert b[x - |a|].Backoff?;
        assert c[x - 1] == b[x - |a| - 1];
      }
    }
  }

  lemma {:induction false} AttemptPauses(parse: string -> Option<Rfm>, id: Json, llm: nat -> LlmReply, k: nat)
    requires k < MaxRetries
    ensures PausesFollowApiErrors(AttemptEvents(parse, id, llm, k), llm)
    ensures ApiErrorsPaused(AttemptEvents(parse, id, llm, k), llm)
    ensures AttemptEvents(parse, id, llm, k)[0] == AskModel(id, k)
    decreases MaxRetries - k
  {
    AttemptErrorsPaused(parse, id, llm, k);
    var head := [AskModel(id, k)];
    if Continues(parse, llm, k) {
      AttemptPauses(parse, id, llm, k + 1);
      var rest := AttemptEvents(parse, id, llm, k + 1);
      if llm(k).ApiFailure? {
        var step := head + [Backoff];
        assert PausesFollowApiErrors(step, llm) by {
          assert step[1 - 1] == AskModel(id, k);
        }
        PausesAppend(step, rest, llm);
        assert AttemptEvents(parse, id, llm, k) == step + rest;
      } else {
        PausesAppend(head, [] + rest, llm);
      }
    }
  }

  /** The attempts pause after every model call that raised and was not the last one. */
  lemma {:induction false} AttemptErrorsPaused(parse: string -> Option<Rfm>, id: Json, llm: nat -> LlmReply, k: nat)
    requires k < MaxRetries
    ensures ApiErrorsPaused(AttemptEvents(parse, id, llm, k), llm)
    decreases MaxRetries - k
  {
    var head := [AskModel(id, k)];
    if Continues(parse, llm, k) {
      AttemptErrorsPaused(parse, id, llm, k + 1);
      var rest := AttemptEvents(parse, id, llm, k + 1);
      if llm(k).ApiFailure? {
        var step := head + [Backoff];
        assert ApiErrorsPaused(step, llm) by {
          assert step[0 + 1] == Backoff;
        }
        PausedAppend(step, rest, llm);
        assert AttemptEvents(parse, id, llm, k) == step + rest;
      } else {
        PausedAppend(head, rest, llm);
      }
    } else {
      assert !NeedsPause(AskModel(id, k), llm);
      assert AttemptEvents(parse, id, llm, k) == head;
    }
  }

  /** A pause only ever follows an API error of an attempt that is not the last one, and
      every such error is followed by a pause. */
  lemma AnalyzePauses(parse: string -> Option<Rfm>, id: Json, ordersReply: Transport, llm: nat -> LlmReply)
    ensures PausesFollowApiErrors(AnalyzeEvents(parse, id, ordersReply, llm), llm)
    ensures ApiErrorsPaused(AnalyzeEvents(parse, id, ordersReply, llm), llm)
  {
    var reply := ApiRequest("GET", ordersReply);
    if reply.Returned? && Truthy(reply.json) {
      AttemptPauses(parse, id, llm, 0);
      PausesAppend([GetOrders(id)], AttemptEvents(parse, id, llm, 0), llm);
      PausedAppend([GetOrders(id)], AttemptEvents(parse, id, llm, 0), llm);
    }
  }

  /** The result of a status update or task creation: `bool(response)`, or the exception. */
  datatype Call = Done(ok: bool) | Threw(error: string)

  /** A request whose answer is only judged by its truthiness. */
  function Dispatch(verb: string, reply: Transport): Call
    requires Supported(verb)
  {
    match ApiRequest(verb, reply)
    case Raised(e) => Threw(e)
    case Returned(j) => Done(Truthy(j))
  }

  /** Only a crashed request raises; the call reports success exactly when the server
      answered without an error status and with a truthy JSON body. */
  lemma DispatchOutcome(verb: string, reply: Transport)
    requires Supported(verb)
    ensures Dispatch(verb, reply).Threw? <==> reply.Crashed?
    ensures Dispatch(verb, reply) == Done(true) <==>
      reply.Responded? && !HttpError(reply.status) && reply.body.Some? && Truthy(reply.body.value)
  {
  }

  /** `update_customer_status(CustomerID, lead_status)`: a PUT. */
  function UpdateCustomerStatus(reply: Transport): Call {
    Dispatch("PUT", reply)
  }

  /** `create_task(CustomerID, task_description)`: a POST. */
  function CreateTask(reply: Transport): Call {
    Dispatch("POST", reply)
  }

  /** The task filed for a High customer: for SalesRep1, due a week from today. */
  function TaskFor(id: Json, today: int): Task {
    Task(id, "SalesRep1", today + 7)
  }

  /** What the run is given: the replies to its requests, by customer position and attempt,
      and today's date as a day number. */
  datatype World = World(
    customers: Transport,
    orders: nat -> Transport,
    llm: nat -> nat -> LlmReply,
    statusReplies: nat -> Transport,
    taskReplies: nat -> Transport,
    today: int)

  /** `len(customers)`, or `None` where it raises. */
  function Size(customers: Json): Option<nat> {
    match customers
    case JList(items) => Some(|items|)
    case JObj(fields) => Some(|fields|)
    case JStr(s) => Some(|s|)
    case _ => None
  }

  /** `customer["CustomerID"]` for the `k`-th customer the loop visits, or `None` where it
      raises; iterating a dict or a string gives strings, which cannot be indexed by a key. */
  function IdAt(customers: Json, k: nat): Option<Json> {
    match customers
    case JList(items) =>
      if k < |items| && items[k].JObj? && "CustomerID" in items[k].fields then Some(items[k].fields["CustomerID"])
      else None
    case _ => None
  }

  /** The first position from `k` on whose customer has no ID, or `total`. */
  function Reached(customers: Json, total: nat, k: nat): (n: nat)
    requires k <= total
    ensures k <= n <= total
    ensures forall x :: k <= x < n ==> IdAt(customers, x).Some?
    ensures n < total ==> IdAt(customers, n).None?
    decreases total - k
  {
    if k == total || IdAt(customers, k).None? then k else Reached(customers, total, k + 1)
  }

  /** The loop stops at the first customer without an ID, or after the last customer. */
  lemma ReachedAt(customers: Json, total: nat, n: nat)
    requires n <= total
    requires forall k :: 0 <= k < n ==> IdAt(customers, k).Some?
    requires n < total ==> IdAt(customers, n).None?
    ensures Reached(customers, total, 0) == n
  {
  }

  datatype CustomerError = CustomerError(customer: Json, error: string)

  datatype VisitOutcome = Handled(high: bool) | Failed(error: CustomerError)

  /** What handling one customer did, and the requests it made. */
  datatype Visit = Visit(outcome: VisitOutcome, events: seq<Event>)

  /** One turn of the loop in `run` for the customer at position `i` with ID `id`. */
  function VisitSpec(parse: string -> Option<Rfm>, w: World, i: nat, id: Json): Visit {
    var a := Analyze(parse, id, w.orders(i), w.llm(i));
    var analyzed := AnalyzeEvents(parse, id, w.orders(i), w.llm(i));
    if a.priority != High then Visit(Handled(false), analyzed)
    else
      var flagged := analyzed + [SetStatus(id, "High Priority")];
      match UpdateCustomerStatus(w.statusReplies(i))
      case Threw(e) => Visit(Failed(CustomerError(id, e)), flagged)
      case Done(_) =>
        var filed := flagged + [PostTask(TaskFor(id, w.today))];
        match CreateTask(w.taskReplies(i))
        case Threw(e) => Visit(Failed(CustomerError(id, e)), filed)
        case Done(_) => Visit(Handled(true), filed)
  }

  /** The counters, the error list and the requests so far. */
  datatype Progress = Progress(processed: nat, highPriority: nat, errors: seq<CustomerError>, events: seq<Event>)

  function Apply(p: Progress, v: Visit): Progress {
    match v.outcome
    case Handled(high) => Progress(p.processed + 1, p.highPriority + (if high then 1 else 0), p.errors, p.events + v.events)
    case Failed(e) => Progress(p.processed, p.highPriority, p.errors + [e], p.events + v.events)
  }

  /** The loop's turn for the customer at a position with an ID. */
  function Turn(parse: string -> Option<Rfm>, w: World): (nat, Json) -> Visit {
    (i: nat, id: Json) => VisitSpec(parse, w, i, id)
  }

  /** `turn` gives the loop's turn for each position and ID. The equations are used only
      where a `VisitSpec` term is already in view, so the proofs about the loop treat the
      turns as opaque values. */
  ghost predicate Describes(parse: string -> Option<Rfm>, w: World, turn: (nat, Json) -> Visit) {
    forall k, x {:trigger VisitSpec(parse, w, k, x)} :: turn(k, x) == VisitSpec(parse, w, k, x)
  }

  /** The state after the first `n` customers, each handled by `visit`. */
  function ProgressAfter(visit: (nat, Json) -> Visit, customers: Json, n: nat): Progress
    requires forall k :: 0 <= k < n ==> IdAt(customers, k).Some?
  {
    if n == 0 then Progress(0, 0, [], [])
    else Apply(ProgressAfter(visit, customers, n - 1), visit(n - 1, IdAt(customers, n - 1).value))
  }

  /** One more customer, with the visit's effect computed from empty requests and its
      requests then appended to the earlier ones. */
  lemma TurnStep(visit: (nat, Json) -> Visit, customers: Json, n: nat, p: Progress, q: Progress)
    requires forall k :: 0 <= k <= n ==> IdAt(customers, k).Some?
    requires ProgressAfter(visit, customers, n) == p
    requires Apply(p.(events := []), visit(n, IdAt(customers, n).value)) == q
    ensures ProgressAfter(visit, customers, n + 1) == q.(events := p.events + q.events)
  {
    var v := visit(n, IdAt(customers, n).value);
    assert q.events == [] + v.events;
  }

  /** The summary `run` reports. */
  datatype Summary = Summary(total: nat, processed: nat, highPriority: nat, errors: seq<CustomerError>)

  /** A run completes, or an exception outside the per-customer handler ends it. */
  datatype RunOutcome = Completed(summary: Summary) | Aborted

  datatype RunRecord = RunRecord(outcome: RunOutcome, events: seq<Event>)

  /** `run()`, as a specification. */
  function RunSpec(parse: string -> Option<Rfm>, w: World): RunRecord {
    match ApiRequest("GET", w.customers)
    case Raised(_) => RunRecord(Aborted, [GetCustomers])
    case Returned(customers) =>
      match Size(customers)
      case None => RunRecord(Aborted, [GetCustomers])
      case Some(total) =>
        var n := Reached(customers, total, 0);
        var p := ProgressAfter(Turn(parse, w), customers, n);
        var outcome := if n < total then Aborted else Completed(Summary(total, p.processed, p.highPriority, p.errors));
        RunRecord(outcome, [GetCustomers] + p.events)
  }

  /** Every customer visited is either counted as processed or has exactly one error, and
      the High ones are among the processed. */
  lemma {:induction false} ProgressCounts(visit: (nat, Json) -> Visit, customers: Json, n: nat)
    requires forall k :: 0 <= k < n ==> IdAt(customers, k).Some?
    ensures ProgressAfter(visit, customers, n).processed + |ProgressAfter(visit, customers, n).errors| == n
    ensures ProgressAfter(visit, customers, n).highPriority <= ProgressAfter(visit, customers, n).processed
  {
    if n > 0 {
      ProgressCounts(visit, customers, n - 1);
    }
  }

  /** The positions before `n` whose customer has an ID and whose turn counts it as High. */
  function HighPositions(visit: (nat, Json) -> Visit, customers: Json, n: nat): set<nat> {
    set k: nat | k < n && IdAt(customers, k).Some? && visit(k, IdAt(customers, k).value).outcome == Handled(true)
  }

  /** After `n` customers, the High counter is the number of customers whose turn counted
      them as High. */
  lemma {:induction false} ProgressHigh(visit: (nat, Json) -> Visit, customers: Json, n: nat)
    requires forall k :: 0 <= k < n ==> IdAt(customers, k).Some?
    ensures ProgressAfter(visit, customers, n).highPriority == |HighPositions(visit, customers, n)|
  {
    if n > 0 {
      ProgressHigh(visit, customers, n - 1);
      var before := HighPositions(visit, customers, n - 1);
      var v := visit(n - 1, IdAt(customers, n - 1).value);
      if v.outcome == Handled(true) {
        assert HighPositions(visit, customers, n) == before + {n - 1};
        assert n - 1 !in before;
      } else {
        assert HighPositions(visit, customers, n) == before;
      }
    }
  }

  /** A completed run accounts for every customer: processed plus errors is the total, and
      the High count is the number of customers flagged and given a task without an error. */
  lemma RunTotals(parse: string -> Option<Rfm>, w: World)
    ensures RunSpec(parse, w).outcome.Completed? ==>
      var s := RunSpec(parse, w).outcome.summary;
      && s.processed + |s.errors| == s.total && s.highPriority <= s.processed
      && s.highPriority == |HighPositions(Turn(parse, w), ApiRequest("GET", w.customers).json, s.total)|
  {
    var reply := ApiRequest("GET", w.customers);
    if reply.Returned? && Size(reply.json).Some? {
      var total := Size(reply.json).value;
      var n := Reached(reply.json, total, 0);
      var p := ProgressAfter(Turn(parse, w), reply.json, n);
      ProgressCounts(Turn(parse, w), reply.json, n);
      ProgressHigh(Turn(parse, w), reply.json, n);
      if n == total {
        assert RunSpec(parse, w).outcome.summary == Summary(total, p.processed, p.highPriority, p.errors);
      }
    }
  }

  /** The run ends early exactly when the customer list cannot be fetched or measured, or
      some customer has no `CustomerID` (read outside the per-customer handler). */
  lemma RunAborts(parse: string -> Option<Rfm>, w: World)
    ensures RunSpec(parse, w).outcome.Aborted? <==>
      var reply := ApiRequest("GET", w.customers);
      || reply.Raised?
      || Size(reply.json).None?
      || exists k :: 0 <= k < Size(reply.json).value && IdAt(reply.json, k).None?
  {
  }

  /** A task is filed only right after the same customer was flagged High Priority. */
  predicate TasksFollowFlags(events: seq<Event>) {
    forall x :: 0 <= x < |events| && events[x].PostTask? ==>
      x > 0 && events[x - 1] == SetStatus(events[x].task.customer, "High Priority")
  }

  /** Only requests of the analysis: no flag and no task. */
  predicate AnalysisOnly(events: seq<Event>) {
    forall x :: 0 <= x < |events| ==> !events[x].SetStatus? && !events[x].PostTask?
  }

  lemma TasksAppend(a: seq<Event>, b: seq<Event>)
    requires TasksFollowFlags(a) && TasksFollowFlags(b)
    requires b != [] ==> !b[0].PostTask?
    ensures TasksFollowFlags(a + b)
  {
    var c := a + b;
    forall x | 0 <= x < |c| && c[x].PostTask?
      ensures x > 0 && c[x - 1] == SetStatus(c[x].task.customer, "High Priority")
    {
      if x < |a| {
        assert a[x].PostTask?;
      } else {
        assert b[x - |a|].PostTask?;
        assert c[x - 1] == b[x - |a| - 1];
      }
    }
  }

  lemma {:induction false} AttemptEventsOnly(parse: string -> Option<Rfm>, id: Json, llm: nat -> LlmReply, k: nat)
    requires k < MaxRetries
    ensures AnalysisOnly(AttemptEvents(parse, id, llm, k))
    decreases MaxRetries - k
  {
    if Continues(parse, llm, k) {
      AttemptEventsOnly(parse, id, llm, k + 1);
      var step: seq<Event> := [AskModel(id, k)] + if llm(k).ApiFailure? then [Backoff] else [];
      var rest := AttemptEvents(parse, id, llm, k + 1);
      assert AttemptEvents(parse, id, llm, k) == step + rest;
      OnlyAppend(step, rest);
    }
  }

  lemma OnlyAppend(a: seq<Event>, b: seq<Event>)
    requires AnalysisOnly(a) && AnalysisOnly(b)
    ensures AnalysisOnly(a + b)
  {
    forall x | |a| <= x < |a + b|
      ensures (a + b)[x] == b[x - |a|]
    {
    }
  }

  /** A customer is flagged and given a task only when its analysis is High, which only a
      successful analysis is; the flag comes first and the task right after it. */
  lemma VisitDispatch(parse: string -> Option<Rfm>, w: World, i: nat, id: Json)
    ensures var a := Analyze(parse, id, w.orders(i), w.llm(i));
      var v := VisitSpec(parse, w, i, id);
      && TasksFollowFlags(v.events)
      && (a.priority != High ==> AnalysisOnly(v.events))
      && (!AnalysisOnly(v.events) ==> a.status == Success)
  {
    var a := Analyze(parse, id, w.orders(i), w.llm(i));
    var analyzed := AnalyzeEvents(parse, id, w.orders(i), w.llm(i));
    var reply := ApiRequest("GET", w.orders(i));
    if reply.Returned? && Truthy(reply.json) {
      AttemptEventsOnly(parse, id, w.llm(i), 0);
    }
    assert AnalysisOnly(analyzed);
    HighIsSuccess(parse, id, w.orders(i), w.llm(i));
    if a.priority == High {
      var flagged := analyzed + [SetStatus(id, "High Priority")];
      assert TasksFollowFlags(flagged);
      var filed := flagged + [PostTask(TaskFor(id, w.today))];
      assert TasksFollowFlags(filed) by {
        assert filed[|filed| - 2] == SetStatus(id, "High Priority");
      }
    }
  }

  /** A High customer is flagged right after its analysis, and given a task right after the
      flag unless flagging raised; the turn counts it as High exactly when neither call
      raised. */
  lemma VisitFlagsHigh(parse: string -> Option<Rfm>, w: World, i: nat, id: Json)
    ensures var a := Analyze(parse, id, w.orders(i), w.llm(i));
      var analyzed := AnalyzeEvents(parse, id, w.orders(i), w.llm(i));
      var v := VisitSpec(parse, w, i, id);
      && (a.priority == High ==> |v.events| > |analyzed| && v.events[|analyzed|] == SetStatus(id, "High Priority"))
      && (a.priority == High && UpdateCustomerStatus(w.statusReplies(i)).Done? ==>
            v.events == analyzed + [SetStatus(id, "High Priority"), PostTask(TaskFor(id, w.today))])
      && (v.outcome == Handled(true) <==>
            a.priority == High && UpdateCustomerStatus(w.statusReplies(i)).Done? && CreateTask(w.taskReplies(i)).Done?)
  {
  }

  /** Handling a customer starts by fetching its orders. */
  lemma VisitOpens(parse: string -> Option<Rfm>, w: World, i: nat, id: Json)
    ensures var v := VisitSpec(parse, w, i, id);
      v.events != [] && v.events[0] == GetOrders(id)
  {
  }

  /** The requests of one visit: every task directly follows its flag, and the first
      request is not a task. */
  predicate Ordered(v: Visit) {
    TasksFollowFlags(v.events) && (v.events != [] ==> !v.events[0].PostTask?)
  }

  lemma {:induction false} ProgressTasks(visit: (nat, Json) -> Visit, customers: Json, n: nat)
    requires forall k :: 0 <= k < n ==> IdAt(customers, k).Some?
    requires forall k :: 0 <= k < n ==> Ordered(visit(k, IdAt(customers, k).value))
    ensures TasksFollowFlags(ProgressAfter(visit, customers, n).events)
  {
    if n > 0 {
      ProgressTasks(visit, customers, n - 1);
      var v := visit(n - 1, IdAt(customers, n - 1).value);
      assert Ordered(v);
      TasksAppend(ProgressAfter(visit, customers, n - 1).events, v.events);
    }
  }

  /** Across the whole run, every task filed directly follows flagging the same customer. */
  lemma RunTasks(parse: string -> Option<Rfm>, w: World)
    ensures TasksFollowFlags(RunSpec(parse, w).events)
  {
    var reply := ApiRequest("GET", w.customers);
    if reply.Returned? && Size(reply.json).Some? {
      var total := Size(reply.json).value;
      var n := Reached(reply.json, total, 0);
      forall k | 0 <= k < n
        ensures Ordered(Turn(parse, w)(k, IdAt(reply.json, k).value))
      {
        var id := IdAt(reply.json, k).value;
        VisitDispatch(parse, w, k, id);
        VisitOpens(parse, w, k, id);
      }
      ProgressTasks(Turn(parse, w), reply.json, n);
      TasksAppend([GetCustomers], ProgressAfter(Turn(parse, w), reply.json, n).events);
    }
  }

  /** The agent (`MCPAgent`). Its response parser is the module-level `parse_rfm_response`;
      it is held as a field that the constructor sets, so that the proofs of the retries
      and of the batch hold for whatever the parser returns. */
  class MCPAgent {
    const parse: string -> Option<Rfm>

    constructor()
      ensures parse == RfmParser.ParseRfmResponse
    {
      parse := RfmParser.ParseRfmResponse;
    }

    /** `analyze_customer(CustomerID)`: fetch the orders, then ask the model up to three
        times, pausing after an API error, until an answer parses. */
    method AnalyzeCustomer(customerId: Json, ordersReply: Transport, llm: nat -> LlmReply)
      returns (a: Analysis, events: seq<Event>)
      ensures a == Analyze(parse, customerId, ordersReply, llm)
      ensures events == AnalyzeEvents(parse, customerId, ordersReply, llm)
    {
      events := [GetOrders(customerId)];
      var orders := ApiRequest("GET", ordersReply);
      if orders.Raised? {
        return Failure(Unexpected, UnexpectedError(customerId, orders.error)), events;
      }
      if !Truthy(orders.json) {
        return Failure(NoOrders, NoOrderHistory), events;
      }
      var asked, requests := AskWithRetries(customerId, llm);
      return asked, events + requests;
    }

    /** Step 3 of `analyze_customer`: ask the model up to three times, pausing after an API
        error, until an answer parses. */
    method AskWithRetries(customerId: Json, llm: nat -> LlmReply) returns (a: Analysis, events: seq<Event>)
      ensures a == AttemptsFrom(parse, llm, 0)
      ensures events == AttemptEvents(parse, customerId, llm, 0)
    {
      events := [];
      var attempt := 0;
      while attempt < MaxRetries
        invariant attempt < MaxRetries
        invariant forall j :: 0 <= j < attempt ==> Continues(parse, llm, j)
        invariant events == EventsBefore(customerId, llm, attempt)
      {
        events := events + [AskModel(customerId, attempt)];
        match llm(attempt) {
          case Completion(text) =>
            var rfmData := parse(text);
            if rfmData.Some? {
              var calculated := CalculatePriority(rfmData.value);
              var data := rfmData.value;
              if Lower(data.priority) != PriorityLower(calculated) {
                data := data.(priority := PriorityText(calculated));
              }
              StoppedAttempts(parse, customerId, llm, attempt);
              return Analysis(Success, calculated, Analyzed(calculated), Some(data), Some(attempt + 1), None), events;
            }
            if attempt == MaxRetries - 1 {
              StoppedAttempts(parse, customerId, llm, attempt);
              return Analysis(ParseError, Low, ParseFailed, None, None, Some(text)), events;
            }
          case ApiFailure(e) =>
            if attempt == MaxRetries - 1 {
              StoppedAttempts(parse, customerId, llm, attempt);
              return Failure(ApiError, ApiFailed(MaxRetries, e)), events;
            }
            events := events + [Backoff];
        }
        attempt := attempt + 1;
      }
      assert false;
    }

    /** The body of the loop in `run` for the customer at position `i` with ID `id`: analyse
        it and, when it is High, flag it and file a task; an exception from either request
        ends the turn with an error. */
    method ProcessCustomer(w: World, i: nat, id: Json, processedCount: nat, highPriorityCount: nat, errors: seq<CustomerError>,
                           ghost turn: (nat, Json) -> Visit)
      returns (processed: nat, highPriority: nat, errorsAfter: seq<CustomerError>, requests: seq<Event>)
      requires Describes(parse, w, turn)
      ensures Progress(processed, highPriority, errorsAfter, requests)
        == Apply(Progress(processedCount, highPriorityCount, errors, []), turn(i, id))
    {
      assert turn(i, id) == VisitSpec(parse, w, i, id);
      processed, highPriority, errorsAfter := processedCount, highPriorityCount, errors;
      var analysis;
      analysis, requests := AnalyzeCustomer(id, w.orders(i), w.llm(i));
      if analysis.priority == High {
        requests := requests + [SetStatus(id, "High Priority")];
        var updated := UpdateCustomerStatus(w.statusReplies(i));
        if updated.Threw? {
          errorsAfter := errors + [CustomerError(id, updated.error)];
          return;
        }
        requests := requests + [PostTask(TaskFor(id, w.today))];
        var created := CreateTask(w.taskReplies(i));
        if created.Threw? {
          errorsAfter := errors + [CustomerError(id, created.error)];
          return;
        }
        highPriority := highPriority + 1;
      }
      processed := processed + 1;
    }

    method Run(w: World) returns (outcome: RunOutcome, events: seq<Event>)
      ensures RunRecord(outcome, events) == RunSpec(parse, w)
      ensures outcome.Completed? ==> outcome.summary.processed + |outcome.summary.errors| == outcome.summary.total
      ensures outcome.Completed? ==> outcome.summary.highPriority <= outcome.summary.processed
    {
      var reply := ApiRequest("GET", w.customers);
      if reply.Raised? {
        return Aborted, [GetCustomers];
      }
      var customers := reply.json;
      var size := Size(customers);
      if size.None? {
        return Aborted, [GetCustomers];
      }
      var total := size.value;
      var reached, processedCount, highPriorityCount, errors, log := ProcessAll(w, customers, total, Turn(parse, w));
      if reached < total {
        return Aborted, [GetCustomers] + log;
      }
      ProgressCounts(Turn(parse, w), customers, total);
      return Completed(Summary(total, processedCount, highPriorityCount, errors)), [GetCustomers] + log;
    }

    /** The `for` loop of `run`: handle the customers in order, counting them, until one
        has no `CustomerID`. */
    method ProcessAll(w: World, customers: Json, total: nat, ghost turn: (nat, Json) -> Visit)
      returns (reached: nat, processedCount: nat, highPriorityCount: nat, errors: seq<CustomerError>, log: seq<Event>)
      requires Describes(parse, w, turn)
      ensures reached == Reached(customers, total, 0)
      ensures ProgressAfter(turn, customers, reached) == Progress(processedCount, highPriorityCount, errors, log)
    {
      processedCount, highPriorityCount, errors, log := 0, 0, [], [];
      var i := 0;
      while i < total
        invariant i <= total
        invariant forall k :: 0 <= k < i ==> IdAt(customers, k).Some?
        invariant ProgressAfter(turn, customers, i) == Progress(processedCount, highPriorityCount, errors, log)
      {
        var customerId := IdAt(customers, i);
        if customerId.None? {
          ReachedAt(customers, total, i);
          return i, processedCount, highPriorityCount, errors, log;
        }
        ghost var before := Progress(processedCount, highPriorityCount, errors, log);
        var requests;
        processedCount, highPriorityCount, errors, requests := ProcessCustomer(w, i, customerId.value, processedCount, highPriorityCount, errors, turn);
        TurnStep(turn, customers, i, before, Progress(processedCount, highPriorityCount, errors, requests));
        log := log + requests;
        i := i + 1;
      }
      ReachedAt(customers, total, total);
      return total, processedCount, highPriorityCount, errors, log;
    }
  }
}
