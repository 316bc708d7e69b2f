/** What a request payload means and what answer it gets (`handleRequest` and `cancelJob` in
    src/runnerd_main.cpp), over the step machine. */
module Requests {
  import opened Jobs
  import opened Kernel
  import opened Wire
  import opened Decimal
  import opened Protocol
  import opened Listing
  import opened Machine
  import MonitorSpec

  datatype Request =
    | Ping
    | ListJobs
    | StatusOf(id: JobId)
    | CancelOf(id: JobId)
    | SubmitOf(spec: JobSpec)
    | Malformed(error: ProtocolError, command: Bytes)
    | TooLongSubmit
    | Unknown

  /** The branch a payload takes. */
  function Meaning(payload: Bytes): Request {
    if payload == Ascii("PING") then Ping
    else if payload == Ascii("LIST") then ListJobs
    else if HasCommand(payload, StatusCommand()) then
      var r := IdOf(payload, StatusCommand());
      if r.Ok? then StatusOf(r.value) else Malformed(r.error, StatusCommand())
    else if HasCommand(payload, CancelCommand()) then
      var r := IdOf(payload, CancelCommand());
      if r.Ok? then CancelOf(r.value) else Malformed(r.error, CancelCommand())
    else if !HasCommand(payload, SubmitCommand()) then Unknown
    else MeaningOfSubmit(payload)
  }

  function MeaningOfSubmit(payload: Bytes): Request {
    var r := Protocol.SubmitOf(payload);
    if r.Err? then if r.error.TooLong? then TooLongSubmit else Malformed(r.error, SubmitCommand())
    else if !ValidSpec(r.value) then Malformed(FirstFault(r.value).value, SubmitCommand())
    else SubmitOf(r.value)
  }

  lemma SubmitBranch(payload: Bytes)
    requires HasCommand(payload, SubmitCommand())
    ensures Meaning(payload) == MeaningOfSubmit(payload)
  {
    hide MeaningOfSubmit, IdOf;
    CommandsAreDisjoint(payload);
  }

  /** What the client makes of a command (`makeRequestPayload` in src/runnerctl_main.cpp). */
  function PayloadOf(r: Request): Option<Bytes> {
    match r
    case Ping => Some(Ascii("PING"))
    case ListJobs => Some(Ascii("LIST"))
    case StatusOf(id) => if 0 < id < JOB_ID_SPACE then Some(IdPayload(StatusCommand(), id)) else None
    case CancelOf(id) => if 0 < id < JOB_ID_SPACE then Some(IdPayload(CancelCommand(), id)) else None
    case SubmitOf(spec) =>
      if Encodable(spec) then
        EncodableIsExpressible(spec);
        Some(SubmitPayload(spec))
      else None
    case _ => None
  }

  /** Client and daemon agree: a payload means a command exactly if the client writes it for that command. */
  lemma ClientAndDaemonAgree(r: Request, payload: Bytes)
    requires !r.Malformed? && !r.TooLongSubmit? && !r.Unknown?
    ensures Meaning(payload) == r <==> PayloadOf(r) == Some(payload)
  {
    CommandsAreDisjoint(payload);
    match r
    case Ping =>
    case ListJobs => assert Ascii("PING")[0] != Ascii("LIST")[0];
    case StatusOf(id) => IdAgrees(payload, StatusCommand(), id);
    case CancelOf(id) => IdAgrees(payload, CancelCommand(), id);
    case SubmitOf(spec) =>
      SubmitAgrees(payload, spec);
      hide Protocol.SubmitOf, SubmitPayload, Encodable, Expressible, ValidSpec;
  }

  lemma IdAgrees(payload: Bytes, command: Bytes, id: JobId)
    requires |command| == COMMAND
    ensures IdOf(payload, command) == Ok(id) <==> 0 < id < JOB_ID_SPACE && payload == IdPayload(command, id)
    ensures payload == IdPayload(command, id) ==> HasCommand(payload, command)
  {
    IdIsBijective(payload, command, id);
    if payload == IdPayload(command, id) {
      assert payload[..COMMAND] == command;
    }
  }

  lemma SubmitAgrees(payload: Bytes, spec: JobSpec)
    ensures Protocol.SubmitOf(payload) == Ok(spec) && ValidSpec(spec) <==> Encodable(spec) && Expressible(spec) && payload == SubmitPayload(spec)
    ensures Expressible(spec) && payload == SubmitPayload(spec) ==> HasCommand(payload, SubmitCommand())
    ensures Encodable(spec) ==> Expressible(spec)
  {
    SubmitIsBijective(payload, spec);
    SubmitRoundTrip(spec, payload);
    if Encodable(spec) {
      EncodableIsExpressible(spec);
      ArgumentsLength(spec.argv);
    }
    if Expressible(spec) && payload == SubmitPayload(spec) {
      assert payload[..COMMAND] == SubmitCommand();
    }
  }

  // ----- answers -----

  function Message(e: ProtocolError, command: Bytes): string {
    match e
    case NotThisRequest => if command == SubmitCommand() then "payload is not a SUBMIT request" else if command == StatusCommand() then "payload is not a STATUS request" else "payload is not a CANCEL request"
    case Truncated => "submit request is truncated"
    case TooManyArguments => "submit argument count exceeds remaining payload"
    case ArgumentTruncated => "submit argument is truncated"
    case TrailingBytes => "submit request has trailing bytes"
    case WrongSize => if command == StatusCommand() then "STATUS request has invalid size" else "CANCEL request has invalid size"
    case ZeroId => "job id must be greater than zero"
    case NoArgv => "job argv must not be empty"
    case EmptyProgram => "job argv[0] must not be empty"
    case RelativeProgram => "job argv[0] must be an absolute path"
    case NulByte => "job argument contains a NUL byte"
    case NonPositiveTimeout => "execution timeout must be positive"
    case TooLong => "submit request exceeds maximum frame size"
  }

  /** A response, or an exception that ends the connection. */
  datatype Reply = Reply(text: Bytes) | Dropped

  /** What CANCEL answers, by the state of the job and the outcome of the termination request. */
  ghost function CancelReply(m: Machine, j: JobId): Reply {
    if j !in m.mon.jobs then Reply(Ascii("ERR job not found")) else
      match m.mon.jobs[j].state
      case Queued => Reply(Ascii("OK cancelled"))
      case Running =>
        var (_, a, ok) := Terminate(m, j, CauseCancelled);
        if a.Missing? then Dropped
        else if a.Rejected? then Reply(Ascii("ERR failed to send SIGTERM: "))
        else if !a.Delivered? then Reply(Ascii("ERR job process already exited; retry status"))
        else if ok then Reply(Ascii("OK terminating"))
        else Dropped
      case Terminating => Reply(Ascii("ERR job is already terminating"))
      case _ => Reply(Ascii("ERR job is already terminal"))
  }

  ghost function SubmitReply(m: Machine, spec: JobSpec): Reply {
    if m.nextId == 0 || !Pump(Enqueue(m, spec)).1 then Dropped else Reply(SubmitResponse(m.nextId))
  }

  ghost function Answer(m: Machine, payload: Bytes): Reply {
    match Meaning(payload)
    case Ping => Reply(Ascii("PONG"))
    case ListJobs => Reply(ListResponse(m.mon.jobs))
    case StatusOf(id) => Reply(if id in m.mon.jobs then StatusResponse(m.mon.jobs[id]) else Ascii("ERR job not found"))
    case CancelOf(id) => CancelReply(m, id)
    case SubmitOf(spec) => SubmitReply(m, spec)
    case Malformed(e, command) => Reply(Ascii("ERR ") + Ascii(Message(e, command)))
    case TooLongSubmit => Dropped
    case Unknown => Reply(Ascii("ERR unknown request"))
  }

  /** The event a request amounts to. */
  function EventOf(payload: Bytes): Option<Event> {
    match Meaning(payload)
    case SubmitOf(spec) => Some(Submit(spec))
    case CancelOf(id) => Some(Cancel(id))
    case _ => None
  }

  ghost function After(m: Machine, payload: Bytes): Machine {
    if EventOf(payload).Some? then Step(m, EventOf(payload).value) else m
  }

  // ----- sizes -----

  function Pow10(n: nat): nat {
    if n == 0 then 1 else 10 * Pow10(n - 1)
  }

  lemma {:induction false} DigitsLength(n: nat, width: nat)
    requires n < Pow10(width) && width > 0
    ensures |Digits(n)| <= width
    decreases width
  {
    if n >= 10 {
      DigitsLength(n / 10, width - 1);
    }
  }

  lemma IdsAreShort(id: JobId)
    requires id < JOB_ID_SPACE
    ensures |Digits(id)| <= 20
  {
    assert Pow10(5) == 100000;
    assert Pow10(10) == 100000 * Pow10(5);
    assert Pow10(15) == 100000 * Pow10(10);
    assert Pow10(20) == 100000 * Pow10(15);
    DigitsLength(id, 20);
  }

  lemma ListingFits(jobs: map<JobId, Job>)
    ensures |ListResponse(jobs)| <= MAX_FRAME
  {
  }

  /** Every response fits a frame, so encoding it never fails. */
  lemma AnswerFits(m: Machine, payload: Bytes)
    requires m.nextId < JOB_ID_SPACE
    ensures Answer(m, payload).Reply? ==> |Answer(m, payload).text| <= MAX_FRAME
  {
    hide Meaning, IsListing, StatusResponse, Message, CancelReply, SubmitReply;
    match Meaning(payload)
    case ListJobs => ListingFits(m.mon.jobs);
    case CancelOf(id) => CancelReplyFits(m, id);
    case SubmitOf(spec) => SubmitReplyFits(m, spec);
    case Malformed(e, command) => MessageFits(e, command);
    case _ =>
  }

  lemma MessageFits(e: ProtocolError, command: Bytes)
    ensures |Message(e, command)| < 100
  {
  }

  lemma CancelReplyFits(m: Machine, id: JobId)
    ensures CancelReply(m, id).Reply? ==> |CancelReply(m, id).text| < 100
  {
    hide Terminate;
  }

  lemma SubmitReplyFits(m: Machine, spec: JobSpec)
    requires m.nextId < JOB_ID_SPACE
    ensures SubmitReply(m, spec).Reply? ==> |SubmitReply(m, spec).text| < 100
  {
    hide Pump;
    IdsAreShort(m.nextId);
  }

  // ----- requests among other events -----

  /** What the daemon did: it answered a request, or handled some other event. */
  datatype Deed = Asked(request: Bytes) | Happened(event: Event)

  ghost function StateAfter(m: Machine, life: seq<Deed>): Machine {
    if life == [] then m else
      var before := StateAfter(m, life[..|life| - 1]);
      match life[|life| - 1]
      case Asked(request) => After(before, request)
      case Happened(e) => Step(before, e)
  }

  /** The responses answer the requests of a life, one each, in order, each in the state it was asked in. */
  ghost predicate Answers(m: Machine, life: seq<Deed>, requests: seq<Bytes>, responses: seq<Bytes>)
    decreases |life|
  {
    if life == [] then requests == [] && responses == [] else
      var init := life[..|life| - 1];
      match life[|life| - 1]
      case Happened(_) => Answers(m, init, requests, responses)
      case Asked(request) =>
        && requests != [] && responses != [] && requests[|requests| - 1] == request
        && Answer(StateAfter(m, init), request) == Reply(responses[|responses| - 1])
        && Answers(m, init, requests[..|requests| - 1], responses[..|responses| - 1])
  }

  lemma OneMoreAnswer(m: Machine, life: seq<Deed>, requests: seq<Bytes>, responses: seq<Bytes>, request: Bytes, response: Bytes)
    requires Answers(m, life, requests, responses) && Answer(StateAfter(m, life), request) == Reply(response)
    ensures Answers(m, life + [Asked(request)], requests + [request], responses + [response])
    ensures StateAfter(m, life + [Asked(request)]) == After(StateAfter(m, life), request)
  {
    hide Answer, After;
    assert (life + [Asked(request)])[..|life|] == life;
    assert (requests + [request])[..|requests|] == requests && (responses + [response])[..|responses|] == responses;
  }

  lemma OneMoreEvent(m: Machine, life: seq<Deed>, requests: seq<Bytes>, responses: seq<Bytes>, e: Event)
    requires Answers(m, life, requests, responses)
    ensures Answers(m, life + [Happened(e)], requests, responses)
    ensures StateAfter(m, life + [Happened(e)]) == Step(StateAfter(m, life), e)
  {
    hide Answer, Step;
    assert (life + [Happened(e)])[..|life|] == life;
  }

  function EventsOf(life: seq<Deed>): seq<Event> {
    if life == [] then [] else
      EventsOf(life[..|life| - 1]) + if life[|life| - 1].Happened? then [life[|life| - 1].event] else []
  }

  lemma Beginning(m: Machine)
    ensures StateAfter(m, []) == m && EventsOf([]) == []
  {
  }

  lemma EventsAppend(life: seq<Deed>, d: Deed)
    ensures EventsOf(life + [d]) == EventsOf(life) + if d.Happened? then [d.event] else []
  {
    assert (life + [d])[..|life|] == life;
  }
}
