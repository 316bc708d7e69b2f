/** Requests as payloads: SUBMIT, STATUS and CANCEL (src/protocol.cpp), and the validation of a
    job specification (src/job.cpp). */
module Protocol {
  import opened Jobs
  import opened Wire

  datatype ProtocolError =
    | NotThisRequest | Truncated | TooManyArguments | ArgumentTruncated | TrailingBytes   // SUBMIT structure
    | WrongSize | ZeroId                                                                 // STATUS and CANCEL
    | NoArgv | EmptyProgram | RelativeProgram | NulByte | NonPositiveTimeout             // job specification
    | TooLong                                                                            // length_error

  datatype Result<+T> = Ok(value: T) | Err(error: ProtocolError)

  const COMMAND: nat := 6

  predicate HasCommand(payload: Bytes, command: Bytes)
    requires |command| == COMMAND
  {
    |payload| >= COMMAND && payload[..COMMAND] == command
  }

  function SubmitCommand(): (c: Bytes) ensures |c| == COMMAND { Ascii("SUBMIT") }
  function StatusCommand(): (c: Bytes) ensures |c| == COMMAND { Ascii("STATUS") }
  function CancelCommand(): (c: Bytes) ensures |c| == COMMAND { Ascii("CANCEL") }

  /** No payload belongs to two commands, nor to a command and a plain word. */
  lemma CommandsAreDisjoint(payload: Bytes)
    ensures !(HasCommand(payload, SubmitCommand()) && HasCommand(payload, StatusCommand()))
    ensures !(HasCommand(payload, SubmitCommand()) && HasCommand(payload, CancelCommand()))
    ensures !(HasCommand(payload, StatusCommand()) && HasCommand(payload, CancelCommand()))
    ensures payload == Ascii("PING") || payload == Ascii("LIST") ==> |payload| < COMMAND
  {
    assert SubmitCommand()[1] != StatusCommand()[1];
    assert SubmitCommand()[0] != CancelCommand()[0];
    assert StatusCommand()[0] != CancelCommand()[0];
  }

  // ----- job specifications -----

  /** The first rule a specification breaks. */
  function FirstFault(spec: JobSpec): Option<ProtocolError> {
    if spec.argv == [] then Some(NoArgv)
    else if spec.argv[0] == [] then Some(EmptyProgram)
    else if spec.argv[0][0] != '/' as int then Some(RelativeProgram)
    else if exists i | 0 <= i < |spec.argv| :: 0 in spec.argv[i] then Some(NulByte)
    else if spec.timeout.Some? && spec.timeout.value <= 0 then Some(NonPositiveTimeout)
    else None
  }

  method ValidateJobSpec(spec: JobSpec) returns (fault: Option<ProtocolError>)
    ensures fault.None? <==> ValidSpec(spec)
    ensures fault == FirstFault(spec)
  {
    if spec.argv == [] {
      return Some(NoArgv);
    }
    if spec.argv[0] == [] {
      return Some(EmptyProgram);
    }
    if spec.argv[0][0] != '/' as int {
      return Some(RelativeProgram);
    }
    for i := 0 to |spec.argv|
      invariant forall k | 0 <= k < i :: 0 !in spec.argv[k]
    {
      if 0 in spec.argv[i] {
        return Some(NulByte);
      }
    }
    if spec.timeout.Some? && spec.timeout.value <= 0 {
      return Some(NonPositiveTimeout);
    }
    fault := None;
  }

  // ----- SUBMIT -----

  /** What the format can express: 32-bit lengths and timeouts, where 0 stands for no timeout. */
  predicate Expressible(spec: JobSpec) {
    && |spec.argv| < U32_SPACE
    && ShortArguments(spec.argv)
    && (spec.timeout.Some? ==> 0 < spec.timeout.value < U32_SPACE)
  }

  predicate ShortArguments(argv: seq<Bytes>) {
    forall i | 0 <= i < |argv| :: |argv[i]| < U32_SPACE
  }

  function Arguments(argv: seq<Bytes>): Bytes
    requires ShortArguments(argv)
  {
    if argv == [] then [] else U32(|argv[0]|) + argv[0] + Arguments(argv[1..])
  }

  function TimeoutField(spec: JobSpec): nat
    requires Expressible(spec)
  {
    if spec.timeout.Some? then spec.timeout.value else 0
  }

  /** The payload of a SUBMIT request. */
  function SubmitPayload(spec: JobSpec): Bytes
    requires Expressible(spec)
  {
    SubmitCommand() + U32(TimeoutField(spec)) + U32(|spec.argv|) + Arguments(spec.argv)
  }

  function ArgumentsSize(argv: seq<Bytes>): nat {
    if argv == [] then 0 else ArgumentsSize(argv[..|argv| - 1]) + 4 + |argv[|argv| - 1]|
  }

  function SubmitSize(spec: JobSpec): nat {
    COMMAND + 8 + ArgumentsSize(spec.argv)
  }

  predicate Encodable(spec: JobSpec) {
    && ValidSpec(spec)
    && (spec.timeout.Some? ==> spec.timeout.value < U32_SPACE)
    && SubmitSize(spec) <= MAX_FRAME
  }

  lemma {:induction false} SizesFit(argv: seq<Bytes>, limit: nat)
    requires ArgumentsSize(argv) <= limit
    ensures 4 * |argv| <= limit && forall i | 0 <= i < |argv| :: |argv[i]| <= limit
  {
    if argv != [] {
      SizesFit(argv[..|argv| - 1], limit - 4 - |argv[|argv| - 1]|);
      assert forall i | 0 <= i < |argv| - 1 :: argv[i] == argv[..|argv| - 1][i];
    }
  }

  lemma EncodableIsExpressible(spec: JobSpec)
    requires Encodable(spec)
    ensures Expressible(spec)
  {
    SizesFit(spec.argv, MAX_FRAME);
  }

  lemma {:induction false} ArgumentsAppend(argv: seq<Bytes>, last: Bytes)
    requires ShortArguments(argv) && |last| < U32_SPACE
    ensures ShortArguments(argv + [last]) && Arguments(argv + [last]) == Arguments(argv) + (U32(|last|) + last)
  {
    var all := argv + [last];
    if argv == [] {
      assert all[1..] == [];
    } else {
      ArgumentsAppend(argv[1..], last);
      assert all[1..] == argv[1..] + [last];
    }
  }

  /** The exact size of the payload. */
  lemma {:induction false} ArgumentsLength(argv: seq<Bytes>)
    requires ShortArguments(argv)
    ensures |Arguments(argv)| == ArgumentsSize(argv)
  {
    if argv != [] {
      var init := argv[..|argv| - 1];
      assert argv == init + [argv[|argv| - 1]];
      ArgumentsLength(init);
      ArgumentsAppend(init, argv[|argv| - 1]);
    }
  }

  /** The source's size computation: subtraction only, so nothing can overflow or underflow. */
  method MeasureArguments(argv: seq<Bytes>) returns (fits: bool, size: nat)
    ensures fits == (COMMAND + 8 + ArgumentsSize(argv) <= MAX_FRAME)
    ensures fits ==> size == COMMAND + 8 + ArgumentsSize(argv)
  {
    size := COMMAND + 8;
    for i := 0 to |argv|
      invariant size == COMMAND + 8 + ArgumentsSize(argv[..i]) <= MAX_FRAME
    {
      SizeGrows(argv, i + 1);
      assert argv[..i + 1][..i] == argv[..i];
      if |argv[i]| > U32_SPACE - 1 {
        return false, size;
      }
      if size > MAX_FRAME - 4 {
        return false, size;
      }
      size := size + 4;
      if |argv[i]| > MAX_FRAME - size {
        return false, size;
      }
      size := size + |argv[i]|;
    }
    assert argv[..|argv|] == argv;
    fits := true;
  }

  lemma {:induction false} SizeGrows(argv: seq<Bytes>, n: nat)
    requires n <= |argv|
    ensures ArgumentsSize(argv[..n]) <= ArgumentsSize(argv) && 4 * |argv| <= ArgumentsSize(argv)
    decreases |argv|
  {
    if n == |argv| {
      assert argv[..n] == argv;
      if n > 0 {
        SizeGrows(argv[..n - 1], n - 1);
      }
    } else {
      SizeGrows(argv[..|argv| - 1], n);
      assert argv[..|argv| - 1][..n] == argv[..n];
    }
  }

  method EncodeSubmitRequest(spec: JobSpec) returns (r: Result<Bytes>)
    ensures r.Ok? <==> Encodable(spec)
    ensures r.Ok? ==> Expressible(spec) && r.value == SubmitPayload(spec) && |r.value| == SubmitSize(spec)
    ensures r.Err? ==> r.error == if ValidSpec(spec) then TooLong else FirstFault(spec).value
  {
    var fault := ValidateJobSpec(spec);
    if fault.Some? {
      return Err(fault.value);
    }
    SizeGrows(spec.argv, 0);
    if |spec.argv| > U32_SPACE - 1 {
      return Err(TooLong);
    }
    var timeout := 0;
    if spec.timeout.Some? {
      if spec.timeout.value > U32_SPACE - 1 {
        return Err(TooLong);
      }
      timeout := spec.timeout.value;
    }
    var fits, size := MeasureArguments(spec.argv);
    if !fits {
      return Err(TooLong);
    }
    EncodableIsExpressible(spec);
    ArgumentsLength(spec.argv);
    var payload := AppendArguments(SubmitCommand() + U32(timeout) + U32(|spec.argv|), spec.argv);
    r := Ok(payload);
  }

  method AppendArguments(head: Bytes, argv: seq<Bytes>) returns (payload: Bytes)
    requires ShortArguments(argv)
    ensures payload == head + Arguments(argv)
  {
    payload := head;
    for i := 0 to |argv|
      invariant payload == head + Arguments(argv[..i])
    {
      ArgumentsAppend(argv[..i], argv[i]);
      assert argv[..i + 1] == argv[..i] + [argv[i]];
      payload := payload + U32(|argv[i]|);
      payload := payload + argv[i];
    }
    assert argv[..|argv|] == argv;
  }

  // ----- decoding SUBMIT -----

  /** The arguments in the rest of a payload, `count` of them and nothing more. */
  function ReadArguments(rest: Bytes, count: nat): Result<seq<Bytes>>
    decreases count
  {
    if count == 0 then if rest == [] then Ok([]) else Err(TrailingBytes)
    else if |rest| < 4 then Err(Truncated)
    else
      var n := Value(rest[..4]);
      if n > |rest| - 4 then Err(ArgumentTruncated)
      else
        Prepend([rest[4..4 + n]], ReadArguments(rest[4 + n..], count - 1))
  }

  function Prepend(argv: seq<Bytes>, more: Result<seq<Bytes>>): Result<seq<Bytes>> {
    if more.Err? then more else Ok(argv + more.value)
  }

  lemma PrependTwice(a: seq<Bytes>, b: seq<Bytes>, more: Result<seq<Bytes>>)
    ensures Prepend([], more) == more
    ensures Prepend(a, Prepend(b, more)) == Prepend(a + b, more)
  {
    if more.Ok? {
      assert [] + more.value == more.value;
      assert a + (b + more.value) == a + b + more.value;
    }
  }

  /** The meaning of a SUBMIT payload, or the first thing wrong with it. */
  function SubmitOf(payload: Bytes): Result<JobSpec> {
    if |payload| > MAX_FRAME then Err(TooLong)
    else if !HasCommand(payload, SubmitCommand()) then Err(NotThisRequest)
    else if |payload| < COMMAND + 8 then Err(Truncated)
    else
      var timeout := Value(payload[COMMAND..COMMAND + 4]);
      var count := Value(payload[COMMAND + 4..COMMAND + 8]);
      var rest := payload[COMMAND + 8..];
      if count > |rest| / 4 then Err(TooManyArguments)
      else
        var argv := ReadArguments(rest, count);
        if argv.Err? then Err(argv.error)
        else Ok(JobSpec(argv.value, if timeout == 0 then None else Some(timeout)))
  }

  /** Reading inverts writing ... */
  lemma {:induction false} ReadOfArguments(argv: seq<Bytes>)
    requires ShortArguments(argv)
    ensures ReadArguments(Arguments(argv), |argv|) == Ok(argv)
  {
    if argv != [] {
      ReadOfArguments(argv[1..]);
      U32Inverse(|argv[0]|, []);
      var rest := Arguments(argv);
      assert rest[..4] == U32(|argv[0]|);
      assert rest[4..4 + |argv[0]|] == argv[0];
      assert rest[4 + |argv[0]|..] == Arguments(argv[1..]);
      assert [argv[0]] + argv[1..] == argv;
    }
  }

  /** ... and writing inverts reading. */
  lemma {:induction false} ArgumentsOfRead(rest: Bytes, count: nat)
    requires ReadArguments(rest, count).Ok? && |rest| < U32_SPACE
    ensures var argv := ReadArguments(rest, count).value;
      |argv| == count && ShortArguments(argv) && Arguments(argv) == rest
    decreases count
  {
    if count != 0 {
      var n := Value(rest[..4]);
      var first, others := rest[4..4 + n], ReadArguments(rest[4 + n..], count - 1).value;
      assert ReadArguments(rest, count) == Ok([first] + others);
      ArgumentsOfRead(rest[4 + n..], count - 1);
      U32Inverse(0, rest[..4]);
      hide ReadArguments, Arguments, Value, ShortArguments;
      ArgumentsCons(first, others);
      ThreeParts(rest, n);
    }
  }

  lemma ThreeParts(s: Bytes, n: nat)
    requires 4 + n <= |s|
    ensures s == s[..4] + s[4..4 + n] + s[4 + n..]
  {
  }

  lemma ArgumentsCons(first: Bytes, others: seq<Bytes>)
    requires |first| < U32_SPACE && ShortArguments(others)
    ensures ShortArguments([first] + others) && Arguments([first] + others) == U32(|first|) + first + Arguments(others)
  {
    assert ([first] + others)[1..] == others;
  }

  /** A payload decodes to a specification exactly if it is that specification's payload and fits a frame. */
  lemma SubmitIsBijective(payload: Bytes, spec: JobSpec)
    ensures SubmitOf(payload) == Ok(spec) <==> Expressible(spec) && |payload| <= MAX_FRAME && payload == SubmitPayload(spec)
  {
    if SubmitOf(payload) == Ok(spec) {
      DecodedIsPayload(payload);
    }
    if Expressible(spec) && |payload| <= MAX_FRAME && payload == SubmitPayload(spec) {
      PayloadDecodes(spec);
    }
  }

  lemma DecodedIsPayload(payload: Bytes)
    requires SubmitOf(payload).Ok?
    ensures var spec := SubmitOf(payload).value; Expressible(spec) && payload == SubmitPayload(spec)
  {
    var t, c, rest := payload[COMMAND..COMMAND + 4], payload[COMMAND + 4..COMMAND + 8], payload[COMMAND + 8..];
    U32Inverse(0, t);
    U32Inverse(0, c);
    ArgumentsOfRead(rest, Value(c));
    assert payload == payload[..COMMAND] + t + c + rest;
  }

  lemma PayloadDecodes(spec: JobSpec)
    requires Expressible(spec) && |SubmitPayload(spec)| <= MAX_FRAME
    ensures SubmitOf(SubmitPayload(spec)) == Ok(spec)
  {
    var p := SubmitPayload(spec);
    U32Inverse(TimeoutField(spec), []);
    U32Inverse(|spec.argv|, []);
    ArgumentsLength(spec.argv);
    SizeGrows(spec.argv, 0);
    ReadOfArguments(spec.argv);
    assert p[..COMMAND] == SubmitCommand();
    assert p[COMMAND..COMMAND + 4] == U32(TimeoutField(spec));
    assert p[COMMAND + 4..COMMAND + 8] == U32(|spec.argv|);
    assert p[COMMAND + 8..] == Arguments(spec.argv);
  }

  /** The two validity checks agree: what the client may encode is what the daemon accepts, both ways. */
  lemma SubmitRoundTrip(spec: JobSpec, payload: Bytes)
    ensures Encodable(spec) ==> Expressible(spec) && SubmitOf(SubmitPayload(spec)) == Ok(spec)
    ensures SubmitOf(payload).Ok? && ValidSpec(SubmitOf(payload).value) ==>
      Encodable(SubmitOf(payload).value) && Expressible(SubmitOf(payload).value) && SubmitPayload(SubmitOf(payload).value) == payload
  {
    if Encodable(spec) {
      EncodableIsExpressible(spec);
      ArgumentsLength(spec.argv);
      PayloadDecodes(spec);
    }
    if SubmitOf(payload).Ok? {
      DecodedIsPayload(payload);
      ArgumentsLength(SubmitOf(payload).value.argv);
    }
  }

  method ReadUint32(input: Bytes, offset: nat) returns (r: Result<nat>)
    ensures r == if offset + 4 <= |input| then Ok(Value(input[offset..offset + 4])) else Err(Truncated)
    ensures r.Ok? ==> r.value < U32_SPACE
  {
    if offset > |input| || |input| - offset < 4 {
      return Err(Truncated);
    }
    U32Inverse(0, input[offset..offset + 4]);
    r := Ok(Value(input[offset..offset + 4]));
  }

  method DecodeSubmitRequest(payload: Bytes) returns (r: Result<JobSpec>)
    ensures r == SubmitOf(payload)
  {
    if |payload| > MAX_FRAME {
      return Err(TooLong);
    }
    if !HasCommand(payload, SubmitCommand()) {
      return Err(NotThisRequest);
    }
    var offset := COMMAND;
    var timeout := ReadUint32(payload, offset);
    if timeout.Err? {
      return Err(timeout.error);
    }
    offset := offset + 4;
    var count := ReadUint32(payload, offset);
    if count.Err? {
      return Err(count.error);
    }
    offset := offset + 4;
    if count.value > (|payload| - offset) / 4 {
      return Err(TooManyArguments);
    }
    var argv := DecodeArguments(payload, offset, count.value);
    if argv.Err? {
      return Err(argv.error);
    }
    r := Ok(JobSpec(argv.value, if timeout.value == 0 then None else Some(timeout.value)));
  }

  method DecodeArguments(payload: Bytes, start: nat, count: nat) returns (r: Result<seq<Bytes>>)
    requires start <= |payload|
    ensures r == ReadArguments(payload[start..], count)
  {
    var offset := start;
    var argv: seq<Bytes> := [];
    ghost var whole := ReadArguments(payload[offset..], count);
    PrependTwice([], [], whole);
    for index := 0 to count
      invariant start <= offset <= |payload|
      invariant whole == Prepend(argv, ReadArguments(payload[offset..], count - index))
    {
      var rest := payload[offset..];
      var size := ReadUint32(payload, offset);
      if size.Err? {
        return Err(size.error);
      }
      assert payload[offset..offset + 4] == rest[..4];
      offset := offset + 4;
      if size.value > |payload| - offset {
        return Err(ArgumentTruncated);
      }
      assert payload[offset..offset + size.value] == rest[4..4 + size.value];
      PrependTwice(argv, [payload[offset..offset + size.value]], ReadArguments(rest[4 + size.value..], count - index - 1));
      argv := argv + [payload[offset..offset + size.value]];
      offset := offset + size.value;
      assert payload[offset..] == rest[4 + size.value..];
    }
    if offset != |payload| {
      return Err(TrailingBytes);
    }
    assert argv + [] == argv;
    r := Ok(argv);
  }

  // ----- STATUS and CANCEL -----

  function IdPayload(command: Bytes, id: JobId): Bytes {
    command + BigEndian(id, 8)
  }

  /** The id in a STATUS or CANCEL payload. */
  function IdOf(payload: Bytes, command: Bytes): Result<JobId>
    requires |command| == COMMAND
  {
    if !HasCommand(payload, command) then Err(NotThisRequest)
    else if |payload| != COMMAND + 8 then Err(WrongSize)
    else if Value(payload[COMMAND..]) == 0 then Err(ZeroId)
    else Ok(Value(payload[COMMAND..]))
  }

  /** Every id in 1..2^64-1 has exactly one payload per command. */
  lemma IdIsBijective(payload: Bytes, command: Bytes, id: JobId)
    requires |command| == COMMAND
    ensures IdOf(payload, command) == Ok(id) <==> 0 < id < JOB_ID_SPACE && payload == IdPayload(command, id)
  {
    Pow8();
    if IdOf(payload, command) == Ok(id) {
      ValueBound(payload[COMMAND..]);
      BigEndianOfValue(payload[COMMAND..]);
      assert payload == payload[..COMMAND] + payload[COMMAND..];
    }
    if 0 < id < JOB_ID_SPACE && payload == IdPayload(command, id) {
      ValueOfBigEndian(id, 8);
      assert payload[..COMMAND] == command && payload[COMMAND..] == BigEndian(id, 8);
    }
  }

  method EncodeIdRequest(command: Bytes, id: JobId) returns (r: Result<Bytes>)
    requires |command| == COMMAND && id < JOB_ID_SPACE
    ensures r == if id == 0 then Err(ZeroId) else Ok(IdPayload(command, id))
  {
    if id == 0 {
      return Err(ZeroId);
    }
    var payload := AppendJobId(command, id);
    r := Ok(payload);
  }

  method DecodeIdRequest(payload: Bytes, command: Bytes) returns (r: Result<JobId>)
    requires |command| == COMMAND
    ensures r == IdOf(payload, command)
  {
    if !HasCommand(payload, command) {
      return Err(NotThisRequest);
    }
    if |payload| != COMMAND + 8 {
      return Err(WrongSize);
    }
    var id := ReadJobId(payload, COMMAND);
    if id == 0 {
      return Err(ZeroId);
    }
    r := Ok(id);
  }
}
