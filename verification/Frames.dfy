/** Length-prefixed frames and their incremental decoder (src/protocol.cpp). */
module Frames {
  import opened Jobs
  import opened Wire
  import opened Exceptions

  const HEADER: nat := 4

  /** One frame: four bytes of length, then the payload. */
  function Frame(payload: Bytes): Bytes
    requires |payload| <= MAX_FRAME
  {
    U32(|payload|) + payload
  }

  method EncodeFrame(payload: Bytes) returns (r: Outcome, frame: Bytes)
    ensures r == if |payload| <= 65536 then Done else Threw(LengthError)
    ensures r.Done? ==> frame == Frame(payload)
  {
    if |payload| > MAX_FRAME {
      return Threw(LengthError), [];
    }
    return Done, U32(|payload|) + payload;
  }

  predicate Fits(payloads: seq<Bytes>) {
    forall i | 0 <= i < |payloads| :: |payloads[i]| <= MAX_FRAME
  }

  /** The stream that carries the payloads one after the other. */
  function Stream(payloads: seq<Bytes>): Bytes
    requires Fits(payloads)
  {
    if payloads == [] then [] else Stream(payloads[..|payloads| - 1]) + Frame(payloads[|payloads| - 1])
  }

  // ----- the whole-stream parser -----

  /** The complete frames of a stream, what is left after them, and whether the rest
      declares a frame that is too long. */
  datatype Parse = Parse(frames: seq<Bytes>, rest: Bytes, bad: bool)

  predicate Oversized(s: Bytes) {
    |s| >= HEADER && Value(s[..HEADER]) > MAX_FRAME
  }

  predicate HasFirst(s: Bytes) {
    |s| >= HEADER && !Oversized(s) && |s| - HEADER >= Value(s[..HEADER])
  }

  function ParseStream(s: Bytes): Parse {
    if !HasFirst(s) then Parse([], s, Oversized(s)) else
      var n := HEADER + Value(s[..HEADER]);
      var later := ParseStream(s[n..]);
      later.(frames := [s[HEADER..n]] + later.frames)
  }

  /** Parsing undoes the concatenation of frames, whatever follows them. */
  lemma {:induction false} ParseOfStream(payloads: seq<Bytes>, rest: Bytes)
    requires Fits(payloads)
    ensures var p := ParseStream(rest);
      ParseStream(Stream(payloads) + rest) == p.(frames := payloads + p.frames)
    decreases |payloads|
  {
    hide ParseStream, Frame;
    var p := ParseStream(rest);
    if payloads == [] {
      assert Stream(payloads) + rest == rest;
      assert payloads + p.frames == p.frames;
    } else {
      var init, last := payloads[..|payloads| - 1], payloads[|payloads| - 1];
      ParseOfFrame(last, rest);
      ParseOfStream(init, Frame(last) + rest);
      assert Stream(payloads) + rest == Stream(init) + (Frame(last) + rest);
      assert payloads + p.frames == init + ([last] + p.frames);
    }
  }

  lemma ParseOfFrame(payload: Bytes, rest: Bytes)
    requires |payload| <= MAX_FRAME
    ensures var p := ParseStream(rest);
      ParseStream(Frame(payload) + rest) == p.(frames := [payload] + p.frames)
  {
    var s := Frame(payload) + rest;
    U32Inverse(|payload|, []);
    assert s[..HEADER] == U32(|payload|);
    assert s[HEADER..HEADER + |payload|] == payload;
    assert s[HEADER + |payload|..] == rest;
  }

  /** ... and concatenating the parsed frames gives the stream back. */
  lemma {:induction false} StreamOfParse(s: Bytes)
    ensures var p := ParseStream(s); Fits(p.frames) && s == Stream(p.frames) + p.rest
    decreases |s|
  {
    if HasFirst(s) {
      var n := HEADER + Value(s[..HEADER]);
      StreamOfParse(s[n..]);
      var first, later := s[HEADER..n], ParseStream(s[n..]);
      assert ParseStream(s) == later.(frames := [first] + later.frames);
      FirstFrame(s);
      hide ParseStream, Frame, Value, Stream, HasFirst;
      StreamCons(first, later.frames);
      assert s == s[..n] + s[n..];
      Regroup(Frame(first), Stream(later.frames), later.rest);
    }
  }

  lemma FirstFrame(s: Bytes)
    requires HasFirst(s)
    ensures var n := HEADER + Value(s[..HEADER]); s[..n] == Frame(s[HEADER..n])
  {
    U32Inverse(0, s[..HEADER]);
    var n := HEADER + Value(s[..HEADER]);
    assert s[..n] == s[..HEADER] + s[HEADER..n];
  }

  lemma {:induction false} StreamCons(first: Bytes, others: seq<Bytes>)
    requires |first| <= MAX_FRAME && Fits(others)
    ensures Fits([first] + others) && Stream([first] + others) == Frame(first) + Stream(others)
    decreases |others|
  {
    var all := [first] + others;
    if others == [] {
      assert all[..0] == [] && Stream(all[..0]) == [];
      assert Stream(all) == Stream(all[..0]) + Frame(all[0]);
    } else {
      StreamCons(first, others[..|others| - 1]);
      assert all[..|all| - 1] == [first] + others[..|others| - 1];
    }
  }

  lemma StreamAppend(a: seq<Bytes>, payload: Bytes)
    requires Fits(a) && |payload| <= MAX_FRAME
    ensures Fits(a + [payload]) && Stream(a + [payload]) == Stream(a) + Frame(payload)
  {
    assert (a + [payload])[..|a|] == a;
  }

  /** More input only adds frames behind those already there; an oversized header stays where it is. */
  lemma ParseExtends(a: Bytes, b: Bytes)
    ensures var p, q := ParseStream(a), ParseStream(a + b);
      if p.bad then q.frames == p.frames && q.bad
      else q == (var r := ParseStream(p.rest + b); r.(frames := p.frames + r.frames))
  {
    hide ParseStream, Stream, Oversized, HasFirst;
    var p := ParseStream(a);
    StreamOfParse(a);
    ParseOfStream(p.frames, p.rest + b);
    Regroup(Stream(p.frames), p.rest, b);
    RestHasNoFrame(a);
    if p.bad {
      BadStays(p.rest, b);
      assert p.frames + [] == p.frames;
    }
  }

  lemma BadStays(s: Bytes, b: Bytes)
    requires Oversized(s)
    ensures ParseStream(s + b) == Parse([], s + b, true)
  {
    assert (s + b)[..HEADER] == s[..HEADER];
  }

  lemma {:induction false} RestHasNoFrame(s: Bytes)
    ensures var p := ParseStream(s); !HasFirst(p.rest) && p.bad == Oversized(p.rest)
    decreases |s|
  {
    if HasFirst(s) {
      RestHasNoFrame(s[HEADER + Value(s[..HEADER])..]);
    }
  }

  // ----- the decoder -----

  class FrameDecoder {
    var buffer: Bytes
    /** Everything fed so far, and the frames taken out so far. */
    ghost var fed: Bytes
    ghost var popped: seq<Bytes>

    /** No byte is lost, duplicated or reordered. */
    ghost predicate Valid()
      reads this
    {
      Fits(popped) && fed == Stream(popped) + buffer
    }

    constructor ()
      ensures Valid() && fed == [] && popped == [] && buffer == []
    {
      buffer, fed, popped := [], [], [];
    }

    /** The frames taken out, followed by the parse of the buffer, are the parse of all bytes fed. */
    lemma Refines()
      requires Valid()
      ensures var p := ParseStream(buffer); ParseStream(fed) == p.(frames := popped + p.frames)
    {
      ParseOfStream(popped, buffer);
    }

    /** Complete the length field first and check it before anything more is copied. */
    method Feed(data: Bytes) returns (r: Outcome)
      requires Valid()
      modifies this
      ensures Valid() && popped == old(popped)
      ensures r == if |old(buffer)| < HEADER && Oversized(old(buffer) + data) && data != [] then Threw(RuntimeError) else Done
      ensures buffer == if r.Done? then old(buffer) + data else (old(buffer) + data)[..HEADER]
      ensures r.Done? ==> fed == old(fed) + data
    {
      hide Stream, Fits, Value;
      if data == [] {
        return Done;
      }
      ghost var whole := buffer + data;
      var offset := 0;
      if |buffer| < HEADER {
        offset := if |data| < HEADER - |buffer| then |data| else HEADER - |buffer|;
        buffer := buffer + data[..offset];
        fed := fed + data[..offset];
        if |buffer| < HEADER {
          assert data[..offset] == data;
          return Done;
        }
        assert buffer == whole[..HEADER] && buffer[..HEADER] == buffer;
        var checked, _ := PayloadSize();
        if checked.Threw? {
          return checked;
        }
      }
      if |data| == offset {
        assert data[..offset] == data;
        return Done;
      }
      assert whole == buffer + data[offset..];
      buffer := buffer + data[offset..];
      fed := fed + data[offset..];
      r := Done;
    }

    method PayloadSize() returns (r: Outcome, size: nat)
      ensures |buffer| < HEADER ==> r == Threw(LogicError)
      ensures |buffer| >= HEADER ==> r == (if Oversized(buffer) then Threw(RuntimeError) else Done) && size == Value(buffer[..HEADER])
    {
      if |buffer| < HEADER {
        return Threw(LogicError), 0;
      }
      size := Value(buffer[..HEADER]);
      r := if size > MAX_FRAME then Threw(RuntimeError) else Done;
    }

    method HasFrame() returns (r: Outcome, has: bool)
      ensures r == if Oversized(buffer) then Threw(RuntimeError) else Done
      ensures r.Done? ==> has == HasFirst(buffer)
    {
      if |buffer| < HEADER {
        return Done, false;
      }
      var size;
      r, size := PayloadSize();
      has := r.Done? && |buffer| - HEADER >= size;
    }

    method PopFrame() returns (r: Outcome, payload: Bytes)
      requires Valid()
      modifies this
      ensures Valid() && fed == old(fed)
      ensures r == if HasFirst(old(buffer)) then Done else Threw(RuntimeError)
      ensures r.Threw? ==> buffer == old(buffer) && popped == old(popped)
      ensures r.Done? ==> |payload| <= MAX_FRAME && old(buffer) == Frame(payload) + buffer && popped == old(popped) + [payload]
      ensures r.Done? ==> |buffer| < |old(buffer)|
    {
      var has;
      r, has := HasFrame();
      if r.Threw? || !has {
        return Threw(RuntimeError), [];
      }
      var size;
      r, size := PayloadSize();
      payload := buffer[HEADER..HEADER + size];
      FirstFrame(buffer);
      StreamAppend(popped, payload);
      assert buffer == buffer[..HEADER + size] + buffer[HEADER + size..];
      assert Stream(popped) + buffer == (Stream(popped) + Frame(payload)) + buffer[HEADER + size..];
      buffer := buffer[HEADER + size..];
      popped := popped + [payload];
    }

    /** Take out every complete frame, as the connection handler does after each `read`. */
    method PopAll() returns (r: Outcome, frames: seq<Bytes>)
      requires Valid()
      modifies this
      ensures Valid() && fed == old(fed) && popped == old(popped) + frames
      ensures var p := ParseStream(old(buffer)); frames == p.frames && buffer == p.rest && r.Threw? == p.bad
    {
      hide ParseStream, Frame, Stream, Fits, HasFirst, Oversized;
      frames := [];
      ghost var whole := ParseStream(buffer);
      var has;
      r, has := HasFrame();
      while r.Done? && has
        invariant Valid() && fed == old(fed) && popped == old(popped) + frames
        invariant r == (if Oversized(buffer) then Threw(RuntimeError) else Done) && (r.Done? ==> has == HasFirst(buffer))
        invariant whole == (var p := ParseStream(buffer); p.(frames := frames + p.frames))
        decreases |buffer|
      {
        var payload;
        r, payload := PopFrame();
        ParseOfFrame(payload, buffer);
        frames := frames + [payload];
        r, has := HasFrame();
      }
      NoFirst(buffer);
      assert frames + [] == frames;
    }
  }

  lemma NoFirst(s: Bytes)
    ensures !HasFirst(s) ==> ParseStream(s) == Parse([], s, Oversized(s))
    ensures Oversized(s) ==> !HasFirst(s)
  {
  }

  function Concat(chunks: seq<Bytes>): Bytes {
    if chunks == [] then [] else Concat(chunks[..|chunks| - 1]) + chunks[|chunks| - 1]
  }

  /** However a stream is cut into chunks, feeding and draining chunk by chunk finds exactly the
      frames of the whole stream, and fails exactly if the stream declares an oversized frame.  In
      particular any cutting of encoded frames yields the original payloads. */
  method DecodeChunks(chunks: seq<Bytes>) returns (r: Outcome, frames: seq<Bytes>)
    ensures var p := ParseStream(Concat(chunks)); frames == p.frames && r.Threw? == p.bad
    ensures forall payloads | Fits(payloads) && Concat(chunks) == Stream(payloads) :: r.Done? && frames == payloads
  {
    r, frames := FeedChunks(chunks);
    forall payloads | Fits(payloads) && Concat(chunks) == Stream(payloads)
      ensures r.Done? && frames == payloads
    {
      ParseOfStream(payloads, []);
      assert Stream(payloads) + [] == Stream(payloads);
      assert payloads + [] == payloads;
    }
  }

  method FeedChunks(chunks: seq<Bytes>) returns (r: Outcome, frames: seq<Bytes>)
    ensures var p := ParseStream(Concat(chunks)); frames == p.frames && r.Threw? == p.bad
  {
    hide ParseStream, Stream, HasFirst, Fits;
    var decoder := new FrameDecoder();
    EmptyStream();
    frames, r := [], Done;
    for i := 0 to |chunks|
      invariant decoder.Valid() && fresh(decoder) && r.Done? && frames == decoder.popped
      invariant decoder.fed == Concat(chunks[..i])
      invariant ParseStream(decoder.fed) == Parse(frames, decoder.buffer, false)
    {
      ghost var before, buffered := decoder.fed, decoder.buffer;
      assert chunks[..i + 1][..i] == chunks[..i];
      ParseExtends(before, chunks[i]);
      RestHasNoFrame(before);
      r := decoder.Feed(chunks[i]);
      if r.Threw? {
        BadStays(buffered + chunks[i], []);
        assert buffered + chunks[i] + [] == buffered + chunks[i];
        Prefixes(chunks, i + 1);
        return;
      }
      var more;
      r, more := decoder.PopAll();
      frames := frames + more;
      if r.Threw? {
        Prefixes(chunks, i + 1);
        return;
      }
    }
    assert chunks[..|chunks|] == chunks;
  }

  lemma EmptyStream()
    ensures ParseStream([]) == Parse([], [], false)
  {
  }

  /** An oversized frame in a prefix of the chunks is still there in all of them. */
  lemma {:induction false} Prefixes(chunks: seq<Bytes>, n: nat)
    requires n <= |chunks| && ParseStream(Concat(chunks[..n])).bad
    ensures var p := ParseStream(Concat(chunks)); p.bad && p.frames == ParseStream(Concat(chunks[..n])).frames
    decreases |chunks|
  {
    if n == |chunks| {
      assert chunks[..n] == chunks;
    } else {
      var init := chunks[..|chunks| - 1];
      assert init[..n] == chunks[..n];
      Prefixes(init, n);
      ParseExtends(Concat(init), chunks[|chunks| - 1]);
    }
  }
}
