/** Cutting a byte stream into packets. The builder takes the stream in pieces of any size and keeps
    what it has of the current packet. */
module Framing {
  import opened Packets
  import opened Vbi

  datatype PacketData = Normal(bytes: seq<Byte>) | PublishData(bytes: seq<Byte>)

  datatype RawPacket = RawPacket(fixedHeader: Byte, data: PacketData)

  function PacketType(p: RawPacket): nat { p.fixedHeader / 16 }

  datatype BuildResult = Complete(packet: RawPacket) | InProgress | Failed

  datatype ReadState = FixedHeader | RemainingLength | Payload

  datatype Builder = Builder(
    state: ReadState, header: seq<Byte>, remaining: nat, multiplier: nat, raw: Option<seq<Byte>>, offset: nat)

  const FRESH: Builder := Builder(FixedHeader, [], 0, 1, None, 0)

  /** The longest body `feed` lets through: a fourth length byte is refused. */
  const BODY_LIMIT: nat := 128 * 128 * 128

  function Raw(header: Byte, body: seq<Byte>): RawPacket {
    RawPacket(header, if header / 16 == 3 then PublishData(body) else Normal(body))
  }

  // ---------------------------------------------------------------- one byte at a time

  datatype Pushed = Pushed(b: Builder, out: BuildResult)

  datatype Fed = Fed(b: Builder, out: BuildResult, used: nat)

  datatype Ran = Ran(b: Builder, outs: seq<BuildResult>)

  /** What the builder makes of one more byte. */
  function Push(b: Builder, x: Byte): Pushed {
    match b.state
    case FixedHeader => Pushed(b.(header := b.header + [x], state := RemainingLength), InProgress)
    case RemainingLength =>
      var b1 := b.(header := b.header + [x], remaining := b.remaining + x % 128 * b.multiplier,
          multiplier := b.multiplier * 128);
      if b1.multiplier > BODY_LIMIT then Pushed(FRESH, Failed)
      else if x >= 128 then Pushed(b1, InProgress)
      else if b1.remaining == 0 then Pushed(FRESH, Complete(Raw(b1.header[0], [])))
      else Pushed(b1.(raw := Some([]), offset := 0, state := Payload), InProgress)
    case Payload =>
      var body := (if b.raw.Some? then b.raw.value else []) + [x];
      if b.remaining <= 1 then Pushed(FRESH, Complete(Raw(if b.header == [] then 0 else b.header[0], body)))
      else Pushed(b.(raw := Some(body), offset := b.offset + 1, remaining := b.remaining - 1), InProgress)
  }

  /** What one call of `feed` does with the bytes `s`: the new state, the result and how far it read. */
  function Next(b: Builder, s: seq<Byte>): (r: Fed)
    ensures r.used <= |s|
    decreases |s|
  {
    if s == [] then Fed(b, InProgress, 0)
    else
      var p := Push(b, s[0]);
      if !p.out.InProgress? then Fed(p.b, p.out, 1)
      else
        var n := Next(p.b, s[1..]);
        n.(used := n.used + 1)
  }

  function Results(out: BuildResult): seq<BuildResult> { if out.InProgress? then [] else [out] }

  /** All results of a stream taken one byte at a time. */
  function Bytewise(b: Builder, s: seq<Byte>): Ran
    decreases |s|
  {
    if s == [] then Ran(b, [])
    else
      var p := Push(b, s[0]);
      var r := Bytewise(p.b, s[1..]);
      Ran(r.b, Results(p.out) + r.outs)
  }

  function Flatten(chunks: seq<seq<Byte>>): seq<Byte> {
    if chunks == [] then [] else chunks[0] + Flatten(chunks[1..])
  }

  lemma {:induction false} BytewiseAppend(b: Builder, s: seq<Byte>, t: seq<Byte>)
    ensures Bytewise(b, s + t) ==
      var r := Bytewise(b, s); var q := Bytewise(r.b, t); Ran(q.b, r.outs + q.outs)
    decreases |s|
  {
    hide Push, Results;
    if s == [] {
      assert s + t == t;
    } else {
      assert (s + t)[1..] == s[1..] + t;
      BytewiseAppend(Push(b, s[0]).b, s[1..], t);
    }
  }

  lemma {:induction false} NextIsPrefix(b: Builder, s: seq<Byte>)
    ensures var n := Next(b, s);
      && Bytewise(b, s[..n.used]) == Ran(n.b, Results(n.out))
      && (n.out.InProgress? ==> n.used == |s|) && (s != [] ==> n.used > 0)
    decreases |s|
  {
    hide Push;
    var n := Next(b, s);
    var seen := s[..n.used];
    if s != [] {
      var p := Push(b, s[0]);
      if p.out.InProgress? {
        NextIsPrefix(p.b, s[1..]);
        assert seen[1..] == s[1..][..n.used - 1];
      } else {
        assert seen == [s[0]] && seen[1..] == [];
      }
    }
  }

  // ---------------------------------------------------------------- the builder

  /** A read position in a buffer. */
  class Cursor {
    const data: seq<Byte>
    var pos: nat

    ghost predicate Valid() reads this { pos <= |data| }

    constructor (data: seq<Byte>)
      ensures Valid() && this.data == data && pos == 0
    {
      this.data, pos := data, 0;
    }

    /** Reads one byte, or nothing if there is none. */
    method ReadByte() returns (r: Option<Byte>)
      requires Valid()
      modifies this
      ensures Valid()
      ensures old(pos) < |data| ==> r == Some(data[old(pos)]) && pos == old(pos) + 1
      ensures old(pos) == |data| ==> r == None && pos == old(pos)
    {
      if pos < |data| {
        r := Some(data[pos]);
        pos := pos + 1;
      } else {
        r := None;
      }
    }

    /** Reads at most `n` bytes. */
    method Read(n: nat) returns (r: seq<Byte>)
      requires Valid()
      modifies this
      ensures Valid()
      ensures pos == if old(pos) + n <= |data| then old(pos) + n else |data|
      ensures r == data[old(pos)..pos]
    {
      var end := if pos + n <= |data| then pos + n else |data|;
      r := data[pos..end];
      pos := end;
    }
  }

  /** What holds of the builder between calls. */
  ghost predicate Wf(b: Builder) {
    match b.state
    case FixedHeader => b == FRESH
    case RemainingLength =>
      && 1 <= |b.header| <= 4 && b.raw.None? && b.offset == 0
      && b.multiplier == Pow128(|b.header| - 1) && b.remaining == Value(b.header[1..])
      && forall k :: 1 <= k < |b.header| ==> b.header[k] >= 128
    case Payload =>
      && 2 <= |b.header| <= 4 && b.multiplier == Pow128(|b.header| - 1)
      && (forall k :: 1 <= k < |b.header| - 1 ==> b.header[k] >= 128) && b.header[|b.header| - 1] < 128
      && b.raw.Some? && b.offset == |b.raw.value| && b.remaining > 0
      && b.remaining + b.offset == Value(b.header[1..])
  }

  lemma LengthValue(d: seq<Byte>, x: Byte)
    requires |d| <= 3
    ensures Value(d + [x]) == Value(d) + x % 128 * Pow128(|d|)
    ensures Pow128(|d| + 1) == Pow128(|d|) * 128 && (|d| < 3 <==> Pow128(|d| + 1) <= BODY_LIMIT)
  {
    ValueAppend(d, x);
    assert Pow128(|d|) * (x % 128) == (x % 128) * Pow128(|d|);
    PowTable();
    hide Value, Pow128;
  }

  lemma LengthKeeps(b: Builder, x: Byte)
    requires Wf(b) && b.state.RemainingLength?
    ensures Wf(Push(b, x).b)
  {
    var h := b.header + [x];
    assert h[1..] == b.header[1..] + [x];
    LengthValue(b.header[1..], x);
    hide Value, Pow128;
  }

  lemma PushKeeps(b: Builder, x: Byte)
    requires Wf(b)
    ensures Wf(Push(b, x).b)
  {
    PowTable();
    match b.state {
      case FixedHeader => assert [x][1..] == [];
      case RemainingLength => LengthKeeps(b, x);
      case Payload =>
    }
  }

  lemma WfMeans(b: Builder)
    requires Wf(b)
    ensures !b.state.FixedHeader? ==> b.header != []
    ensures b.state.Payload? ==> b.raw.Some? && b.remaining > 0
    ensures Wf(FRESH)
  {
  }

  class PacketBuilder {
    var state: ReadState
    var headerBuf: seq<Byte>
    var remainingLength: nat
    var multiplier: nat
    var rawBuf: Option<seq<Byte>>
    var rawBufOffset: nat

    ghost function View(): Builder reads this {
      Builder(state, headerBuf, remainingLength, multiplier, rawBuf, rawBufOffset)
    }

    constructor ()
      ensures View() == FRESH
    {
      state, headerBuf, remainingLength, multiplier, rawBuf, rawBufOffset := FixedHeader, [], 0, 1, None, 0;
    }

    method Reset()
      modifies this
      ensures View() == FRESH
    {
      state, headerBuf, remainingLength, multiplier, rawBuf, rawBufOffset := FixedHeader, [], 0, 1, None, 0;
    }

    method IsPublishPacket() returns (r: bool)
      ensures r <==> headerBuf != [] && headerBuf[0] / 16 == 3
    {
      var first := if headerBuf != [] then headerBuf[0] else 0;
      r := first / 16 == 3;
    }

    /** The `FixedHeader` and `RemainingLength` arms of `feed`, once a byte is read. */
    method TakeHeaderByte(x: Byte) returns (r: BuildResult)
      requires Wf(View()) && !state.Payload?
      modifies this
      ensures Wf(View()) && Pushed(View(), r) == Push(old(View()), x)
    {
      PushKeeps(View(), x);
      WfMeans(View());
      hide Wf;
      headerBuf := headerBuf + [x];
      if state.FixedHeader? {
        state := RemainingLength;
        return InProgress;
      }
      remainingLength := remainingLength + x % 128 * multiplier;
      multiplier := multiplier * 128;
      if multiplier > 128 * 128 * 128 {
        Reset();
        return Failed;
      }
      if x >= 128 { return InProgress; }
      if remainingLength == 0 {
        var first := headerBuf[0];
        var publish := IsPublishPacket();
        Reset();
        return Complete(RawPacket(first, if publish then PublishData([]) else Normal([])));
      }
      rawBuf := Some([]);
      rawBufOffset := 0;
      state := Payload;
      return InProgress;
    }

    /** The `Payload` arm of `feed`, once `bytes` are read. */
    method TakeBody(bytes: seq<Byte>) returns (r: BuildResult)
      requires Wf(View()) && state.Payload? && 0 < |bytes| <= remainingLength
      modifies this
      ensures Wf(View()) && Fed(View(), r, |bytes|) == Next(old(View()), bytes)
    {
      Fills(View(), bytes, |bytes|);
      WfMeans(View());
      hide Wf, Next, Push;
      assert bytes[..|bytes|] == bytes;
      rawBuf := Some(rawBuf.value + bytes);
      rawBufOffset := rawBufOffset + |bytes|;
      remainingLength := remainingLength - |bytes|;
      if remainingLength == 0 {
        var body := rawBuf.value;
        var first := headerBuf[0];
        var publish := IsPublishPacket();
        Reset();
        return Complete(RawPacket(first, if publish then PublishData(body) else Normal(body)));
      }
      return InProgress;
    }

    /** The `Payload` arm of `feed`. */
    method ReadBody(data: Cursor) returns (r: BuildResult)
      requires data.Valid() && Wf(View()) && state.Payload?
      modifies this, data
      ensures data.Valid() && Wf(View()) && old(data.pos) <= data.pos
      ensures Fed(View(), r, data.pos - old(data.pos)) == Next(old(View()), data.data[old(data.pos)..])
    {
      WfMeans(View());
      ghost var here, rest := View(), data.data[data.pos..];
      var available := |data.data| - data.pos;
      var toRead := if remainingLength < available then remainingLength else available;
      if toRead == 0 {
        assert rest == [];
        return InProgress;
      }
      BodyNext(here, rest, toRead);
      hide Next, Wf, Push;
      var bytes := data.Read(toRead);
      assert bytes == rest[..toRead];
      r := TakeBody(bytes);
    }

    /** Reads until a packet is complete or broken, or the data is used up. */
    method Feed(data: Cursor) returns (r: BuildResult)
      requires data.Valid() && Wf(View())
      modifies this, data
      ensures data.Valid() && Wf(View()) && old(data.pos) <= data.pos
      ensures Fed(View(), r, data.pos - old(data.pos)) == Next(old(View()), data.data[old(data.pos)..])
    {
      ghost var start, b0 := data.pos, View();
      ghost var all := data.data[start..];
      if data.pos == |data.data| { return InProgress; }
      Start(b0, all);
      hide Next, Resumes, Wf, Push;
      while true
        invariant data.Valid() && start <= data.pos && Wf(View())
        invariant Resumes(b0, all, View(), data.pos - start)
        decreases |data.data| - data.pos
      {
        ghost var here, at := View(), data.pos - start;
        if state.Payload? {
          Resumed(b0, all, here, at);
          assert all[at..] == data.data[data.pos..];
          r := ReadBody(data);
          return;
        }
        var byte := data.ReadByte();
        if byte.None? {
          NextAtEnd(b0, all, here);
          return InProgress;
        }
        r := TakeHeaderByte(byte.value);
        OneMore(b0, all, here, at);
        if !r.InProgress? { return; }
      }
    }

    /** Feeds one piece of the stream until it is used up. */
    method FeedChunk(chunk: seq<Byte>) returns (results: seq<BuildResult>)
      requires Wf(View())
      modifies this
      ensures Wf(View()) && Ran(View(), results) == Bytewise(old(View()), chunk)
    {
      var data := new Cursor(chunk);
      results := [];
      ghost var b0 := View();
      assert chunk[..0] == [] && Bytewise(b0, []) == Ran(b0, []);
      hide Next, Bytewise, Push, Wf;
      while data.pos < |chunk|
        invariant fresh(data) && data.Valid() && data.data == chunk && Wf(View())
        invariant Ran(View(), results) == Bytewise(b0, chunk[..data.pos])
        decreases |chunk| - data.pos
      {
        ghost var p, b := data.pos, View();
        var r := this.Feed(data);
        ChunkStep(b0, b, chunk, p, results);
        results := results + (if r.InProgress? then [] else [r]);
      }
      assert chunk[..|chunk|] == chunk;
    }

    /** However the stream is cut, the results and the final state are those of one byte at a time. */
    method FeedChunks(chunks: seq<seq<Byte>>) returns (results: seq<BuildResult>)
      requires Wf(View())
      modifies this
      ensures Wf(View()) && Ran(View(), results) == Bytewise(old(View()), Flatten(chunks))
    {
      results := [];
      ghost var b0 := View();
      assert Flatten(chunks[..0]) == [];
      for i := 0 to |chunks|
        invariant Wf(View()) && Ran(View(), results) == Bytewise(b0, Flatten(chunks[..i]))
      {
        FlattenLast(chunks[..i], chunks[i]);
        assert chunks[..i] + [chunks[i]] == chunks[..i + 1];
        BytewiseAppend(b0, Flatten(chunks[..i]), chunks[i]);
        var more := FeedChunk(chunks[i]);
        results := results + more;
      }
      assert chunks[..|chunks|] == chunks;
    }
  }

  /** One call of `feed` inside a chunk. */
  lemma ChunkStep(b0: Builder, b: Builder, chunk: seq<Byte>, p: nat, results: seq<BuildResult>)
    requires p < |chunk| && Ran(b, results) == Bytewise(b0, chunk[..p])
    ensures var n := Next(b, chunk[p..]);
      && 0 < n.used <= |chunk| - p && Ran(n.b, results + Results(n.out)) == Bytewise(b0, chunk[..p + n.used])
  {
    var n := Next(b, chunk[p..]);
    NextIsPrefix(b, chunk[p..]);
    hide Next, Bytewise;
    BytewiseAppend(b0, chunk[..p], chunk[p..][..n.used]);
    assert chunk[..p] + chunk[p..][..n.used] == chunk[..p + n.used];
  }

  lemma {:induction false} FlattenLast(chunks: seq<seq<Byte>>, c: seq<Byte>)
    ensures Flatten(chunks + [c]) == Flatten(chunks) + c
  {
    if chunks == [] {
      assert chunks + [c] == [c] && Flatten([c][1..]) == [];
    } else {
      assert (chunks + [c])[1..] == chunks[1..] + [c];
      FlattenLast(chunks[1..], c);
    }
  }

  /** After `n` bytes of `all` without a result, the builder is in state `b`. */
  ghost predicate Resumes(b0: Builder, all: seq<Byte>, b: Builder, n: nat) {
    n <= |all| && Next(b0, all) == Further(Next(b, all[n..]), n)
  }

  function Further(f: Fed, n: nat): Fed { f.(used := f.used + n) }

  lemma NextAtEnd(b0: Builder, all: seq<Byte>, b: Builder)
    requires Resumes(b0, all, b, |all|)
    ensures Next(b0, all) == Fed(b, InProgress, |all|)
  {
    assert all[|all|..] == [];
  }

  lemma OneMore(b0: Builder, all: seq<Byte>, b: Builder, n: nat)
    requires Resumes(b0, all, b, n) && n < |all|
    ensures var p := Push(b, all[n]);
      if p.out.InProgress? then Resumes(b0, all, p.b, n + 1) else Next(b0, all) == Fed(p.b, p.out, n + 1)
  {
    hide Push;
    assert all[n..][1..] == all[n + 1..];
  }

  lemma Start(b0: Builder, all: seq<Byte>)
    ensures Resumes(b0, all, b0, 0)
  {
    assert all[0..] == all;
  }

  lemma Resumed(b0: Builder, all: seq<Byte>, b: Builder, n: nat)
    requires Resumes(b0, all, b, n)
    ensures Next(b0, all) == Further(Next(b, all[n..]), n)
  {
  }

  /** Past the body the rest of the data is not looked at. */
  lemma BodyNext(b: Builder, s: seq<Byte>, n: nat)
    requires Wf(b) && b.state.Payload?
    requires 0 < n <= |s| && n <= b.remaining && (n < b.remaining ==> n == |s|)
    ensures Next(b, s) == Next(b, s[..n])
  {
    Fills(b, s, n);
    Fills(b, s[..n], n);
    assert s[..n][..n] == s[..n];
    hide Next, Push, Wf;
  }

  /** Reading a stretch of the body at once is reading it byte by byte. */
  lemma {:induction false} Fills(b: Builder, s: seq<Byte>, n: nat)
    requires Wf(b) && b.state.Payload? && 0 < n <= |s| && n <= b.remaining && (n < b.remaining ==> n == |s|)
    ensures Next(b, s) ==
      var body := b.raw.value + s[..n];
      if n == b.remaining then Fed(FRESH, Complete(Raw(b.header[0], body)), n)
      else Fed(b.(raw := Some(body), offset := b.offset + n, remaining := b.remaining - n), InProgress, n)
    ensures Wf(Next(b, s).b)
    decreases n
  {
    hide Value, Pow128;
    var b1 := Push(b, s[0]).b;
    PushKeeps(b, s[0]);
    if b.remaining > 1 {
      if n > 1 {
        Fills(b1, s[1..], n - 1);
        assert b.raw.value + [s[0]] + s[1..][..n - 1] == b.raw.value + s[..n];
      } else {
        assert s[1..] == [];
        assert b.raw.value + [s[0]] == b.raw.value + s[..1];
      }
    } else {
      assert b.raw.value + [s[0]] == b.raw.value + s[..1];
    }
  }

  // ---------------------------------------------------------------- a simple frame parser

  datatype Head = Wait | Take(out: BuildResult, used: nat)

  /** The packet at the start of a stream: a header byte, a length of at most three bytes, the body. */
  function First(s: seq<Byte>): (h: Head)
    ensures h.Take? ==> 0 < h.used <= |s| && !h.out.InProgress?
  {
    if s == [] then Wait
    else match Decode(s[1..], 3)
      case Incomplete => Wait
      case Malformed => if |s| < 5 then Wait else Take(Failed, 5)
      case Ok(n, k) =>
        if |s| < 1 + k + n then Wait else Take(Complete(Raw(s[0], s[1 + k..1 + k + n])), 1 + k + n)
  }

  datatype Parsed = Parsed(outs: seq<BuildResult>, rest: seq<Byte>)

  /** All packets of a stream, and the unfinished one at its end. */
  function Frames(s: seq<Byte>): Parsed
    decreases |s|
  {
    match First(s)
    case Wait => Parsed([], s)
    case Take(out, n) =>
      var more := Frames(s[n..]);
      Parsed([out] + more.outs, more.rest)
  }

  /** The builder that holds exactly the bytes of an unfinished packet. */
  function Partial(s: seq<Byte>): Builder {
    if s == [] then FRESH
    else match Decode(s[1..], 3)
      case Ok(n, k) =>
        var have := |s| - 1 - k;
        Builder(Payload, s[..1 + k], if have <= n then n - have else 0, Pow128(k), Some(s[1 + k..]), have)
      case _ => Builder(RemainingLength, s, Value(s[1..]), Pow128(|s| - 1), None, 0)
  }

  lemma LeadAppend(s: seq<Byte>, t: seq<Byte>)
    ensures Lead(s + t) == if Lead(s) < |s| then Lead(s) else |s| + Lead(t)
  {
    LeadBounds(s);
    LeadBounds(t);
    LeadIs(s + t, if Lead(s) < |s| then Lead(s) else |s| + Lead(t));
  }

  lemma DecodeAppend(s: seq<Byte>, t: seq<Byte>, limit: nat)
    requires !Decode(s, limit).Incomplete?
    ensures Decode(s + t, limit) == Decode(s, limit)
  {
    LeadAppend(s, t);
    if Lead(s) < |s| { assert (s + t)[..Lead(s) + 1] == s[..Lead(s) + 1]; }
  }

  lemma FirstStable(s: seq<Byte>, t: seq<Byte>)
    requires First(s).Take?
    ensures First(s + t) == First(s)
  {
    assert (s + t)[1..] == s[1..] + t;
    DecodeAppend(s[1..], t, 3);
    hide Decode;
    match Decode(s[1..], 3) {
      case Ok(n, k) => assert (s + t)[1 + k..1 + k + n] == s[1 + k..1 + k + n];
      case _ =>
    }
  }

  lemma {:induction false} FramesAppend(s: seq<Byte>, t: seq<Byte>)
    ensures var p := Frames(s);
      var q := Frames(p.rest + t);
      First(p.rest).Wait? && Frames(s + t) == Parsed(p.outs + q.outs, q.rest)
    decreases |s|
  {
    hide First, Frames;
    FramesStep(s);
    FramesStep(s + t);
    match First(s) {
      case Wait =>
        var q := Frames(s + t);
        assert [] + q.outs == q.outs;
      case Take(out, n) =>
        FirstStable(s, t);
        FramesAppend(s[n..], t);
        assert (s + t)[n..] == s[n..] + t;
        var p := Frames(s[n..]);
        var q := Frames(p.rest + t);
        assert [out] + (p.outs + q.outs) == [out] + p.outs + q.outs;
    }
  }

  lemma FramesStep(s: seq<Byte>)
    ensures First(s).Wait? ==> Frames(s) == Parsed([], s)
    ensures First(s).Take? ==>
      var more := Frames(s[First(s).used..]); Frames(s) == Parsed([First(s).out] + more.outs, more.rest)
  {
    hide First;
  }

  lemma DecodeNext(d: seq<Byte>, x: Byte)
    requires !Decode(d, 3).Ok? && |d| <= 3
    ensures Decode(d + [x], 3) ==
      if |d| == 3 || (|d| == 2 && x >= 128) then Malformed
      else if x >= 128 then Incomplete else Ok(Value(d + [x]), |d| + 1)
  {
    LeadAppend(d, [x]);
    assert Lead([x]) == if x >= 128 then 1 else 0;
    assert (d + [x])[..|d| + 1] == d + [x];
  }

  /** A length byte either ends the length or asks for more. */
  lemma PendingLength(s: seq<Byte>, x: Byte)
    requires s != [] && !Decode(s[1..], 3).Ok? && |s| <= 4
    ensures var p := Push(Partial(s), x);
      match First(s + [x]) {
        case Wait => p == Pushed(Partial(s + [x]), InProgress)
        case Take(out, used) => p == Pushed(FRESH, out) && used == |s| + 1
      }
  {
    var d, t := s[1..], s + [x];
    assert t[1..] == d + [x];
    DecodeNext(d, x);
    LengthValue(d, x);
    hide Decode, Value, Pow128;
    if |s| < 4 && x < 128 {
      assert t[1 + |s|..] == [] && t[..1 + |s|] == t;
    }
  }

  /** The builder state is exactly the unfinished packet. */
  lemma PendingPush(s: seq<Byte>, x: Byte)
    requires First(s).Wait?
    ensures var p := Push(Partial(s), x);
      match First(s + [x]) {
        case Wait => p == Pushed(Partial(s + [x]), InProgress)
        case Take(out, used) => p == Pushed(FRESH, out) && used == |s| + 1
      }
  {
    if s == [] {
      assert s + [x] == [x] && [x][1..] == [];
      assert Decode([x][1..], 3).Incomplete?;
    } else if Decode(s[1..], 3).Ok? {
      assert var p := Push(Partial(s), x);
        match First(s + [x]) {
        case Wait => p == Pushed(Partial(s + [x]), InProgress)
        case Take(out, used) => p == Pushed(FRESH, out) && used == |s| + 1
        } by {
        var t := s + [x];
        assert t[1..] == s[1..] + [x];
        DecodeAppend(s[1..], [x], 3);
        assert Decode(s[1..], 3).used <= |s[1..]|;
        hide Decode, Pow128;
        var k := Decode(s[1..], 3).used;
        var n := Decode(s[1..], 3).value;
        assert t[..1 + k] == s[..1 + k];
        assert t[1 + k..] == s[1 + k..] + [x];
        assert 1 + k + n == |t| ==> t[1 + k..1 + k + n] == t[1 + k..];
      }
    } else {
      PendingLength(s, x);
    }
  }

  /** Taking any stream byte by byte gives the packets of the simple parser, and the builder is left
      with the unfinished packet and nothing else. */
  lemma {:induction false} BytewiseIsFrames(s: seq<Byte>)
    ensures Bytewise(FRESH, s) == Ran(Partial(Frames(s).rest), Frames(s).outs)
    decreases |s|
  {
    if s != [] {
      var n := |s| - 1;
      var init, x := s[..n], s[n];
      assert s == init + [x];
      BytewiseIsFrames(init);
      BytewiseAppend(FRESH, init, [x]);
      FramesAppend(init, [x]);
      var rest := Frames(init).rest;
      PendingPush(rest, x);
      assert Bytewise(Partial(rest), [x]) == Ran(Push(Partial(rest), x).b, Results(Push(Partial(rest), x).out)) by {
        assert [x][1..] == [];
      }
      var t := rest + [x];
      assert Frames(t) == match First(t) { case Wait => Parsed([], t) case Take(out, _) => Parsed([out], []) } by {
        if First(t).Take? { assert t[|t|..] == []; }
      }
      assert Partial([]) == FRESH;
    }
    hide Push, First, Partial, Frames;
  }

  /** How a stream is cut does not matter: the packets of the simple parser come out. */
  method Receive(chunks: seq<seq<Byte>>) returns (results: seq<BuildResult>)
    ensures results == Frames(Flatten(chunks)).outs
  {
    var b := new PacketBuilder();
    results := b.FeedChunks(chunks);
    BytewiseIsFrames(Flatten(chunks));
  }

  // ---------------------------------------------------------------- streams of printed packets

  datatype Frame = Frame(header: Byte, body: seq<Byte>)

  function Print(f: Frame): seq<Byte> { [f.header] + Encode(|f.body|) + f.body }

  function PrintAll(fs: seq<Frame>): seq<Byte> {
    if fs == [] then [] else Print(fs[0]) + PrintAll(fs[1..])
  }

  ghost predicate Framable(fs: seq<Frame>) { forall k :: 0 <= k < |fs| ==> |fs[k].body| < BODY_LIMIT }

  lemma PrintReads(f: Frame, rest: seq<Byte>)
    requires |f.body| < BODY_LIMIT
    ensures First(Print(f) + rest) == Take(Complete(Raw(f.header, f.body)), |Print(f)|)
  {
    var n, e := |f.body|, Encode(|f.body|);
    var s := Print(f) + rest;
    assert s[1..] == e + (f.body + rest);
    EncodeSize(n);
    RoundTrip(n, f.body + rest, 3);
    assert s[1 + |e|..1 + |e| + n] == f.body;
  }

  /** A body of 128^3 bytes or more can be printed but not read back. */
  lemma LongBodyRefused(f: Frame, rest: seq<Byte>)
    requires BODY_LIMIT <= |f.body| <= MAX_REMAINING
    ensures First(Print(f) + rest) == Take(Failed, 5)
  {
    var e := Encode(|f.body|);
    var s := Print(f) + rest;
    assert s[1..] == e + (f.body + rest);
    EncodeSize(|f.body|);
    EncodeMeans(|f.body|);
    LeadBounds(e);
    LeadAppend(e, f.body + rest);
  }

  /** Every printed stream reads back as the packets that were printed, in order, and nothing is left. */
  lemma {:induction false} StreamRoundTrip(fs: seq<Frame>)
    requires Framable(fs)
    ensures var p := Frames(PrintAll(fs));
      p.rest == [] && p.outs == seq(|fs|, i requires 0 <= i < |fs| => Complete(Raw(fs[i].header, fs[i].body)))
    decreases |fs|
  {
    if fs != [] {
      PrintReads(fs[0], PrintAll(fs[1..]));
      assert PrintAll(fs)[|Print(fs[0])|..] == PrintAll(fs[1..]);
      StreamRoundTrip(fs[1..]);
    }
  }

  /** Whatever the builder holds, a packet that completes has the publish form exactly if its type is 3. */
  lemma {:induction false} NextDataKind(b: Builder, s: seq<Byte>)
    ensures var out := Next(b, s).out;
      out.Complete? ==> (out.packet.data.PublishData? <==> PacketType(out.packet) == 3)
    decreases |s|
  {
    if s != [] { NextDataKind(Push(b, s[0]).b, s[1..]); }
  }

  /** The publish form of the data is used exactly for packet type 3. */
  lemma {:induction false} PublishDataIsType3(s: seq<Byte>, k: nat)
    requires k < |Frames(s).outs| && Frames(s).outs[k].Complete?
    ensures Frames(s).outs[k].packet.data.PublishData? <==> PacketType(Frames(s).outs[k].packet) == 3
    decreases |s|
  {
    if k > 0 { PublishDataIsType3(s[First(s).used..], k - 1); }
  }
}
