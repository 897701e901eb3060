/** The reader takes back exactly the frame the muxer splits over packets. */
module FrameReading {
  import opened Wrappers
  import opened Bytes
  import opened TsPackets
  import opened TsMux
  import R = TsReader
  import opened PsiReading

  // ------------------------------------------------------------ PES header

  lemma TimestampRead(prefix: nat, ts: nat)
    requires prefix < 16 && ts < TIMESTAMP_WRAP
    ensures R.ReadTimestamp(TimestampBytes(prefix, ts), prefix) == Some(ts)
  {
    var t := TimestampBytes(prefix, ts);
    TimestampParts(ts);
    assert t[0] / 16 == prefix && t[0] % 2 == 1 && t[0] / 2 % 8 == ts / 0x4000_0000;
    assert t[2] % 2 == 1 && t[2] / 2 == ts / 0x8000 % 128;
    assert t[4] % 2 == 1 && t[4] / 2 == ts % 128;
  }

  /** The five fields a timestamp is cut into add up to it. */
  lemma TimestampParts(ts: nat)
    requires ts < TIMESTAMP_WRAP
    ensures ts / 0x4000_0000 < 8
    ensures ts == ts / 0x4000_0000 * 0x4000_0000 + ts / 0x40_0000 % 256 * 0x40_0000
                  + ts / 0x8000 % 128 * 0x8000 + ts / 0x80 % 256 * 0x80 + ts % 128
  {
    var a := ts / 0x80;
    var b := a / 256;
    var c := b / 128;
    assert ts / 0x8000 == b && ts / 0x40_0000 == c && ts / 0x4000_0000 == c / 256;
  }

  lemma HeaderRead(kind: StreamType, size: nat, pts: nat)
    requires pts < TIMESTAMP_WRAP
    ensures var h := PesHeader(kind, size, pts);
      && h[0] == 0 && h[1] == 0 && h[2] == 1
      && FromBE16(h[4], h[5]) == DeclaredLength(size)
      && h[6] / 64 == 2 && h[7] == 0x80 && h[8] == 5
      && h[9..14] == TimestampBytes(2, pts)
  {
  }

  // ------------------------------------------------------------ packets that continue a frame

  /** The frame a builder holds, completed with its whole payload. */
  function Finished(r: R.Reader, pid: nat, b: R.PesBuilder, whole: seq<byte>, counter: nat, n: nat): R.Reader {
    var complete := b.(payload := whole);
    var closes := b.declaredLength != 0;
    r.(continuity := r.continuity[pid := counter],
       index := r.index + n,
       frames := r.frames + (if closes then [R.AsFrame(pid, complete)] else []),
       builders := r.builders[pid := if closes then complete.(payload := [], open := false) else complete])
  }

  /** The declared length, when there is one, counts exactly the payload to come. */
  predicate Awaits(b: R.PesBuilder, size: nat) {
    b.open && (b.declaredLength == 0 || b.declaredLength == size + 8)
  }

  predicate Receives(r: R.Reader, pid: nat, b: R.PesBuilder) {
    pid in r.builders && r.builders[pid] == b && R.Listed(r, pid) && pid != PAT_PID && pid != r.pmtPid
  }

  /** One more stretch of a frame, short of its end or at it. */
  lemma StretchRead(r: R.Reader, p: Packet, b: R.PesBuilder, total: nat)
    requires Receives(r, p.pid, b) && Awaits(b, total)
    requires |b.payload| + |p.body| <= total && p.body != []
    requires p.hasPayload && !p.start && p.pcr.None? && p.counter < 16
    requires CounterFits(r, p.pid, p.counter)
    ensures var longer := b.(payload := b.payload + p.body);
      R.Feed(r, p) == Some(
        if |longer.payload| == total then Finished(r, p.pid, b, longer.payload, p.counter, 1)
        else Extended(r, p.pid, longer, p.counter))
  {
    var longer := b.(payload := b.payload + p.body);
    var r1 := r.(continuity := r.continuity[p.pid := p.counter]);
    var r2 := r1.(builders := r.builders[p.pid := longer]);
    assert R.ContinuePes(r1, p) == r2;
    DeclaredEnd(r2, p.pid, longer, total);
    Overwritten(r.builders, p.pid, longer, longer.(payload := [], open := false));
    PesReaches(r, p);
    hide R.FinishDeclared, R.StartPes, R.Feed;
    assert r.frames + [] == r.frames;
  }

  lemma Overwritten<K, V>(m: map<K, V>, k: K, v: V, w: V)
    ensures m[k := v][k := w] == m[k := w]
  {
  }

  /** A packet on a listed elementary stream goes to reassembly. */
  lemma PesReaches(r: R.Reader, p: Packet)
    requires R.Listed(r, p.pid) && p.pid != PAT_PID && p.pid != r.pmtPid
    requires p.hasPayload && p.counter < 16 && CounterFits(r, p.pid, p.counter)
    ensures R.Feed(r, p) ==
      var fed := R.FeedPes(R.NotePcr(r, p).(continuity := r.continuity[p.pid := p.counter]), p);
      if fed.None? then None else Some(fed.value.(index := r.index + 1))
  {
    hide R.FeedPes, R.FeedPat, R.FeedPmt;
    var r1 := R.NotePcr(r, p).(continuity := r.continuity[p.pid := p.counter]);
    assert r1.streams == r.streams;
    assert R.Listed(r1, p.pid);
  }

  lemma DeclaredEnd(r: R.Reader, pid: nat, b: R.PesBuilder, total: nat)
    requires pid in r.builders && r.builders[pid] == b && Awaits(b, total) && |b.payload| <= total
    ensures R.FinishDeclared(r, pid) == Some(
      if |b.payload| == total && b.declaredLength != 0
      then r.(frames := r.frames + [R.AsFrame(pid, b)], builders := r.builders[pid := b.(payload := [], open := false)])
      else r)
  {
    if |b.payload| == total && b.declaredLength != 0 {
      assert b.payload[..b.declaredLength - 8] == b.payload;
      assert r.builders[pid := b] == r.builders;
    }
  }

  /** The counter of the last of `n` packets. */
  function LastCounter(continuity: nat, n: nat): nat {
    (continuity + n + 15) % 16
  }

  lemma {:induction false} RestRead(r: R.Reader, pid: nat, continuity: nat, rest: seq<byte>, b: R.PesBuilder)
    requires pid < 0x2000 && rest != []
    requires Receives(r, pid, b) && Awaits(b, |b.payload| + |rest|)
    requires CounterFits(r, pid, continuity)
    ensures var ps := Split(pid, continuity, rest, None, false, false);
      R.FeedAll(r, ps) == Some(Finished(r, pid, b, b.payload + rest, LastCounter(continuity, |ps|), |ps|))
    decreases |rest|
  {
    hide R.Feed, Finished, TsMux.Split, R.Listed, Extended, R.FeedAll;
    SplitStep(pid, continuity, rest, None, false, false);
    var ps := Split(pid, continuity, rest, None, false, false);
    var n := Share(|rest|, false, None);
    var tail := Split(pid, (continuity + 1) % 256, rest[n..], None, false, false);
    StretchRead(r, ps[0], b, |b.payload| + |rest|);
    R.FeedAllStep(r, ps, R.Feed(r, ps[0]).value, tail);
    if n == |rest| {
      R.FeedAllEnd(R.Feed(r, ps[0]).value);
      SplitEnd(pid, (continuity + 1) % 256, None, false, false);
      assert rest[n..] == [] && rest[..n] == rest;
    } else {
      var longer := b.(payload := b.payload + rest[..n]);
      var r1 := Extended(r, pid, longer, continuity % 16);
      StillReceives(r, pid, b, longer, continuity % 16);
      NextCounterFits(r, pid, longer, continuity);
      assert longer.payload + rest[n..] == b.payload + rest;
      assert Awaits(longer, |longer.payload| + |rest[n..]|);
      hide Awaits, Receives, CounterFits;
      RestRead(r1, pid, (continuity + 1) % 256, rest[n..], longer);
      CounterStep(continuity, |tail|);
      FinishedLater(r, pid, b, longer, continuity % 16, b.payload + rest, LastCounter(continuity, |ps|), |tail|);
    }
  }

  lemma NextCounterFits(r: R.Reader, pid: nat, longer: R.PesBuilder, continuity: nat)
    ensures CounterFits(Extended(r, pid, longer, continuity % 16), pid, (continuity + 1) % 256)
  {
    LowBitsStep(continuity);
  }

  /** The low four bits of a counter step with it, across the 8-bit wrap. */
  lemma LowBitsStep(c: nat)
    ensures (c + 1) % 256 % 16 == (c % 16 + 1) % 16
  {
    var x := (c + 1) % 256;
    assert c + 1 == 16 * (16 * ((c + 1) / 256) + x / 16) + x % 16;
    SameResidue(c / 16, c % 16 + 1, 16 * ((c + 1) / 256) + x / 16, x % 16);
  }

  lemma SameResidue(q: nat, r: nat, p: nat, s: nat)
    requires 16 * q + r == 16 * p + s && r <= 16 && s < 16
    ensures s == r % 16
  {
  }

  /** The reader after one more stretch that does not end the frame. */
  function Extended(r: R.Reader, pid: nat, longer: R.PesBuilder, counter: nat): R.Reader {
    r.(continuity := r.continuity[pid := counter], index := r.index + 1, builders := r.builders[pid := longer])
  }

  lemma StillReceives(r: R.Reader, pid: nat, b: R.PesBuilder, longer: R.PesBuilder, counter: nat)
    requires Receives(r, pid, b)
    ensures Receives(Extended(r, pid, longer, counter), pid, longer)
    ensures Extended(r, pid, longer, counter).continuity[pid] == counter
  {
  }

  lemma FinishedLater(
      r: R.Reader, pid: nat, b: R.PesBuilder, longer: R.PesBuilder, c: nat, whole: seq<byte>, counter: nat, n: nat)
    requires longer == b.(payload := longer.payload)
    ensures Finished(Extended(r, pid, longer, c), pid, longer, whole, counter, n)
         == Finished(r, pid, b, whole, counter, n + 1)
  {
    var complete := b.(payload := whole);
    Overwritten(r.continuity, pid, c, counter);
    Overwritten(r.builders, pid, longer, complete);
    Overwritten(r.builders, pid, longer, complete.(payload := [], open := false));
  }

  lemma CounterStep(continuity: nat, n: nat)
    ensures LastCounter((continuity + 1) % 256, n) == LastCounter(continuity, n + 1)
  {
  }

  // ------------------------------------------------------------ a whole frame

  /** What reading one whole frame does. */
  function FrameRead(r: R.Reader, f: R.Frame, pcr: Option<nat>, counter: nat, n: nat): R.Reader {
    var flushed := R.Flush(r, f.pid).(
      freshPsi := false,
      pcrs := r.pcrs + (if pcr.Some? then [(r.index, pcr.value)] else []));
    Finished(flushed, f.pid, Begun(f, f.payload), f.payload, counter, n)
  }

  /** What a frame's first packet must show to be taken at all: start code, flags and every marker bit. */
  lemma HeaderChecked(r: R.Reader, p: Packet)
    ensures R.StartPes(r, p).Some? <==>
      && |p.body| >= 14
      && p.body[..3] == [0x00, 0x00, 0x01]
      && p.body[6] / 64 == 2 && p.body[7] == 0x80 && p.body[8] == 0x05
      && p.body[9] / 16 == 2 && p.body[9] % 2 == 1 && p.body[11] % 2 == 1 && p.body[13] % 2 == 1
  {
    if |p.body| >= 14 {
      assert p.body[..3] == [p.body[0], p.body[1], p.body[2]];
      assert p.body[9..14] == [p.body[9], p.body[10], p.body[11], p.body[12], p.body[13]];
    }
  }

  /** What the builder holds once frame `f` has begun with `chunk`. */
  function Begun(f: R.Frame, chunk: seq<byte>): R.PesBuilder {
    R.PesBuilder(f.pts, chunk, f.randomAccess, f.declaredLength, f.precededByPsi, true)
  }

  /** The PES header at the front of a frame, parsed. */
  lemma HeaderParsed(r: R.Reader, p: Packet, f: R.Frame, chunk: seq<byte>, kind: StreamType)
    requires p.pid == f.pid && p.randomAccess == f.randomAccess
    requires f.pts < TIMESTAMP_WRAP && f.precededByPsi == r.freshPsi && f.declaredLength == DeclaredLength(|f.payload|)
    requires p.body == PesHeader(kind, |f.payload|, f.pts) + chunk
    ensures var flushed := R.Flush(r, f.pid);
      R.StartPes(r, p) == Some(flushed.(builders := flushed.builders[f.pid := Begun(f, chunk)], freshPsi := false))
  {
    hide TsMux.PesHeader, TsMux.TimestampBytes, R.ReadTimestamp, R.Flush, FromBE16;
    HeaderRead(kind, |f.payload|, f.pts);
    TimestampRead(2, f.pts);
    var h := PesHeader(kind, |f.payload|, f.pts);
    assert p.body[14..] == chunk;
    assert forall i :: 0 <= i < 14 ==> p.body[i] == h[i];
    assert p.body[9..14] == h[9..14];
  }

  /** The packet that opens a frame. */
  lemma OpeningRead(r: R.Reader, p: Packet, f: R.Frame, chunk: seq<byte>, kind: StreamType)
    requires R.Listed(r, f.pid) && f.pid != PAT_PID && f.pid != r.pmtPid
    requires p.pid == f.pid && p.start && p.hasPayload && p.counter < 16 && p.randomAccess == f.randomAccess
    requires f.pts < TIMESTAMP_WRAP && f.precededByPsi == r.freshPsi && f.declaredLength == DeclaredLength(|f.payload|)
    requires p.body == PesHeader(kind, |f.payload|, f.pts) + chunk
    requires chunk <= f.payload && f.payload != []
    requires CounterFits(r, p.pid, p.counter)
    ensures R.Feed(r, p) == Some(
      if chunk == f.payload then FrameRead(r, f, p.pcr, p.counter, 1)
      else Opened(r, f, p.pcr, p.counter, chunk))
  {
    hide R.FinishDeclared, R.StartPes, R.Feed, TsMux.PesHeader;
    var r1 := R.NotePcr(r, p).(continuity := r.continuity[p.pid := p.counter]);
    HeaderParsed(r1, p, f, chunk, kind);
    var flushed := R.Flush(r1, p.pid);
    var b := Begun(f, chunk);
    DeclaredEnd(flushed.(builders := flushed.builders[p.pid := b], freshPsi := false), p.pid, b, |f.payload|);
    Overwritten(flushed.builders, p.pid, b, b.(payload := [], open := false));
    PesReaches(r, p);
    assert flushed.frames + [] == flushed.frames && r.pcrs + [] == r.pcrs;
  }

  /** A reader holding the beginning of frame `f`. */
  function Opened(r: R.Reader, f: R.Frame, pcr: Option<nat>, counter: nat, chunk: seq<byte>): R.Reader {
    var flushed := R.Flush(r, f.pid);
    flushed.(freshPsi := false,
             pcrs := r.pcrs + (if pcr.Some? then [(r.index, pcr.value)] else []),
             continuity := r.continuity[f.pid := counter],
             index := r.index + 1,
             builders := flushed.builders[f.pid := Begun(f, chunk)])
  }

  /** A frame split over any number of packets comes back as that frame. */
  lemma WholeFrameRead(r: R.Reader, f: R.Frame, kind: StreamType, continuity: nat, pcr: Option<nat>)
    requires f.pid < 0x2000 && f.pts < TIMESTAMP_WRAP && f.payload != []
    requires pcr.Some? ==> pcr.value < TIMESTAMP_WRAP
    requires R.Listed(r, f.pid) && f.pid != PAT_PID && f.pid != r.pmtPid
    requires f.precededByPsi == r.freshPsi && f.declaredLength == DeclaredLength(|f.payload|)
    requires CounterFits(r, f.pid, continuity)
    ensures var data := PesHeader(kind, |f.payload|, f.pts) + f.payload;
      var ps := Split(f.pid, continuity, data, pcr, f.randomAccess, true);
      && ps != []
      && R.FeedAll(r, ps) == Some(FrameRead(r, f, pcr, LastCounter(continuity, |ps|), |ps|))
  {
    hide R.Feed, TsMux.PesHeader, TsMux.Split, FrameRead, Opened, Finished, R.Listed, R.FeedAll;
    var h := PesHeader(kind, |f.payload|, f.pts);
    var data := h + f.payload;
    var ps := Split(f.pid, continuity, data, pcr, f.randomAccess, true);
    SplitStep(f.pid, continuity, data, pcr, f.randomAccess, true);
    var n := Share(|data|, f.randomAccess, pcr);
    var chunk := f.payload[..n - 14];
    assert data[..n] == h + chunk;
    assert data[n..] == f.payload[n - 14..];
    OpeningRead(r, ps[0], f, chunk, kind);
    var tail := Split(f.pid, (continuity + 1) % 256, data[n..], None, false, false);
    R.FeedAllStep(r, ps, R.Feed(r, ps[0]).value, tail);
    if n == |data| {
      R.FeedAllEnd(R.Feed(r, ps[0]).value);
      SplitEnd(f.pid, (continuity + 1) % 256, None, false, false);
      assert data[n..] == [] && chunk == f.payload;
    } else {
      assert chunk != f.payload && chunk + data[n..] == f.payload;
      LaterPackets(r, f, continuity, pcr, chunk, data[n..]);
    }
  }

  /** A frame short enough to declare its length is complete with its last packet: no waiting for the next one. */
  lemma CompleteAtOnce(r: R.Reader, f: R.Frame, kind: StreamType, continuity: nat, pcr: Option<nat>)
    requires f.pid < 0x2000 && f.pts < TIMESTAMP_WRAP && f.payload != [] && |f.payload| + 8 <= 65_535
    requires pcr.Some? ==> pcr.value < TIMESTAMP_WRAP
    requires R.Listed(r, f.pid) && f.pid != PAT_PID && f.pid != r.pmtPid
    requires f.precededByPsi == r.freshPsi && f.declaredLength == |f.payload| + 8
    requires CounterFits(r, f.pid, continuity)
    ensures var data := PesHeader(kind, |f.payload|, f.pts) + f.payload;
      var ps := Split(f.pid, continuity, data, pcr, f.randomAccess, true);
      && R.FeedAll(r, ps).Some?
      && var read := R.FeedAll(r, ps).value;
      read.frames != [] && read.frames[|read.frames| - 1] == f && !R.Builder(read, f.pid).open
  {
    hide R.FeedAll, TsMux.Split, TsMux.PesHeader, R.Flush;
    WholeFrameRead(r, f, kind, continuity, pcr);
    assert R.AsFrame(f.pid, Begun(f, f.payload)) == f;
  }

  /** The packets behind the one that opened a frame. */
  lemma LaterPackets(r: R.Reader, f: R.Frame, continuity: nat, pcr: Option<nat>, chunk: seq<byte>, rest: seq<byte>)
    requires f.pid < 0x2000 && rest != [] && chunk + rest == f.payload
    requires R.Listed(r, f.pid) && f.pid != PAT_PID && f.pid != r.pmtPid
    requires f.declaredLength == DeclaredLength(|f.payload|)
    ensures var tail := Split(f.pid, (continuity + 1) % 256, rest, None, false, false);
      R.FeedAll(Opened(r, f, pcr, continuity % 16, chunk), tail)
      == Some(FrameRead(r, f, pcr, LastCounter(continuity, |tail| + 1), |tail| + 1))
  {
    hide R.Feed, TsMux.Split, FrameRead, Opened, Finished, R.Listed, R.FeedAll;
    var tail := Split(f.pid, (continuity + 1) % 256, rest, None, false, false);
    OpenedThenFinished(r, f, pcr, continuity, chunk, LastCounter(continuity, |tail| + 1), |tail|);
    RestRead(Opened(r, f, pcr, continuity % 16, chunk), f.pid, (continuity + 1) % 256, rest, Begun(f, chunk));
    CounterStep(continuity, |tail|);
  }

  lemma OpenedThenFinished(
      r: R.Reader, f: R.Frame, pcr: Option<nat>, continuity: nat, chunk: seq<byte>, counter: nat, n: nat)
    requires R.Listed(r, f.pid) && f.pid != PAT_PID && f.pid != r.pmtPid
    ensures var begun := Opened(r, f, pcr, continuity % 16, chunk);
      && Receives(begun, f.pid, Begun(f, chunk))
      && CounterFits(begun, f.pid, (continuity + 1) % 256)
      && Finished(begun, f.pid, Begun(f, chunk), f.payload, counter, n) == FrameRead(r, f, pcr, counter, n + 1)
  {
    hide Opened, Receives, Finished, FrameRead, R.Listed;
    OpenedReceives(r, f, pcr, continuity, chunk);
    OpenedFinishes(r, f, pcr, continuity, chunk, counter, n);
  }

  lemma FlushKeeps(r: R.Reader, pid: nat)
    ensures var flushed := R.Flush(r, pid);
      && flushed.continuity == r.continuity && flushed.index == r.index
      && flushed.pmtPid == r.pmtPid && flushed.streams == r.streams
  {
  }

  lemma OpenedReceives(r: R.Reader, f: R.Frame, pcr: Option<nat>, continuity: nat, chunk: seq<byte>)
    requires R.Listed(r, f.pid) && f.pid != PAT_PID && f.pid != r.pmtPid
    ensures var begun := Opened(r, f, pcr, continuity % 16, chunk);
      Receives(begun, f.pid, Begun(f, chunk)) && CounterFits(begun, f.pid, (continuity + 1) % 256)
  {
    hide R.Flush;
    FlushKeeps(r, f.pid);
    assert R.Listed(Opened(r, f, pcr, continuity % 16, chunk), f.pid);
  }

  lemma OpenedFinishes(
      r: R.Reader, f: R.Frame, pcr: Option<nat>, continuity: nat, chunk: seq<byte>, counter: nat, n: nat)
    ensures Finished(Opened(r, f, pcr, continuity % 16, chunk), f.pid, Begun(f, chunk), f.payload, counter, n)
         == FrameRead(r, f, pcr, counter, n + 1)
  {
    hide R.Flush, R.Listed;
    FlushKeeps(r, f.pid);
    var flushed := R.Flush(r, f.pid);
    var complete := Begun(f, f.payload);
    Overwritten(r.continuity, f.pid, continuity % 16, counter);
    Overwritten(flushed.builders, f.pid, Begun(f, chunk), complete);
    Overwritten(flushed.builders, f.pid, Begun(f, chunk), complete.(payload := [], open := false));
  }
}
