/** Trinamic drivers in a daisy chain on one chip select (main/tmc_spi.c). The chain is a shift register
    of five bytes per device; device 0 is next to the controller's output. */
module TmcChain {

  const FRAME: nat := 5

  type Byte = n: nat | n < 256

  /** Register address, write bit and `payload.data[0..3]`. */
  datatype Datagram = Datagram(reg: nat, write: bool, data: seq<Byte>)

  predicate IsDatagram(g: Datagram) {
    g.reg < 128 && |g.data| == 4
  }

  function AddressByte(g: Datagram): Byte
    requires IsDatagram(g)
  {
    g.reg + if g.write then 128 else 0
  }

  /** Five bytes in the order in which they are sent. */
  type Frame = f: seq<Byte> | |f| == FRAME witness [0, 0, 0, 0, 0]

  function WriteFrame(g: Datagram): Frame
    requires IsDatagram(g)
  {
    [AddressByte(g), g.data[3], g.data[2], g.data[1], g.data[0]]
  }

  function ReadFrame(g: Datagram, filler: Byte): Frame
    requires IsDatagram(g)
  {
    [AddressByte(g), filler, filler, filler, filler]
  }

  function Reversed(f: Frame): Frame {
    [f[4], f[3], f[2], f[1], f[0]]
  }

  function WriteFrames(gs: seq<Datagram>): (r: seq<Frame>)
    requires forall i :: 0 <= i < |gs| ==> IsDatagram(gs[i])
    ensures |r| == |gs|
  {
    seq(|gs|, i requires 0 <= i < |gs| => WriteFrame(gs[i]))
  }

  function ReadFrames(gs: seq<Datagram>, filler: Byte): (r: seq<Frame>)
    requires forall i :: 0 <= i < |gs| ==> IsDatagram(gs[i])
    ensures |r| == |gs|
  {
    seq(|gs|, i requires 0 <= i < |gs| => ReadFrame(gs[i], filler))
  }

  /** A driver chip: its 128 registers of four bytes each (in wire order), its status byte, and the
      register it was last asked to read. */
  datatype Device = Device(regs: seq<seq<Byte>>, status: Byte, asked: nat)

  predicate IsDevice(d: Device) {
    |d.regs| == 128 && d.asked < 128 && forall r :: 0 <= r < 128 ==> |d.regs[r]| == 4
  }

  /** What the chip makes of the five bytes in its part of the chain when chip select is released. */
  function Latched(d: Device, f: Frame): (e: Device)
    requires IsDevice(d)
    ensures IsDevice(e)
  {
    if f[0] >= 128 then d.(regs := d.regs[f[0] - 128 := f[1..]]) else d.(asked := f[0])
  }

  /** What it puts there when chip select is asserted. */
  function Reply(d: Device): Frame
    requires IsDevice(d)
  {
    [d.status] + d.regs[d.asked]
  }

  predicate AllDevices(devices: seq<Device>) {
    forall i :: 0 <= i < |devices| ==> IsDevice(devices[i])
  }

  function LatchAll(devices: seq<Device>, frames: seq<Frame>): (r: seq<Device>)
    requires |devices| == |frames| && AllDevices(devices)
    ensures |r| == |devices| && AllDevices(r)
  {
    seq(|devices|, i requires 0 <= i < |devices| => Latched(devices[i], frames[i]))
  }

  function Replies(devices: seq<Device>): (r: seq<Frame>)
    requires AllDevices(devices)
    ensures |r| == |devices|
  {
    seq(|devices|, i requires 0 <= i < |devices| => Reply(devices[i]))
  }

  // ---------------------------------------------------------------- the shift register

  /** The chain that holds `frames[i]` in device `i`: the byte sent first is the deepest. */
  function Chain(frames: seq<Frame>): (c: seq<Byte>)
    ensures |c| == FRAME * |frames|
  {
    if frames == [] then [] else Reversed(frames[0]) + Chain(frames[1..])
  }

  lemma {:induction false} ChainEnd(frames: seq<Frame>, f: Frame)
    ensures Chain(frames + [f]) == Chain(frames) + Reversed(f)
  {
    if frames == [] {
      assert frames + [f] == [f];
      assert Chain([f][1..]) == [];
    } else {
      assert (frames + [f])[1..] == frames[1..] + [f];
      ChainEnd(frames[1..], f);
    }
  }

  lemma {:induction false} ChainSplit(a: seq<Frame>, b: seq<Frame>)
    ensures Chain(a + b) == Chain(a) + Chain(b)
  {
    if a == [] {
      assert a + b == b;
    } else {
      assert (a + b)[1..] == a[1..] + b;
      ChainSplit(a[1..], b);
    }
  }

  lemma Middle(a: seq<Byte>, m: seq<Byte>, b: seq<Byte>)
    ensures (a + (m + b))[|a|..|a| + |m|] == m
  {
  }

  /** The frame in the part of the chain that belongs to device `i`. */
  lemma ChainPart(frames: seq<Frame>, i: nat)
    requires i < |frames|
    ensures Chain(frames)[FRAME * i..FRAME * i + FRAME] == Reversed(frames[i])
  {
    var a, b := frames[..i], frames[i..];
    assert frames == a + b && b[0] == frames[i];
    ChainSplit(a, b);
    Middle(Chain(a), Reversed(frames[i]), Chain(b[1..]));
  }

  /** What five shifts do to a chain whose last device holds `last`. */
  lemma FiveShifts(sent: seq<Frame>, kept: seq<Frame>, last: Frame, f: Frame)
    ensures var c := Chain(sent) + Chain(kept + [last]); var n := |c| - FRAME;
      && c[n..] == Reversed(last)
      && Reversed(f) + c[..n] == Chain([f] + sent) + Chain(kept)
  {
    ChainEnd(kept, last);
    assert ([f] + sent)[1..] == sent;
    assert (Chain(sent) + (Chain(kept) + Reversed(last)))[..FRAME * (|sent| + |kept|)] == Chain(sent) + Chain(kept);
  }

  function Shift(c: seq<Byte>, b: Byte): seq<Byte>
    requires |c| > 0
  {
    [b] + c[..|c| - 1]
  }

  function Out(c: seq<Byte>): Byte
    requires |c| > 0
  {
    c[|c| - 1]
  }

  lemma OneShift(front: seq<Byte>, c: seq<Byte>, k: nat, b: Byte)
    requires 0 < k <= |c|
    ensures Shift(front + c[..k], b) == ([b] + front) + c[..k - 1]
    ensures Out(front + c[..k]) == c[k - 1]
  {
  }

  /** The chain after the first `k` bytes of a frame. */
  function Shifted(c: seq<Byte>, f: Frame, k: nat): (r: seq<Byte>)
    requires |c| > 0 && k <= FRAME
    ensures |r| == |c|
  {
    if k == 0 then c else Shift(Shifted(c, f, k - 1), f[k - 1])
  }

  lemma ShiftedBytes(c: seq<Byte>, f: Frame, k: nat)
    requires |c| >= FRAME && k <= FRAME
    ensures Shifted(c, f, k) == Reversed(f)[FRAME - k..] + c[..|c| - k]
  {
    if k == 0 {
      assert Reversed(f)[FRAME..] == [] && c[..|c|] == c;
    } else {
      ShiftedBytes(c, f, k - 1);
      OneShift(Reversed(f)[FRAME - k + 1..], c, |c| - k + 1, f[k - 1]);
      assert [f[k - 1]] + Reversed(f)[FRAME - k + 1..] == Reversed(f)[FRAME - k..];
    }
  }

  lemma ShiftedOut(c: seq<Byte>, f: Frame, k: nat)
    requires |c| >= FRAME && k < FRAME
    ensures Out(Shifted(c, f, k)) == c[|c| - k - 1]
  {
    ShiftedBytes(c, f, k);
  }

  lemma Unreversed(f: Frame)
    ensures var r := Reversed(f); f == [r[4], r[3], r[2], r[1], r[0]]
  {
  }

  /** The chain when the countdown loops have reached `idx`. */
  function Between(frames: seq<Frame>, shown: seq<Frame>, idx: nat): (c: seq<Byte>)
    requires idx <= |frames| == |shown|
    ensures |c| == FRAME * |frames|
  {
    Chain(frames[idx..]) + Chain(shown[..idx])
  }

  /** One turn of a countdown loop: frame `idx` goes in, the reply of device `idx` comes out. */
  lemma NextFrame(frames: seq<Frame>, shown: seq<Frame>, idx: nat)
    requires idx < |frames| == |shown|
    ensures var c := Between(frames, shown, idx + 1); var n := |c| - FRAME;
      && 0 <= n
      && c[n..] == Reversed(shown[idx])
      && Reversed(frames[idx]) + c[..n] == Between(frames, shown, idx)
  {
    assert shown[..idx + 1] == shown[..idx] + [shown[idx]];
    assert [frames[idx]] + frames[idx + 1..] == frames[idx..];
    FiveShifts(frames[idx + 1..], shown[..idx], shown[idx], frames[idx]);
  }

  lemma FiveBytes(frames: seq<Frame>, shown: seq<Frame>, idx: nat)
    requires idx < |frames| == |shown|
    ensures var c, f := Between(frames, shown, idx + 1), frames[idx];
      && Shifted(c, f, FRAME) == Between(frames, shown, idx)
      && shown[idx] ==
         [Out(c), Out(Shifted(c, f, 1)), Out(Shifted(c, f, 2)), Out(Shifted(c, f, 3)), Out(Shifted(c, f, 4))]
  {
    var c, f := Between(frames, shown, idx + 1), frames[idx];
    NextFrame(frames, shown, idx);
    ShiftedBytes(c, f, FRAME);
    assert Reversed(f)[0..] == Reversed(f);
    forall k: nat | k < FRAME ensures Out(Shifted(c, f, k)) == shown[idx][k] {
      ShiftedOut(c, f, k);
      assert c[|c| - k - 1] == c[|c| - FRAME..][FRAME - k - 1];
    }
    assert Shifted(c, f, 0) == c;
  }

  lemma AllShown(frames: seq<Frame>, shown: seq<Frame>)
    requires |frames| == |shown|
    ensures Between(frames, shown, |shown|) == Chain(shown)
  {
    assert frames[|shown|..] == [] && shown[..|shown|] == shown;
  }

  lemma AllSent(frames: seq<Frame>, shown: seq<Frame>)
    requires |frames| == |shown|
    ensures Between(frames, shown, 0) == Chain(frames)
  {
    assert frames[0..] == frames && shown[..0] == [];
  }

  /** Among the frames of a write only that of the addressed device writes. */
  lemma OneWrite(devices: seq<Device>, gs: seq<Datagram>, k: nat)
    requires k < |devices| == |gs| && AllDevices(devices)
    requires forall i :: 0 <= i < |gs| ==> IsDatagram(gs[i]) && (gs[i].write <==> i == k)
    ensures var after := LatchAll(devices, WriteFrames(gs));
      && (forall i :: 0 <= i < |gs| && i != k ==> after[i].regs == devices[i].regs)
      && var d := gs[k].data;
         after[k].regs == devices[k].regs[gs[k].reg := [d[3], d[2], d[1], d[0]]]
  {
    forall i | 0 <= i < |gs| && i != k ensures Latched(devices[i], WriteFrame(gs[i])).regs == devices[i].regs {
      assert WriteFrame(gs[i])[0] < 128;
    }
    var f := WriteFrame(gs[k]);
    assert f[0] == gs[k].reg + 128 && f[1..] == [f[1], f[2], f[3], f[4]];
  }

  // ---------------------------------------------------------------- the driver

  class TmcBus {
    /** Registers of the chips, and the bytes now in the chain. */
    var devices: seq<Device>
    var chain: seq<Byte>
    const datagram: array<Datagram>
    const motors: nat

    ghost predicate Valid()
      reads this, datagram
    {
      && 1 <= motors <= datagram.Length && |devices| == motors && AllDevices(devices)
      && forall i :: 0 <= i < datagram.Length ==> IsDatagram(datagram[i]) && !datagram[i].write
    }

    /** `tmc_spi_init` and `if_init` */
    constructor (n: nat, max: nat, chips: seq<Device>)
      requires 1 <= n <= max && |chips| == n && AllDevices(chips)
      ensures Valid() && devices == chips && motors == n && fresh(datagram)
    {
      datagram := new Datagram[max](_ => Datagram(0, false, [0, 0, 0, 0]));
      motors, devices := n, chips;
      chain := seq(FRAME * n, _ => 0);
    }

    method Select()
      requires |devices| == motors && AllDevices(devices)
      modifies `chain
      ensures chain == Chain(Replies(devices))
    {
      var frames := Replies(devices);
      chain := Chain(frames);
    }

    /** Releasing chip select: device `i` takes the frame in its part of the chain. */
    method Deselect(ghost frames: seq<Frame>)
      requires |devices| == motors == |frames| && AllDevices(devices) && chain == Chain(frames)
      modifies `devices
      ensures devices == LatchAll(old(devices), frames)
    {
      var latched: seq<Device> := [];
      for i := 0 to motors
        invariant devices == old(devices) && chain == old(chain) && |latched| == i
        invariant forall k :: 0 <= k < i ==> latched[k] == Latched(devices[k], frames[k])
      {
        ChainPart(frames, i);
        Unreversed(frames[i]);
        var part := chain[FRAME * i..FRAME * i + FRAME];
        latched := latched + [Latched(devices[i], [part[4], part[3], part[2], part[1], part[0]])];
      }
      devices := latched;
    }

    method PutByte(b: Byte) returns (out: Byte)
      requires |chain| > 0
      modifies `chain
      ensures chain == Shift(old(chain), b) && out == Out(old(chain))
    {
      out := chain[|chain| - 1];
      chain := [b] + chain[..|chain| - 1];
    }

    /** Five bytes in, and the five that come out at the far end: the frame of device `idx` for its reply. */
    method PutFrame(f: Frame, ghost frames: seq<Frame>, ghost shown: seq<Frame>, ghost idx: nat) returns (out: Frame)
      requires idx < |frames| == |shown| && f == frames[idx]
      requires chain == Between(frames, shown, idx + 1)
      modifies `chain
      ensures chain == Between(frames, shown, idx) && out == shown[idx]
    {
      ghost var c := chain;
      FiveBytes(frames, shown, idx);
      var o0 := PutByte(f[0]);
      assert chain == Shifted(c, f, 1);
      var o1 := PutByte(f[1]);
      assert chain == Shifted(c, f, 2);
      var o2 := PutByte(f[2]);
      assert chain == Shifted(c, f, 3);
      var o3 := PutByte(f[3]);
      assert chain == Shifted(c, f, 4);
      var o4 := PutByte(f[4]);
      out := [o0, o1, o2, o3, o4];
    }

    /** The countdown loop of `tmc_spi_write`, which clears the datagram it has sent. */
    method SendDatagrams(seqNo: nat, cleared: Datagram, ghost frames: seq<Frame>, ghost shown: seq<Frame>)
      requires motors <= datagram.Length && seqNo < motors && |frames| == |shown| == motors
      requires forall i :: 0 <= i < motors ==> IsDatagram(datagram[i]) && frames[i] == WriteFrame(datagram[i])
      requires chain == Chain(shown)
      modifies `chain, datagram
      ensures chain == Chain(frames) && datagram[..] == old(datagram[..])[seqNo := cleared]
    {
      ghost var loaded := datagram[..];
      AllShown(frames, shown);
      var idx: nat := motors;
      while idx > 0
        invariant idx <= motors && chain == Between(frames, shown, idx)
        invariant datagram[..] == if idx <= seqNo then loaded[seqNo := cleared] else loaded
      {
        idx := idx - 1;
        assert datagram[idx] == datagram[..][idx] == loaded[idx];
        var _ := PutFrame(WriteFrame(datagram[idx]), frames, shown, idx);
        if idx == seqNo {
          datagram[idx] := cleared;
        }
      }
      AllSent(frames, shown);
    }

    /** `tmc_spi_write`: the addressed device latches the datagram, every other one a frame without write bit. */
    method Write(seqNo: nat, reg: Datagram)
      requires Valid() && seqNo < motors && IsDatagram(reg)
      modifies this, datagram
      ensures Valid()
      ensures forall i :: 0 <= i < motors && i != seqNo ==> devices[i].regs == old(devices)[i].regs
      ensures devices[seqNo].regs ==
              old(devices)[seqNo].regs[reg.reg := [reg.data[3], reg.data[2], reg.data[1], reg.data[0]]]
    {
      datagram[seqNo] := reg.(write := true);
      ghost var loaded := datagram[..];
      ghost var frames := WriteFrames(datagram[..motors]);
      ghost var shown := Replies(devices);
      Select();
      SendDatagrams(seqNo, reg.(reg := 0, write := false), frames, shown);
      Deselect(frames);
      OneWrite(old(devices), loaded[..motors], seqNo);
      assert forall i :: 0 <= i < datagram.Length ==> datagram[i] == datagram[..][i];
    }

    /** One of the two passes of `tmc_spi_read`: an address byte and four fillers per device. What comes
        out while device `i` is addressed is the reply of device `i`. */
    method ReadPass(filler: Byte, seqNo: nat) returns (out: Frame)
      requires Valid() && seqNo < motors
      modifies `chain, `devices
      ensures Valid()
      ensures devices == LatchAll(old(devices), ReadFrames(datagram[..motors], filler))
      ensures out == Reply(old(devices)[seqNo])
    {
      ghost var frames, shown := ReadFrames(datagram[..motors], filler), Replies(devices);
      Select();
      AllShown(frames, shown);
      var idx: nat := motors;
      out := [0, 0, 0, 0, 0];
      while idx > 0
        invariant idx <= motors && devices == old(devices) && chain == Between(frames, shown, idx)
        invariant idx <= seqNo ==> out == shown[seqNo]
      {
        idx := idx - 1;
        var bytes := PutFrame(ReadFrame(datagram[idx], filler), frames, shown, idx);
        if idx == seqNo {
          out := bytes;
        }
      }
      AllSent(frames, shown);
      Deselect(frames);
    }

    /** `tmc_spi_read`: the payload is what the addressed device holds in the requested register, and no
        register of any device changes. `junk` is what the controller sends while it only listens. */
    method Read(seqNo: nat, reg: nat, junk: Byte) returns (payload: seq<Byte>)
      requires Valid() && seqNo < motors && reg < 128
      modifies this, datagram
      ensures Valid()
      ensures forall i :: 0 <= i < motors ==> devices[i].regs == old(devices)[i].regs
      ensures |payload| == 4 && [payload[3], payload[2], payload[1], payload[0]] == old(devices)[seqNo].regs[reg]
    {
      datagram[seqNo] := datagram[seqNo].(reg := reg, write := false);
      var _ := ReadPass(0, seqNo);
      assert devices[seqNo].asked == reg;
      var out := ReadPass(junk, seqNo);
      payload := [out[4], out[3], out[2], out[1]];
    }

    /** A value that was written is read back from the same device, and from no other. */
    method WriteThenRead(seqNo: nat, other: nat, reg: Datagram, junk: Byte)
      returns (payload: seq<Byte>, untouched: seq<Byte>)
      requires Valid() && seqNo < motors && other < motors && other != seqNo && IsDatagram(reg)
      modifies this, datagram
      ensures Valid() && payload == reg.data
      ensures |untouched| == 4
      ensures [untouched[3], untouched[2], untouched[1], untouched[0]] == old(devices)[other].regs[reg.reg]
    {
      Write(seqNo, reg);
      payload := Read(seqNo, reg.reg, junk);
      untouched := Read(other, reg.reg, junk);
    }
  }
}
