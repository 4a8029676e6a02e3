/** Programming a device over SPI: the sender of util/fpga/cw_spiflash.py against the boot ROM of
    sw/device/boot_rom/bootstrap.c, over a link that corrupts frames and acknowledgements at will. */
module SpiBootstrap {
  import opened Basics
  import opened SpiFrames

  // ----- the device --------------------------------------------------------------------------

  /** The boot ROM's loader. `accepted` records the frames it has taken, in order. */
  datatype Device = Device(expected: nat, ack: Bytes, flash: map<nat, Byte>, done: bool, accepted: seq<Bytes>)

  function NoAck(): Bytes
  {
    seq(DIGEST_SIZE, _ => 0)
  }

  function PowerOn(flash: map<nat, Byte>): Device
  {
    Device(0, NoAck(), flash, false, [])
  }

  function Span(lo: nat, n: nat): (r: set<nat>)
    ensures forall x: nat :: x in r <==> lo <= x < lo + n
  {
    if n == 0 then {} else Span(lo, n - 1) + {lo + n - 1}
  }

  function WriteFlash(flash: map<nat, Byte>, offset: nat, data: Bytes): map<nat, Byte>
  {
    map a | a in flash.Keys + Span(offset, |data|) ::
      if offset <= a < offset + |data| then data[a - offset] else flash[a]
  }

  function ReadFlash(flash: map<nat, Byte>, a: nat): Byte
  {
    if a in flash then flash[a] else 0xFF
  }

  /** One iteration of `bootstrap_flash`: a frame with the expected number and a matching digest is
      written and acknowledged from then on, anything else is ignored. */
  function Receive(h: Hash, d: Device, rx: Bytes): Device
  {
    if d.done || |rx| != FRAME_SIZE then d
    else if NumberField(rx) % 0x100_0000 != d.expected then d
    else if !Intact(h, rx) then d
    else
      var flash := if d.expected == 0 then map[] else d.flash;
      Device(d.expected + 1, h(rx), WriteFlash(flash, OffsetField(rx), PayloadField(rx)),
             NumberField(rx) >= EOF_MARKER, d.accepted + [rx])
  }

  // ----- the link ----------------------------------------------------------------------------

  /** What one transfer does to the bytes in each direction. */
  datatype Fault = Fault(frame: Option<Bytes>, ack: Option<Bytes>)

  predicate Clean(f: Fault)
  {
    f.frame.None? && f.ack.None?
  }

  /** The device, the faults still to come (none once the script is used up), and the frames sent. */
  datatype Link = Link(device: Device, script: seq<Fault>, sent: seq<Bytes>)

  function NextFault(link: Link): Fault
  {
    if link.script == [] then Fault(None, None) else link.script[0]
  }

  /** Transmits a frame and receives the acknowledgement of the last frame accepted before it. */
  function Transfer(h: Hash, link: Link, frame: Bytes): (Link, Bytes)
  {
    var f := NextFault(link);
    var rx := if f.frame.Some? then f.frame.value else frame;
    var ack := if f.ack.Some? then f.ack.value else link.device.ack;
    (Link(Receive(h, link.device, rx), if link.script == [] then [] else link.script[1..], link.sent + [frame]), ack)
  }

  // ----- assumptions about hash and link -----------------------------------------------------

  /** The digests of this image's frames are pairwise different, and none is the all-zero word. */
  ghost predicate CollisionFree(h: Hash, image: Bytes)
  {
    && DigestSized(h)
    && var fs := DataFrames(h, image);
      && (forall i, j :: 0 <= i < j < |fs| ==> h(fs[i]) != h(fs[j]))
      && (forall i :: 0 <= i < |fs| ==> h(fs[i]) != NoAck())
  }

  /** No corrupted frame passes the digest check, no corrupted acknowledgement is one the sender
      could be waiting for. */
  ghost predicate Detectable(h: Hash, image: Bytes, f: Fault)
    requires CollisionFree(h, image)
  {
    && (f.frame.Some? ==> !Intact(h, f.frame.value))
    && (f.ack.Some? ==> forall i :: 0 <= i < FrameCount(image) ==> f.ack.value != h(DataFrames(h, image)[i]))
  }

  ghost predicate AllDetectable(h: Hash, image: Bytes, script: seq<Fault>)
    requires CollisionFree(h, image)
  {
    forall i :: 0 <= i < |script| ==> Detectable(h, image, script[i])
  }

  // ----- what the device holds ---------------------------------------------------------------

  /** The flash reads as the first n chunks of the image and is blank everywhere else. */
  ghost predicate Holds(flash: map<nat, Byte>, image: Bytes, n: nat)
  {
    forall a: nat :: ReadFlash(flash, a) == if a < n * PAYLOAD_SIZE && a < |image| then image[a] else 0xFF
  }

  ghost function AckAfter(h: Hash, image: Bytes, n: nat): Bytes
    requires CollisionFree(h, image) && n <= FrameCount(image)
  {
    if n == 0 then NoAck() else h(DataFrames(h, image)[n - 1])
  }

  /** The device has accepted exactly the first `expected` data frames, in order and each once. */
  ghost predicate InStep(h: Hash, image: Bytes, link: Link)
    requires CollisionFree(h, image)
  {
    var d := link.device;
    && d.expected <= FrameCount(image) && !d.done
    && d.accepted == DataFrames(h, image)[..d.expected]
    && d.ack == AckAfter(h, image, d.expected)
    && (d.expected > 0 ==> Holds(d.flash, image, d.expected))
    && AllDetectable(h, image, link.script)
  }

  lemma ChunkBytes(image: Bytes, i: nat)
    requires i < ChunkCount(image)
    ensures i * PAYLOAD_SIZE < |image|
    ensures forall a :: 0 <= a < PAYLOAD_SIZE ==>
      Pad(Chunk(image, i))[a] == if i * PAYLOAD_SIZE + a < |image| then image[i * PAYLOAD_SIZE + a] else 0xFF
  {}

  lemma WriteExtends(flash: map<nat, Byte>, image: Bytes, n: nat)
    requires n < ChunkCount(image) && (n > 0 ==> Holds(flash, image, n)) && (n == 0 ==> flash == map[])
    ensures Holds(WriteFlash(flash, n * PAYLOAD_SIZE, Pad(Chunk(image, n))), image, n + 1)
  {
    ChunkBytes(image, n);
    var data := Pad(Chunk(image, n));
    var flash' := WriteFlash(flash, n * PAYLOAD_SIZE, data);
    hide Pad, Chunk, ChunkCount;
    forall a: nat
      ensures ReadFlash(flash', a) == if a < (n + 1) * PAYLOAD_SIZE && a < |image| then image[a] else 0xFF
    {
      if n * PAYLOAD_SIZE <= a < (n + 1) * PAYLOAD_SIZE {
        assert ReadFlash(flash', a) == data[a - n * PAYLOAD_SIZE];
      } else {
        assert ReadFlash(flash', a) == ReadFlash(flash, a);
      }
    }
  }

  /** The device takes data frame i exactly when it is the one it expects. */
  lemma ReceiveData(h: Hash, image: Bytes, link: Link, i: nat)
    requires CollisionFree(h, image) && InStep(h, image, link) && i < FrameCount(image)
    ensures var d := link.device; var d' := Receive(h, d, DataFrames(h, image)[i]);
      if i != d.expected then d' == d
      else
        && d'.expected == i + 1 && !d'.done && d'.accepted == DataFrames(h, image)[..i + 1]
        && d'.ack == AckAfter(h, image, i + 1) && Holds(d'.flash, image, i + 1)
  {
    hide Holds, AllDetectable, WriteFlash, Pad, Chunk, DataFrames, FrameCount, NumberField, OffsetField;
    hide PayloadField, Intact;
    DataFrameFields(h, image, i);
    var d, f := link.device, DataFrames(h, image)[i];
    SmallNumber(image, i);
    IntactSize(h, f);
    if i == d.expected {
      WriteExtends(if i == 0 then map[] else d.flash, image, i);
      assert DataFrames(h, image)[..i + 1] == DataFrames(h, image)[..i] + [f];
    }
  }

  lemma IntactSize(h: Hash, f: Bytes)
    requires Intact(h, f)
    ensures |f| == FRAME_SIZE
  {}

  /** The 24 bits of the frame number that the device looks at are enough for every image that fits
      the offset field. */
  lemma SmallNumber(image: Bytes, i: nat)
    requires i <= FrameCount(image)
    ensures i % 0x100_0000 == i < EOF_MARKER && (i + EOF_MARKER) % 0x100_0000 == i
  {}

  /** One transfer of data frame i keeps the device in step, and an acknowledgement that is not
      corrupted tells how many frames the device had. */
  lemma TransferData(h: Hash, image: Bytes, link: Link, i: nat)
    requires CollisionFree(h, image) && InStep(h, image, link) && i < FrameCount(image)
    ensures var (link', ack) := Transfer(h, link, DataFrames(h, image)[i]);
      var had, f := link.device.expected, NextFault(link);
      && InStep(h, image, link') && link'.sent == link.sent + [DataFrames(h, image)[i]]
      && link'.script == (if link.script == [] then [] else link.script[1..])
      && link'.device.expected == (if i == had && f.frame.None? then had + 1 else had)
      && (forall n :: 0 <= n < FrameCount(image) ==>
            (ack == h(DataFrames(h, image)[n]) <==> n + 1 == had && f.ack.None?))
  {
    hide Holds, DataFrames, Receive, AllDetectable, CollisionFree, AckAfter, FrameCount, Intact;
    Assumed(h, image);
    var f := NextFault(link);
    NextDetectable(h, image, link);
    if f.frame.None? {
      ReceiveData(h, image, link, i);
    } else {
      IgnoresCorrupted(h, link.device, f.frame.value);
    }
    AckTells(h, image, link.device.expected);
  }

  lemma NextDetectable(h: Hash, image: Bytes, link: Link)
    requires CollisionFree(h, image) && AllDetectable(h, image, link.script)
    ensures Detectable(h, image, NextFault(link))
    ensures AllDetectable(h, image, if link.script == [] then [] else link.script[1..])
  {
    hide CollisionFree, Intact;
  }

  lemma IgnoresCorrupted(h: Hash, d: Device, rx: Bytes)
    requires !Intact(h, rx)
    ensures Receive(h, d, rx) == d
  {}

  lemma AckTells(h: Hash, image: Bytes, had: nat)
    requires CollisionFree(h, image) && had <= FrameCount(image)
    ensures forall n :: 0 <= n < FrameCount(image) ==>
      (AckAfter(h, image, had) == h(DataFrames(h, image)[n]) <==> n + 1 == had)
  {
    hide DataFrames;
    var fs := DataFrames(h, image);
    forall n | 0 <= n < FrameCount(image) ensures AckAfter(h, image, had) == h(fs[n]) <==> n + 1 == had {
      if had > 0 && n + 1 != had {
        if n < had - 1 { assert h(fs[n]) != h(fs[had - 1]); } else { assert h(fs[had - 1]) != h(fs[n]); }
      }
    }
  }

  // ----- the sender --------------------------------------------------------------------------

  /** One round of the retry loop for frame `cur` after `prev`: does the sender move on? */
  function Attempt(h: Hash, prev: Bytes, cur: Bytes, link: Link): (Link, bool)
  {
    var (link1, ack1) := Transfer(h, link, cur);
    if ack1 == h(prev) then (link1, true)
    else
      var (link2, ack2) := Transfer(h, link1, prev);
      (link2, ack2 == h(cur))
  }

  /** How far the device can be from frame n while the sender is in the loop for it. */
  ghost predicate Trying(h: Hash, image: Bytes, n: nat, link: Link)
  {
    CollisionFree(h, image) && InStep(h, image, link) && 0 < n < FrameCount(image)
      && n - 1 <= link.device.expected <= n + 1
  }

  /** After a round the device has frame n - 1 if the sender moves on, and otherwise the script is
      shorter or frame n - 1 has arrived. */
  lemma AttemptStep(h: Hash, image: Bytes, n: nat, link: Link)
    requires Trying(h, image, n, link)
    ensures var fs := DataFrames(h, image); var (link', leave) := Attempt(h, fs[n - 1], fs[n], link);
      && Trying(h, image, n, link')
      && |link'.script| <= |link.script|
      && (leave ==> link'.device.expected >= n)
      && (!leave ==> |link'.script| < |link.script| || link'.device.expected != n - 1 == link.device.expected)
  {
    hide InStep, DataFrames, CollisionFree, FrameCount;
    assert DigestSized(h) by { Assumed(h, image); }
    var fs := DataFrames(h, image);
    TransferData(h, image, link, n);
    TransferData(h, image, Transfer(h, link, fs[n]).0, n - 1);
  }

  lemma Assumed(h: Hash, image: Bytes)
    requires CollisionFree(h, image)
    ensures DigestSized(h)
  {}

  /** The retry loop for data frame n > 0. */
  function Retry(h: Hash, image: Bytes, n: nat, link: Link): (r: Link)
    requires Trying(h, image, n, link)
    ensures InStep(h, image, r) && n <= r.device.expected <= n + 1
    decreases |link.script|, if link.device.expected == n - 1 then 1 else 0
  {
    var fs := DataFrames(h, image);
    AttemptStep(h, image, n, link);
    var (link', leave) := Attempt(h, fs[n - 1], fs[n], link);
    if leave then link' else Retry(h, image, n, link')
  }

  /** Sending data frame n: the first frame is not acknowledged before moving on. */
  function SendFrame(h: Hash, image: Bytes, n: nat, link: Link): (r: Link)
    requires CollisionFree(h, image) && InStep(h, image, link) && n < FrameCount(image)
    requires n - 1 <= link.device.expected <= n
    ensures InStep(h, image, r) && n <= r.device.expected <= n + 1
  {
    if n == 0 then
      TransferData(h, image, link, 0);
      Transfer(h, link, DataFrames(h, image)[0]).0
    else Retry(h, image, n, link)
  }

  /** Sending data frames n, n+1, ... to the end of the image. */
  function SendFrom(h: Hash, image: Bytes, n: nat, link: Link): (r: Link)
    requires CollisionFree(h, image) && InStep(h, image, link) && n <= FrameCount(image)
    requires n - 1 <= link.device.expected <= n
    ensures InStep(h, image, r) && FrameCount(image) - 1 <= r.device.expected
    decreases FrameCount(image) - n
  {
    if n == FrameCount(image) then link else SendFrom(h, image, n + 1, SendFrame(h, image, n, link))
  }

  // ----- the end frame -----------------------------------------------------------------------

  function Finish(h: Hash, image: Bytes, link: Link): Link
    requires DigestSized(h) && Sendable(image)
  {
    FramesExist(h, image);
    Transfer(h, link, EndFrame(h, image).value).0
  }

  lemma BlankWrite(flash: map<nat, Byte>, image: Bytes, n: nat)
    requires n == ChunkCount(image) && (n > 0 ==> Holds(flash, image, n)) && (n == 0 ==> flash == map[])
    ensures Holds(WriteFlash(flash, n * PAYLOAD_SIZE, Pad([])), image, n)
  {
    var data := Pad([]);
    var flash' := WriteFlash(flash, n * PAYLOAD_SIZE, data);
    assert n * PAYLOAD_SIZE >= |image|;
    hide Pad, ChunkCount;
    forall a: nat ensures ReadFlash(flash', a) == if a < n * PAYLOAD_SIZE && a < |image| then image[a] else 0xFF {
      if n * PAYLOAD_SIZE <= a < n * PAYLOAD_SIZE + |data| {
        assert ReadFlash(flash', a) == data[a - n * PAYLOAD_SIZE] == 0xFF;
      } else {
        assert ReadFlash(flash', a) == ReadFlash(flash, a);
      }
    }
  }

  /** The device takes the end frame exactly when it has all data frames, and is then done. */
  lemma ReceiveEnd(h: Hash, image: Bytes, link: Link)
    requires CollisionFree(h, image) && Sendable(image) && InStep(h, image, link)
    ensures EndFrame(h, image).Some?
    ensures var d := link.device; var d' := Receive(h, d, EndFrame(h, image).value);
      if d.expected != FrameCount(image) then d' == d
      else
        && d'.done && d'.accepted == DataFrames(h, image) + [EndFrame(h, image).value]
        && Holds(d'.flash, image, ChunkCount(image))
  {
    hide Holds, AllDetectable, WriteFlash, Pad, DataFrames, FrameCount, ChunkCount, NumberField, OffsetField;
    hide PayloadField, Intact;
    FramesExist(h, image);
    var n, d := ChunkCount(image), link.device;
    MarkerIsSum(n);
    FrameRoundTrip(h, n + EOF_MARKER, n * PAYLOAD_SIZE, []);
    SmallNumber(image, n);
    IntactSize(h, EndFrame(h, image).value);
    if d.expected == n {
      BlankWrite(if n == 0 then map[] else d.flash, image, n);
      assert DataFrames(h, image)[..n] == DataFrames(h, image);
    }
  }

  // ----- the outcome of a whole run ----------------------------------------------------------

  function Start(flash: map<nat, Byte>, script: seq<Fault>): Link
  {
    Link(PowerOn(flash), script, [])
  }

  lemma StartInStep(h: Hash, image: Bytes, flash: map<nat, Byte>, script: seq<Fault>)
    requires CollisionFree(h, image) && AllDetectable(h, image, script)
    ensures InStep(h, image, Start(flash, script))
  {}

  /** Whatever the link does: when the sender has gone through the image, at most the last data frame
      is missing; the device finishes exactly when it is not and the end frame arrives; and then its
      flash is the image followed by blank bytes. */
  lemma BootstrapOutcome(h: Hash, image: Bytes, flash: map<nat, Byte>, script: seq<Fault>)
    requires CollisionFree(h, image) && Sendable(image) && AllDetectable(h, image, script)
    ensures InStep(h, image, Start(flash, script))
    ensures var l := SendFrom(h, image, 0, Start(flash, script)); var r := Finish(h, image, l);
      && FrameCount(image) - 1 <= l.device.expected <= FrameCount(image) == ChunkCount(image)
      && l.device.accepted == DataFrames(h, image)[..l.device.expected]
      && (r.device.done <==> l.device.expected == FrameCount(image) && NextFault(l).frame.None?)
      && EndFrame(h, image).Some?
      && (r.device.done ==> r.device.accepted == DataFrames(h, image) + [EndFrame(h, image).value])
      && (r.device.done ==> Holds(r.device.flash, image, ChunkCount(image)))
      && (!r.device.done ==> r.device == l.device)
  {
    StartInStep(h, image, flash, script);
    var l := SendFrom(h, image, 0, Start(flash, script));
    hide Holds, AllDetectable, SendFrom, DataFrames, Receive, AckAfter;
    ReceiveEnd(h, image, l);
    FramesExist(h, image);
    if NextFault(l).frame.Some? {
      NextDetectable(h, image, l);
      IgnoresCorrupted(h, l.device, NextFault(l).frame.value);
    }
  }

  // ----- when the last frame gets through ----------------------------------------------------

  ghost predicate OnlyAckFaults(script: seq<Fault>)
  {
    forall i :: 0 <= i < |script| ==> script[i].frame.None?
  }

  lemma {:induction false} RetryKeepsFrames(h: Hash, image: Bytes, n: nat, link: Link)
    requires Trying(h, image, n, link) && link.device.expected >= n && OnlyAckFaults(link.script)
    ensures var r := Retry(h, image, n, link); r.device.expected == n + 1 && OnlyAckFaults(r.script)
    decreases |link.script|
  {
    var fs := DataFrames(h, image);
    AttemptKeepsFrames(h, image, n, link);
    AttemptStep(h, image, n, link);
    var (link', leave) := Attempt(h, fs[n - 1], fs[n], link);
    hide Trying, Attempt, DataFrames;
    if !leave { RetryKeepsFrames(h, image, n, link'); }
  }

  lemma AttemptKeepsFrames(h: Hash, image: Bytes, n: nat, link: Link)
    requires Trying(h, image, n, link) && link.device.expected >= n && OnlyAckFaults(link.script)
    ensures var fs := DataFrames(h, image); var (link', leave) := Attempt(h, fs[n - 1], fs[n], link);
      link'.device.expected == n + 1 && OnlyAckFaults(link'.script)
  {
    hide InStep, DataFrames, CollisionFree, FrameCount;
    assert DigestSized(h) by { Assumed(h, image); }
    var fs := DataFrames(h, image);
    TransferData(h, image, link, n);
    TransferData(h, image, Transfer(h, link, fs[n]).0, n - 1);
  }

  lemma FrameKept(h: Hash, image: Bytes, n: nat, link: Link)
    requires CollisionFree(h, image) && InStep(h, image, link) && n < FrameCount(image)
    requires link.device.expected == n && OnlyAckFaults(link.script)
    ensures var r := SendFrame(h, image, n, link); r.device.expected == n + 1 && OnlyAckFaults(r.script)
  {
    hide InStep, CollisionFree, DataFrames, Retry;
    if n == 0 { TransferData(h, image, link, 0); } else { RetryKeepsFrames(h, image, n, link); }
  }

  lemma {:induction false} SendKeepsFrames(h: Hash, image: Bytes, n: nat, link: Link)
    requires CollisionFree(h, image) && InStep(h, image, link) && n <= FrameCount(image)
    requires link.device.expected == n && OnlyAckFaults(link.script)
    ensures var r := SendFrom(h, image, n, link); r.device.expected == FrameCount(image) && OnlyAckFaults(r.script)
    decreases FrameCount(image) - n
  {
    hide SendFrame, InStep, OnlyAckFaults, CollisionFree;
    if n < FrameCount(image) {
      FrameKept(h, image, n, link);
      SendKeepsFrames(h, image, n + 1, SendFrame(h, image, n, link));
    }
  }

  /** Corrupting only acknowledgements, however often, never costs a frame: the device finishes. */
  lemma AckFaultsHarmless(h: Hash, image: Bytes, flash: map<nat, Byte>, script: seq<Fault>)
    requires CollisionFree(h, image) && Sendable(image) && AllDetectable(h, image, script) && OnlyAckFaults(script)
    ensures InStep(h, image, Start(flash, script))
    ensures Finish(h, image, SendFrom(h, image, 0, Start(flash, script))).device.done
  {
    BootstrapOutcome(h, image, flash, script);
    SendKeepsFrames(h, image, 0, Start(flash, script));
  }

  function CleanScript(n: nat): (r: seq<Fault>)
    ensures |r| == n && forall i :: 0 <= i < n ==> Clean(r[i])
  {
    seq(n, _ => Fault(None, None))
  }

  lemma CleanAttempt(h: Hash, image: Bytes, n: nat, link: Link)
    requires CollisionFree(h, image) && InStep(h, image, link) && n < FrameCount(image) && link.device.expected == n
    requires NextFault(link).ack.None? && link.script != []
    ensures var r := SendFrame(h, image, n, link);
      r.script == link.script[1..] && r.device.expected == if NextFault(link).frame.None? then n + 1 else n
  {
    hide InStep, CollisionFree, DataFrames;
    TransferData(h, image, link, n);
  }

  /** After clean transfers, corrupting the one transfer of the last data frame loses that frame. */
  lemma {:induction false} LosesLast(h: Hash, image: Bytes, n: nat, link: Link, junk: Bytes)
    requires CollisionFree(h, image) && InStep(h, image, link) && n < FrameCount(image) && link.device.expected == n
    requires link.script == CleanScript(FrameCount(image) - 1 - n) + [Fault(Some(junk), None)]
    ensures SendFrom(h, image, n, link).device.expected == FrameCount(image) - 1
    decreases FrameCount(image) - n
  {
    hide InStep, SendFrame, CollisionFree, SendFrom, FrameCount;
    CleanAttempt(h, image, n, link);
    SendFromNext(h, image, n, link);
    var next := SendFrame(h, image, n, link);
    var left := FrameCount(image) - 1 - n;
    if left == 0 {
      assert link.script[0] == Fault(Some(junk), None);
      SendFromDone(h, image, next);
    } else {
      assert Clean(link.script[0]);
      assert link.script[1..] == CleanScript(left - 1) + [Fault(Some(junk), None)];
      LosesLast(h, image, n + 1, next, junk);
    }
  }

  /** For every non-empty image there is a run with a single corrupted frame in which the sender
      reports no error and the device never finishes. */
  lemma LastFrameCanBeLost(h: Hash, image: Bytes, flash: map<nat, Byte>, junk: Bytes)
    requires CollisionFree(h, image) && Sendable(image) && image != [] && !Intact(h, junk)
    ensures FrameCount(image) >= 1
    ensures var script := CleanScript(FrameCount(image) - 1) + [Fault(Some(junk), None)];
      && AllDetectable(h, image, script) && InStep(h, image, Start(flash, script))
      && !Finish(h, image, SendFrom(h, image, 0, Start(flash, script))).device.done
  {
    FramesExist(h, image);
    var script := CleanScript(FrameCount(image) - 1) + [Fault(Some(junk), None)];
    forall i | 0 <= i < |script| ensures Detectable(h, image, script[i]) {
      if i < FrameCount(image) - 1 { assert Clean(script[i]); }
    }
    BootstrapOutcome(h, image, flash, script);
    LosesLast(h, image, 0, Start(flash, script), junk);
  }

  // ----- which fault loses the last frame ----------------------------------------------------

  /** The fault of the n-th transfer. */
  function FaultAt(script: seq<Fault>, n: nat): Fault
  {
    if n < |script| then script[n] else Fault(None, None)
  }

  /** The faults still to come are those of the script that the transfers so far have not met. */
  ghost predicate Aligned(script: seq<Fault>, link: Link)
  {
    link.script == if |link.sent| < |script| then script[|link.sent|..] else []
  }

  lemma AlignedNext(script: seq<Fault>, link: Link, next: Link)
    requires Aligned(script, link) && |next.sent| == |link.sent| + 1
    requires next.script == if link.script == [] then [] else link.script[1..]
    ensures Aligned(script, next) && NextFault(link) == FaultAt(script, |link.sent|)
  {}

  /** The last transfer carried this frame, and corrupted it. */
  ghost predicate LastCorrupted(script: seq<Fault>, link: Link, frame: Bytes)
  {
    var n := |link.sent| - 1;
    n >= 0 && link.sent[n] == frame && FaultAt(script, n).frame.Some?
  }

  lemma FramesDiffer(h: Hash, image: Bytes, n: nat)
    requires CollisionFree(h, image) && 0 < n < FrameCount(image)
    ensures DataFrames(h, image)[n - 1] != DataFrames(h, image)[n]
  {
    hide DataFrames;
    assert h(DataFrames(h, image)[n - 1]) != h(DataFrames(h, image)[n]);
  }

  /** The sender leaves the retry loop for frame n without the device having it exactly when the last
      transfer was of that frame and corrupted it. */
  lemma AttemptLoses(h: Hash, image: Bytes, n: nat, link: Link, script: seq<Fault>)
    requires Trying(h, image, n, link) && Aligned(script, link)
    ensures var fs := DataFrames(h, image); var (link', leave) := Attempt(h, fs[n - 1], fs[n], link);
      Aligned(script, link') && (leave ==> (link'.device.expected == n <==> LastCorrupted(script, link', fs[n])))
  {
    hide InStep, DataFrames, CollisionFree, FrameCount, Transfer, NextFault, Aligned;
    assert DigestSized(h) by { Assumed(h, image); }
    var fs := DataFrames(h, image);
    var link1 := Transfer(h, link, fs[n]).0;
    var link2 := Transfer(h, link1, fs[n - 1]).0;
    TransferData(h, image, link, n);
    TransferData(h, image, link1, n - 1);
    AlignedNext(script, link, link1);
    AlignedNext(script, link1, link2);
    FramesDiffer(h, image, n);
  }

  lemma {:induction false} RetryLoses(h: Hash, image: Bytes, n: nat, link: Link, script: seq<Fault>)
    requires Trying(h, image, n, link) && Aligned(script, link)
    ensures var r := Retry(h, image, n, link);
      Aligned(script, r) && (r.device.expected == n <==> LastCorrupted(script, r, DataFrames(h, image)[n]))
    decreases |link.script|, if link.device.expected == n - 1 then 1 else 0
  {
    var fs := DataFrames(h, image);
    AttemptStep(h, image, n, link);
    AttemptLoses(h, image, n, link, script);
    var (link', leave) := Attempt(h, fs[n - 1], fs[n], link);
    hide Trying, Attempt, DataFrames, LastCorrupted, Aligned;
    if !leave { RetryLoses(h, image, n, link', script); }
  }

  lemma FrameLoses(h: Hash, image: Bytes, n: nat, link: Link, script: seq<Fault>)
    requires CollisionFree(h, image) && InStep(h, image, link) && n < FrameCount(image)
    requires n - 1 <= link.device.expected <= n && Aligned(script, link)
    ensures var r := SendFrame(h, image, n, link);
      Aligned(script, r) && (r.device.expected == n <==> LastCorrupted(script, r, DataFrames(h, image)[n]))
  {
    hide InStep, CollisionFree, DataFrames, Retry, NextFault, Aligned, Transfer;
    if n == 0 {
      TransferData(h, image, link, 0);
      AlignedNext(script, link, SendFrame(h, image, 0, link));
    } else {
      RetryLoses(h, image, n, link, script);
    }
  }

  lemma {:induction false} SendLoses(h: Hash, image: Bytes, n: nat, link: Link, script: seq<Fault>)
    requires CollisionFree(h, image) && InStep(h, image, link) && n < FrameCount(image)
    requires n - 1 <= link.device.expected <= n && Aligned(script, link)
    ensures var r, last := SendFrom(h, image, n, link), FrameCount(image) - 1;
      Aligned(script, r) && (r.device.expected == last <==> LastCorrupted(script, r, DataFrames(h, image)[last]))
    decreases FrameCount(image) - n
  {
    hide SendFrame, InStep, CollisionFree, DataFrames, LastCorrupted, Aligned;
    FrameLoses(h, image, n, link, script);
    var next := SendFrame(h, image, n, link);
    if n + 1 < FrameCount(image) {
      SendLoses(h, image, n + 1, next, script);
    } else {
      SendFromDone(h, image, next);
    }
  }

  /** The fault that loses the last data frame: it is missing exactly when the last transfer of the
      sender's loop was of that frame and corrupted it. */
  lemma LastLostIff(h: Hash, image: Bytes, start: Link)
    requires CollisionFree(h, image) && InStep(h, image, start) && start.device.expected == 0 && start.sent == []
    ensures var l, fs := SendFrom(h, image, 0, start), DataFrames(h, image);
      && (l.device.expected == |fs| <==> !(|fs| > 0 && LastCorrupted(start.script, l, fs[|fs| - 1])))
      && NextFault(l) == FaultAt(start.script, |l.sent|)
  {
    hide CollisionFree, DataFrames, InStep, LastCorrupted, SendFrom, NextFault;
    assert Aligned(start.script, start);
    hide Aligned;
    var l := SendFrom(h, image, 0, start);
    StepBound(h, image, l);
    if FrameCount(image) > 0 {
      SendLoses(h, image, 0, start, start.script);
    } else {
      SendFromDone(h, image, start);
    }
    AlignedFault(start.script, l);
  }

  lemma StepBound(h: Hash, image: Bytes, link: Link)
    requires CollisionFree(h, image) && InStep(h, image, link)
    ensures link.device.expected <= FrameCount(image)
  {}

  /** So the device finishes unless that happens, or the transfer of the end frame is corrupted. */
  lemma FinishesIff(h: Hash, image: Bytes, flash: map<nat, Byte>, script: seq<Fault>)
    requires CollisionFree(h, image) && Sendable(image) && AllDetectable(h, image, script)
    ensures InStep(h, image, Start(flash, script))
    ensures var l, fs := SendFrom(h, image, 0, Start(flash, script)), DataFrames(h, image);
      Finish(h, image, l).device.done <==>
        !(|fs| > 0 && LastCorrupted(script, l, fs[|fs| - 1])) && FaultAt(script, |l.sent|).frame.None?
  {
    StartInStep(h, image, flash, script);
    hide Holds, AllDetectable, SendFrom, DataFrames, InStep, CollisionFree, LastCorrupted, NextFault;
    hide FaultAt, Sendable, Finish;
    BootstrapOutcome(h, image, flash, script);
    LastLostIff(h, image, Start(flash, script));
  }

  lemma AlignedFault(script: seq<Fault>, link: Link)
    requires Aligned(script, link)
    ensures NextFault(link) == FaultAt(script, |link.sent|)
  {}

  // ----- how many transfers ------------------------------------------------------------------

  function Faults(script: seq<Fault>): nat
  {
    if script == [] then 0 else (if Clean(script[0]) then 0 else 1) + Faults(script[1..])
  }

  /** Transfers that earlier faults still have in store for frame n. */
  function Debt(n: nat, expected: nat): nat
  {
    if expected == n - 1 then 2 else if expected == n + 1 then 1 else 0
  }

  function Cost(n: nat, link: Link): nat
  {
    |link.sent| + 2 * Faults(link.script) + Debt(n, link.device.expected)
  }

  lemma FaultsNext(link: Link)
    ensures Faults(link.script) ==
      Faults(if link.script == [] then [] else link.script[1..]) + if Clean(NextFault(link)) then 0 else 1
  {}

  lemma AttemptCost(h: Hash, image: Bytes, n: nat, link: Link)
    requires Trying(h, image, n, link)
    ensures var fs := DataFrames(h, image); var (link', leave) := Attempt(h, fs[n - 1], fs[n], link);
      if leave then Cost(n + 1, link') <= Cost(n, link) + 1 else Cost(n, link') <= Cost(n, link)
  {
    hide InStep, DataFrames, CollisionFree, FrameCount, Transfer, Faults, NextFault;
    assert DigestSized(h) by { Assumed(h, image); }
    var fs := DataFrames(h, image);
    var link1 := Transfer(h, link, fs[n]).0;
    TransferData(h, image, link, n);
    TransferData(h, image, link1, n - 1);
    FaultsNext(link);
    FaultsNext(link1);
  }

  lemma {:induction false} RetryCost(h: Hash, image: Bytes, n: nat, link: Link)
    requires Trying(h, image, n, link)
    ensures Cost(n + 1, Retry(h, image, n, link)) <= Cost(n, link) + 1
    decreases |link.script|, if link.device.expected == n - 1 then 1 else 0
  {
    var fs := DataFrames(h, image);
    AttemptStep(h, image, n, link);
    AttemptCost(h, image, n, link);
    var (link', leave) := Attempt(h, fs[n - 1], fs[n], link);
    hide Trying, Attempt, DataFrames, Cost;
    if !leave { RetryCost(h, image, n, link'); }
  }

  lemma FrameCost(h: Hash, image: Bytes, n: nat, link: Link)
    requires CollisionFree(h, image) && InStep(h, image, link) && n < FrameCount(image)
    requires n - 1 <= link.device.expected <= n
    ensures Cost(n + 1, SendFrame(h, image, n, link)) <= Cost(n, link) + 1
  {
    hide InStep, CollisionFree, DataFrames, Retry, NextFault, Faults;
    FaultsNext(link);
    if n == 0 { TransferData(h, image, link, 0); } else { RetryCost(h, image, n, link); }
  }

  lemma {:induction false} SendCost(h: Hash, image: Bytes, n: nat, link: Link)
    requires CollisionFree(h, image) && InStep(h, image, link) && n <= FrameCount(image)
    requires n - 1 <= link.device.expected <= n
    ensures Cost(FrameCount(image), SendFrom(h, image, n, link)) <= Cost(n, link) + (FrameCount(image) - n)
    decreases FrameCount(image) - n
  {
    hide SendFrame, InStep, Cost, CollisionFree;
    if n < FrameCount(image) {
      FrameCost(h, image, n, link);
      SendCost(h, image, n + 1, SendFrame(h, image, n, link));
    }
  }

  /** Every faulty transfer costs at most two more: a run over N chunks with F faults ends after at
      most N + 1 + 2 F transfers. */
  lemma TransfersBounded(h: Hash, image: Bytes, flash: map<nat, Byte>, script: seq<Fault>)
    requires CollisionFree(h, image) && Sendable(image) && AllDetectable(h, image, script)
    ensures InStep(h, image, Start(flash, script))
    ensures var r := Finish(h, image, SendFrom(h, image, 0, Start(flash, script)));
      |r.sent| <= ChunkCount(image) + 1 + 2 * Faults(script)
  {
    StartInStep(h, image, flash, script);
    FramesExist(h, image);
    SendCost(h, image, 0, Start(flash, script));
  }

  // ----- the program -------------------------------------------------------------------------

  /** The body of the loop over blocks: transmit, and retry until the previous frame is known to have
      arrived. */
  method SendBlock(h: Hash, ghost image: Bytes, ghost n: nat, prev: Option<Bytes>, frame: Bytes, start: Link)
    returns (link: Link)
    requires CollisionFree(h, image) && InStep(h, image, start) && n < FrameCount(image)
    requires n - 1 <= start.device.expected <= n
    requires frame == DataFrames(h, image)[n]
    requires prev == if n == 0 then None else Some(DataFrames(h, image)[n - 1])
    ensures link == SendFrame(h, image, n, start)
  {
    hide InStep, CollisionFree, DataFrames, FrameCount;
    link := start;
    if prev.None? {
      var (link1, _) := Transfer(h, link, frame);
      return link1;
    }
    while true
      invariant Trying(h, image, n, link) && Retry(h, image, n, link) == Retry(h, image, n, start)
      decreases |link.script|, if link.device.expected == n - 1 then 1 else 0
    {
      AttemptStep(h, image, n, link);
      var (link1, ack1) := Transfer(h, link, frame);
      if ack1 != h(prev.value) {
        var (link2, ack2) := Transfer(h, link1, prev.value);
        link := link2;
        if ack2 == h(frame) {
          break;
        }
      } else {
        link := link1;
        break;
      }
    }
  }

  lemma SendFromNext(h: Hash, image: Bytes, n: nat, link: Link)
    requires CollisionFree(h, image) && InStep(h, image, link) && n < FrameCount(image)
    requires n - 1 <= link.device.expected <= n
    ensures SendFrom(h, image, n, link) == SendFrom(h, image, n + 1, SendFrame(h, image, n, link))
  {
    hide InStep, CollisionFree, SendFrame;
  }

  lemma SendFromDone(h: Hash, image: Bytes, link: Link)
    requires CollisionFree(h, image) && InStep(h, image, link)
    requires FrameCount(image) - 1 <= link.device.expected <= FrameCount(image)
    ensures SendFrom(h, image, FrameCount(image), link) == link
  {
    hide InStep, CollisionFree, SendFrame;
  }

  /** The sender is about to send frame n, and has kept frame n - 1. */
  ghost predicate Sent(h: Hash, image: Bytes, start: Link, n: nat, prev: Option<Bytes>, link: Link)
  {
    && CollisionFree(h, image) && InStep(h, image, start) && start.device.expected == 0
    && n <= FrameCount(image)
    && prev == (if n == 0 then None else Some(DataFrames(h, image)[n - 1]))
    && InStep(h, image, link) && n - 1 <= link.device.expected <= n
    && SendFrom(h, image, n, link) == SendFrom(h, image, 0, start)
  }

  /** Makes and sends the frame of one block; None when the frame cannot be made. */
  method SendNext(h: Hash, ghost image: Bytes, ghost start: Link, n: nat, offset: nat, payload: Bytes,
                  prev: Option<Bytes>, link: Link) returns (frame: Option<Bytes>, after: Link)
    requires Sent(h, image, start, n, prev, link) && n < ChunkCount(image)
    requires offset == n * PAYLOAD_SIZE && payload == Chunk(image, n)
    ensures frame.Some? <==> n < FrameCount(image)
    ensures frame.Some? ==> Sent(h, image, start, n + 1, frame, after)
    ensures frame.None? ==> after == link
  {
    hide InStep, SendFrame, SendFrom, ChunkCount, FrameCount, Chunk, DataFrames;
    FramesExist(h, image);
    frame := MakeFrame(h, n, offset, payload);
    assert frame == DataFrame(h, image, n);
    hide MakeFrame, CollisionFree;
    after := link;
    if frame.Some? {
      SendFromNext(h, image, n, link);
      after := SendBlock(h, image, n, prev, frame.value, link);
    }
  }

  /** The loop over the blocks of the file; it stops early, with `made` false, at a block whose frame
      cannot be made. */
  method SendBlocks(h: Hash, image: Bytes, start: Link) returns (link: Link, frameNumber: nat, made: bool)
    requires CollisionFree(h, image) && InStep(h, image, start) && start.device.expected == 0
    ensures link == SendFrom(h, image, 0, start) && frameNumber == FrameCount(image)
    ensures made <==> FrameCount(image) == ChunkCount(image)
  {
    hide Sent, ChunkCount, FrameCount, Chunk, CollisionFree, InStep, SendFrom;
    frameNumber, link := 0, start;
    var flashOffset: nat := 0;
    var prevFrame: Option<Bytes> := None;
    SentNothing(h, image, start);
    var payload := ReadBlock(image, 0);
    while payload != []
      invariant Sent(h, image, start, frameNumber, prevFrame, link) && flashOffset == frameNumber * PAYLOAD_SIZE
      invariant if frameNumber < ChunkCount(image) then payload == Chunk(image, frameNumber) != [] else payload == []
      decreases ChunkCount(image) - frameNumber
    {
      var frame;
      frame, link := SendNext(h, image, start, frameNumber, flashOffset, payload, prevFrame, link);
      if frame.None? {
        SentAll(h, image, start, frameNumber, prevFrame, link);
        return link, frameNumber, false;
      }
      prevFrame := frame;
      frameNumber := frameNumber + 1;
      flashOffset := flashOffset + PAYLOAD_SIZE;
      payload := ReadBlock(image, frameNumber);
    }
    SentAll(h, image, start, frameNumber, prevFrame, link);
    return link, frameNumber, true;
  }

  lemma SentNothing(h: Hash, image: Bytes, start: Link)
    requires CollisionFree(h, image) && InStep(h, image, start) && start.device.expected == 0
    ensures Sent(h, image, start, 0, None, start)
  {
    hide InStep, CollisionFree, SendFrom;
  }

  lemma SentAll(h: Hash, image: Bytes, start: Link, n: nat, prev: Option<Bytes>, link: Link)
    requires Sent(h, image, start, n, prev, link)
    ensures n <= FrameCount(image)
    ensures n == FrameCount(image) ==> link == SendFrom(h, image, 0, start)
  {
    hide SendFrame, InStep, CollisionFree;
    if n == FrameCount(image) { SendFromDone(h, image, link); }
  }

  /** `SPIProgrammer.run`: sends the image block by block and then the end frame; `ok` is false when
      making a frame overflows. */
  method Run(h: Hash, image: Bytes, start: Link) returns (link: Link, ok: bool)
    requires CollisionFree(h, image) && InStep(h, image, start) && start.device.expected == 0
    ensures ok <==> Sendable(image)
    ensures link == if ok then Finish(h, image, SendFrom(h, image, 0, start)) else SendFrom(h, image, 0, start)
  {
    assert DigestSized(h);
    hide InStep, SendFrom, MakeFrame, Transfer, CollisionFree, FrameCount, ChunkCount, Sendable;
    var frameNumber, made;
    link, frameNumber, made := SendBlocks(h, image, start);
    EndExists(h, image);
    if !made {
      return link, false;
    }
    var end := MakeFrame(h, Marked(frameNumber), frameNumber * PAYLOAD_SIZE, []);
    if end.None? {
      return link, false;
    }
    var (finished, _) := Transfer(h, link, end.value);
    return finished, true;
  }

  /** The n-th `fw.read(PAYLOAD_SIZE)`, empty at the end of the file. */
  method ReadBlock(image: Bytes, n: nat) returns (payload: Bytes)
    ensures if n < ChunkCount(image) then payload == Chunk(image, n) != [] else payload == []
  {
    var pos := n * PAYLOAD_SIZE;
    if pos >= |image| {
      return [];
    }
    return if pos + PAYLOAD_SIZE <= |image| then image[pos..pos + PAYLOAD_SIZE] else image[pos..];
  }
}
