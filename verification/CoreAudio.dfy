/** The CoreAudio playback hand-off: a writer and the device's callback share a
    buffer under a mutex (audio_coreaudio.c:36-59, 366-406). Every step below is
    one access to shared state; any interleaving of the two is a run. F is the
    device's sample type: `scale` is the multiplication by 1.0 / SHRT_MAX with
    whatever rounding it has, and `zero` the padding. */
module CoreAudio {
  import opened CTypes

  const BUF_SIZE: nat := 4 * 1024

  function Scaled<F>(scale: int -> F, s: seq<int>): (r: seq<F>)
    ensures |r| == |s| && forall i :: 0 <= i < |s| ==> r[i] == scale(s[i])
  {
    seq(|s|, i requires 0 <= i < |s| => scale(s[i]))
  }

  /** The writer is between calls, waiting for the mutex or the condition, or
      copying sample i of n while it holds the mutex. */
  datatype Writer = Idle | Waiting | Copying(i: nat, n: nat)

  /** The callback is between calls, copying, or padding, holding the mutex. */
  datatype Callback = Away | Draining(k: nat) | Padding(k: nat)

  datatype State<F> = State(
    scale: int -> F,
    zero: F,
    buf: seq<F>,               // OutputDataBuf
    wrote: nat,                // OutputWroteSamples
    out: seq<F>,               // the device's buffer
    writer: Writer,
    callback: Callback,
    source: seq<int>,          // the samples of the current call
    size: nat,                 // buf_size
    remain: nat,               // remain_to_write, in bytes
    submitted: seq<int>,       // history: all samples passed to esd_audio_write
    played: seq<F>)            // history: all samples delivered, without padding

  datatype Step<F> =
    | Call(samples: seq<int>, odd: bool)   // esd_audio_write is called
    | WriterLock                           // lock, or wake up from the condition
    | WriterCopy
    | WriterUnlock
    | CallbackLock(out: seq<F>)            // the callback starts, with the device's buffer
    | CallbackCopy
    | CallbackPad
    | CallbackUnlock

  predicate Free<F>(s: State<F>) { !s.writer.Copying? && s.callback == Away }

  /** How far the source has been copied. */
  function Done<F>(s: State<F>): int { (s.size - s.remain) / 2 }

  function Apply<F>(s: State<F>, step: Step<F>): State<F> {
    match step
    case Call(samples, odd) =>
      if s.writer != Idle then s
      else
        var size := 2 * |samples| + if odd then 1 else 0;
        s.(source := samples, size := size, remain := size, submitted := s.submitted + samples,
           writer := if size == 0 then Idle else Waiting)
    case WriterLock =>
      if s.writer != Waiting || !Free(s) || s.wrote >= BUF_SIZE then s
      else s.(writer := Copying(0, Min(BUF_SIZE - s.wrote, s.remain / 2)))
    case WriterCopy =>
      if !s.writer.Copying? || s.writer.i >= s.writer.n then s
      else
        var i := s.writer.i;
        if s.wrote + i < |s.buf| && 0 <= Done(s) + i < |s.source| then
          s.(buf := s.buf[s.wrote + i := s.scale(s.source[Done(s) + i])], writer := Copying(i + 1, s.writer.n))
        else s
    case WriterUnlock =>
      if !s.writer.Copying? || s.writer.i < s.writer.n || s.remain < 2 * s.writer.n then s
      else
        var remain := s.remain - 2 * s.writer.n;
        s.(wrote := s.wrote + s.writer.n, remain := remain, writer := if remain == 0 then Idle else Waiting)
    case CallbackLock(out) =>
      if !Free(s) || |out| != BUF_SIZE then s else s.(callback := Draining(0), out := out)
    case CallbackCopy =>
      if !s.callback.Draining? then s
      else if s.callback.k >= s.wrote then s.(callback := Padding(s.callback.k))
      else if s.callback.k < |s.buf| && s.callback.k < |s.out| then
        s.(out := s.out[s.callback.k := s.buf[s.callback.k]], callback := Draining(s.callback.k + 1))
      else s
    case CallbackPad =>
      if !s.callback.Padding? || s.callback.k >= BUF_SIZE || s.callback.k >= |s.out| then s
      else s.(out := s.out[s.callback.k := s.zero], callback := Padding(s.callback.k + 1))
    case CallbackUnlock =>
      if !s.callback.Padding? || s.callback.k < BUF_SIZE || s.wrote > |s.out| then s
      else s.(wrote := 0, callback := Away, played := s.played + s.out[..s.wrote])
  }

  function Start<F>(scale: int -> F, zero: F, buf: seq<F>, out: seq<F>): State<F> {
    State(scale, zero, buf, 0, out, Idle, Away, [], 0, 0, [], [])
  }

  function Run<F>(s: State<F>, steps: seq<Step<F>>): State<F> {
    if |steps| == 0 then s else Apply(Run(s, steps[..|steps| - 1]), steps[|steps| - 1])
  }

  // ---- the invariant ----

  /** Samples of the current call not yet in the buffer's counted part. */
  function Outstanding<F>(s: State<F>): nat { s.remain / 2 }

  predicate Shape<F>(s: State<F>) {
    && |s.buf| == BUF_SIZE == |s.out| && s.wrote <= BUF_SIZE
    && !(s.writer.Copying? && s.callback != Away)
    && s.remain <= s.size && s.remain % 2 == s.size % 2 && |s.source| == s.size / 2
    && (s.writer == Idle <==> s.remain == 0)
    && |s.source| <= |s.submitted| && s.submitted[|s.submitted| - |s.source|..] == s.source
  }

  /** The i samples of source from d on, scaled, are in buf from w on. */
  ghost predicate Copied<F>(scale: int -> F, buf: seq<F>, w: nat, source: seq<int>, d: int, i: nat) {
    w + i <= |buf| && 0 <= d && d + i <= |source| && buf[w..w + i] == Scaled(scale, source[d..d + i])
  }

  /** What the writer has copied so far but not counted. */
  ghost predicate WriterAt<F>(s: State<F>)
    requires Shape(s)
  {
    s.writer.Copying? ==>
      var i, n := s.writer.i, s.writer.n;
      && i <= n && n == Min(BUF_SIZE - s.wrote, s.remain / 2)
      && Copied(s.scale, s.buf, s.wrote, s.source, Done(s), i)
  }

  /** What the callback has copied so far. */
  ghost predicate CallbackAt<F>(s: State<F>)
    requires Shape(s)
  {
    match s.callback
    case Away => true
    case Draining(k) => k <= s.wrote && s.out[..k] == s.buf[..k]
    case Padding(k) => s.wrote <= k <= BUF_SIZE && s.out[..s.wrote] == s.buf[..s.wrote]
                       && forall i :: s.wrote <= i < k ==> s.out[i] == s.zero
  }

  /** Everything delivered, followed by what is in the buffer, is everything
      submitted, scaled, but for what is still outstanding. */
  ghost predicate Conserved<F>(s: State<F>)
    requires Shape(s)
  {
    s.played + s.buf[..s.wrote] == Scaled(s.scale, s.submitted[..|s.submitted| - Outstanding(s)])
  }

  ghost predicate Inv<F>(s: State<F>) { Shape(s) && WriterAt(s) && CallbackAt(s) && Conserved(s) }

  lemma ScaledAppend<F>(scale: int -> F, a: seq<int>, b: seq<int>)
    ensures Scaled(scale, a + b) == Scaled(scale, a) + Scaled(scale, b)
  {
  }

  lemma CallKeeps<F>(s: State<F>, samples: seq<int>, odd: bool)
    requires Inv(s)
    ensures Inv(Apply(s, Call(samples, odd)))
  {
    var t := Apply(s, Call(samples, odd));
    if s.writer == Idle {
      assert t.submitted[|s.submitted|..] == samples;
      assert t.submitted[..|t.submitted| - Outstanding(t)] == s.submitted;
      assert s.submitted[..|s.submitted|] == s.submitted;
    }
  }

  lemma LockKeeps<F>(s: State<F>)
    requires Inv(s)
    ensures Inv(Apply(s, WriterLock))
  {
    var t := Apply(s, WriterLock);
    assert t.writer.Copying? ==> t.buf[t.wrote..t.wrote + 0] == [];
  }

  /** Storing one more sample extends the copied part by it. */
  lemma StoreNext<F>(scale: int -> F, buf: seq<F>, w: nat, i: nat, source: seq<int>, d: nat)
    requires w + i < |buf| && d + i < |source| && Copied(scale, buf, w, source, d, i)
    ensures var next := buf[w + i := scale(source[d + i])];
            next[..w] == buf[..w] && Copied(scale, next, w, source, d, i + 1)
  {
    var next := buf[w + i := scale(source[d + i])];
    assert next[w..w + i + 1] == buf[w..w + i] + [scale(source[d + i])];
    assert source[d..d + i + 1] == source[d..d + i] + [source[d + i]];
    ScaledAppend(scale, source[d..d + i], [source[d + i]]);
  }

  lemma CopyShape<F>(s: State<F>)
    requires Inv(s) && s.writer.Copying? && s.writer.i < s.writer.n
    ensures var t, i := Apply(s, WriterCopy), s.writer.i;
            && Shape(t) && s.wrote + i < |s.buf| && 0 <= Done(s) && Done(s) + i < |s.source|
            && t == s.(buf := s.buf[s.wrote + i := s.scale(s.source[Done(s) + i])], writer := Copying(i
               + 1, s.writer.n))
  {
    hide Copied, Conserved, CallbackAt;
  }

  lemma CopyAt<F>(s: State<F>)
    requires Inv(s) && s.writer.Copying? && s.writer.i < s.writer.n
    ensures var t := Apply(s, WriterCopy);
            && |t.buf| == |s.buf| && s.wrote <= |s.buf| && t.buf[..s.wrote] == s.buf[..s.wrote]
            && Shape(t) && WriterAt(t) && t == s.(buf := t.buf, writer := Copying(s.writer.i + 1, s.writer.n))
  {
    hide Copied, Conserved, CallbackAt, Apply;
    CopyShape(s);
    StoreNext(s.scale, s.buf, s.wrote, s.writer.i, s.source, Done(s));
  }

  lemma CopyKeeps<F>(s: State<F>)
    requires Inv(s)
    ensures Inv(Apply(s, WriterCopy))
  {
    if s.writer.Copying? && s.writer.i < s.writer.n {
      hide Apply, WriterAt, Scaled;
      CopyAt(s);
    }
  }

  /** Moving a stretch from the source to the buffer's counted part. */
  lemma Append<F>(scale: int -> F, played: seq<F>, buf: seq<F>, w: nat, n: nat, before: seq<int>, moved: seq<int>)
    requires w + n <= |buf| && played + buf[..w] == Scaled(scale, before) && buf[w..w + n] == Scaled(scale, moved)
    ensures played + buf[..w + n] == Scaled(scale, before + moved)
  {
    ScaledAppend(scale, before, moved);
    assert played + buf[..w + n] == played + buf[..w] + buf[w..w + n];
  }

  lemma UnlockShape<F>(s: State<F>)
    requires Inv(s) && s.writer.Copying? && s.writer.i == s.writer.n
    ensures var t := Apply(s, WriterUnlock);
            && Shape(t) && t == s.(wrote := s.wrote + s.writer.n, remain := t.remain, writer := t.writer)
            && !t.writer.Copying? && Outstanding(t) == Outstanding(s) - s.writer.n
  {
    hide Conserved, CallbackAt;
  }

  lemma UnlockConserves<F>(s: State<F>)
    requires Inv(s) && s.writer.Copying? && s.writer.i == s.writer.n && Shape(Apply(s, WriterUnlock))
    ensures Conserved(Apply(s, WriterUnlock))
  {
    hide Scaled, CallbackAt, Apply;
    var n, d := s.writer.n, Done(s);
    UnlockShape(s);
    SourceTail(s, n);
    Append(s.scale, s.played, s.buf, s.wrote, n, s.submitted[..|s.submitted| - Outstanding(s)], s.source[d..d + n]);
  }

  lemma UnlockKeeps<F>(s: State<F>)
    requires Inv(s)
    ensures Inv(Apply(s, WriterUnlock))
  {
    hide Scaled, Conserved;
    if s.writer.Copying? && s.writer.i == s.writer.n {
      UnlockShape(s);
      UnlockConserves(s);
    }
  }

  /** The next n samples of the call are the next n of what was submitted. */
  lemma SourceTail<F>(s: State<F>, n: nat)
    requires Shape(s) && 2 * n <= s.remain
    ensures var k := |s.submitted| - Outstanding(s);
            && 0 <= Done(s) && Done(s) + n <= |s.source| && 0 <= k && k + n <= |s.submitted|
            && s.submitted[..k + n] == s.submitted[..k] + s.source[Done(s)..Done(s) + n]
  {
    var base := |s.submitted| - |s.source|;
    var k := |s.submitted| - Outstanding(s);
    assert k == base + Done(s);
    assert s.source[Done(s)..Done(s) + n] == s.submitted[base..][Done(s)..Done(s) + n] == s.submitted[k..k + n];
  }

  /** Conservation does not speak of the device's buffer. */
  lemma SameConserved<F>(s: State<F>, t: State<F>)
    requires Shape(s) && Shape(t) && Conserved(s) && t == s.(out := t.out, callback := t.callback)
    ensures Conserved(t)
  {
  }

  lemma CallbackKeeps<F>(s: State<F>, step: Step<F>)
    requires Inv(s) && (step.CallbackLock? || step.CallbackCopy? || step.CallbackPad?)
    ensures Inv(Apply(s, step))
  {
    hide Conserved;
    var t := Apply(s, step);
    assert Conserved(t) by { SameConserved(s, t); }
    if step.CallbackCopy? && t.callback.Draining? && t != s {
      var k := s.callback.k;
      assert t.out[..k + 1] == s.out[..k] + [s.buf[k]];
      assert s.buf[..k + 1] == s.buf[..k] + [s.buf[k]];
    } else if step.CallbackPad? && t != s {
      assert t.out[..s.wrote] == s.out[..s.wrote];
    }
  }

  lemma DeliverKeeps<F>(s: State<F>)
    requires Inv(s)
    ensures Inv(Apply(s, CallbackUnlock))
  {
    var t := Apply(s, CallbackUnlock);
    if t != s {
      assert t.buf[..0] == [];
      assert (s.played + s.buf[..s.wrote]) + [] == s.played + s.buf[..s.wrote];
    }
  }

  lemma ApplyKeeps<F>(s: State<F>, step: Step<F>)
    requires Inv(s)
    ensures Inv(Apply(s, step))
  {
    hide Inv, Apply;
    match step
    case Call(samples, odd) => CallKeeps(s, samples, odd);
    case WriterLock => LockKeeps(s);
    case WriterCopy => CopyKeeps(s);
    case WriterUnlock => UnlockKeeps(s);
    case CallbackLock(_) => CallbackKeeps(s, step);
    case CallbackCopy => CallbackKeeps(s, step);
    case CallbackPad => CallbackKeeps(s, step);
    case CallbackUnlock => DeliverKeeps(s);
  }

  lemma ScaleFixed<F>(s: State<F>, step: Step<F>)
    ensures Apply(s, step).scale == s.scale && Apply(s, step).zero == s.zero
  {
  }

  lemma StartInv<F>(scale: int -> F, zero: F, buf: seq<F>, out: seq<F>)
    requires |buf| == BUF_SIZE == |out|
    ensures Inv(Start(scale, zero, buf, out))
  {
    assert buf[..0] == [];
  }

  /** Under every interleaving: the count stays within the buffer, and what was
      delivered followed by what is buffered is exactly what was written so far,
      scaled: nothing lost, repeated or reordered. */
  lemma {:induction false} EveryInterleaving<F>(scale: int -> F, zero: F, buf: seq<F>, out: seq<F>, steps: seq<Step<F>>)
    requires |buf| == BUF_SIZE == |out|
    ensures Inv(Run(Start(scale, zero, buf, out), steps))
    ensures var s := Run(Start(scale, zero, buf, out), steps);
            && s.wrote <= BUF_SIZE && s.scale == scale && s.zero == zero
            && s.played + s.buf[..s.wrote] == Scaled(scale, s.submitted[..|s.submitted| - Outstanding(s)])
  {
    hide Apply, WriterAt, CallbackAt;
    if |steps| > 0 {
      var s := Run(Start(scale, zero, buf, out), steps[..|steps| - 1]);
      EveryInterleaving(scale, zero, buf, out, steps[..|steps| - 1]);
      ApplyKeeps(s, steps[|steps| - 1]);
      ScaleFixed(s, steps[|steps| - 1]);
    } else {
      StartInv(scale, zero, buf, out);
    }
  }

  /** Each buffer handed to the device is the buffered samples followed by zeros. */
  lemma DeliveredBuffer<F>(s: State<F>)
    requires Inv(s) && s.callback == Padding(BUF_SIZE)
    ensures Apply(s, CallbackUnlock).played == s.played + s.buf[..s.wrote]
    ensures s.out[..s.wrote] == s.buf[..s.wrote] && forall i :: s.wrote <= i < BUF_SIZE ==> s.out[i] == s.zero
  {
  }

  // ---- what was submitted ----

  /** The samples of all calls made while no other was unfinished, in order. */
  function Calls<F>(s: State<F>, steps: seq<Step<F>>): seq<int> {
    if |steps| == 0 then []
    else
      var n := |steps| - 1;
      Calls(s, steps[..n])
      + if steps[n].Call? && Run(s, steps[..n]).writer == Idle then steps[n].samples else []
  }

  /** In every run the samples submitted are exactly those of the calls. */
  lemma {:induction false} SubmittedIs<F>(s: State<F>, steps: seq<Step<F>>)
    ensures Run(s, steps).submitted == s.submitted + Calls(s, steps)
  {
    hide Apply;
    if |steps| == 0 {
      assert s.submitted + [] == s.submitted;
    } else {
      var n := |steps| - 1;
      SubmittedIs(s, steps[..n]);
      var t := Run(s, steps[..n]);
      SubmitStep(t, steps[n]);
      Onward(s.submitted, Calls(s, steps[..n]), if steps[n].Call? && t.writer == Idle then steps[n].samples else []);
    }
  }

  lemma Onward(a: seq<int>, b: seq<int>, c: seq<int>)
    ensures a + b + c == a + (b + c)
  {
  }

  lemma SubmitStep<F>(t: State<F>, step: Step<F>)
    ensures Apply(t, step).submitted
         == t.submitted + if step.Call? && t.writer == Idle then step.samples else []
  {
    assert t.submitted + [] == t.submitted;
  }

  /** A call sets out to write all of its bytes. */
  lemma CallTaken<F>(s: State<F>, samples: seq<int>, odd: bool)
    requires s.writer == Idle
    ensures var t := Apply(s, Call(samples, odd));
            && t.source == samples && t.remain == t.size == 2 * |samples| + (if odd then 1 else 0)
            && (t.writer == Idle <==> samples == [] && !odd)
            && t.buf == s.buf && t.wrote == s.wrote && t.played == s.played
  {
  }

  /** A turn of the writer ends only when the buffer is full or the call has no whole
      sample left. */
  lemma TurnFills<F>(s: State<F>)
    requires Inv(s) && s.writer.Copying? && Apply(s, WriterUnlock) != s
    ensures Apply(s, WriterUnlock).wrote == BUF_SIZE || Apply(s, WriterUnlock).remain < 2
  {
    hide Conserved, CallbackAt;
  }

  /** The callback takes everything that is in the buffer. */
  lemma CallbackEmpties<F>(s: State<F>)
    requires Inv(s) && s.callback == Padding(BUF_SIZE)
    ensures Apply(s, CallbackUnlock).wrote == 0 && Apply(s, CallbackUnlock).callback == Away
  {
    hide Conserved, WriterAt;
  }

  // ---- progress of the writer ----

  /** Bounds the writer's own steps until the current call returns. */
  function WriterLeft<F>(s: State<F>): int {
    match s.writer
    case Idle => 0
    case Waiting => 3 * Outstanding(s)
    case Copying(i, n) => n - i + 1 + 3 * (Outstanding(s) - n)
  }

  predicate ByWriter<F>(step: Step<F>) { step.WriterLock? || step.WriterCopy? || step.WriterUnlock? }

  /** The steps of a run in which the writer moves. */
  ghost function WriterMoves<F>(s: State<F>, steps: seq<Step<F>>): nat {
    if |steps| == 0 then 0
    else
      var t := Run(s, steps[..|steps| - 1]);
      var last := steps[|steps| - 1];
      WriterMoves(s, steps[..|steps| - 1]) + if ByWriter(last) && Apply(t, last) != t then 1 else 0
  }

  predicate Even<F>(s: State<F>) { s.remain % 2 == 0 }

  lemma WriterStepCosts<F>(s: State<F>, step: Step<F>)
    requires Inv(s) && Even(s) && !step.Call?
    ensures var t := Apply(s, step);
            && Even(t) && WriterLeft(t) >= 0
            && WriterLeft(t) <= WriterLeft(s) - if ByWriter(step) && t != s then 1 else 0
  {
    hide CallbackAt, Conserved, Copied, Scaled;
  }

  /** Whatever the callback does in between, a call with an even number of
      bytes takes at most three steps per sample. */
  lemma {:induction false} WriterBounded<F>(s: State<F>, steps: seq<Step<F>>)
    requires Inv(s) && Even(s) && forall step <- steps :: !step.Call?
    ensures Inv(Run(s, steps)) && Even(Run(s, steps))
    ensures WriterMoves(s, steps) + WriterLeft(Run(s, steps)) <= WriterLeft(s)
  {
    hide Inv, Apply, Even, WriterLeft;
    if |steps| > 0 {
      var t := Run(s, steps[..|steps| - 1]);
      WriterBounded(s, steps[..|steps| - 1]);
      WriterStepCosts(t, steps[|steps| - 1]);
      ApplyKeeps(t, steps[|steps| - 1]);
    }
  }

  /** No deadlock: while a call is unfinished either the writer can move or the
      callback can, and a callback that has finished lets the writer move. */
  lemma NoDeadlock<F>(s: State<F>)
    requires Inv(s) && s.writer != Idle
    ensures s.writer.Copying? ==> Apply(s, WriterCopy) != s || Apply(s, WriterUnlock) != s
    ensures s.writer == Waiting && s.callback == Away ==>
              if s.wrote < BUF_SIZE then Apply(s, WriterLock) != s else Apply(s, CallbackLock(s.out)) != s
    ensures s.callback != Away ==>
              Apply(s, CallbackCopy) != s || Apply(s, CallbackPad) != s || Apply(s, CallbackUnlock) != s
  {
    hide Conserved;
    if s.writer.Copying? && s.writer.i < s.writer.n {
      assert Apply(s, WriterCopy).writer.i == s.writer.i + 1;
    }
  }

  // ---- a call returns exactly when it has an even number of bytes ----

  /** Steps until the callback is away. */
  function CallbackLeft<F>(s: State<F>): nat {
    match s.callback
    case Away => 0
    case Draining(k) => if k <= BUF_SIZE then 2 * (BUF_SIZE - k) + 3 else 3
    case Padding(k) => if k <= BUF_SIZE then BUF_SIZE - k + 1 else 1
  }

  /** The callback, once started, always has a next step, and it comes closer to
      its end with each. */
  lemma CallbackStep<F>(s: State<F>) returns (step: Step<F>)
    requires Inv(s) && s.callback != Away
    ensures step.CallbackCopy? || step.CallbackPad? || step.CallbackUnlock?
    ensures CallbackLeft(Apply(s, step)) < CallbackLeft(s)
    ensures Apply(s, step).writer == s.writer && Apply(s, step).remain == s.remain
    ensures Apply(s, step).wrote == (if Apply(s, step).callback == Away then 0 else s.wrote)
  {
    hide Conserved, WriterAt;
    match s.callback
    case Draining(k) => step := CallbackCopy;
    case Padding(k) => step := if k < BUF_SIZE then CallbackPad else CallbackUnlock;
  }

  /** The writer, when nobody is in its way, always has a next step. */
  lemma WriterStep<F>(s: State<F>) returns (step: Step<F>)
    requires Inv(s) && Even(s) && s.writer != Idle && s.callback == Away
    requires s.writer == Waiting ==> s.wrote != BUF_SIZE
    ensures ByWriter(step) && Apply(s, step) != s
  {
    hide Conserved, CallbackAt;
    match s.writer
    case Waiting => step := WriterLock;
    case Copying(i, n) =>
      step := if i < n then WriterCopy else WriterUnlock;
      if i < n { assert Apply(s, WriterCopy).writer.i == i + 1; }
  }

  /** A run may also be taken apart at its first step. */
  lemma {:induction false} RunCons<F>(s: State<F>, step: Step<F>, steps: seq<Step<F>>)
    ensures Run(s, [step] + steps) == Run(Apply(s, step), steps)
  {
    hide Apply;
    if |steps| == 0 {
      assert [step] + steps == [step] && [step][..0] == [];
      assert Run(s, [step]) == Apply(Run(s, []), step);
    } else {
      var n := |steps| - 1;
      RunCons(s, step, steps[..n]);
      assert ([step] + steps)[..n + 1] == [step] + steps[..n];
    }
  }

  /** What the schedule does next: finish a callback that is under way, start one
      when the buffer is full, and let the writer move otherwise. */
  lemma NextStep<F>(s: State<F>) returns (step: Step<F>)
    requires Inv(s) && Even(s) && s.writer != Idle
    ensures !step.Call? && Even(Apply(s, step))
    ensures WriterLeft(Apply(s, step)) >= 0
    ensures WriterLeft(Apply(s, step)) < WriterLeft(s)
         || (WriterLeft(Apply(s, step)) == WriterLeft(s) && TurnLeft(Apply(s, step)) < TurnLeft(s))
  {
    hide Conserved, WriterAt, CallbackAt, Apply;
    if s.callback != Away {
      step := CallbackStep(s);
      WriterStepCosts(s, step);
      SameLeft(s, Apply(s, step));
    } else if s.writer == Waiting && s.wrote == BUF_SIZE {
      step := CallbackLock(s.out);
      WriterStepCosts(s, step);
      CallbackStarts(s);
    } else {
      step := WriterStep(s);
      WriterStepCosts(s, step);
    }
  }

  /** The callback's steps until the buffer is empty, counting its start. */
  function TurnLeft<F>(s: State<F>): nat {
    CallbackLeft(s) + if s.wrote == BUF_SIZE && s.callback == Away then 2 * BUF_SIZE + 4 else 0
  }

  lemma SameLeft<F>(s: State<F>, t: State<F>)
    requires s.writer == t.writer && s.remain == t.remain && s.callback != Away
    requires CallbackLeft(t) < CallbackLeft(s) && (t.callback == Away ==> t.wrote == 0)
    ensures WriterLeft(t) == WriterLeft(s) && TurnLeft(t) < TurnLeft(s)
  {
  }

  lemma CallbackStarts<F>(s: State<F>)
    requires Inv(s) && s.writer == Waiting && s.callback == Away && s.wrote == BUF_SIZE
    ensures var t := Apply(s, CallbackLock(s.out));
            WriterLeft(t) == WriterLeft(s) && TurnLeft(t) < TurnLeft(s)
  {
    hide Conserved, WriterAt, CallbackAt;
  }

  /** From wherever an even call stands, there is a way for it to return. */
  lemma EvenReturns<F>(s: State<F>) returns (steps: seq<Step<F>>)
    requires Inv(s) && Even(s)
    ensures (forall step <- steps :: !step.Call?) && Run(s, steps).writer == Idle
    decreases WriterLeft(s), TurnLeft(s)
  {
    hide Inv, Even, Apply, WriterLeft, TurnLeft;
    if s.writer == Idle {
      steps := [];
    } else {
      var step := NextStep(s);
      ApplyKeeps(s, step);
      var rest := EvenReturns(Apply(s, step));
      steps := [step] + rest;
      RunCons(s, step, rest);
    }
  }

  /** And whatever the schedule, an even call has returned once the writer has
      moved three times a sample. */
  lemma FairReturns<F>(s: State<F>, steps: seq<Step<F>>)
    requires Inv(s) && Even(s) && (forall step <- steps :: !step.Call?)
    requires WriterMoves(s, steps) >= WriterLeft(s)
    ensures Run(s, steps).writer == Idle
  {
    hide Run, WriterMoves;
    WriterBounded(s, steps);
    IdleWhenDone(Run(s, steps));
  }

  lemma IdleWhenDone<F>(s: State<F>)
    requires Inv(s) && Even(s) && WriterLeft(s) <= 0
    ensures s.writer == Idle
  {
    hide Conserved, CallbackAt;
  }

  /** The unfinished call of s can return. */
  ghost predicate CanReturn<F(!new)>(s: State<F>) {
    exists steps: seq<Step<F>> :: (forall step <- steps :: !step.Call?) && Run(s, steps).writer == Idle
  }

  /** A call returns exactly when its number of bytes is even. */
  lemma ReturnsIff<F(!new)>(s: State<F>)
    requires Inv(s)
    ensures CanReturn(s) <==> Even(s)
  {
    hide Inv;
    if Even(s) {
      var steps := EvenReturns(s);
    } else if CanReturn(s) {
      var steps: seq<Step<F>> :| (forall step <- steps :: !step.Call?) && Run(s, steps).writer == Idle;
      OddNeverReturns(s, steps);
    }
  }

  /** So of the calls esd_audio_write can be given, those of even size return. */
  lemma CallReturnsIff<F(!new)>(s: State<F>, samples: seq<int>, odd: bool)
    requires Inv(s) && s.writer == Idle
    ensures CanReturn(Apply(s, Call(samples, odd))) <==> !odd
  {
    hide Inv, CanReturn;
    ApplyKeeps(s, Call(samples, odd));
    ReturnsIff(Apply(s, Call(samples, odd)));
  }

  /** A single byte, written to a fresh device, is one that does not. */
  lemma OneByteHangs<F(!new)>(scale: int -> F, zero: F, buf: seq<F>, out: seq<F>)
    requires |buf| == BUF_SIZE == |out|
    ensures !CanReturn(Apply(Start(scale, zero, buf, out), Call([], true)))
  {
    hide Inv, Apply, CanReturn;
    StartInv(scale, zero, buf, out);
    CallReturnsIff(Start(scale, zero, buf, out), [], true);
  }

  /** A call with an odd number of bytes never returns. */
  lemma {:induction false} OddNeverReturns<F>(s: State<F>, steps: seq<Step<F>>)
    requires Inv(s) && s.remain % 2 == 1
    ensures Inv(Run(s, steps)) && Run(s, steps).remain % 2 == 1 && Run(s, steps).writer != Idle
  {
    hide Inv, Apply;
    if |steps| > 0 {
      OddNeverReturns(s, steps[..|steps| - 1]);
      OddStep(Run(s, steps[..|steps| - 1]), steps[|steps| - 1]);
    } else {
      OddBusy(s);
    }
  }

  lemma OddBusy<F>(s: State<F>)
    requires Inv(s) && s.remain % 2 == 1
    ensures s.writer != Idle
  {
  }

  lemma OddStep<F>(s: State<F>, step: Step<F>)
    requires Inv(s) && s.remain % 2 == 1
    ensures var t := Apply(s, step); Inv(t) && t.remain % 2 == 1 && t.writer != Idle
  {
    hide WriterAt, CallbackAt, Conserved;
    ApplyKeeps(s, step);
  }
}
