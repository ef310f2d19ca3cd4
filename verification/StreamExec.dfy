/** Streaming exec through the broker: a client, its stdin pump, the broker, the broker's stdin feeder and the child run
    side by side over two FIFO channels. */
module StreamExec {
  import opened Wrappers
  import opened Base64
  import Framing

  datatype Frame = Stdin(d: string) | StdinEof | Stdout(d: string) | Exit(code: int, timedOut: bool)

  datatype BrokerError = ClosedEarly | BadChunk | UnexpectedFrame | SinkFailed | TimedOut | ExecFailed

  // ----- the client's receive loop -----

  /** How the sink takes a write: entirely, or only the first `n` bytes before it fails; a flush may fail too. */
  datatype SinkOutcome = Taken | Broken(n: nat)

  /** The sink and, when the loop ends, the result after one received frame. */
  function Receive(sink: seq<Byte>, frame: Frame, outcome: SinkOutcome): (seq<Byte>, Option<Result<(), BrokerError>>) {
    match frame
    case Stdout(d) =>
      (match Decode(d)
       case None => (sink, Some(Err(BadChunk)))
       case Some(bytes) =>
         if outcome.Taken? then (sink + bytes, None)
         else (sink + bytes[..if outcome.n < |bytes| then outcome.n else |bytes|], Some(Err(SinkFailed))))
    case Exit(code, timedOut) =>
      if outcome.Broken? then (sink, Some(Err(SinkFailed)))
      else if code == 0 then (sink, Some(Ok(())))
      else if timedOut then (sink, Some(Err(TimedOut)))
      else (sink, Some(Err(ExecFailed)))
    case Stdin(_) => (sink, Some(Err(UnexpectedFrame)))
    case StdinEof => (sink, Some(Err(UnexpectedFrame)))
  }

  /** The whole loop over the frames that arrive before the connection closes. */
  function ReceiveAll(sink: seq<Byte>, frames: seq<Frame>, outcomes: nat -> SinkOutcome, i: nat)
    : (seq<Byte>, Result<(), BrokerError>)
    requires i <= |frames|
    decreases |frames| - i
  {
    if i == |frames| then (sink, Err(ClosedEarly))
    else
      var (next, done) := Receive(sink, frames[i], outcomes(i));
      if done.Some? then (next, done.value) else ReceiveAll(next, frames, outcomes, i + 1)
  }

  /** The receive loop of `exec_streamed`, over everything that arrives. */
  method ExecStreamed(frames: seq<Frame>, outcomes: nat -> SinkOutcome)
    returns (sink: seq<Byte>, result: Result<(), BrokerError>)
    ensures (sink, result) == ReceiveAll([], frames, outcomes, 0)
  {
    sink := [];
    var i := 0;
    while i < |frames|
      invariant 0 <= i <= |frames|
      invariant ReceiveAll(sink, frames, outcomes, i) == ReceiveAll([], frames, outcomes, 0)
    {
      var (next, done) := Receive(sink, frames[i], outcomes(i));
      sink := next;
      if done.Some? {
        return sink, done.value;
      }
      i := i + 1;
    }
    return sink, Err(ClosedEarly);
  }

  // ----- the broker's stdin feeder -----

  /** What the child's stdin has received and whether feeding goes on, after one frame from the client. */
  function Feed(fed: seq<Byte>, frame: Frame, outcome: SinkOutcome): (seq<Byte>, bool) {
    match frame
    case Stdin(d) =>
      (match Decode(d)
       case None => (fed, false)
       case Some(bytes) =>
         if |bytes| > Framing.CHUNK_PAYLOAD_MAX then (fed, false)
         else if outcome.Taken? then (fed + bytes, true)
         else (fed + bytes[..if outcome.n < |bytes| then outcome.n else |bytes|], false))
    case _ => (fed, false)
  }

  function FeedAll(fed: seq<Byte>, frames: seq<Frame>, outcomes: nat -> SinkOutcome, i: nat): seq<Byte>
    requires i <= |frames|
    decreases |frames| - i
  {
    if i == |frames| then fed
    else
      var (next, more) := Feed(fed, frames[i], outcomes(i));
      if more then FeedAll(next, frames, outcomes, i + 1) else next
  }

  method FeedStdin(frames: seq<Frame>, outcomes: nat -> SinkOutcome) returns (fed: seq<Byte>)
    ensures fed == FeedAll([], frames, outcomes, 0)
  {
    fed := [];
    var i := 0;
    while i < |frames|
      invariant 0 <= i <= |frames|
      invariant FeedAll(fed, frames, outcomes, i) == FeedAll([], frames, outcomes, 0)
    {
      var (next, more) := Feed(fed, frames[i], outcomes(i));
      fed := next;
      if !more {
        break;
      }
      i := i + 1;
    }
  }

  // ----- everything at once -----

  datatype Child = Alive | Exited(code: int) | Killed

  /** From the child to the client's sink. `produced` is all the child has written, `piped` what the broker has not read
      yet, `down` the frames in flight; the broker reads until it has sent its last frame or is gone. */
  datatype Output = Output(child: Child, stdoutOpen: bool, produced: seq<Byte>, piped: seq<Byte>, reading: bool,
                           down: seq<Frame>, sink: seq<Byte>, result: Option<Result<(), BrokerError>>)

  /** From the client's source to the child. `taken` bytes have left the source, `up` are the frames in flight, `fed` is
      what the child's stdin has received. */
  datatype Input = Input(source: seq<Byte>, taken: nat, pumping: bool, up: seq<Frame>, upOpen: bool, feeding: bool,
                         fed: seq<Byte>)

  datatype State = State(output: Output, input: Input)

  /** The request is accepted and the child spawned; without a source there is nothing to pump or feed. */
  function Start(source: Option<seq<Byte>>): State {
    State(Output(Alive, true, [], [], true, [], [], None),
          Input(if source.Some? then source.value else [], 0, source.Some?, [], true, source.Some?, []))
  }

  datatype Step = ChildWrites(bytes: seq<Byte>)
                | ChildClosesStdout
                | ChildExits(code: int)
                | BrokerForwards(n: nat, sent: bool)
                | BrokerReportsExit(sent: bool)
                | BrokerGivesUp(timedOut: bool, sent: bool)  // deadline or read error: the child is killed
                | BrokerDies
                | ClientTakes(outcome: SinkOutcome)
                | ClientSeesEnd
                | PumpSends(n: nat, sent: bool)
                | PumpEnds(sent: bool)                       // end of the source, or an error reading it
                | FeederTakes(outcome: SinkOutcome)
                | FeederSeesEnd

  function Kill(o: Output): Output {
    o.(child := if o.child == Alive then Killed else o.child, stdoutOpen := false)
  }

  /** The broker sends one last frame, or fails to, and is done with the client. */
  function LastFrame(o: Output, frame: Frame, sent: bool): Output {
    o.(reading := false, down := if sent then o.down + [frame] else o.down)
  }

  function Forward(o: Output, n: nat, sent: bool): Option<Output> {
    if !o.reading || n == 0 || n > |o.piped| || n > Framing.CHUNK_PAYLOAD_MAX then None
    else if sent then Some(o.(piped := o.piped[n..], down := o.down + [Stdout(Encode(o.piped[..n]))]))
    else Some(Kill(o).(piped := o.piped[n..], reading := false))
  }

  function Take(o: Output, outcome: SinkOutcome): Option<Output> {
    if o.result.Some? || o.down == [] then None
    else
      var (sink, done) := Receive(o.sink, o.down[0], outcome);
      Some(o.(sink := sink, down := o.down[1..], result := done))
  }

  function OutputAfter(o: Output, step: Step): Option<Output> {
    match step
    case ChildWrites(bytes) =>
      if o.child != Alive || !o.stdoutOpen then None
      else Some(o.(produced := o.produced + bytes, piped := o.piped + bytes))
    case ChildClosesStdout =>
      if o.child != Alive then None else Some(o.(stdoutOpen := false))
    case ChildExits(code) =>
      if o.child != Alive then None else Some(o.(child := Exited(code), stdoutOpen := false))
    case BrokerForwards(n, sent) => Forward(o, n, sent)
    case BrokerReportsExit(sent) =>
      if !o.reading || o.piped != [] || o.stdoutOpen || o.child == Alive then None
      else Some(LastFrame(o, Exit(if o.child.Exited? then o.child.code else -1, false), sent))
    case BrokerGivesUp(timedOut, sent) =>
      if !o.reading then None else Some(LastFrame(Kill(o), Exit(-1, timedOut), sent))
    case BrokerDies => Some(Kill(o).(reading := false))
    case ClientTakes(outcome) => Take(o, outcome)
    case ClientSeesEnd =>
      if o.result.Some? || o.down != [] || o.reading then None else Some(o.(result := Some(Err(ClosedEarly))))
    case _ => Some(o)
  }

  /** `over` tells that the client has its result: it aborts the pump and closes its side. */
  function InputAfter(i: Input, step: Step, over: bool): Option<Input> {
    match step
    case PumpSends(n, sent) =>
      if !i.pumping || n == 0 || n > Framing.CHUNK_PAYLOAD_MAX || i.taken + n > |i.source| then None
      else if sent then
        Some(i.(taken := i.taken + n, up := i.up + [Stdin(Encode(i.source[i.taken..i.taken + n]))]))
      else Some(i.(taken := i.taken + n, pumping := false, upOpen := false))
    case PumpEnds(sent) =>
      if !i.pumping then None
      else Some(i.(pumping := false, up := if sent then i.up + [StdinEof] else i.up, upOpen := sent))
    case FeederTakes(outcome) =>
      if !i.feeding || i.up == [] then None
      else
        var (fed, more) := Feed(i.fed, i.up[0], outcome);
        Some(i.(fed := fed, feeding := more, up := i.up[1..]))
    case FeederSeesEnd => if !i.feeding || i.up != [] || i.upOpen then None else Some(i.(feeding := false))
    case BrokerDies => Some(i.(feeding := false))
    case _ => Some(if over then i.(pumping := false, upOpen := false) else i)
  }

  function After(s: State, step: Step): Option<State> {
    var output := OutputAfter(s.output, step);
    if output.None? then None
    else
      var input := InputAfter(s.input, step, output.value.result.Some?);
      if input.None? then None else Some(State(output.value, input.value))
  }

  function Run(s: State, steps: seq<Step>): Option<State>
    decreases |steps|
  {
    if steps == [] then Some(s)
    else
      match After(s, steps[0])
      case None => None
      case Some(next) => Run(next, steps[1..])
  }

  // ----- data in flight -----

  function FrameData(frame: Frame): seq<Byte> {
    if frame.Stdout? || frame.Stdin? then
      match Decode(frame.d)
      case Some(bytes) => bytes
      case None => []
    else []
  }

  /** The bytes the frames in flight still carry. */
  function Payload(frames: seq<Frame>): seq<Byte> {
    if frames == [] then [] else FrameData(frames[0]) + Payload(frames[1..])
  }

  /** A chunk the other side can decode and accept. */
  ghost predicate IsChunk(frame: Frame) {
    (frame.Stdout? || frame.Stdin?) && Decode(frame.d).Some? && |Decode(frame.d).value| <= Framing.CHUNK_PAYLOAD_MAX
  }

  lemma {:induction false} PayloadPush(frames: seq<Frame>, frame: Frame)
    ensures Payload(frames + [frame]) == Payload(frames) + FrameData(frame)
  {
    hide FrameData;
    if frames == [] {
      assert frames + [frame] == [frame];
      assert Payload([frame]) == FrameData(frame) + Payload([]);
    } else {
      PayloadPush(frames[1..], frame);
      assert (frames + [frame])[1..] == frames[1..] + [frame];
    }
  }

  lemma NoData(frame: Frame)
    requires frame.Exit? || frame.StdinEof?
    ensures FrameData(frame) == []
  {
  }

  /** What one frame does to the sink. */
  lemma ReceiveEffect(sink: seq<Byte>, frame: Frame, outcome: SinkOutcome)
    requires frame.Stdout? && IsChunk(frame)
    ensures var (after, done) := Receive(sink, frame, outcome);
            && after <= sink + FrameData(frame)
            && (done.None? ==> after == sink + FrameData(frame))
            && (done.None? || done == Some(Err(SinkFailed)))
  {
    hide Decode;
    var bytes := Decode(frame.d).value;
    assert FrameData(frame) == bytes;
    var n := if outcome.Taken? || |bytes| <= outcome.n then |bytes| else outcome.n;
    assert sink + bytes[..n] <= sink + bytes;
  }

  lemma FeedEffect(fed: seq<Byte>, frame: Frame, outcome: SinkOutcome)
    ensures var (after, more) := Feed(fed, frame, outcome);
            && after <= fed + FrameData(frame)
            && (more ==> after == fed + FrameData(frame) && frame.Stdin?)
  {
    hide Decode;
    if frame.Stdin? && Decode(frame.d).Some? {
      var bytes := Decode(frame.d).value;
      assert FrameData(frame) == bytes;
      var n := if outcome.Taken? || |bytes| <= outcome.n then |bytes| else outcome.n;
      assert fed + bytes[..n] <= fed + bytes;
    }
  }

  /** The first frame carries the first of the bytes in flight. */
  lemma PayloadPop(before: seq<Byte>, frames: seq<Frame>)
    requires frames != []
    ensures before + Payload(frames) == (before + FrameData(frames[0])) + Payload(frames[1..])
  {
    hide FrameData;
  }

  /** Frames `i` to `n` are chunks that decode and that the sink takes. */
  ghost predicate AllTaken(frames: seq<Frame>, outcomes: nat -> SinkOutcome, i: nat, n: nat)
    requires i <= n <= |frames|
  {
    forall k: nat :: i <= k < n ==> frames[k].Stdout? && Decode(frames[k].d).Some? && outcomes(k).Taken?
  }

  /** Frame `n` reports a clean exit and the final flush works. */
  ghost predicate CleanExit(frames: seq<Frame>, outcomes: nat -> SinkOutcome, n: nat) {
    n < |frames| && frames[n].Exit? && frames[n].code == 0 && outcomes(n).Taken?
  }

  /** The receive loop succeeds exactly when it meets a clean exit after nothing but good chunks, and then the sink has
      gained exactly what they carry. */
  lemma {:induction false} OkMeansCleanExit(sink: seq<Byte>, frames: seq<Frame>, outcomes: nat -> SinkOutcome, i: nat)
    requires i <= |frames|
    ensures ReceiveAll(sink, frames, outcomes, i).1.Ok? <==>
            exists n :: i <= n < |frames| && AllTaken(frames, outcomes, i, n) && CleanExit(frames, outcomes, n)
    ensures forall n :: i <= n < |frames| && AllTaken(frames, outcomes, i, n) && CleanExit(frames, outcomes, n) ==>
              ReceiveAll(sink, frames, outcomes, i).0 == sink + Payload(frames[i..n])
    decreases |frames| - i
  {
    hide Decode;
    if i < |frames| {
      var (next, done) := Receive(sink, frames[i], outcomes(i));
      if done.None? {
        OkMeansCleanExit(next, frames, outcomes, i + 1);
        forall n | i + 1 <= n < |frames|
          ensures AllTaken(frames, outcomes, i, n) <==> AllTaken(frames, outcomes, i + 1, n)
          ensures sink + Payload(frames[i..n]) == next + Payload(frames[i + 1..n])
        {
          assert frames[i..n][1..] == frames[i + 1..n];
        }
      } else {
        forall n | i < n < |frames|
          ensures !AllTaken(frames, outcomes, i, n)
        {
        }
        assert frames[i..i] == [];
        assert AllTaken(frames, outcomes, i, i);
      }
    }
  }

  /** The receive loop ends at the first frame that is not a chunk the sink takes, with the answer that frame calls for, and
      has passed on all chunks before it. */
  lemma {:induction false} ReceivedExactly(sink: seq<Byte>, frames: seq<Frame>, outcomes: nat -> SinkOutcome, i: nat, n: nat)
    requires i <= n <= |frames| && AllTaken(frames, outcomes, i, n)
    ensures var (got, answer) := ReceiveAll(sink, frames, outcomes, i);
            var passed := sink + Payload(frames[i..n]);
            && (n == |frames| ==> got == passed && answer == Err(ClosedEarly))
            && (n < |frames| && (frames[n].Stdin? || frames[n].StdinEof?) ==>
                  got == passed && answer == Err(UnexpectedFrame))
            && (n < |frames| && frames[n].Stdout? && Decode(frames[n].d).None? ==>
                  got == passed && answer == Err(BadChunk))
            && (n < |frames| && frames[n].Stdout? && Decode(frames[n].d).Some? && outcomes(n).Broken? ==>
                  passed <= got <= passed + FrameData(frames[n]) && answer == Err(SinkFailed))
            && (n < |frames| && frames[n].Exit? ==>
                  && got == passed
                  && answer == (if outcomes(n).Broken? then Err(SinkFailed)
                                else if frames[n].code == 0 then Ok(())
                                else if frames[n].timedOut then Err(TimedOut) else Err(ExecFailed)))
    decreases n - i
  {
    hide Decode;
    if i < n {
      var next := sink + FrameData(frames[i]);
      assert Receive(sink, frames[i], outcomes(i)) == (next, None);
      assert AllTaken(frames, outcomes, i + 1, n);
      ReceivedExactly(next, frames, outcomes, i + 1, n);
      assert frames[i..n][1..] == frames[i + 1..n];
    } else {
      assert frames[i..n] == [] && sink + Payload(frames[i..n]) == sink;
      if n < |frames| && frames[n].Stdout? && Decode(frames[n].d).Some? && outcomes(n).Broken? {
        BrokenWrite(sink, frames, outcomes, n);
      }
    }
  }

  lemma BrokenWrite(sink: seq<Byte>, frames: seq<Frame>, outcomes: nat -> SinkOutcome, n: nat)
    requires n < |frames| && frames[n].Stdout? && Decode(frames[n].d).Some? && outcomes(n).Broken?
    ensures var (got, answer) := ReceiveAll(sink, frames, outcomes, n);
            sink <= got <= sink + FrameData(frames[n]) && answer == Err(SinkFailed)
  {
    hide Decode;
    var bytes := Decode(frames[n].d).value;
    assert FrameData(frames[n]) == bytes;
    var k := if outcomes(n).n < |bytes| then outcomes(n).n else |bytes|;
    assert sink + bytes[..k] <= sink + bytes;
  }

  /** A frame the feeder passes on: a chunk of stdin that decodes and is not too large. */
  ghost predicate GoodChunk(frame: Frame) {
    frame.Stdin? && Decode(frame.d).Some? && |Decode(frame.d).value| <= Framing.CHUNK_PAYLOAD_MAX
  }

  /** The feeder passes on every good chunk that the child takes, whole and in order, and stops at the first frame that is
      not a good chunk or at the first write that fails, of which some part may have arrived. */
  lemma {:induction false} FedExactly(fed: seq<Byte>, frames: seq<Frame>, outcomes: nat -> SinkOutcome, i: nat, n: nat)
    requires i <= n <= |frames|
    requires forall k: nat :: i <= k < n ==> GoodChunk(frames[k]) && outcomes(k).Taken?
    ensures n == |frames| || !GoodChunk(frames[n]) ==> FeedAll(fed, frames, outcomes, i) == fed + Payload(frames[i..n])
    ensures n < |frames| && GoodChunk(frames[n]) && outcomes(n).Broken? ==>
              var bytes := FrameData(frames[n]);
              FeedAll(fed, frames, outcomes, i)
              == fed + Payload(frames[i..n]) + bytes[..if outcomes(n).n < |bytes| then outcomes(n).n else |bytes|]
    decreases n - i
  {
    hide Decode;
    if i < n {
      var next := fed + FrameData(frames[i]);
      assert Feed(fed, frames[i], outcomes(i)) == (next, true);
      FedExactly(next, frames, outcomes, i + 1, n);
      assert frames[i..n][1..] == frames[i + 1..n];
    } else {
      assert frames[i..n] == [];
    }
  }

  /** Whatever the frames are, the child's stdin has received a prefix of what they carry. */
  lemma {:induction false} FedIsPrefix(fed: seq<Byte>, frames: seq<Frame>, outcomes: nat -> SinkOutcome, i: nat)
    requires i <= |frames|
    ensures FeedAll(fed, frames, outcomes, i) <= fed + Payload(frames[i..])
    decreases |frames| - i
  {
    hide Feed, FrameData;
    if i < |frames| {
      var (next, more) := Feed(fed, frames[i], outcomes(i));
      FeedEffect(fed, frames[i], outcomes(i));
      PayloadPop(fed, frames[i..]);
      assert frames[i..][1..] == frames[i + 1..];
      if more {
        FedIsPrefix(next, frames, outcomes, i + 1);
      }
    }
  }

  lemma ChunkData(bytes: seq<Byte>)
    requires |bytes| <= Framing.CHUNK_PAYLOAD_MAX
    ensures IsChunk(Stdout(Encode(bytes))) && FrameData(Stdout(Encode(bytes))) == bytes
    ensures IsChunk(Stdin(Encode(bytes))) && FrameData(Stdin(Encode(bytes))) == bytes
  {
    RoundTrip(bytes);
  }

  // ----- the output half -----

  ghost predicate AllStdout(frames: seq<Frame>) {
    forall i :: 0 <= i < |frames| ==> frames[i].Stdout? && IsChunk(frames[i])
  }

  ghost predicate EndsWithExit(frames: seq<Frame>) {
    |frames| > 0 && frames[|frames| - 1].Exit? && AllStdout(frames[..|frames| - 1])
  }

  /** While the client still receives: nothing is lost before the broker stops reading, and an exit report of zero
      travels behind everything the child will ever write. */
  ghost predicate Accounted(o: Output) {
    && o.sink + Payload(o.down) <= o.produced
    && (o.reading ==> o.sink + Payload(o.down) + o.piped == o.produced)
    && (o.down != [] && o.down[|o.down| - 1].Exit? && o.down[|o.down| - 1].code == 0 ==>
          o.child == Exited(0) && o.sink + Payload(o.down) == o.produced)
  }

  ghost predicate OutputInv(o: Output) {
    && (o.child != Alive ==> !o.stdoutOpen)
    && (AllStdout(o.down) || (!o.reading && EndsWithExit(o.down)))
    && o.sink <= o.produced
    && (o.result.None? ==> Accounted(o))
    && (o.result == Some(Ok(())) ==> o.child == Exited(0) && o.sink == o.produced)
    && o.result != Some(Err(BadChunk)) && o.result != Some(Err(UnexpectedFrame))
    && (o.result == Some(Err(ClosedEarly)) ==> !o.reading)
  }

  lemma ChildKeeps(o: Output, step: Step, next: Output)
    requires OutputInv(o) && OutputAfter(o, step) == Some(next)
    requires step.ChildWrites? || step.ChildClosesStdout? || step.ChildExits?
    ensures OutputInv(next)
  {
    hide Payload, AllStdout, EndsWithExit, Receive;
    if step.ChildWrites? {
      assert o.produced <= next.produced;
      assert o.sink + Payload(o.down) + next.piped == o.sink + Payload(o.down) + o.piped + step.bytes;
    }
  }

  lemma ForwardKeeps(o: Output, n: nat, sent: bool, next: Output)
    requires OutputInv(o) && Forward(o, n, sent) == Some(next)
    ensures OutputInv(next)
  {
    hide Payload, IsChunk, Encode, FrameData, Receive;
    var chunk := o.piped[..n];
    var frame := Stdout(Encode(chunk));
    ChunkData(chunk);
    PayloadPush(o.down, frame);
    assert o.piped == chunk + o.piped[n..];
    assert AllStdout(o.down);
    if sent {
      assert next.down == o.down + [frame];
      if o.result.None? {
        assert o.sink + (Payload(o.down) + chunk) + o.piped[n..] == o.sink + Payload(o.down) + o.piped;
      }
    }
  }

  /** The last frame, whatever it is, carries no data. */
  lemma LastFrameKeeps(o: Output, frame: Frame, sent: bool, next: Output)
    requires OutputInv(o) && o.reading && next == LastFrame(o, frame, sent)
    requires frame.Exit?
    requires frame.code == 0 && o.result.None? ==> o.child == Exited(0) && o.piped == []
    ensures OutputInv(next)
  {
    NoData(frame);
    hide Payload, IsChunk, FrameData, Receive;
    PayloadPush(o.down, frame);
    assert Payload(o.down) + [] == Payload(o.down);
    assert (o.down + [frame])[..|o.down|] == o.down;
    assert o.sink + Payload(o.down) + [] == o.sink + Payload(o.down);
  }

  lemma TakeKeeps(o: Output, outcome: SinkOutcome, next: Output)
    requires OutputInv(o) && Take(o, outcome) == Some(next)
    ensures OutputInv(next)
  {
    hide Payload, FrameData, IsChunk, Decode;
    var frame := o.down[0];
    PayloadPop(o.sink, o.down);
    if frame.Stdout? {
      ReceiveEffect(o.sink, frame, outcome);
      hide Receive;
      StdoutTaken(o, next);
    } else {
      NoData(frame);
      assert next.down == [];
      NothingInFlight();
      assert o.sink + [] + [] == o.sink;
    }
  }

  lemma NothingInFlight()
    ensures Payload([]) == []
  {
  }

  lemma StdoutTaken(o: Output, next: Output)
    requires OutputInv(o) && o.result.None? && o.down != [] && o.down[0].Stdout?
    requires next == o.(sink := next.sink, down := o.down[1..], result := next.result)
    requires var data := FrameData(o.down[0]);
             && next.sink <= o.sink + data
             && o.sink + Payload(o.down) == (o.sink + data) + Payload(next.down)
             && (next.result.None? ==> next.sink == o.sink + data)
    requires next.result.None? || next.result == Some(Err(SinkFailed))
    ensures OutputInv(next)
  {
    hide Payload, IsChunk, FrameData;
    assert next.sink <= o.produced;
    assert AllStdout(o.down) ==> AllStdout(next.down);
    if EndsWithExit(o.down) {
      assert next.down[|next.down| - 1] == o.down[|o.down| - 1];
      assert o.down[..|o.down| - 1][1..] == next.down[..|next.down| - 1];
    }
  }

  lemma OutputKeeps(o: Output, step: Step, next: Output)
    requires OutputInv(o) && OutputAfter(o, step) == Some(next)
    ensures OutputInv(next)
  {
    hide Payload, AllStdout, EndsWithExit, Receive, Forward, Take, LastFrame;
    match step
    case ChildWrites(_) => ChildKeeps(o, step, next);
    case ChildClosesStdout => ChildKeeps(o, step, next);
    case ChildExits(_) => ChildKeeps(o, step, next);
    case BrokerForwards(n, sent) => ForwardKeeps(o, n, sent, next);
    case BrokerReportsExit(sent) =>
      LastFrameKeeps(o, Exit(if o.child.Exited? then o.child.code else -1, false), sent, next);
    case BrokerGivesUp(timedOut, sent) =>
      KillKeeps(o);
      LastFrameKeeps(Kill(o), Exit(-1, timedOut), sent, next);
    case BrokerDies => KillKeeps(o);
    case ClientTakes(outcome) => TakeKeeps(o, outcome, next);
    case ClientSeesEnd =>
    case _ =>
  }

  lemma KillKeeps(o: Output)
    requires OutputInv(o)
    ensures OutputInv(Kill(o)) && OutputInv(Kill(o).(reading := false))
  {
    hide Payload, AllStdout, EndsWithExit;
  }

  // ----- the input half -----

  ghost predicate AllStdin(frames: seq<Frame>) {
    forall i :: 0 <= i < |frames| ==> frames[i].Stdin? && IsChunk(frames[i])
  }

  ghost predicate EndsWithEof(frames: seq<Frame>) {
    |frames| > 0 && frames[|frames| - 1].StdinEof? && AllStdin(frames[..|frames| - 1])
  }

  ghost predicate InputInv(i: Input) {
    && i.taken <= |i.source| && i.fed <= i.source
    && (AllStdin(i.up) || (!i.pumping && EndsWithEof(i.up)))
    && (i.feeding ==> i.fed + Payload(i.up) <= i.source[..i.taken])
    && (i.feeding && (i.pumping || EndsWithEof(i.up)) ==> i.fed + Payload(i.up) == i.source[..i.taken])
  }

  lemma PumpKeeps(i: Input, step: Step, over: bool, next: Input)
    requires InputInv(i) && InputAfter(i, step, over) == Some(next)
    requires step.PumpSends? || step.PumpEnds?
    ensures InputInv(next)
  {
    hide Payload, IsChunk, Feed, Encode, FrameData;
    assert i.source[..i.taken] <= i.source[..next.taken];
    if step.PumpSends? && step.sent {
      var chunk := i.source[i.taken..i.taken + step.n];
      ChunkData(chunk);
      PayloadPush(i.up, Stdin(Encode(chunk)));
      assert i.source[..i.taken] + chunk == i.source[..next.taken];
      assert i.fed + (Payload(i.up) + chunk) == i.fed + Payload(i.up) + chunk;
    } else if next.up != i.up {
      PayloadPush(i.up, StdinEof);
      NoData(StdinEof);
      assert Payload(i.up) + [] == Payload(i.up);
      assert next.up[..|i.up|] == i.up;
    }
  }

  lemma FeederKeeps(i: Input, outcome: SinkOutcome, over: bool, next: Input)
    requires InputInv(i) && InputAfter(i, FeederTakes(outcome), over) == Some(next)
    ensures InputInv(next)
  {
    hide Payload, IsChunk, FrameData, Feed;
    PayloadPop(i.fed, i.up);
    FeedEffect(i.fed, i.up[0], outcome);
    FedOn(i, next);
  }

  lemma FedOn(i: Input, next: Input)
    requires InputInv(i) && i.feeding && i.up != []
    requires next == i.(fed := next.fed, feeding := next.feeding, up := i.up[1..])
    requires var data := FrameData(i.up[0]);
             && next.fed <= i.fed + data
             && i.fed + Payload(i.up) == (i.fed + data) + Payload(next.up)
             && (next.feeding ==> next.fed == i.fed + data && i.up[0].Stdin?)
    ensures InputInv(next)
  {
    hide Payload, IsChunk, FrameData;
    assert i.source[..i.taken] <= i.source;
    if EndsWithEof(i.up) && |i.up| > 1 {
      assert next.up[|next.up| - 1] == i.up[|i.up| - 1];
      assert i.up[..|i.up| - 1][1..] == next.up[..|next.up| - 1];
    }
  }

  lemma InputKeeps(i: Input, step: Step, over: bool, next: Input)
    requires InputInv(i) && InputAfter(i, step, over) == Some(next)
    ensures InputInv(next)
  {
    hide Payload, AllStdin, EndsWithEof;
    match step
    case PumpSends(_, _) => PumpKeeps(i, step, over, next);
    case PumpEnds(_) => PumpKeeps(i, step, over, next);
    case FeederTakes(outcome) => FeederKeeps(i, outcome, over, next);
    case _ => { hide Feed, Encode; }
  }

  // ----- whole runs -----

  ghost predicate Inv(s: State) {
    OutputInv(s.output) && InputInv(s.input)
  }

  lemma {:induction false} RunKeeps(s: State, steps: seq<Step>)
    requires Inv(s) && Run(s, steps).Some?
    ensures Inv(Run(s, steps).value) && Run(s, steps).value.input.source == s.input.source
    decreases |steps|
  {
    hide OutputInv, InputInv, OutputAfter;
    if steps != [] {
      var next := After(s, steps[0]).value;
      OutputKeeps(s.output, steps[0], next.output);
      InputKeeps(s.input, steps[0], next.output.result.Some?, next.input);
      RunKeeps(next, steps[1..]);
    }
  }

  lemma StartHolds(source: Option<seq<Byte>>)
    ensures Inv(Start(source))
  {
  }

  /** In every interleaving, at every moment: the sink holds a prefix of what the child wrote, and the child's stdin a
      prefix of the source. */
  lemma NothingMisplaced(source: Option<seq<Byte>>, steps: seq<Step>)
    requires Run(Start(source), steps).Some?
    ensures var s := Run(Start(source), steps).value;
            && s.output.sink <= s.output.produced
            && s.input.fed <= if source.Some? then source.value else []
  {
    hide After, Run;
    StartHolds(source);
    RunKeeps(Start(source), steps);
  }

  /** Success means: the child exited with code zero and the sink holds exactly its whole output, to which nothing can
      be added in any continuation. */
  lemma SuccessIsComplete(source: Option<seq<Byte>>, steps: seq<Step>, more: seq<Step>)
    requires Run(Start(source), steps).Some?
    requires Run(Start(source), steps).value.output.result == Some(Ok(()))
    requires Run(Run(Start(source), steps).value, more).Some?
    ensures var s, t := Run(Start(source), steps).value.output, Run(Run(Start(source), steps).value, more).value.output;
            && s.child == Exited(0) && s.sink == s.produced
            && t.child == Exited(0) && t.produced == s.produced && t.sink == s.sink && t.result == s.result
  {
    hide After, Run;
    StartHolds(source);
    RunKeeps(Start(source), steps);
    Settled(Run(Start(source), steps).value, more);
  }

  /** A feeder that comes to the end marker has passed on all that was taken from the source: the whole of it when the pump
      reached its end. */
  lemma AllFedAtEof(source: seq<Byte>, steps: seq<Step>, outcome: SinkOutcome)
    requires Run(Start(Some(source)), steps).Some?
    requires var i := Run(Start(Some(source)), steps).value.input; i.feeding && i.up != [] && i.up[0].StdinEof?
    ensures var s := Run(Start(Some(source)), steps).value;
            var next := After(s, FeederTakes(outcome));
            && next.Some? && !next.value.input.feeding
            && s.input.taken <= |source| && next.value.input.fed == source[..s.input.taken]
            && (s.input.taken == |source| ==> next.value.input.fed == source)
  {
    hide Run, Payload;
    StartHolds(Some(source));
    RunKeeps(Start(Some(source)), steps);
    var i := Run(Start(Some(source)), steps).value.input;
    assert |i.up| == 1;
    EofPayload(i.up);
    assert i.fed + [] == i.fed;
    assert source[..|source|] == source;
  }

  lemma EofPayload(frames: seq<Frame>)
    requires |frames| == 1 && frames[0].StdinEof?
    ensures Payload(frames) == []
  {
  }

  /** After the client has its result and the child is gone, neither changes. */
  lemma {:induction false} Settled(s: State, more: seq<Step>)
    requires s.output.result.Some? && s.output.child.Exited? && Run(s, more).Some?
    ensures var o, t := s.output, Run(s, more).value.output;
            t.child == o.child && t.produced == o.produced && t.sink == o.sink && t.result == o.result
    decreases |more|
  {
    hide InputAfter;
    if more != [] {
      Settled(After(s, more[0]).value, more[1..]);
    }
  }

  /** The client never meets a chunk it cannot decode or a frame it does not expect, and it reports an early end only
      after the broker has stopped. */
  lemma ProtocolHolds(source: Option<seq<Byte>>, steps: seq<Step>)
    requires Run(Start(source), steps).Some?
    ensures var o := Run(Start(source), steps).value.output;
            && o.result != Some(Err(BadChunk)) && o.result != Some(Err(UnexpectedFrame))
            && (o.result == Some(Err(ClosedEarly)) ==> !o.reading)
  {
    hide After, Run;
    StartHolds(source);
    RunKeeps(Start(source), steps);
  }
}
