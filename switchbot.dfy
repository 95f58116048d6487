/**
 * The bot handle and its two operations: `ScanSwitchBot`, which binds a
 * handle to the first advertisement whose address matches the configured
 * one, and `TurnOn`, which connects, resolves the vendor service and its two
 * characteristics, subscribes to notifications and writes the command, in one
 * attempt, releasing the connection on every way out.
 */
module Switchbot {
  import opened Basics
  import opened Gatt
  import opened AddressMatch
  import opened Radio

  /** The bot, bound once to the address found while scanning. */
  datatype SwitchBot = SwitchBot(address: string)

  // ---------------------------------------------------------------- scanning

  datatype ScanError =
    | EnableFailed(cause: TransportError)
    | StartScanFailed(cause: TransportError)
    | StopScanFailed(cause: TransportError)
    | ScanTimeout
    | ScanFailed(cause: TransportError)

  /** `text` is a non-empty description followed by `": "` and then `inner`. */
  predicate Wraps(text: string, inner: string)
  {
    |text| > |inner| + 2 && text[|text| - |inner| - 2..] == ": " + inner
  }

  /** An error text that wraps `inner` after the description `prefix`. */
  function Wrap(prefix: string, inner: string): (r: string)
    requires prefix != []
    ensures Wraps(r, inner) && |prefix| < |r| && r[..|prefix|] == prefix
  {
    prefix + ": " + inner
  }

  /** The adapter error a scanning error wraps; a timeout wraps none. */
  function ScanCause(e: ScanError): Option<TransportError>
  {
    if e.ScanTimeout? then None else Some(e.cause)
  }

  /** The text of each scanning error: a wrapped adapter error keeps its own text at the end. */
  function ScanMessage(e: ScanError): (r: string)
    ensures ScanCause(e).Some? ==> Wraps(r, ScanCause(e).value)
    ensures ScanCause(e).None? ==> ':' !in r
  {
    match e
    case EnableFailed(cause) => Wrap("enable BLE stack", cause)
    case StartScanFailed(cause) => Wrap("start scan", cause)
    case StopScanFailed(cause) => Wrap("stop scan", cause)
    case ScanTimeout => "scan timeout"
    case ScanFailed(cause) => Wrap("scan error", cause)
  }

  /** The position of the first advertisement from position `from` on whose address matches, if any. */
  function FirstMatch(advertised: seq<string>, configured: string, from: nat): (r: Option<nat>)
    requires from <= |advertised|
    ensures r.Some? ==> from <= r.value < |advertised| && Matches(advertised[r.value], configured)
    ensures r.Some? ==> forall j :: from <= j < r.value ==> !Matches(advertised[j], configured)
    ensures r.None? ==> forall j :: from <= j < |advertised| ==> !Matches(advertised[j], configured)
    decreases |advertised| - from
  {
    if from == |advertised| then None
    else if Matches(advertised[from], configured) then Some(from)
    else FirstMatch(advertised, configured, from + 1)
  }

  /** The result of a scan and the calls it made. */
  datatype ScanAttempt = ScanAttempt(result: Result<SwitchBot, ScanError>, calls: seq<Call>)

  /** What `ScanSwitchBot` does against the adapter script `s`. */
  function ScanRun(s: Script, address: string): (r: ScanAttempt)
    ensures s.enable.Some? ==>
      r.result == Failure(EnableFailed(s.enable.value)) && Call.Scan !in r.calls && Call.StopScan !in r.calls
    ensures Call.StopScan in r.calls <==> s.enable.None? && s.scan.None?
    ensures r.result.Success? <==>
      && s.enable.None? && s.scan.None? && s.stopScan.None?
      && exists i :: 0 <= i < |s.advertised| && Matches(s.advertised[i], address)
    ensures r.result.Success? ==>
      exists i :: && 0 <= i < |s.advertised|
                  && r.result.value.address == s.advertised[i]
                  && Matches(s.advertised[i], address)
                  && forall j :: 0 <= j < i ==> !Matches(s.advertised[j], address)
    ensures r.result == Failure(ScanTimeout) <==>
      && s.enable.None? && s.scan.None? && s.stopScan.None?
      && forall i :: 0 <= i < |s.advertised| ==> !Matches(s.advertised[i], address)
  {
    if s.enable.Some? then ScanAttempt(Failure(EnableFailed(s.enable.value)), [Call.Enable])
    else if s.scan.Some? then ScanAttempt(Failure(StartScanFailed(s.scan.value)), [Call.Enable, Call.Scan])
    else
      var calls := [Call.Enable, Call.Scan, Call.StopScan];
      match FirstMatch(s.advertised, address, 0)
      case Some(i) =>
        ScanAttempt(if s.stopScan.Some? then Failure(ScanFailed(s.stopScan.value))
                    else Success(SwitchBot(s.advertised[i])), calls)
      case None =>
        ScanAttempt(Failure(if s.stopScan.Some? then StopScanFailed(s.stopScan.value) else ScanTimeout), calls)
  }

  /**
   * Enables the adapter, scans, and binds a handle to the first advertisement
   * that matches `address`; scanning is stopped once, on a match or at the
   * deadline.
   */
  method ScanSwitchBot(radio: Adapter, address: string) returns (r: Result<SwitchBot, ScanError>)
    modifies radio
    ensures radio.trace == old(radio.trace) + ScanRun(radio.script, address).calls
    ensures r == ScanRun(radio.script, address).result
  {
    var err := radio.Enable();
    if err.Some? {
      return Failure(EnableFailed(err.value));
    }
    var seen;
    err, seen := radio.Scan();
    if err.Some? {
      return Failure(StartScanFailed(err.value));
    }
    var hit := FirstMatch(seen, address, 0);
    err := radio.StopScan();
    match hit {
      case Some(i) =>
        if err.Some? {
          return Failure(ScanFailed(err.value));
        }
        r := Success(SwitchBot(seen[i]));
      case None =>
        if err.Some? {
          return Failure(StopScanFailed(err.value));
        }
        r := Failure(ScanTimeout);
    }
  }

  // ---------------------------------------------------------------- context

  /** The four points where `TurnOn` looks at its context, in order. */
  datatype Check = BeforeDiscoverServices | BeforeDiscoverCharacteristics | BeforeEnableNotifications | BeforeWriteCommand
  {
    /** The stage (see `Stage`) of the call this check guards. */
    function Guards(): nat
    {
      match this
      case BeforeDiscoverServices => 1
      case BeforeDiscoverCharacteristics => 2
      case BeforeEnableNotifications => 3
      case BeforeWriteCommand => 4
    }

    function Name(): string
    {
      match this
      case BeforeDiscoverServices => "discover services"
      case BeforeDiscoverCharacteristics => "discover characteristics"
      case BeforeEnableNotifications => "enable notifications"
      case BeforeWriteCommand => "write command"
    }
  }

  datatype ContextCause = Canceled | DeadlineExceeded
  {
    function Message(): string
    {
      match this
      case Canceled => "context canceled"
      case DeadlineExceeded => "context deadline exceeded"
    }
  }

  /**
   * The caller's context: once done it stays done. `doneFrom` is the first
   * check at which it is seen done (`None`: never during this call).
   */
  datatype Context = Context(doneFrom: Option<Check>, cause: ContextCause)
  {
    predicate DoneAt(c: Check)
    {
      doneFrom.Some? && doneFrom.value.Guards() <= c.Guards()
    }
  }

  // ---------------------------------------------------------------- turning on

  datatype TurnOnError =
    | ConnectFailed(cause: TransportError)
    | Cancelled(before: Check, reason: ContextCause)
    | DiscoverServicesFailed(cause: TransportError)
    | NoBotService
    | DiscoverCharacteristicsFailed(cause: TransportError)
    | CharacteristicNotFound
    | EnableNotificationFailed(cause: TransportError)
    | WriteCommandFailed(cause: TransportError)

  /** The error a `TurnOn` error wraps: the adapter's, or the context's for a cancellation. */
  function Wrapped(e: TurnOnError): Option<string>
  {
    match e
    case Cancelled(_, reason) => Some(reason.Message())
    case NoBotService => None
    case CharacteristicNotFound => None
    case _ => Some(e.cause)
  }

  /** The text of each error `TurnOn` returns: a wrapped error keeps its own text at the end. */
  function Message(e: TurnOnError): (r: string)
    ensures Wrapped(e).Some? ==> Wraps(r, Wrapped(e).value)
    ensures Wrapped(e).None? ==> ':' !in r
  {
    match e
    case ConnectFailed(cause) => Wrap("connect to device", cause)
    case Cancelled(before, reason) => Wrap("before " + before.Name(), reason.Message())
    case DiscoverServicesFailed(cause) => Wrap("discover services", cause)
    case NoBotService => "no bot service found"
    case DiscoverCharacteristicsFailed(cause) => Wrap("discover characteristics", cause)
    case CharacteristicNotFound => "characteristic not found"
    case EnableNotificationFailed(cause) => Wrap("enable notification", cause)
    case WriteCommandFailed(cause) => Wrap("write command", cause)
  }

  /** Two wrappings of the same description read alike only when they wrap the same text. */
  lemma WrapKeepsInner(prefix: string, inner: string, inner': string)
    requires prefix != []
    requires Wrap(prefix, inner) == Wrap(prefix, inner')
    ensures inner == inner'
  {
    assert Wrap(prefix, inner)[|prefix| + 2..] == inner;
  }

  /**
   * The first letters of an error text tell the connect, cancellation,
   * no-service and no-characteristic errors from every other error.
   */
  lemma MessageLeadOpening(e: TurnOnError)
    ensures |Message(e)| > 9
    ensures e.ConnectFailed? <==> Message(e)[0] == 'c' && Message(e)[1] == 'o'
    ensures e.CharacteristicNotFound? <==> Message(e)[0] == 'c' && Message(e)[1] == 'h'
    ensures e.Cancelled? <==> Message(e)[0] == 'b'
    ensures e.NoBotService? <==> Message(e)[0] == 'n'
  {
    var m := Message(e);
    match e
    case ConnectFailed(_) => assert m[0] == 'c' && m[1] == 'o';
    case Cancelled(_, _) => assert m[0] == 'b';
    case DiscoverServicesFailed(_) => assert m[0] == 'd';
    case NoBotService =>
    case DiscoverCharacteristicsFailed(_) => assert m[0] == 'd';
    case CharacteristicNotFound =>
    case EnableNotificationFailed(_) => assert m[0] == 'e';
    case WriteCommandFailed(_) => assert m[0] == 'w';
  }

  /** The first letters of an error text tell the four failed-call errors from every other error. */
  lemma MessageLeadFailedCall(e: TurnOnError)
    ensures |Message(e)| > 9
    ensures e.DiscoverServicesFailed? <==> Message(e)[0] == 'd' && Message(e)[9] == 's'
    ensures e.DiscoverCharacteristicsFailed? <==> Message(e)[0] == 'd' && Message(e)[9] == 'c'
    ensures e.EnableNotificationFailed? <==> Message(e)[0] == 'e'
    ensures e.WriteCommandFailed? <==> Message(e)[0] == 'w'
  {
    var m := Message(e);
    match e
    case ConnectFailed(_) => assert m[0] == 'c';
    case Cancelled(_, _) => assert m[0] == 'b';
    case DiscoverServicesFailed(_) => assert m[0] == 'd' && m[9] == 's';
    case NoBotService =>
    case DiscoverCharacteristicsFailed(_) => assert m[0] == 'd' && m[9] == 'c';
    case CharacteristicNotFound =>
    case EnableNotificationFailed(_) => assert m[0] == 'e';
    case WriteCommandFailed(_) => assert m[0] == 'w';
  }

  /**
   * Every error text names its own step and keeps what it wraps, so two
   * different errors never read alike.
   */
  lemma MessageIdentifiesError(e: TurnOnError, e': TurnOnError)
    requires Message(e) == Message(e')
    ensures e == e'
  {
    MessageLeadOpening(e);
    MessageLeadOpening(e');
    MessageLeadFailedCall(e);
    MessageLeadFailedCall(e');
    if e.Cancelled? {
      if e.before != e'.before {
        CancelMessagesDistinct(e.before, e'.before, e.reason, e'.reason);
      }
      WrapKeepsInner("before " + e.before.Name(), e.reason.Message(), e'.reason.Message());
    } else if !e.NoBotService? && !e.CharacteristicNotFound? {
      assert e.cause == e'.cause by {
        match e
        case ConnectFailed(_) => WrapKeepsInner("connect to device", e.cause, e'.cause);
        case DiscoverServicesFailed(_) => WrapKeepsInner("discover services", e.cause, e'.cause);
        case DiscoverCharacteristicsFailed(_) => WrapKeepsInner("discover characteristics", e.cause, e'.cause);
        case EnableNotificationFailed(_) => WrapKeepsInner("enable notification", e.cause, e'.cause);
        case WriteCommandFailed(_) => WrapKeepsInner("write command", e.cause, e'.cause);
      }
    }
  }

  /**
   * The last step an attempt ending in `e` reached (see `Stage`): the step
   * whose call failed, or the one before the check that found the context done.
   */
  function ErrorStage(e: TurnOnError): nat
  {
    match e
    case ConnectFailed(_) => 0
    case Cancelled(before, _) => before.Guards() - 1
    case DiscoverServicesFailed(_) => 1
    case NoBotService => 1
    case DiscoverCharacteristicsFailed(_) => 2
    case CharacteristicNotFound => 2
    case EnableNotificationFailed(_) => 3
    case WriteCommandFailed(_) => 4
  }

  /** Position of a call in the fixed order of `TurnOn`; the scan calls come after all of them. */
  function Stage(c: Call): nat
  {
    match c
    case Connect(_) => 0
    case DiscoverServices(_, _) => 1
    case DiscoverCharacteristics(_, _) => 2
    case EnableNotifications(_) => 3
    case WriteWithoutResponse(_, _) => 4
    case Disconnect(_) => 5
    case _ => 6
  }

  /** The context check that must pass before the call is made, if any. */
  function Guard(c: Call): Option<Check>
  {
    match c
    case DiscoverServices(_, _) => Some(BeforeDiscoverServices)
    case DiscoverCharacteristics(_, _) => Some(BeforeDiscoverCharacteristics)
    case EnableNotifications(_) => Some(BeforeEnableNotifications)
    case WriteWithoutResponse(_, _) => Some(BeforeWriteCommand)
    case _ => None
  }

  /** Every step succeeds and the context is never done. */
  predicate Succeeds(ctx: Context, s: Script)
  {
    && s.connect.None?
    && ctx.doneFrom.None?
    && s.services.Success? && |s.services.value| > 0
    && s.characteristics.Success? && |s.characteristics.value| >= 2
    && s.enableNotifications.None?
    && s.write.None?
  }

  /** The error (`None` on success) of one `TurnOn` call and the calls it made. */
  datatype Attempt = Attempt(err: Option<TurnOnError>, calls: seq<Call>)

  /** Each call of `calls` has a later stage than the one before it. */
  predicate Forward(calls: seq<Call>)
  {
    forall i, j :: 0 <= i < j < |calls| ==> Stage(calls[i]) < Stage(calls[j])
  }

  /** Every guarded call of `calls` was made with its check passed. */
  predicate Guarded(ctx: Context, calls: seq<Call>)
  {
    forall c | c in calls && Guard(c).Some? :: !ctx.DoneAt(Guard(c).value)
  }

  /** All calls of `calls` belong to the steps from stage `from` to the write. */
  predicate Within(calls: seq<Call>, from: nat)
  {
    forall c | c in calls :: from <= Stage(c) <= 4
  }

  /** A cancellation error names the first check at which the context was done, and its cause. */
  predicate CancelledHonestly(ctx: Context, err: Option<TurnOnError>)
  {
    err.Some? && err.value.Cancelled? ==> ctx.doneFrom == Some(err.value.before) && err.value.reason == ctx.cause
  }

  /** An error ends the attempt: apart from the release, no call belongs to a step past the one it names. */
  predicate EndsAtError(err: Option<TurnOnError>, calls: seq<Call>)
  {
    err.Some? ==> forall c | c in calls && !c.Disconnect? :: Stage(c) <= ErrorStage(err.value)
  }

  /** Every write in `calls` sends the command, right after a successful subscription. */
  predicate WritesCommandAfterSubscribing(s: Script, calls: seq<Call>)
  {
    forall i :: 0 <= i < |calls| && calls[i].WriteWithoutResponse? ==>
      && calls[i].data == TurnOnCommand
      && 0 < i && calls[i - 1].EnableNotifications?
      && s.enableNotifications.None?
  }

  /**
   * The subscription in `calls` goes to the characteristic the roles assign
   * to notifying, and the write to the one they assign to writing, among
   * the discovered characteristics.
   */
  predicate TargetsFollowRoles(s: Script, calls: seq<Call>)
  {
    forall c | c in calls && (c.EnableNotifications? || c.WriteWithoutResponse?) ::
      && s.characteristics.Success? && |s.characteristics.value| >= 2
      && (c.EnableNotifications? ==>
            c.target == s.characteristics.value[AssignRoles(s.characteristics.value).notify])
      && (c.WriteWithoutResponse? ==>
            c.target == s.characteristics.value[AssignRoles(s.characteristics.value).write])
  }

  /**
   * The discoveries in `calls` look for the bot service on `device`, then for
   * the two vendor characteristics on the first service found.
   */
  predicate DiscoversVendorService(s: Script, device: Device, calls: seq<Call>)
  {
    forall c | c in calls && (c.DiscoverServices? || c.DiscoverCharacteristics?) ::
      && (c.DiscoverServices? ==> c == Call.DiscoverServices(device, [BotServiceUuid]))
      && (c.DiscoverCharacteristics? ==>
            && s.services.Success? && |s.services.value| > 0
            && c == Call.DiscoverCharacteristics(s.services.value[0], [NotifyUuid, WriteUuid]))
  }

  /** Making `c` before the calls of `rest` keeps the order forward. */
  lemma ForwardCons(c: Call, rest: seq<Call>)
    requires Forward(rest)
    requires forall x | x in rest :: Stage(c) < Stage(x)
    ensures Forward([c] + rest)
    ensures forall x :: x in [c] + rest <==> x == c || x in rest
  {
    var calls := [c] + rest;
    forall i, j | 0 <= i < j < |calls| ensures Stage(calls[i]) < Stage(calls[j]) {
      assert calls[j] == rest[j - 1];
      if i > 0 {
        assert calls[i] == rest[i - 1];
      }
    }
  }

  /**
   * Making the unguarded-or-passed call `c`, which is neither a write nor of a
   * later stage than `rest`, before the calls of a later step keeps every
   * property of that step's calls.
   */
  lemma PrependStep(ctx: Context, s: Script, c: Call, rest: seq<Call>)
    requires 1 <= Stage(c) <= 2 && Within(rest, Stage(c) + 1) && Forward(rest)
    requires Guard(c).Some? ==> !ctx.DoneAt(Guard(c).value)
    requires Guarded(ctx, rest) && WritesCommandAfterSubscribing(s, rest)
    ensures Within([c] + rest, Stage(c)) && Forward([c] + rest) && Guarded(ctx, [c] + rest)
    ensures WritesCommandAfterSubscribing(s, [c] + rest)
  {
    ForwardCons(c, rest);
    var calls := [c] + rest;
    forall i | 0 <= i < |calls| && calls[i].WriteWithoutResponse?
      ensures calls[i].data == TurnOnCommand && 0 < i && calls[i - 1].EnableNotifications? && s.enableNotifications.None?
    {
      assert calls[i] == rest[i - 1];
      assert i - 1 > 0 && rest[i - 2] == calls[i - 1];
    }
  }

  /** Making `c` after the calls of `rest` keeps the order forward. */
  lemma ForwardSnoc(rest: seq<Call>, c: Call)
    requires Forward(rest)
    requires forall x | x in rest :: Stage(x) < Stage(c)
    ensures Forward(rest + [c])
  {
    var calls := rest + [c];
    forall i, j | 0 <= i < j < |calls| ensures Stage(calls[i]) < Stage(calls[j]) {
      assert calls[i] == rest[i];
      if j < |rest| {
        assert calls[j] == rest[j];
      }
    }
  }

  /** The check before the write, then the write of the command to `target`. */
  function WriteStep(target: Characteristic, ctx: Context, s: Script): Attempt
    requires !ctx.DoneAt(BeforeEnableNotifications)
  {
    if ctx.DoneAt(BeforeWriteCommand) then Attempt(Some(Cancelled(BeforeWriteCommand, ctx.cause)), [])
    else
      Attempt(if s.write.Some? then Some(WriteCommandFailed(s.write.value)) else None,
              [Call.WriteWithoutResponse(target, TurnOnCommand)])
  }

  /**
   * Reached with the earlier checks passed, the write step writes the command
   * to its target only if the last check passes, and a cancellation names that
   * check; it succeeds exactly when the context is never done and the write
   * succeeds.
   */
  lemma WriteStepFacts(target: Characteristic, ctx: Context, s: Script)
    requires !ctx.DoneAt(BeforeEnableNotifications)
    ensures var r := WriteStep(target, ctx, s);
      && EndsAtError(r.err, r.calls)
      && (r.calls == [] || r.calls == [Call.WriteWithoutResponse(target, TurnOnCommand)])
      && Guarded(ctx, r.calls) && CancelledHonestly(ctx, r.err)
      && (r.err.Some? ==> !r.err.value.ConnectFailed?)
      && (r.err.None? <==> ctx.doneFrom.None? && s.write.None?)
      && (r.err.None? ==> |r.calls| == 1)
  {
  }

  /** A successful subscription to `notify`, then at most the write of the command to `write`. */
  lemma SubscribeBeforeWrite(ctx: Context, s: Script, notify: Characteristic, write: Characteristic, rest: seq<Call>)
    requires rest == [] || rest == [Call.WriteWithoutResponse(write, TurnOnCommand)]
    requires s.enableNotifications.None? && !ctx.DoneAt(BeforeEnableNotifications) && Guarded(ctx, rest)
    ensures var calls := [Call.EnableNotifications(notify)] + rest;
      Within(calls, 3) && Forward(calls) && Guarded(ctx, calls) && WritesCommandAfterSubscribing(s, calls)
  {
    if rest != [] {
      assert [Call.EnableNotifications(notify)] + rest == [Call.EnableNotifications(notify), rest[0]];
    }
  }

  /** The check before subscribing, the subscription to `notify`, then the write to `write`. */
  function SubscribeStep(notify: Characteristic, write: Characteristic, ctx: Context, s: Script): Attempt
    requires !ctx.DoneAt(BeforeDiscoverCharacteristics)
  {
    if ctx.DoneAt(BeforeEnableNotifications) then
      Attempt(Some(Cancelled(BeforeEnableNotifications, ctx.cause)), [])
    else if s.enableNotifications.Some? then
      Attempt(Some(EnableNotificationFailed(s.enableNotifications.value)), [Call.EnableNotifications(notify)])
    else
      var rest := WriteStep(write, ctx, s);
      Attempt(rest.err, [Call.EnableNotifications(notify)] + rest.calls)
  }

  /**
   * Reached with the earlier checks passed, the subscribe step subscribes to
   * `notify` and writes the command to `write`, in that order, each only after
   * its check; a failed subscription stops the attempt before the write, and a
   * cancellation names the first check at which the context was done. It
   * succeeds exactly when both calls succeed and no check fires.
   */
  lemma SubscribeStepFacts(notify: Characteristic, write: Characteristic, ctx: Context, s: Script)
    requires !ctx.DoneAt(BeforeDiscoverCharacteristics)
    ensures var r := SubscribeStep(notify, write, ctx, s);
      && EndsAtError(r.err, r.calls)
      && (forall c | c in r.calls ::
            && (c.EnableNotifications? ==> c.target == notify)
            && (c.WriteWithoutResponse? ==> c.target == write))
      && Within(r.calls, 3) && Forward(r.calls) && Guarded(ctx, r.calls) && CancelledHonestly(ctx, r.err)
      && WritesCommandAfterSubscribing(s, r.calls)
      && (r.err.Some? ==> !r.err.value.ConnectFailed?)
      && (r.err.None? <==> ctx.doneFrom.None? && s.enableNotifications.None? && s.write.None?)
      && (r.err.None? ==> |r.calls| == 2 && forall i :: 0 <= i < 2 ==> Stage(r.calls[i]) == i + 3)
  {
    if !ctx.DoneAt(BeforeEnableNotifications) && s.enableNotifications.None? {
      WriteStepFacts(write, ctx, s);
      SubscribeBeforeWrite(ctx, s, notify, write, WriteStep(write, ctx, s).calls);
    }
  }

  /** The check before discovering characteristics of `service`, the discovery, then the roles. */
  function CharacteristicsStep(service: Service, ctx: Context, s: Script): Attempt
    requires !ctx.DoneAt(BeforeDiscoverServices)
  {
    if ctx.DoneAt(BeforeDiscoverCharacteristics) then
      Attempt(Some(Cancelled(BeforeDiscoverCharacteristics, ctx.cause)), [])
    else
      var listed := Call.DiscoverCharacteristics(service, [NotifyUuid, WriteUuid]);
      match s.characteristics
      case Failure(e) => Attempt(Some(DiscoverCharacteristicsFailed(e)), [listed])
      case Success(chars) =>
        if |chars| <= 1 then Attempt(Some(CharacteristicNotFound), [listed])
        else
          var roles := AssignRoles(chars);
          var rest := SubscribeStep(chars[roles.notify], chars[roles.write], ctx, s);
          Attempt(rest.err, [listed] + rest.calls)
  }

  /**
   * Reached with the first check passed, the characteristics step looks for
   * the two vendor characteristics on `service`, subscribes or writes only
   * once two were found, and the subscription and the write go where the
   * roles say.
   */
  lemma CharacteristicsStepCalls(service: Service, ctx: Context, s: Script)
    requires !ctx.DoneAt(BeforeDiscoverServices)
    ensures var r := CharacteristicsStep(service, ctx, s);
      && (forall c | c in r.calls && Stage(c) >= 3 :: s.characteristics.Success? && |s.characteristics.value| >= 2)
      && (forall c | c in r.calls && c.DiscoverCharacteristics? :: c == Call.DiscoverCharacteristics(service, [NotifyUuid, WriteUuid]))
      && TargetsFollowRoles(s, r.calls)
  {
    if !ctx.DoneAt(BeforeDiscoverCharacteristics) && s.characteristics.Success? && |s.characteristics.value| >= 2 {
      var chars := s.characteristics.value;
      var roles := AssignRoles(chars);
      SubscribeStepFacts(chars[roles.notify], chars[roles.write], ctx, s);
      var rest := SubscribeStep(chars[roles.notify], chars[roles.write], ctx, s);
      var listed := Call.DiscoverCharacteristics(service, [NotifyUuid, WriteUuid]);
      assert forall c :: c in [listed] + rest.calls <==> c == listed || c in rest.calls;
    }
  }

  /**
   * Reached with the first check passed, a failed characteristic discovery or
   * fewer than two characteristics stops the attempt before subscribing; a
   * cancellation names the first check at which the context was done. The
   * step succeeds exactly when every step from the discovery on succeeds and
   * no check fires.
   */
  lemma CharacteristicsStepFacts(service: Service, ctx: Context, s: Script)
    requires !ctx.DoneAt(BeforeDiscoverServices)
    ensures var r := CharacteristicsStep(service, ctx, s);
      && EndsAtError(r.err, r.calls)
      && Within(r.calls, 2) && Forward(r.calls) && Guarded(ctx, r.calls) && CancelledHonestly(ctx, r.err)
      && WritesCommandAfterSubscribing(s, r.calls)
      && (r.err.Some? ==> !r.err.value.ConnectFailed?)
      && (r.err.None? <==>
            && ctx.doneFrom.None?
            && s.characteristics.Success? && |s.characteristics.value| >= 2
            && s.enableNotifications.None? && s.write.None?)
      && (r.err.None? ==> |r.calls| == 3 && forall i :: 0 <= i < 3 ==> Stage(r.calls[i]) == i + 2)
  {
    if !ctx.DoneAt(BeforeDiscoverCharacteristics) && s.characteristics.Success? && |s.characteristics.value| >= 2 {
      var chars := s.characteristics.value;
      var roles := AssignRoles(chars);
      SubscribeStepFacts(chars[roles.notify], chars[roles.write], ctx, s);
      var rest := SubscribeStep(chars[roles.notify], chars[roles.write], ctx, s);
      PrependStep(ctx, s, Call.DiscoverCharacteristics(service, [NotifyUuid, WriteUuid]), rest.calls);
    }
  }

  /** The steps `TurnOn` runs while connected to `device`, before the connection is released. */
  function Connected(device: Device, ctx: Context, s: Script): Attempt
  {
    if ctx.DoneAt(BeforeDiscoverServices) then Attempt(Some(Cancelled(BeforeDiscoverServices, ctx.cause)), [])
    else
      var discovered := Call.DiscoverServices(device, [BotServiceUuid]);
      match s.services
      case Failure(e) => Attempt(Some(DiscoverServicesFailed(e)), [discovered])
      case Success(services) =>
        if |services| == 0 then Attempt(Some(NoBotService), [discovered])
        else
          var rest := CharacteristicsStep(services[0], ctx, s);
          Attempt(rest.err, [discovered] + rest.calls)
  }

  /**
   * While connected, the calls go strictly forward through the four guarded
   * steps, each made only after its check passed; no call belongs to a step
   * past the one the error names; a cancellation names the first check at
   * which the context was done; any call after service discovery needs a
   * found service, and any subscription or write two characteristics. The
   * attempt succeeds exactly when every step succeeds and no check fires.
   */
  lemma ConnectedFacts(device: Device, ctx: Context, s: Script)
    ensures var r := Connected(device, ctx, s);
      && EndsAtError(r.err, r.calls)
      && (forall c | c in r.calls && Stage(c) >= 2 :: s.services.Success? && |s.services.value| > 0)
      && (forall c | c in r.calls && Stage(c) >= 3 :: s.characteristics.Success? && |s.characteristics.value| >= 2)
      && Within(r.calls, 1) && Forward(r.calls) && Guarded(ctx, r.calls) && CancelledHonestly(ctx, r.err)
      && WritesCommandAfterSubscribing(s, r.calls)
      && (r.err.Some? ==> !r.err.value.ConnectFailed?)
      && (r.err.None? <==> Succeeds(ctx, s.(connect := None)))
      && (r.err.None? ==> |r.calls| == 4 && forall i :: 0 <= i < 4 ==> Stage(r.calls[i]) == i + 1)
  {
    if !ctx.DoneAt(BeforeDiscoverServices) && s.services.Success? && |s.services.value| > 0 {
      CharacteristicsStepFacts(s.services.value[0], ctx, s);
      CharacteristicsStepCalls(s.services.value[0], ctx, s);
      var rest := CharacteristicsStep(s.services.value[0], ctx, s);
      PrependStep(ctx, s, Call.DiscoverServices(device, [BotServiceUuid]), rest.calls);
    }
  }

  /**
   * While connected, the discoveries look for the vendor service and its two
   * characteristics, and the subscription and the write go where the roles say.
   */
  lemma ConnectedCallArguments(device: Device, ctx: Context, s: Script)
    ensures var r := Connected(device, ctx, s);
      DiscoversVendorService(s, device, r.calls) && TargetsFollowRoles(s, r.calls)
  {
    if !ctx.DoneAt(BeforeDiscoverServices) && s.services.Success? && |s.services.value| > 0 {
      CharacteristicsStepFacts(s.services.value[0], ctx, s);
      CharacteristicsStepCalls(s.services.value[0], ctx, s);
      var rest := CharacteristicsStep(s.services.value[0], ctx, s);
      assert forall c | c in rest.calls :: !c.DiscoverServices?;
    }
  }

  /** The calls of `TurnOn` once connected: `body` between opening and releasing the connection. */
  function Bracket(address: string, body: seq<Call>): seq<Call>
  {
    [Call.Connect(address)] + body + [Call.Disconnect(Device(address))]
  }

  /** The bracket releases the connection once, last, and releases nothing else. */
  lemma BracketReleases(address: string, body: seq<Call>)
    requires Within(body, 1)
    ensures var calls := Bracket(address, body);
      && multiset(calls)[Call.Disconnect(Device(address))] == 1
      && (forall c | c in calls && c.Disconnect? :: c == Call.Disconnect(Device(address)))
      && calls[|calls| - 1] == Call.Disconnect(Device(address))
  {
    var released := Call.Disconnect(Device(address));
    var calls := Bracket(address, body);
    assert released !in body;
    forall c | c in calls && c.Disconnect? ensures c == released {
      assert c == released || c in body;
    }
  }

  /** What `TurnOn` does against the adapter script `s`. */
  function TurnOnRun(bot: SwitchBot, ctx: Context, s: Script): (r: Attempt)
    ensures r.calls != [] && r.calls[0] == Call.Connect(bot.address)
    ensures s.connect.Some? ==> r.calls == [Call.Connect(bot.address)]
    ensures EndsAtError(r.err, r.calls)
  {
    if s.connect.Some? then Attempt(Some(ConnectFailed(s.connect.value)), [Call.Connect(bot.address)])
    else
      ConnectedFacts(Device(bot.address), ctx, s);
      var body := Connected(Device(bot.address), ctx, s);
      Attempt(body.err, Bracket(bot.address, body.calls))
  }

  /** Connect comes first, and every later call at most once, in the fixed order of the steps. */
  lemma TurnOnCallOrder(bot: SwitchBot, ctx: Context, s: Script)
    ensures var r := TurnOnRun(bot, ctx, s);
      r.calls != [] && r.calls[0] == Call.Connect(bot.address) && Forward(r.calls)
  {
    if s.connect.None? {
      ConnectedFacts(Device(bot.address), ctx, s);
      var body := Connected(Device(bot.address), ctx, s).calls;
      ForwardSnoc(body, Call.Disconnect(Device(bot.address)));
      ForwardCons(Call.Connect(bot.address), body + [Call.Disconnect(Device(bot.address))]);
      assert Bracket(bot.address, body) == [Call.Connect(bot.address)] + (body + [Call.Disconnect(Device(bot.address))]);
    }
  }

  /**
   * The connection is released exactly once when it was opened, as the last
   * call, whichever step ended the attempt; when connecting fails nothing is
   * released and the connect error is returned.
   */
  lemma TurnOnReleasesConnection(bot: SwitchBot, ctx: Context, s: Script)
    ensures var r := TurnOnRun(bot, ctx, s);
      && multiset(r.calls)[Call.Disconnect(Device(bot.address))] == (if s.connect.None? then 1 else 0)
      && (forall c | c in r.calls && c.Disconnect? :: c == Call.Disconnect(Device(bot.address)))
      && (s.connect.None? ==> r.calls[|r.calls| - 1] == Call.Disconnect(Device(bot.address)))
      && ((r.err.Some? && r.err.value.ConnectFailed?) <==> s.connect.Some?)
      && (s.connect.Some? ==> r.err == Some(ConnectFailed(s.connect.value)) && r.calls == [Call.Connect(bot.address)])
  {
    if s.connect.None? {
      ConnectedFacts(Device(bot.address), ctx, s);
      BracketReleases(bot.address, Connected(Device(bot.address), ctx, s).calls);
    }
  }

  /**
   * Every guarded call is made only after its check found the context not
   * done, and a cancellation error names the first check at which the context
   * was done.
   */
  lemma TurnOnHonoursContext(bot: SwitchBot, ctx: Context, s: Script)
    ensures var r := TurnOnRun(bot, ctx, s);
      Guarded(ctx, r.calls) && CancelledHonestly(ctx, r.err)
  {
    ConnectedFacts(Device(bot.address), ctx, s);
  }

  /** The only write is the command, right after notifications were enabled successfully. */
  lemma TurnOnWritesOnlyCommand(bot: SwitchBot, ctx: Context, s: Script)
    ensures WritesCommandAfterSubscribing(s, TurnOnRun(bot, ctx, s).calls)
  {
    ConnectedFacts(Device(bot.address), ctx, s);
  }

  /** `TurnOn` succeeds exactly when every step succeeds, and then it has made all six calls. */
  lemma TurnOnSucceedsIff(bot: SwitchBot, ctx: Context, s: Script)
    ensures var r := TurnOnRun(bot, ctx, s);
      && (r.err.None? <==> Succeeds(ctx, s))
      && (r.err.None? ==> |r.calls| == 6 && forall i :: 0 <= i < 6 ==> Stage(r.calls[i]) == i)
  {
    ConnectedFacts(Device(bot.address), ctx, s);
  }

  /** Connecting and every step before check `k` succeeded, so the attempt gets as far as `k`. */
  predicate ReachesCheck(s: Script, k: Check)
  {
    && s.connect.None?
    && (k.Guards() >= 2 ==> s.services.Success? && |s.services.value| > 0)
    && (k.Guards() >= 3 ==> s.characteristics.Success? && |s.characteristics.value| >= 2)
    && (k.Guards() >= 4 ==> s.enableNotifications.None?)
  }

  /**
   * The attempt is cancelled at check `k` exactly when `k` is the first check
   * at which the context is done and every step before `k` succeeded.
   */
  lemma TurnOnCancelsAtFirstDoneCheck(bot: SwitchBot, ctx: Context, s: Script, k: Check)
    ensures TurnOnRun(bot, ctx, s).err == Some(Cancelled(k, ctx.cause)) <==> ctx.doneFrom == Some(k) && ReachesCheck(s, k)
  {
    ConnectedFacts(Device(bot.address), ctx, s);
  }

  /**
   * A call after a discovery is made only when that discovery found what was
   * looked for: a service before characteristics are discovered, two
   * characteristics before subscribing or writing.
   */
  lemma TurnOnDiscoversFirst(bot: SwitchBot, ctx: Context, s: Script)
    ensures var r := TurnOnRun(bot, ctx, s);
      forall c | c in r.calls && 1 <= Stage(c) <= 4 ::
        && s.connect.None?
        && (Stage(c) >= 2 ==> s.services.Success? && |s.services.value| > 0)
        && (Stage(c) >= 3 ==> s.characteristics.Success? && |s.characteristics.value| >= 2)
  {
    ConnectedFacts(Device(bot.address), ctx, s);
  }

  /**
   * A failed call ends the attempt with the error of its own step, wrapping
   * the adapter's error unchanged, and the failed call is in the trace with
   * the arguments it was made with.
   */
  lemma TurnOnErrorNamesFailedCall(bot: SwitchBot, ctx: Context, s: Script)
    ensures var r := TurnOnRun(bot, ctx, s);
      && (ReachesCheck(s, BeforeDiscoverServices) && !ctx.DoneAt(BeforeDiscoverServices) && s.services.Failure? ==>
            && r.err == Some(DiscoverServicesFailed(s.services.error))
            && Call.DiscoverServices(Device(bot.address), [BotServiceUuid]) in r.calls)
      && (ReachesCheck(s, BeforeDiscoverCharacteristics) && !ctx.DoneAt(BeforeDiscoverCharacteristics) && s.characteristics.Failure? ==>
            && r.err == Some(DiscoverCharacteristicsFailed(s.characteristics.error))
            && Call.DiscoverCharacteristics(s.services.value[0], [NotifyUuid, WriteUuid]) in r.calls)
      && (ReachesCheck(s, BeforeEnableNotifications) && !ctx.DoneAt(BeforeEnableNotifications) && s.enableNotifications.Some? ==>
            && r.err == Some(EnableNotificationFailed(s.enableNotifications.value))
            && Call.EnableNotifications(s.characteristics.value[AssignRoles(s.characteristics.value).notify]) in r.calls)
      && (ReachesCheck(s, BeforeWriteCommand) && !ctx.DoneAt(BeforeWriteCommand) && s.write.Some? ==>
            && r.err == Some(WriteCommandFailed(s.write.value))
            && Call.WriteWithoutResponse(s.characteristics.value[AssignRoles(s.characteristics.value).write], TurnOnCommand) in r.calls)
  {
  }

  /**
   * The services are looked for on the bot's own device, filtered by the bot
   * service UUID; the characteristics on the first service found, filtered by
   * the two vendor UUIDs; the subscription and the write go to the
   * characteristics the roles assign.
   */
  lemma TurnOnCallArguments(bot: SwitchBot, ctx: Context, s: Script)
    ensures var r := TurnOnRun(bot, ctx, s);
      DiscoversVendorService(s, Device(bot.address), r.calls) && TargetsFollowRoles(s, r.calls)
  {
    ConnectedCallArguments(Device(bot.address), ctx, s);
  }

  /**
   * When the first two characteristics found carry the two vendor UUIDs, in
   * either order, any subscription goes to the one with the notify UUID and
   * any write to the one with the write UUID.
   */
  lemma TurnOnTargetsFollowUuids(bot: SwitchBot, ctx: Context, s: Script)
    requires s.characteristics.Success? && |s.characteristics.value| >= 2
    requires {s.characteristics.value[0].uuid, s.characteristics.value[1].uuid} == {NotifyUuid, WriteUuid}
    ensures forall c | c in TurnOnRun(bot, ctx, s).calls ::
      && (c.EnableNotifications? ==> c.target.uuid == NotifyUuid)
      && (c.WriteWithoutResponse? ==> c.target.uuid == WriteUuid)
  {
    TurnOnCallArguments(bot, ctx, s);
    RolesFollowUuids(s.characteristics.value);
  }

  /** Connected, but no service found: the error says so and only the connection is released. */
  lemma NoServiceStopsTurnOn(bot: SwitchBot, ctx: Context, s: Script)
    requires s.connect.None? && !ctx.DoneAt(BeforeDiscoverServices)
    requires s.services == Success([])
    ensures TurnOnRun(bot, ctx, s).err == Some(NoBotService)
    ensures TurnOnRun(bot, ctx, s).calls ==
      [Call.Connect(bot.address), Call.DiscoverServices(Device(bot.address), [BotServiceUuid]),
       Call.Disconnect(Device(bot.address))]
  {
  }

  /** Fewer than two characteristics: the error says so, nothing is subscribed or written. */
  lemma TooFewCharacteristicsStopTurnOn(bot: SwitchBot, ctx: Context, s: Script)
    requires s.connect.None? && !ctx.DoneAt(BeforeDiscoverCharacteristics)
    requires s.services.Success? && |s.services.value| > 0
    requires s.characteristics.Success? && |s.characteristics.value| < 2
    ensures TurnOnRun(bot, ctx, s).err == Some(CharacteristicNotFound)
    ensures forall c | c in TurnOnRun(bot, ctx, s).calls :: Stage(c) != 3 && Stage(c) != 4
  {
  }

  /**
   * The context is found done between discovering the characteristics and
   * subscribing: the attempt is cancelled there, nothing is subscribed or
   * written, and the connection is still released.
   */
  lemma CancelBeforeSubscribing(bot: SwitchBot, ctx: Context, s: Script)
    requires s.connect.None? && ctx.doneFrom == Some(BeforeEnableNotifications)
    requires s.services.Success? && |s.services.value| > 0
    requires s.characteristics.Success? && |s.characteristics.value| >= 2
    ensures TurnOnRun(bot, ctx, s).err == Some(Cancelled(BeforeEnableNotifications, ctx.cause))
    ensures forall c | c in TurnOnRun(bot, ctx, s).calls :: Stage(c) != 3 && Stage(c) != 4
    ensures Call.Disconnect(Device(bot.address)) in TurnOnRun(bot, ctx, s).calls
  {
  }

  /**
   * The order in which discovery returns the two vendor characteristics does
   * not matter: the same characteristic is subscribed to and the same one is
   * written, so the whole attempt is the same.
   */
  lemma TurnOnOrderIndependent(bot: SwitchBot, ctx: Context, s: Script, first: Characteristic, second: Characteristic, rest: seq<Characteristic>)
    requires (first.uuid == NotifyUuid) != (second.uuid == NotifyUuid)
    requires s.characteristics == Success([first, second] + rest)
    ensures TurnOnRun(bot, ctx, s) == TurnOnRun(bot, ctx, s.(characteristics := Success([second, first] + rest)))
  {
    var chars := [first, second] + rest;
    RolesOrderIndependent(chars);
    assert [chars[1], chars[0]] + chars[2..] == [second, first] + rest;
  }

  /** The four cancellation errors read differently: each names the step it preceded. */
  lemma CancelMessagesDistinct(k: Check, k': Check, reason: ContextCause, reason': ContextCause)
    requires k != k'
    ensures Message(Cancelled(k, reason)) != Message(Cancelled(k', reason'))
  {
    var m, m' := Message(Cancelled(k, reason)), Message(Cancelled(k', reason'));
    if k.Guards() <= 2 && k'.Guards() <= 2 {
      assert m[16] != m'[16];
    } else {
      assert m[7] != m'[7];
    }
  }

  /**
   * Turns the bot on: one attempt, releasing the connection, once it is open,
   * on every way out (the deferred disconnect).
   */
  method TurnOn(bot: SwitchBot, ctx: Context, radio: Adapter) returns (err: Option<TurnOnError>)
    modifies radio
    ensures radio.trace == old(radio.trace) + TurnOnRun(bot, ctx, radio.script).calls
    ensures err == TurnOnRun(bot, ctx, radio.script).err
  {
    var connected := radio.Connect(bot.address);
    if connected.Failure? {
      return Some(ConnectFailed(connected.error));
    }
    var device := connected.value;
    err := TurnOnConnected(device, ctx, radio);
    radio.Disconnect(device);
  }

  /** The steps of `TurnOn` between connecting and releasing the connection. */
  method TurnOnConnected(device: Device, ctx: Context, radio: Adapter) returns (err: Option<TurnOnError>)
    modifies radio
    ensures radio.trace == old(radio.trace) + Connected(device, ctx, radio.script).calls
    ensures err == Connected(device, ctx, radio.script).err
  {
    if ctx.DoneAt(BeforeDiscoverServices) {
      return Some(Cancelled(BeforeDiscoverServices, ctx.cause));
    }
    var services := radio.DiscoverServices(device, [BotServiceUuid]);
    if services.Failure? {
      return Some(DiscoverServicesFailed(services.error));
    }
    if |services.value| == 0 {
      return Some(NoBotService);
    }
    var botService := services.value[0];

    if ctx.DoneAt(BeforeDiscoverCharacteristics) {
      return Some(Cancelled(BeforeDiscoverCharacteristics, ctx.cause));
    }
    var chars := radio.DiscoverCharacteristics(botService, [NotifyUuid, WriteUuid]);
    if chars.Failure? {
      return Some(DiscoverCharacteristicsFailed(chars.error));
    }
    if |chars.value| <= 1 {
      return Some(CharacteristicNotFound);
    }
    var roles := AssignRoles(chars.value);
    var notifyChar, writeChar := chars.value[roles.notify], chars.value[roles.write];

    if ctx.DoneAt(BeforeEnableNotifications) {
      return Some(Cancelled(BeforeEnableNotifications, ctx.cause));
    }
    var subscribeErr := radio.EnableNotifications(notifyChar);
    if subscribeErr.Some? {
      return Some(EnableNotificationFailed(subscribeErr.value));
    }

    if ctx.DoneAt(BeforeWriteCommand) {
      return Some(Cancelled(BeforeWriteCommand, ctx.cause));
    }
    var writeErr := radio.WriteWithoutResponse(writeChar, TurnOnCommand);
    if writeErr.Some? {
      return Some(WriteCommandFailed(writeErr.value));
    }
    return None;
  }
}
