/**
 Failures as Go sees them: errors are trees that errors.Is and errors.As search in depth-first order.
 internal/postgres/availability.go classifies driver errors, each package's mapPostgresError reduces them to its own
 sentinels, and the worker decides from those whether to stop, to retry or to fail.
 */
module Failures {
  import opened Wrappers
  import opened OutboxSchema

  datatype Sentinel =
    | Canceled                // context.Canceled
    | DeadlineExceeded        // context.DeadlineExceeded
    | NoRows                  // pgx.ErrNoRows
    | ConnClosed              // pgconn.ErrConnClosed
    | NetClosed               // net.ErrClosed
    | EOF                     // io.EOF
    | UnexpectedEOF           // io.ErrUnexpectedEOF
    | LeaseLost               // outbox.ErrLeaseLost
    | Unavailable             // outbox.errStoreUnavailable, rewards.ErrUnavailable
    | Internal                // outbox.errStoreInternal, rewards.ErrInternal
    | KeyReused               // rewards.ErrIdempotencyKeyReused
    | Other

  datatype Operation = ClaimOperation | PublishedOperation | RetryOperation | DeadLetterOperation

  datatype Err =
    | Leaf(sentinel: Sentinel)
    | PgError(code: string)                              // *pgconn.PgError
    | PgTimeout(inner: Err)                              // what pgconn.Timeout looks for
    | NetOp(timeout: bool, inner: Err)                   // *net.OpError
    | Dns(timeout: bool, cause: Option<Err>)             // *net.DNSError, which may unwrap to a context's error
    | OtherNet(timeout: bool, isDeadline: bool)          // another net.Error; it may answer Is(context.DeadlineExceeded)
    | Wrap(inner: Err)                                   // fmt.Errorf with %w
    | OperationError(operation: Operation, inner: Err)   // *workerOperationError
    | Joined(errs: seq<Err>)                             // errors.Join

  /** errors.Is for a sentinel. */
  predicate Is(err: Err, target: Sentinel) {
    match err
    case Leaf(s) => s == target
    case PgError(_) => false
    case PgTimeout(inner) => Is(inner, target)
    case NetOp(_, inner) => Is(inner, target)
    case Dns(_, cause) => cause.Some? && Is(cause.value, target)
    case OtherNet(_, isDeadline) => isDeadline && target == DeadlineExceeded
    case Wrap(inner) => Is(inner, target)
    case OperationError(_, inner) => Is(inner, target)
    case Joined(errs) => exists i :: 0 <= i < |errs| && Is(errs[i], target)
  }

  /** errors.AsType for *pgconn.PgError: the SQLSTATE of the first one. */
  function FirstSqlState(err: Err): Option<string> {
    match err
    case Leaf(_) => None
    case PgError(code) => Some(code)
    case PgTimeout(inner) => FirstSqlState(inner)
    case NetOp(_, inner) => FirstSqlState(inner)
    case Dns(_, cause) => if cause.Some? then FirstSqlState(cause.value) else None
    case OtherNet(_, _) => None
    case Wrap(inner) => FirstSqlState(inner)
    case OperationError(_, inner) => FirstSqlState(inner)
    case Joined(errs) => FirstSqlStateOf(errs)
  }

  function FirstSqlStateOf(errs: seq<Err>): Option<string> {
    if errs == [] then None else
    var first := FirstSqlState(errs[0]);
    if first.Some? then first else FirstSqlStateOf(errs[1..])
  }

  /** errors.AsType for net.Error: whether the first one reports a timeout. A context deadline is a net.Error too. */
  function FirstNetTimeout(err: Err): Option<bool> {
    match err
    case Leaf(s) => if s == DeadlineExceeded then Some(true) else None
    case PgError(_) => None
    case PgTimeout(inner) => FirstNetTimeout(inner)
    case NetOp(timeout, _) => Some(timeout)
    case Dns(timeout, _) => Some(timeout)
    case OtherNet(timeout, _) => Some(timeout)
    case Wrap(inner) => FirstNetTimeout(inner)
    case OperationError(_, inner) => FirstNetTimeout(inner)
    case Joined(errs) => FirstNetTimeoutOf(errs)
  }

  function FirstNetTimeoutOf(errs: seq<Err>): Option<bool> {
    if errs == [] then None else
    var first := FirstNetTimeout(errs[0]);
    if first.Some? then first else FirstNetTimeoutOf(errs[1..])
  }

  /** pgconn.Timeout. */
  predicate HasPgTimeout(err: Err) {
    match err
    case PgTimeout(_) => true
    case NetOp(_, inner) => HasPgTimeout(inner)
    case Dns(_, cause) => cause.Some? && HasPgTimeout(cause.value)
    case Wrap(inner) => HasPgTimeout(inner)
    case OperationError(_, inner) => HasPgTimeout(inner)
    case Joined(errs) => exists i :: 0 <= i < |errs| && HasPgTimeout(errs[i])
    case _ => false
  }

  /** errors.AsType for *net.DNSError or *net.OpError. */
  predicate HasDnsOrOp(err: Err) {
    match err
    case NetOp(_, _) => true
    case Dns(_, _) => true
    case PgTimeout(inner) => HasDnsOrOp(inner)
    case Wrap(inner) => HasDnsOrOp(inner)
    case OperationError(_, inner) => HasDnsOrOp(inner)
    case Joined(errs) => exists i :: 0 <= i < |errs| && HasDnsOrOp(errs[i])
    case _ => false
  }

  predicate IsUnavailableSqlState(code: string) {
    code in {"08000", "08001", "08003", "08004", "08006", "08007", "53300", "57P01", "57P02", "57P03", "57P05"}
  }

  predicate IsNetworkUnavailable(err: Err) {
    || Is(err, NetClosed) || Is(err, EOF) || Is(err, UnexpectedEOF)
    || FirstNetTimeout(err) == Some(true)
    || HasDnsOrOp(err)
  }

  /** postgres.IsUnavailable. */
  predicate IsUnavailable(err: Err) {
    if FirstSqlState(err).Some? then IsUnavailableSqlState(FirstSqlState(err).value)
    else if Is(err, ConnClosed) || HasPgTimeout(err) then true
    else if Is(err, Sentinel.Canceled) || Is(err, DeadlineExceeded) then false
    else IsNetworkUnavailable(err)
  }

  // ---- contexts and mapPostgresError -------------------------------------------------------------------

  datatype CtxErr = CtxCanceled | CtxDeadline {
    function AsSentinel(): Sentinel {
      if this == CtxCanceled then Sentinel.Canceled else DeadlineExceeded
    }
  }

  datatype Caller = Open | Closed(err: CtxErr)

  /** A query context: still open, ended with its caller, or ended by the store's own timeout. */
  datatype QueryCtx = Running | EndedWithCaller(err: CtxErr) | TimedOut {
    predicate Ended() { !Running? }
    function Err(): CtxErr
      requires Ended()
    {
      if TimedOut? then CtxDeadline else err
    }
  }

  /** A query context ends with its caller's error only after the caller's context has ended. */
  predicate Consistent(query: QueryCtx, caller: Caller) {
    query.EndedWithCaller? ==> caller == Closed(query.err)
  }

  /** mapPostgresError of both packages. */
  function MapPostgresError(query: QueryCtx, err: Err): Err {
    if Is(err, NoRows) then Wrap(Leaf(Internal))
    else if query.Ended() && Is(err, query.Err().AsSentinel()) then
      if query.TimedOut? then Wrap(Leaf(Unavailable)) else Leaf(query.err.AsSentinel())
    else if IsUnavailable(err) then Wrap(Leaf(Unavailable))
    else Wrap(Leaf(Internal))
  }

  datatype Class = CallerEnded | Outage | Fault

  /** The statement failed because the caller's context had ended. */
  predicate EndsWithCaller(query: QueryCtx, err: Err) {
    !Is(err, NoRows) && query.EndedWithCaller? && Is(err, query.err.AsSentinel())
  }

  /** The statement failed because the database was not there, or not there in time. */
  predicate IsOutage(query: QueryCtx, err: Err) {
    && !Is(err, NoRows) && !EndsWithCaller(query, err)
    && (IsUnavailable(err) || (query.TimedOut? && Is(err, DeadlineExceeded)))
  }

  function ClassOf(query: QueryCtx, err: Err): Class {
    if EndsWithCaller(query, err) then CallerEnded else if IsOutage(query, err) then Outage else Fault
  }

  // ---- the worker's routing ----------------------------------------------------------------------------

  /** What a statement of the store came back with. */
  datatype Reply = Done | LostLease | Broken(query: QueryCtx, driver: Err)

  /** The error the store returns; the wrapping text carries no decision. */
  function StoreError(reply: Reply): Err
    requires !reply.Done?
  {
    if reply.LostLease? then Wrap(Leaf(LeaseLost)) else Wrap(MapPostgresError(reply.query, reply.driver))
  }

  /** handleTransitionError, and the same test in runOnce after a failed claim. */
  function HandleError(caller: Caller, operation: Operation, err: Err): Err {
    if caller.Closed? && Is(err, caller.err.AsSentinel()) then Leaf(caller.err.AsSentinel())
    else if operation != ClaimOperation && Is(err, LeaseLost) then Leaf(LeaseLost)
    else OperationError(operation, err)
  }

  /** workerErrorOperation: the operation of the first workerOperationError in the tree. */
  function FailedOperation(err: Err): Option<Operation> {
    match err
    case OperationError(operation, _) => Some(operation)
    case Wrap(inner) => FailedOperation(inner)
    case PgTimeout(inner) => FailedOperation(inner)
    case NetOp(_, inner) => FailedOperation(inner)
    case Dns(_, cause) => if cause.Some? then FailedOperation(cause.value) else None
    case Joined(errs) => FailedOperationOf(errs)
    case _ => None
  }

  function FailedOperationOf(errs: seq<Err>): Option<Operation> {
    if errs == [] then None else
    var first := FailedOperation(errs[0]);
    if first.Some? then first else FailedOperationOf(errs[1..])
  }

  datatype Route = StopCleanly | RetryLater | SkipEvent | Fatal(operation: Option<Operation>)

  /** What Run does about an error of runOnce; a lost lease never gets that far. */
  function RouteError(caller: Caller, err: Err): Route {
    if Is(err, LeaseLost) then SkipEvent
    else if caller.Closed? && Is(err, caller.err.AsSentinel()) then StopCleanly
    else if Is(err, Unavailable) then RetryLater
    else Fatal(FailedOperation(err))
  }

  /** A context that has ended stays ended. */
  predicate NotBefore(earlier: Caller, later: Caller) {
    earlier.Closed? ==> later == earlier
  }

  /** The error runOnce passes on for a failed statement. */
  function PassedOn(atHandle: Caller, operation: Operation, reply: Reply): Err
    requires !reply.Done?
  {
    var handled := HandleError(atHandle, operation, StoreError(reply));
    if operation == ClaimOperation then handled else Wrap(handled)
  }

  /** The whole path of a failed statement from the driver to the loop, the caller's context being read twice. */
  function RouteReply(atHandle: Caller, atRoute: Caller, operation: Operation, reply: Reply): Route
    requires !reply.Done?
  {
    RouteError(atRoute, PassedOn(atHandle, operation, reply))
  }

  /** What the searches find in a sentinel that the store and the worker have wrapped. */
  lemma SentinelInside(x: Sentinel, operation: Operation)
    ensures forall t :: Is(Wrap(Leaf(x)), t) <==> x == t
    ensures forall t :: Is(Wrap(Wrap(Leaf(x))), t) <==> x == t
    ensures forall t :: Is(OperationError(operation, Wrap(Wrap(Leaf(x)))), t) <==> x == t
    ensures forall t :: Is(Wrap(OperationError(operation, Wrap(Wrap(Leaf(x))))), t) <==> x == t
  {
    assert forall t :: Is(Leaf(x), t) <==> x == t;
    assert forall t :: Is(Wrap(Leaf(x)), t) <==> x == t;
    assert forall t :: Is(Wrap(Wrap(Leaf(x))), t) <==> x == t;
    assert forall t :: Is(OperationError(operation, Wrap(Wrap(Leaf(x)))), t) <==> x == t;
  }

  lemma RouteCallerEnded(err: CtxErr, operation: Operation, driver: Err)
    requires ClassOf(EndedWithCaller(err), driver) == CallerEnded
    ensures RouteReply(Closed(err), Closed(err), operation, Broken(EndedWithCaller(err), driver)) == StopCleanly
  {
    SentinelInside(err.AsSentinel(), operation);
    MappedShape(EndedWithCaller(err), driver);
    assert HandleError(Closed(err), operation, Wrap(Leaf(err.AsSentinel()))) == Leaf(err.AsSentinel());
  }

  lemma RouteMapped(atHandle: Caller, atRoute: Caller, operation: Operation, query: QueryCtx, driver: Err)
    requires ClassOf(query, driver) != CallerEnded
    ensures RouteReply(atHandle, atRoute, operation, Broken(query, driver))
            == if ClassOf(query, driver) == Outage then RetryLater else Fatal(Some(operation))
  {
    var x := if ClassOf(query, driver) == Outage then Unavailable else Internal;
    MappedShape(query, driver);
    SentinelInside(x, operation);
    assert HandleError(atHandle, operation, Wrap(Wrap(Leaf(x)))) == OperationError(operation, Wrap(Wrap(Leaf(x))));
  }

  /**
   Every failed statement has exactly one outcome: a skipped event exactly for a lost lease, a clean stop exactly when
   the caller's own end is in the error, a retry exactly for an outage (the store's own query timeout included), and
   otherwise a fatal stop that names the operation.
   */
  lemma RoutingIsByClass(atHandle: Caller, atRoute: Caller, operation: Operation, reply: Reply)
    requires NotBefore(atHandle, atRoute)
    requires !reply.Done? && (reply.Broken? ==> Consistent(reply.query, atHandle))
    requires reply.LostLease? ==> operation != ClaimOperation
    ensures var route := RouteReply(atHandle, atRoute, operation, reply);
            && (route.SkipEvent? <==> reply.LostLease?)
            && (route.StopCleanly? <==>
                  && reply.Broken? && !Is(reply.driver, NoRows)
                  && reply.query.EndedWithCaller? && Is(reply.driver, reply.query.err.AsSentinel()))
            && (route.RetryLater? <==>
                  && reply.Broken? && !Is(reply.driver, NoRows)
                  && (reply.query.EndedWithCaller? ==> !Is(reply.driver, reply.query.err.AsSentinel()))
                  && (IsUnavailable(reply.driver) || (reply.query.TimedOut? && Is(reply.driver, DeadlineExceeded))))
            && (route.Fatal? ==> route == Fatal(Some(operation)))
  {
    if reply.LostLease? {
      SentinelInside(LeaseLost, operation);
      assert atHandle.Closed? ==> atHandle.err.AsSentinel() != LeaseLost;
      assert HandleError(atHandle, operation, StoreError(reply)) == Leaf(LeaseLost);
    } else if ClassOf(reply.query, reply.driver) == CallerEnded {
      RouteCallerEnded(reply.query.err, operation, reply.driver);
    } else {
      RouteMapped(atHandle, atRoute, operation, reply.query, reply.driver);
    }
  }

  lemma MappedShape(query: QueryCtx, err: Err)
    ensures MapPostgresError(query, err) ==
            match ClassOf(query, err)
            case CallerEnded => Leaf(query.err.AsSentinel())
            case Outage => Wrap(Leaf(Unavailable))
            case Fault => Wrap(Leaf(Internal))
  {
  }

  /**
   Whatever the driver's tree contains, the packages' own sentinels, a lost lease or a server answer among it, the
   mapped error contains one sentinel and nothing else that any search would find: Unavailable, Internal, or the end
   of the caller's context. Mapped once more, an outage would pass for a fault.
   */
  lemma MappingHidesDriver(query: QueryCtx, err: Err) returns (x: Sentinel)
    ensures x in {Unavailable, Internal, Sentinel.Canceled, DeadlineExceeded}
    ensures x in {Sentinel.Canceled, DeadlineExceeded} ==> query.EndedWithCaller? && x == query.err.AsSentinel()
    ensures forall t :: Is(MapPostgresError(query, err), t) <==> t == x
    ensures FirstSqlState(MapPostgresError(query, err)).None? && !HasDnsOrOp(MapPostgresError(query, err))
    ensures !IsUnavailable(MapPostgresError(query, err))
    ensures x == Unavailable ==> MapPostgresError(Running, MapPostgresError(query, err)) == Wrap(Leaf(Internal))
  {
    MappedShape(query, err);
    match ClassOf(query, err)
    case CallerEnded => x := query.err.AsSentinel();
    case Outage => x := Unavailable; SentinelInside(x, ClaimOperation);
    case Fault => x := Internal; SentinelInside(x, ClaimOperation);
  }

  // ---- wrappers ----------------------------------------------------------------------------------------

  /** What an error may be wrapped in: text, an operation, a join of one, a network operation, a name lookup. */
  datatype Layer = Text | Operational(operation: Operation) | Single | Dial(timeout: bool) | Lookup(timeout: bool) {
    predicate Plain() {
      !Dial? && !Lookup?
    }

    function Around(inner: Err): Err {
      match this
      case Text => Wrap(inner)
      case Operational(operation) => OperationError(operation, inner)
      case Single => Joined([inner])
      case Dial(timeout) => NetOp(timeout, inner)
      case Lookup(timeout) => Dns(timeout, Some(inner))
    }
  }

  predicate AllPlain(layers: seq<Layer>) {
    forall i :: 0 <= i < |layers| ==> layers[i].Plain()
  }

  /** An error under any chain of wrappers. */
  function Under(layers: seq<Layer>, err: Err): Err {
    if layers == [] then err else
    layers[0].Around(Under(layers[1..], err))
  }

  lemma OnlyChild(err: Err)
    ensures forall t :: Is(Joined([err]), t) == Is(err, t)
    ensures FirstSqlState(Joined([err])) == FirstSqlState(err)
    ensures FirstNetTimeout(Joined([err])) == FirstNetTimeout(err)
    ensures HasPgTimeout(Joined([err])) == HasPgTimeout(err)
    ensures HasDnsOrOp(Joined([err])) == HasDnsOrOp(err)
  {
    assert [err][1..] == [];
    assert [err][0] == err;
    assert FirstSqlStateOf([]).None? && FirstNetTimeoutOf([]).None?;
    assert FirstSqlStateOf([err]) == FirstSqlState(err);
    assert FirstNetTimeoutOf([err]) == FirstNetTimeout(err);
    forall t ensures Is(Joined([err]), t) == Is(err, t) {
      if Is(err, t) {
        assert Is([err][0], t);
      }
    }
    if HasPgTimeout(err) {
      assert HasPgTimeout([err][0]);
    }
    if HasDnsOrOp(err) {
      assert HasDnsOrOp([err][0]);
    }
  }

  lemma LayerIsTransparent(layer: Layer, inner: Err)
    ensures forall t :: Is(layer.Around(inner), t) == Is(inner, t)
    ensures FirstSqlState(layer.Around(inner)) == FirstSqlState(inner)
    ensures HasPgTimeout(layer.Around(inner)) == HasPgTimeout(inner)
    ensures layer.Plain() ==> FirstNetTimeout(layer.Around(inner)) == FirstNetTimeout(inner)
    ensures HasDnsOrOp(layer.Around(inner)) <==> !layer.Plain() || HasDnsOrOp(inner)
  {
    OnlyChild(inner);
  }

  /** No chain of wrappers changes what any of the searches find; the network searches also find network layers. */
  lemma {:induction false} LayersAreTransparent(layers: seq<Layer>, err: Err)
    ensures forall t :: Is(Under(layers, err), t) == Is(err, t)
    ensures FirstSqlState(Under(layers, err)) == FirstSqlState(err)
    ensures HasPgTimeout(Under(layers, err)) == HasPgTimeout(err)
    ensures AllPlain(layers) ==> FirstNetTimeout(Under(layers, err)) == FirstNetTimeout(err)
    ensures HasDnsOrOp(Under(layers, err)) <==> !AllPlain(layers) || HasDnsOrOp(err)
  {
    if layers != [] {
      LayersAreTransparent(layers[1..], err);
      LayerIsTransparent(layers[0], Under(layers[1..], err));
      assert AllPlain(layers) <==> layers[0].Plain() && AllPlain(layers[1..]);
    }
  }

  /** So neither the class of a driver error nor the mapped error depends on how often the driver wrapped it. */
  lemma WrappersKeepClass(query: QueryCtx, layers: seq<Layer>, err: Err)
    requires AllPlain(layers)
    ensures IsUnavailable(Under(layers, err)) == IsUnavailable(err)
    ensures ClassOf(query, Under(layers, err)) == ClassOf(query, err)
    ensures MapPostgresError(query, Under(layers, err)) == MapPostgresError(query, err)
  {
    LayersAreTransparent(layers, err);
  }

  /** errors.Join is searched from left to right, each error to its end before the next. */
  lemma {:induction false} JoinsAreSearchedInOrder(a: seq<Err>, b: seq<Err>)
    ensures FirstSqlState(Joined(a + b))
            == if FirstSqlState(Joined(a)).Some? then FirstSqlState(Joined(a)) else FirstSqlState(Joined(b))
    ensures FirstNetTimeout(Joined(a + b))
            == if FirstNetTimeout(Joined(a)).Some? then FirstNetTimeout(Joined(a)) else FirstNetTimeout(Joined(b))
  {
    if a == [] {
      assert a + b == b;
      assert FirstSqlStateOf([]).None? && FirstNetTimeoutOf([]).None?;
    } else {
      JoinsAreSearchedInOrder(a[1..], b);
      assert (a + b)[0] == a[0] && (a + b)[1..] == a[1..] + b;
      assert FirstSqlState(Joined(a[1..])) == FirstSqlStateOf(a[1..]);
      assert FirstNetTimeout(Joined(a[1..])) == FirstNetTimeoutOf(a[1..]);
    }
  }

  lemma JoinsAreSearchedThrough(a: seq<Err>, b: seq<Err>, t: Sentinel)
    ensures Is(Joined(a + b), t) <==> Is(Joined(a), t) || Is(Joined(b), t)
    ensures HasPgTimeout(Joined(a + b)) <==> HasPgTimeout(Joined(a)) || HasPgTimeout(Joined(b))
    ensures HasDnsOrOp(Joined(a + b)) <==> HasDnsOrOp(Joined(a)) || HasDnsOrOp(Joined(b))
  {
    assert forall i :: 0 <= i < |a| ==> (a + b)[i] == a[i];
    assert forall i :: 0 <= i < |b| ==> (a + b)[|a| + i] == b[i];
    assert forall i :: |a| <= i < |a + b| ==> (a + b)[i] == b[i - |a|];
  }

  /**
   The end of a context is not taken for an outage of the database, not even inside a network operation or a name
   lookup: it is the caller's end if the caller's context ended that way, an outage only by the store's own timeout,
   and otherwise a fault.
   */
  lemma ContextErrorIsNoOutage(query: QueryCtx, layers: seq<Layer>, end: CtxErr)
    ensures var err := Under(layers, Leaf(end.AsSentinel()));
            && !IsUnavailable(err)
            && (ClassOf(query, err) == CallerEnded <==> query == EndedWithCaller(end))
            && (ClassOf(query, err) == Outage <==> query.TimedOut? && end == CtxDeadline)
  {
    LayersAreTransparent(layers, Leaf(end.AsSentinel()));
  }

  // ---- what the worker does about each failure -----------------------------------------------------------

  /** What becomes of a statement whose driver error is this, the caller's context having ended only with the query's. */
  function RouteDriver(operation: Operation, query: QueryCtx, driver: Err): Route {
    var caller := if query.EndedWithCaller? then Closed(query.err) else Open;
    RouteReply(caller, caller, operation, Broken(query, driver))
  }

  /** The first server answer in an error tree decides, whatever surrounds it, unless the query's own end does. */
  lemma ServerAnswerDecides(operation: Operation, query: QueryCtx, err: Err)
    requires FirstSqlState(err).Some? && !Is(err, NoRows)
    requires query.Ended() ==> !Is(err, query.Err().AsSentinel())
    ensures RouteDriver(operation, query, err)
            == if FirstSqlState(err).value in
                  {"08000", "08001", "08003", "08004", "08006", "08007", "53300", "57P01", "57P02", "57P03", "57P05"}
               then RetryLater else Fatal(Some(operation))
  {
    var caller := if query.EndedWithCaller? then Closed(query.err) else Open;
    RoutingIsByClass(caller, caller, operation, Broken(query, err));
  }

  /**
   A server's answer, however wrapped and whatever network operation it came through: the worker goes on after a
   connection exception, too many connections, a shutdown, a crash, a server that is starting, and an idle session's
   end, and stops for good after any other SQLSTATE.
   */
  lemma ServerAnswerIsRouted(operation: Operation, query: QueryCtx, layers: seq<Layer>, code: string)
    ensures RouteDriver(operation, query, Under(layers, PgError(code)))
            == if code in {"08000", "08001", "08003", "08004", "08006", "08007", "53300", "57P01", "57P02", "57P03", "57P05"}
               then RetryLater else Fatal(Some(operation))
  {
    LayersAreTransparent(layers, PgError(code));
    ServerAnswerDecides(operation, query, Under(layers, PgError(code)));
  }

  /**
   A sentinel, however wrapped. The end of a context stops the worker cleanly if the caller's context ended that way,
   is an outage only by the store's own timeout, and is otherwise fatal even inside a network operation or a name
   lookup; a lost connection is an outage; no row is fatal; anything else is an outage only inside a network operation.
   */
  lemma SentinelIsRouted(operation: Operation, query: QueryCtx, layers: seq<Layer>, x: Sentinel)
    ensures RouteDriver(operation, query, Under(layers, Leaf(x)))
            == match x
               case ConnClosed => RetryLater
               case NetClosed => RetryLater
               case EOF => RetryLater
               case UnexpectedEOF => RetryLater
               case NoRows => Fatal(Some(operation))
               case Canceled => if query == EndedWithCaller(CtxCanceled) then StopCleanly else Fatal(Some(operation))
               case DeadlineExceeded =>
                 if query == EndedWithCaller(CtxDeadline) then StopCleanly
                 else if query == TimedOut then RetryLater else Fatal(Some(operation))
               case _ => if AllPlain(layers) then Fatal(Some(operation)) else RetryLater
  {
    LayersAreTransparent(layers, Leaf(x));
    var caller := if query.EndedWithCaller? then Closed(query.err) else Open;
    RoutingIsByClass(caller, caller, operation, Broken(query, Under(layers, Leaf(x))));
  }

  /** A network operation, timed out or not, is an outage unless it wraps a context's end. */
  lemma TransportIsRouted(operation: Operation, layers: seq<Layer>, timeout: bool, x: Sentinel)
    ensures RouteDriver(operation, Running, Under(layers, NetOp(timeout, Leaf(x))))
            == if x in {NoRows, Sentinel.Canceled, DeadlineExceeded} then Fatal(Some(operation)) else RetryLater
  {
    RouteRunning(operation, layers, NetOp(timeout, Leaf(x)));
  }

  /** So is a name lookup that failed. */
  lemma NameLookupIsRouted(operation: Operation, layers: seq<Layer>, timeout: bool, x: Sentinel)
    ensures RouteDriver(operation, Running, Under(layers, Dns(timeout, Some(Leaf(x)))))
            == if x in {NoRows, Sentinel.Canceled, DeadlineExceeded} then Fatal(Some(operation)) else RetryLater
    ensures RouteDriver(operation, Running, Under(layers, Dns(timeout, None))) == RetryLater
  {
    RouteRunning(operation, layers, Dns(timeout, Some(Leaf(x))));
    RouteRunning(operation, layers, Dns(timeout, None));
  }

  /** The driver's own timeout is an outage, whatever ended it. */
  lemma DriverTimeoutIsRouted(operation: Operation, layers: seq<Layer>, x: Sentinel)
    ensures RouteDriver(operation, Running, Under(layers, PgTimeout(Leaf(x))))
            == if x == NoRows then Fatal(Some(operation)) else RetryLater
  {
    RouteRunning(operation, layers, PgTimeout(Leaf(x)));
  }

  /** Another network error is an outage if it says that it timed out, unless it passes for a context's deadline. */
  lemma NetworkTimeoutIsRouted(operation: Operation, layers: seq<Layer>, timeout: bool, isDeadline: bool)
    requires AllPlain(layers)
    ensures RouteDriver(operation, Running, Under(layers, OtherNet(timeout, isDeadline)))
            == if timeout && !isDeadline then RetryLater else Fatal(Some(operation))
  {
    WrappersKeepClass(Running, layers, OtherNet(timeout, isDeadline));
    RouteRunning(operation, layers, OtherNet(timeout, isDeadline));
  }

  lemma RouteRunning(operation: Operation, layers: seq<Layer>, err: Err)
    ensures RouteDriver(operation, Running, Under(layers, err))
            == if !Is(err, NoRows) && IsUnavailable(Under(layers, err)) then RetryLater else Fatal(Some(operation))
    ensures HasDnsOrOp(err) && FirstSqlState(err).None? ==>
              (IsUnavailable(Under(layers, err)) <==>
                 Is(err, ConnClosed) || HasPgTimeout(err) || !(Is(err, Sentinel.Canceled) || Is(err, DeadlineExceeded)))
    ensures HasPgTimeout(err) && FirstSqlState(err).None? ==> IsUnavailable(Under(layers, err))
  {
    LayersAreTransparent(layers, err);
    RoutingIsByClass(Open, Open, operation, Broken(Running, Under(layers, err)));
  }

  // ---- the publisher's outcome -------------------------------------------------------------------------

  /** classifyPublishOutcome: the publish context first, then the error, deadlines before cancellations. */
  function ClassifyPublishOutcome(publish: Caller, err: Option<Err>): PublishOutcome {
    if err.None? then Success
    else if publish == Closed(CtxDeadline) then Timeout
    else if Is(err.value, DeadlineExceeded) then Timeout
    else if publish == Closed(CtxCanceled) then PublishOutcome.Canceled
    else if Is(err.value, Sentinel.Canceled) then PublishOutcome.Canceled
    else Failed
  }

  /**
   What a publish call is classified as, said of its context and its error alone: a deadline, of the context or in the
   error, is a timeout; a cancellation is one only where there is no deadline; any other error is a plain failure.
   */
  predicate OutcomeFits(outcome: PublishOutcome, publish: Caller, err: Option<Err>) {
    var deadline := publish == Closed(CtxDeadline) || (err.Some? && Is(err.value, DeadlineExceeded));
    var canceled := publish == Closed(CtxCanceled) || (err.Some? && Is(err.value, Sentinel.Canceled));
    && (outcome == Success <==> err.None?)
    && (outcome == Timeout <==> err.Some? && deadline)
    && (outcome == PublishOutcome.Canceled <==> err.Some? && !deadline && canceled)
    && (outcome == Failed <==> err.Some? && !deadline && !canceled)
  }

  lemma OutcomeIsClassified(publish: Caller, err: Option<Err>)
    ensures OutcomeFits(ClassifyPublishOutcome(publish, err), publish, err)
  {
  }

  /** A publisher error is stored by the name of its class, which is never that of a success. */
  lemma PublisherErrorIsStorable(publish: Caller, err: Err)
    ensures ClassifyPublishOutcome(publish, Some(err)) != Success
    ensures var text := ClassifyPublishOutcome(publish, Some(err)).Text();
            var deadline := publish == Closed(CtxDeadline) || Is(err, DeadlineExceeded);
            text == if deadline then "timeout"
                    else if publish == Closed(CtxCanceled) || Is(err, Sentinel.Canceled) then "canceled" else "failed"
  {
  }
}
