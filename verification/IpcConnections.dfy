/** The table of IPC connections (ipc.rs, and the event batches of bin/agent.rs): bounded
    handshakes, bounded subscriptions, and descriptors that the kernel reuses. */
module IpcConnections {
  import opened Records
  import opened IpcFraming

  const HANDSHAKE_TIMEOUT: nat := 5000
  const MAX_PENDING: nat := 16
  const MAX_SUBSCRIBERS: nat := 4

  datatype State = Reading(buffer: seq<byte>) | Awaiting | Writing(response: seq<byte>, offset: nat, promote: bool)

  /** One accepted connection. `id` tells connections apart that share a descriptor in turn;
      `received` and `sent` are what its wire carried. */
  datatype Connection = Connection(id: nat, deadline: nat, state: State, received: seq<byte>, sent: seq<byte>)

  datatype Subscriber = Subscriber(fd: nat, id: nat)

  /** A request that was handed out, and a subscription that was completed. */
  datatype Served = Served(id: nat, received: seq<byte>, action: Action)

  datatype Promotion = Promotion(id: nat, sent: seq<byte>, response: seq<byte>)

  datatype Table = Table(
    pending: map<nat, Connection>,
    subscribers: seq<Subscriber>,
    enabled: bool,
    accepted: nat,
    served: seq<Served>,
    promoted: seq<Promotion>)

  const EMPTY := Table(map[], [], true, 0, [], [])

  // ---------------------------------------------------------------- what the system answers

  datatype ReadResult = Got(chunk: seq<byte>) | Eof | Blocked | ReadFailed

  datatype WriteResult = Wrote(count: nat) | WriteBlocked | WriteFailed

  /** The clock around one system call, its result, and whether the watch that follows fails. */
  datatype ReadIo = ReadIo(before: nat, result: ReadResult, after: nat, unwatchFails: bool)

  datatype WriteIo = WriteIo(before: nat, result: WriteResult, after: nat, watchFails: bool)

  datatype Accept = NoneWaiting | AcceptFailed | Arrived(fd: nat, at: nat, refused: bool)

  // ---------------------------------------------------------------- reading

  function Drop(t: Table, fd: nat): Table {
    t.(pending := t.pending - {fd})
  }

  function With(t: Table, fd: nat, c: Connection): Table {
    t.(pending := t.pending[fd := c])
  }

  function FdOpen(t: Table, fd: nat): bool {
    fd in t.pending || exists i | 0 <= i < |t.subscribers| :: t.subscribers[i].fd == fd
  }

  /** The connection after a read, and the action the read completed; `None` closes it. */
  function AfterRead(decode: Codec, c: Connection, result: ReadResult): (r: (Option<Connection>, Option<Action>))
    requires c.state.Reading?
  {
    var buffer := c.state.buffer;
    match result
    case Got(chunk) =>
      if !Readable(buffer, chunk) then (None, None)
      else
        var (filled, action) := Receive(decode, buffer, chunk);
        (Some(c.(state := Reading(filled), received := c.received + chunk)), action)
    case Eof => if |buffer| == MAX_MESSAGE then (Some(c), Some(Reject(TooLong))) else (None, None)
    case Blocked => (Some(c), None)
    case ReadFailed => (None, None)
  }

  function Serve(t: Table, c: Connection, action: Action): Table {
    t.(served := t.served + [Served(c.id, c.received, action)])
  }

  /** `handle_pending_readable`. */
  function HandleReadable(decode: Codec, t: Table, fd: nat, io: ReadIo): (r: (Table, Option<Action>)) {
    if fd !in t.pending then (t, None)
    else
      var c := t.pending[fd];
      if io.before >= c.deadline then (Drop(t, fd), None)
      else if !c.state.Reading? then (t, None)
      else
        var (kept, action) := AfterRead(decode, c, io.result);
        if kept.None? || io.after >= c.deadline then (Drop(t, fd), None)
        else if action.None? then (With(t, fd, kept.value), None)
        else if io.unwatchFails then (Drop(t, fd), None)
        else (Serve(With(t, fd, kept.value.(state := Awaiting)), kept.value, action.value), action)
  }

  // ---------------------------------------------------------------- writing

  function Min(a: nat, b: nat): nat {
    if a < b then a else b
  }

  /** The number of bytes one write takes. */
  function Taken(c: Connection, result: WriteResult): nat
    requires c.state.Writing?
  {
    if !result.Wrote? then 0
    else Min(result.count, Min(WRITE_BUDGET, if |c.state.response| > c.state.offset then |c.state.response| - c.state.offset else 0))
  }

  function AfterWrite(c: Connection, n: nat): Connection
    requires c.state.Writing? && c.state.offset + n <= |c.state.response|
  {
    c.(state := c.state.(offset := c.state.offset + n),
       sent := c.sent + c.state.response[c.state.offset..c.state.offset + n])
  }

  /** `Subscribers::add`. */
  function PromoteTo(t: Table, fd: nat, c: Connection): Table
    requires c.state.Writing?
  {
    var u := Drop(t, fd).(promoted := t.promoted + [Promotion(c.id, c.sent, c.state.response)]);
    if |t.subscribers| >= MAX_SUBSCRIBERS then u else u.(subscribers := t.subscribers + [Subscriber(fd, c.id)])
  }

  /** `advance_write`. */
  function AdvanceWrite(t: Table, fd: nat, io: WriteIo, armed: bool): Table {
    if fd !in t.pending then t
    else
      var c := t.pending[fd];
      if io.before >= c.deadline then Drop(t, fd)
      else if !c.state.Writing? then t
      else if io.result.WriteFailed? then Drop(t, fd)
      else
        var n := Taken(c, io.result);
        if c.state.offset + n > |c.state.response| then Drop(t, fd)
        else
          var d := AfterWrite(c, n);
          if io.after >= c.deadline || (io.result.Wrote? && n == 0) then Drop(t, fd)
          else if d.state.offset < |d.state.response| || io.result.WriteBlocked? then
            (if !armed && io.watchFails then Drop(t, fd) else With(t, fd, d))
          else if !d.state.promote || io.watchFails then Drop(t, fd)
          else PromoteTo(t, fd, d)
  }

  /** `queue_response`, on a body the codec produced. */
  function QueueResponse(t: Table, fd: nat, body: seq<byte>, promote: bool, io: WriteIo): Table {
    var encoded := Encode(body);
    if encoded.None? then Drop(t, fd)
    else if fd !in t.pending then t
    else
      var c := t.pending[fd];
      if io.before >= c.deadline then Drop(t, fd)
      else if !c.state.Awaiting? then Drop(t, fd)
      else AdvanceWrite(With(t, fd, c.(state := Writing(encoded.value, 0, promote))), fd, io, false)
  }

  // ---------------------------------------------------------------- maintenance

  function Expire(t: Table, now: nat): Table {
    t.(pending := map fd | fd in t.pending && t.pending[fd].deadline > now :: t.pending[fd])
  }

  /** `register_accepted`. The kernel hands out only descriptors that are not open. */
  function Register(t: Table, a: Accept): Table
    requires a.Arrived?
  {
    var u := t.(accepted := t.accepted + 1);
    if a.refused || FdOpen(t, a.fd) then u
    else With(u, a.fd, Connection(t.accepted, a.at + HANDSHAKE_TIMEOUT, Reading([]), [], []))
  }

  /** `accept_connections`. */
  function AcceptAll(t: Table, arrivals: seq<Accept>, attempts: nat): Table
    decreases |arrivals|
  {
    if arrivals == [] || |t.pending| >= MAX_PENDING || attempts >= MAX_PENDING || !arrivals[0].Arrived? then t
    else AcceptAll(Register(t, arrivals[0]), arrivals[1..], attempts + 1)
  }

  /** `maintain`: false when the listener could not be switched. */
  function Maintain(t: Table, now: nat, ready: bool, arrivals: seq<Accept>, switchFails: bool): (r: (Table, bool)) {
    var a := Expire(t, now);
    var b := if ready && a.enabled && |a.pending| < MAX_PENDING then AcceptAll(a, arrivals, 0) else a;
    if b.enabled == (|b.pending| < MAX_PENDING) then (b, true)
    else if switchFails then (b, false)
    else (b.(enabled := !b.enabled), true)
  }

  // ---------------------------------------------------------------- event batches

  /** One event of a batch. A readable event carries what the dispatch that follows it does. */
  datatype Event =
    | Listener
    | PendingReadable(fd: nat, read: ReadIo, body: seq<byte>, write: WriteIo)
    | StreamWritable(fd: nat, io: WriteIo)
    | Stream(fd: nat, quiet: bool)
    | Elsewhere

  /** `Subscribers::handle_readable`. */
  function KeepQuiet(subscribers: seq<Subscriber>, fd: nat, quiet: bool): seq<Subscriber> {
    if subscribers == [] then []
    else (if subscribers[0].fd != fd || quiet then [subscribers[0]] else []) + KeepQuiet(subscribers[1..], fd, quiet)
  }

  /** `Subscribers::broadcast`, by whether each write took the whole line. */
  function KeepWritten(subscribers: seq<Subscriber>, whole: seq<bool>): seq<Subscriber>
    requires |whole| == |subscribers|
  {
    if subscribers == [] then []
    else (if whole[0] then [subscribers[0]] else []) + KeepWritten(subscribers[1..], whole[1..])
  }

  function HandleEvent(decode: Codec, t: Table, e: Event): Table {
    match e
    case Listener => t
    case Elsewhere => t
    case PendingReadable(fd, read, body, write) =>
      var (u, action) := HandleReadable(decode, t, fd, read);
      if action.None? then u else QueueResponse(u, fd, body, action.value.Subscribe?, write)
    case StreamWritable(fd, io) => AdvanceWrite(t, fd, io, true)
    case Stream(fd, quiet) => t.(subscribers := KeepQuiet(t.subscribers, fd, quiet))
  }

  function HandleBatch(decode: Codec, t: Table, batch: seq<Event>): Table
    decreases |batch|
  {
    if batch == [] then t else HandleBatch(decode, HandleEvent(decode, t, batch[0]), batch[1..])
  }

  /** One turn of the agent's event loop: a broadcast, the maintenance before the wait, the
      batch the wait returned, and the maintenance that ends it. */
  datatype Turn = Turn(
    whole: seq<bool>, before: nat, batch: seq<Event>, after: nat, arrivals: seq<Accept>, switchFails: (bool, bool))

  function RunTurn(decode: Codec, t: Table, turn: Turn): (r: (Table, bool)) {
    var b := if |turn.whole| == |t.subscribers| then t.(subscribers := KeepWritten(t.subscribers, turn.whole)) else t;
    var (p, ok) := Maintain(b, turn.before, false, [], turn.switchFails.0);
    if !ok then (p, false)
    else
      var q := HandleBatch(decode, p, turn.batch);
      Maintain(q, turn.after, Listener in turn.batch, turn.arrivals, turn.switchFails.1)
  }

  /** The loop ends when the listener cannot be switched. */
  function RunLoop(decode: Codec, t: Table, turns: seq<Turn>): (r: (Table, bool))
    decreases |turns|
  {
    if turns == [] then (t, true)
    else
      var (u, ok) := RunTurn(decode, t, turns[0]);
      if ok then RunLoop(decode, u, turns[1..]) else (u, false)
  }

  // ---------------------------------------------------------------- the invariant

  predicate ConnectionOk(decode: Codec, c: Connection) {
    match c.state
    case Reading(buffer) => buffer == c.received && Parse(decode, buffer).None? && c.sent == []
    case Awaiting => c.sent == []
    case Writing(response, offset, _) => offset <= |response| <= MAX_MESSAGE && c.sent == response[..offset]
  }

  /** The descriptor is in use by this connection. */
  predicate Holds(t: Table, fd: nat, id: nat) {
    (fd in t.pending && t.pending[fd].id == id) || Subscriber(fd, id) in t.subscribers
  }

  /** Handshakes: accepted before now, one descriptor each, and not served while still reading. */
  predicate PendingOk(decode: Codec, t: Table) {
    && (forall fd | fd in t.pending :: t.pending[fd].id < t.accepted && ConnectionOk(decode, t.pending[fd]))
    && (forall f, g | f in t.pending && g in t.pending && t.pending[f].id == t.pending[g].id :: f == g)
    && (forall f, i | f in t.pending && t.pending[f].state.Reading? && 0 <= i < |t.served| :: t.served[i].id != t.pending[f].id)
  }

  /** Every request handed out is what the bytes received ask for, and no connection is served
      twice. */
  predicate ServedOk(decode: Codec, served: seq<Served>, accepted: nat) {
    && (forall i | 0 <= i < |served| ::
          served[i].id < accepted && Parse(decode, served[i].received) == Some(served[i].action))
    && (forall i, j | 0 <= i < |served| && 0 <= j < |served| && served[i].id == served[j].id :: i == j)
  }

  /** Only a fully sent response turns a connection into a subscription. */
  predicate PromotedOk(promoted: seq<Promotion>) {
    forall i | 0 <= i < |promoted| :: promoted[i].sent == promoted[i].response
  }

  predicate Valid(decode: Codec, t: Table) {
    && |t.pending| <= MAX_PENDING && |t.subscribers| <= MAX_SUBSCRIBERS
    && (forall s | s in t.subscribers :: s.id < t.accepted)
    && PendingOk(decode, t) && ServedOk(decode, t.served, t.accepted) && PromotedOk(t.promoted)
  }

  // ---------------------------------------------------------------- single operations

  /** Nothing was accepted: every descriptor is held by the connection that held it before, or
      by none; and only connections of the table were served. */
  ghost predicate Narrows(t: Table, u: Table) {
    && u.accepted == t.accepted && u.enabled == t.enabled
    && (forall fd, id | Holds(u, fd, id) :: Holds(t, fd, id))
    && t.served <= u.served
    && (forall s | s in u.served && s !in t.served :: exists fd :: Holds(t, fd, s.id))
  }

  lemma NarrowsTransitive(t: Table, u: Table, v: Table)
    requires Narrows(t, u) && Narrows(u, v)
    ensures Narrows(t, v)
  {
    hide Holds;
  }

  lemma SmallerMap(m: map<nat, Connection>, n: map<nat, Connection>)
    requires n.Keys <= m.Keys
    ensures |n| <= |m|
  {
    assert |n| == |n.Keys| && |m| == |m.Keys|;
    SmallerSet(n.Keys, m.Keys);
  }

  lemma {:induction false} SmallerSet(a: set<nat>, b: set<nat>)
    requires a <= b
    ensures |a| <= |b|
    decreases a
  {
    if a == {} {
    } else {
      var x :| x in a;
      SmallerSet(a - {x}, b - {x});
    }
  }

  lemma DropValid(decode: Codec, t: Table, fd: nat)
    requires Valid(decode, t)
    ensures Valid(decode, Drop(t, fd)) && Narrows(t, Drop(t, fd))
  {
    hide ConnectionOk;
    SmallerMap(t.pending, Drop(t, fd).pending);
  }

  /** The connection on `fd` moves on. */
  predicate Moves(decode: Codec, t: Table, fd: nat, c: Connection) {
    && fd in t.pending && c.id == t.pending[fd].id && ConnectionOk(decode, c)
    && (c.state.Reading? ==> t.pending[fd].state.Reading?)
  }

  lemma WithValid(decode: Codec, t: Table, fd: nat, c: Connection)
    requires Valid(decode, t) && Moves(decode, t, fd, c)
    ensures Valid(decode, With(t, fd, c)) && Narrows(t, With(t, fd, c))
  {
    hide ConnectionOk;
  }

  lemma NarrowsSelf(t: Table)
    ensures Narrows(t, t)
  {
  }

  lemma AfterReadOk(decode: Codec, c: Connection, result: ReadResult)
    requires ConnectionOk(decode, c) && c.state.Reading?
    ensures var (kept, action) := AfterRead(decode, c, result);
            kept.Some? ==>
              && kept.value.id == c.id && kept.value.state.Reading? && kept.value.sent == []
              && (action.None? ==> ConnectionOk(decode, kept.value))
              && (action.Some? ==> Parse(decode, kept.value.received) == action)
  {
    DecidedAtLimit(decode, c.state.buffer);
  }

  /** `handle_pending_readable` hands out a request only once, and only the right one. */
  lemma HandleReadableValid(decode: Codec, t: Table, fd: nat, io: ReadIo)
    requires Valid(decode, t)
    ensures var (u, action) := HandleReadable(decode, t, fd, io);
            && Valid(decode, u) && Narrows(t, u)
            && (action.Some? ==> fd in u.pending && u.pending[fd].state.Awaiting? && u.pending[fd].sent == [])
  {
    hide Parse;
    hide Narrows;
    NarrowsSelf(t);
    DropValid(decode, t, fd);
    if fd in t.pending && t.pending[fd].state.Reading? {
      var c := t.pending[fd];
      AfterReadOk(decode, c, io.result);
      var (kept, action) := AfterRead(decode, c, io.result);
      hide AfterRead;
      if kept.Some? {
        if action.None? {
          WithValid(decode, t, fd, kept.value);
        } else {
          ServeValid(decode, t, fd, kept.value.(state := Awaiting), action.value);
        }
      }
    }
  }

  lemma ServedMore(decode: Codec, t: Table, fd: nat, c: Connection, action: Action)
    requires ServedOk(decode, t.served, t.accepted) && PendingOk(decode, t)
    requires fd in t.pending && t.pending[fd].state.Reading? && c.id == t.pending[fd].id
    requires Parse(decode, c.received) == Some(action)
    ensures ServedOk(decode, Serve(t, c, action).served, t.accepted)
  {
    hide Parse;
    hide ConnectionOk;
  }

  lemma PendingServed(decode: Codec, t: Table, fd: nat, c: Connection, action: Action)
    requires PendingOk(decode, t) && fd in t.pending && t.pending[fd].state.Awaiting? && c.id == t.pending[fd].id
    ensures PendingOk(decode, Serve(t, c, action))
  {
    hide ConnectionOk;
  }

  lemma ServeNarrows(t: Table, fd: nat, c: Connection, action: Action)
    requires fd in t.pending && c.id == t.pending[fd].id
    ensures Narrows(t, Serve(t, c, action))
  {
    assert Holds(t, fd, c.id);
    forall h, id | Holds(Serve(t, c, action), h, id) ensures Holds(t, h, id) {
    }
  }

  lemma ServeValid(decode: Codec, t: Table, fd: nat, c: Connection, action: Action)
    requires Valid(decode, t) && fd in t.pending && t.pending[fd].state.Reading? && c.id == t.pending[fd].id
    requires c.state.Awaiting? && c.sent == [] && Parse(decode, c.received) == Some(action)
    ensures var u := Serve(With(t, fd, c), c, action); Valid(decode, u) && Narrows(t, u)
  {
    hide Parse;
    hide ServedOk;
    hide PendingOk;
    hide Narrows;
    WithValid(decode, t, fd, c);
    ServedMore(decode, t, fd, c, action);
    PendingServed(decode, With(t, fd, c), fd, c, action);
    ServeNarrows(With(t, fd, c), fd, c, action);
    NarrowsTransitive(t, With(t, fd, c), Serve(With(t, fd, c), c, action));
  }

  lemma PendingConnection(decode: Codec, t: Table, fd: nat)
    requires Valid(decode, t) && fd in t.pending
    ensures ConnectionOk(decode, t.pending[fd])
  {
  }

  lemma AdvanceWriteValid(decode: Codec, t: Table, fd: nat, io: WriteIo, armed: bool)
    requires Valid(decode, t)
    ensures Valid(decode, AdvanceWrite(t, fd, io, armed)) && Narrows(t, AdvanceWrite(t, fd, io, armed))
  {
    hide Valid;
    hide Narrows;
    hide ConnectionOk;
    hide Drop;
    hide With;
    hide PromoteTo;
    NarrowsSelf(t);
    DropValid(decode, t, fd);
    if fd in t.pending && t.pending[fd].state.Writing? {
      var c := t.pending[fd];
      var n := Taken(c, io.result);
      PendingConnection(decode, t, fd);
      if c.state.offset + n <= |c.state.response| {
        var d := AfterWrite(c, n);
        AfterWriteOk(decode, c, n);
        WithValid(decode, t, fd, d);
        if d.state.offset == |d.state.response| { PromoteValid(decode, t, fd, d); }
      }
    }
  }

  lemma AfterWriteOk(decode: Codec, c: Connection, n: nat)
    requires ConnectionOk(decode, c) && c.state.Writing? && c.state.offset + n <= |c.state.response|
    ensures ConnectionOk(decode, AfterWrite(c, n)) && AfterWrite(c, n).id == c.id
  {
    var r, o := c.state.response, c.state.offset;
    assert r[..o] + r[o..o + n] == r[..o + n];
  }

  lemma FullySent(decode: Codec, c: Connection)
    requires ConnectionOk(decode, c) && c.state.Writing? && c.state.offset == |c.state.response|
    ensures c.sent == c.state.response
  {
  }

  lemma PendingId(decode: Codec, t: Table, fd: nat)
    requires PendingOk(decode, t) && fd in t.pending
    ensures t.pending[fd].id < t.accepted
  {
  }

  lemma PendingSame(decode: Codec, t: Table, u: Table)
    requires PendingOk(decode, t) && u.pending == t.pending && u.accepted == t.accepted && u.served == t.served
    ensures PendingOk(decode, u)
  {
    hide ConnectionOk;
  }

  lemma PromoteValid(decode: Codec, t: Table, fd: nat, c: Connection)
    requires Valid(decode, t) && Moves(decode, t, fd, c) && c.state.Writing? && c.state.offset == |c.state.response|
    ensures Valid(decode, PromoteTo(t, fd, c)) && Narrows(t, PromoteTo(t, fd, c))
  {
    hide ConnectionOk;
    hide PendingOk;
    hide ServedOk;
    DropValid(decode, t, fd);
    FullySent(decode, c);
    PendingId(decode, t, fd);
    var d, u := Drop(t, fd), PromoteTo(t, fd, c);
    PendingSame(decode, d, u);
    assert Holds(t, fd, c.id);
    forall h, id | Holds(u, h, id) ensures Holds(t, h, id) {
      assert Holds(d, h, id) || Subscriber(h, id) == Subscriber(fd, c.id);
    }
  }

  lemma QueueResponseValid(decode: Codec, t: Table, fd: nat, body: seq<byte>, promote: bool, io: WriteIo)
    requires Valid(decode, t)
    ensures Valid(decode, QueueResponse(t, fd, body, promote, io)) && Narrows(t, QueueResponse(t, fd, body, promote, io))
  {
    hide Narrows;
    hide Valid;
    hide Parse;
    hide AdvanceWrite;
    hide Drop;
    hide With;
    NarrowsSelf(t);
    DropValid(decode, t, fd);
    var encoded := Encode(body);
    if encoded.Some? && fd in t.pending && t.pending[fd].state.Awaiting? {
      var c := t.pending[fd].(state := Writing(encoded.value, 0, promote));
      PendingConnection(decode, t, fd);
      WithValid(decode, t, fd, c);
      AdvanceWriteValid(decode, With(t, fd, c), fd, io, false);
      NarrowsTransitive(t, With(t, fd, c), AdvanceWrite(With(t, fd, c), fd, io, false));
    }
  }

  lemma {:induction false} QuietKept(subscribers: seq<Subscriber>, fd: nat, quiet: bool)
    ensures var kept := KeepQuiet(subscribers, fd, quiet);
            |kept| <= |subscribers| && forall s | s in kept :: s in subscribers
  {
    if subscribers == [] {
    } else {
      QuietKept(subscribers[1..], fd, quiet);
    }
  }

  lemma {:induction false} WrittenKept(subscribers: seq<Subscriber>, whole: seq<bool>)
    requires |whole| == |subscribers|
    ensures var kept := KeepWritten(subscribers, whole);
            |kept| <= |subscribers| && forall s | s in kept :: s in subscribers
  {
    if subscribers == [] {
    } else {
      WrittenKept(subscribers[1..], whole[1..]);
    }
  }

  lemma FewerSubscribers(decode: Codec, t: Table, kept: seq<Subscriber>)
    requires Valid(decode, t) && |kept| <= |t.subscribers| && forall s | s in kept :: s in t.subscribers
    ensures Valid(decode, t.(subscribers := kept)) && Narrows(t, t.(subscribers := kept))
  {
    hide ConnectionOk;
  }

  lemma HandleEventValid(decode: Codec, t: Table, e: Event)
    requires Valid(decode, t)
    ensures Valid(decode, HandleEvent(decode, t, e)) && Narrows(t, HandleEvent(decode, t, e))
  {
    hide Narrows;
    hide Valid;
    hide HandleReadable;
    hide QueueResponse;
    hide AdvanceWrite;
    NarrowsSelf(t);
    match e
    case Listener =>
    case Elsewhere =>
    case PendingReadable(fd, read, body, write) =>
      HandleReadableValid(decode, t, fd, read);
      var (u, action) := HandleReadable(decode, t, fd, read);
      if action.Some? {
        QueueResponseValid(decode, u, fd, body, action.value.Subscribe?, write);
        NarrowsTransitive(t, u, QueueResponse(u, fd, body, action.value.Subscribe?, write));
      }
    case StreamWritable(fd, io) => AdvanceWriteValid(decode, t, fd, io, true);
    case Stream(fd, quiet) =>
      QuietKept(t.subscribers, fd, quiet);
      FewerSubscribers(decode, t, KeepQuiet(t.subscribers, fd, quiet));
  }

  /** No event of a batch reaches a connection accepted after the batch was returned: through
      the whole batch every descriptor is held by the connection that held it at its start, or
      by none, and only those connections are served. */
  lemma {:induction false} NoStaleEvent(decode: Codec, t: Table, batch: seq<Event>)
    requires Valid(decode, t)
    ensures Valid(decode, HandleBatch(decode, t, batch)) && Narrows(t, HandleBatch(decode, t, batch))
    decreases |batch|
  {
    hide Narrows;
    hide Valid;
    hide HandleEvent;
    NarrowsSelf(t);
    if batch == [] {
    } else {
      var u := HandleEvent(decode, t, batch[0]);
      HandleEventValid(decode, t, batch[0]);
      NoStaleEvent(decode, u, batch[1..]);
      NarrowsTransitive(t, u, HandleBatch(decode, u, batch[1..]));
    }
  }

  // ---------------------------------------------------------------- maintenance and turns

  lemma ExpireValid(decode: Codec, t: Table, now: nat)
    requires Valid(decode, t)
    ensures Valid(decode, Expire(t, now))
  {
    hide ConnectionOk;
    SmallerMap(t.pending, Expire(t, now).pending);
  }

  lemma FreshConnection(decode: Codec, id: nat, deadline: nat)
    ensures ConnectionOk(decode, Connection(id, deadline, Reading([]), [], []))
  {
    DecidedAtLimit(decode, []);
  }

  lemma NewPending(decode: Codec, t: Table, fd: nat, c: Connection)
    requires PendingOk(decode, t) && ServedOk(decode, t.served, t.accepted) && fd !in t.pending
    requires c.id == t.accepted && ConnectionOk(decode, c)
    ensures PendingOk(decode, With(t.(accepted := t.accepted + 1), fd, c))
  {
    hide ConnectionOk;
    hide Parse;
  }

  lemma MoreAccepted(decode: Codec, t: Table)
    requires Valid(decode, t)
    ensures Valid(decode, t.(accepted := t.accepted + 1))
  {
    hide ConnectionOk;
    hide Parse;
  }

  lemma RegisterValid(decode: Codec, t: Table, a: Accept)
    requires Valid(decode, t) && a.Arrived? && |t.pending| < MAX_PENDING
    ensures Valid(decode, Register(t, a))
  {
    hide ConnectionOk;
    hide PendingOk;
    hide ServedOk;
    MoreAccepted(decode, t);
    if a.fd !in t.pending {
      var c := Connection(t.accepted, a.at + HANDSHAKE_TIMEOUT, Reading([]), [], []);
      FreshConnection(decode, t.accepted, a.at + HANDSHAKE_TIMEOUT);
      NewPending(decode, t, a.fd, c);
    }
  }

  lemma {:induction false} AcceptAllValid(decode: Codec, t: Table, arrivals: seq<Accept>, attempts: nat)
    requires Valid(decode, t)
    ensures Valid(decode, AcceptAll(t, arrivals, attempts)) && AcceptAll(t, arrivals, attempts).enabled == t.enabled
    decreases |arrivals|
  {
    hide Valid;
    hide Register;
    if arrivals == [] || |t.pending| >= MAX_PENDING || attempts >= MAX_PENDING || !arrivals[0].Arrived? {
    } else {
      RegisterValid(decode, t, arrivals[0]);
      RegisterEnabled(t, arrivals[0]);
      AcceptAllValid(decode, Register(t, arrivals[0]), arrivals[1..], attempts + 1);
    }
  }

  lemma RegisterEnabled(t: Table, a: Accept)
    requires a.Arrived?
    ensures Register(t, a).enabled == t.enabled
  {
  }

  /** After each maintenance that did not fail, the listener is enabled exactly when another
      handshake may be accepted. */
  lemma MaintainValid(decode: Codec, t: Table, now: nat, ready: bool, arrivals: seq<Accept>, switchFails: bool)
    requires Valid(decode, t)
    ensures var (u, ok) := Maintain(t, now, ready, arrivals, switchFails);
            Valid(decode, u) && (ok ==> (u.enabled <==> |u.pending| < MAX_PENDING))
  {
    hide Valid;
    hide AcceptAll;
    ExpireValid(decode, t, now);
    var a := Expire(t, now);
    AcceptAllValid(decode, a, arrivals, 0);
    var b := if ready && a.enabled && |a.pending| < MAX_PENDING then AcceptAll(a, arrivals, 0) else a;
    SwitchValid(decode, b);
  }

  lemma SwitchValid(decode: Codec, t: Table)
    requires Valid(decode, t)
    ensures Valid(decode, t.(enabled := !t.enabled))
  {
    hide ConnectionOk;
  }

  /** The whole event loop, over every sequence of turns: at most 16 handshakes and 4
      subscriptions; every request handed out once and rightly; written bytes always a prefix
      of the response, all of it before a promotion; and the listener enabled exactly when the
      next handshake may be accepted. */
  lemma {:induction false} LoopSafe(decode: Codec, t: Table, turns: seq<Turn>)
    requires Valid(decode, t)
    ensures var (u, ok) := RunLoop(decode, t, turns);
            Valid(decode, u) && (ok && turns != [] ==> (u.enabled <==> |u.pending| < MAX_PENDING))
    decreases |turns|
  {
    hide Valid;
    hide RunTurn;
    if turns == [] {
    } else {
      TurnSafe(decode, t, turns[0]);
      var (u, ok) := RunTurn(decode, t, turns[0]);
      LoopSafe(decode, u, turns[1..]);
    }
  }

  lemma TurnSafe(decode: Codec, t: Table, turn: Turn)
    requires Valid(decode, t)
    ensures var (u, ok) := RunTurn(decode, t, turn);
            Valid(decode, u) && (ok ==> (u.enabled <==> |u.pending| < MAX_PENDING))
  {
    hide Valid;
    hide Narrows;
    hide Maintain;
    hide HandleBatch;
    if |turn.whole| == |t.subscribers| {
      WrittenKept(t.subscribers, turn.whole);
      FewerSubscribers(decode, t, KeepWritten(t.subscribers, turn.whole));
    }
    var b := if |turn.whole| == |t.subscribers| then t.(subscribers := KeepWritten(t.subscribers, turn.whole)) else t;
    MaintainValid(decode, b, turn.before, false, [], turn.switchFails.0);
    var p := Maintain(b, turn.before, false, [], turn.switchFails.0).0;
    NoStaleEvent(decode, p, turn.batch);
    var q := HandleBatch(decode, p, turn.batch);
    MaintainValid(decode, q, turn.after, Listener in turn.batch, turn.arrivals, turn.switchFails.1);
  }

  /** What the loop has done since it started, in the terms of its users. */
  lemma ServedRightOnce(decode: Codec, turns: seq<Turn>, i: nat, j: nat)
    requires var t := RunLoop(decode, EMPTY, turns).0; i < |t.served| && j < |t.served|
    ensures var t := RunLoop(decode, EMPTY, turns).0;
            && Parse(decode, t.served[i].received) == Some(t.served[i].action)
            && (t.served[i].id == t.served[j].id ==> i == j)
            && |t.pending| <= MAX_PENDING && |t.subscribers| <= MAX_SUBSCRIBERS
  {
    hide RunLoop;
    hide Parse;
    LoopSafe(decode, EMPTY, turns);
  }

  // ---------------------------------------------------------------- the server itself

  /** `Subscribers::broadcast`: one attempt for each subscriber, in order. */
  method RetainWritten(subscribers: seq<Subscriber>, whole: seq<bool>) returns (kept: seq<Subscriber>)
    requires |whole| == |subscribers|
    ensures kept == KeepWritten(subscribers, whole)
  {
    kept := [];
    var i := 0;
    assert whole[0..] == whole && subscribers[0..] == subscribers;
    while i < |subscribers|
      invariant 0 <= i <= |subscribers|
      invariant kept + KeepWritten(subscribers[i..], whole[i..]) == KeepWritten(subscribers, whole)
    {
      assert subscribers[i..][1..] == subscribers[i + 1..] && whole[i..][1..] == whole[i + 1..];
      ghost var rest := KeepWritten(subscribers[i + 1..], whole[i + 1..]);
      assert (kept + [subscribers[i]]) + rest == kept + ([subscribers[i]] + rest);
      if whole[i] {
        kept := kept + [subscribers[i]];
      }
      i := i + 1;
    }
  }

  /** `Subscribers::handle_readable`: a subscriber that sends or closes is dropped. */
  method RetainQuiet(subscribers: seq<Subscriber>, fd: nat, quiet: bool) returns (kept: seq<Subscriber>)
    ensures kept == KeepQuiet(subscribers, fd, quiet)
  {
    kept := [];
    var i := 0;
    assert subscribers[0..] == subscribers;
    while i < |subscribers|
      invariant 0 <= i <= |subscribers|
      invariant kept + KeepQuiet(subscribers[i..], fd, quiet) == KeepQuiet(subscribers, fd, quiet)
    {
      assert subscribers[i..][1..] == subscribers[i + 1..];
      ghost var rest := KeepQuiet(subscribers[i + 1..], fd, quiet);
      assert (kept + [subscribers[i]]) + rest == kept + ([subscribers[i]] + rest);
      if subscribers[i].fd != fd || quiet {
        kept := kept + [subscribers[i]];
      }
      i := i + 1;
    }
  }

  class IpcServer {
    const decode: Codec
    var pending: map<nat, Connection>
    var subscribers: seq<Subscriber>
    var enabled: bool
    var accepted: nat
    ghost var served: seq<Served>
    ghost var promoted: seq<Promotion>

    ghost function View(): Table
      reads this
    {
      Table(pending, subscribers, enabled, accepted, served, promoted)
    }

    constructor (decode: Codec)
      ensures this.decode == decode && View() == EMPTY
    {
      this.decode := decode;
      pending, subscribers, enabled, accepted, served, promoted := map[], [], true, 0, [], [];
    }

    method Remove(fd: nat)
      modifies `pending
      ensures View() == Drop(old(View()), fd)
    {
      pending := pending - {fd};
    }

    method HandlePendingReadable(fd: nat, io: ReadIo) returns (action: Option<Action>)
      modifies this
      ensures (View(), action) == HandleReadable(decode, old(View()), fd, io)
    {
      hide Receive;
      if fd !in pending {
        return None;
      }
      var c := pending[fd];
      if io.before >= c.deadline {
        Remove(fd);
        return None;
      }
      if !c.state.Reading? {
        return None;
      }
      match io.result {
        case Got(chunk) =>
          if !Readable(c.state.buffer, chunk) {
            Remove(fd);
            return None;
          }
          var (filled, found) := Receive(decode, c.state.buffer, chunk);
          c := c.(state := Reading(filled), received := c.received + chunk);
          action := found;
        case Eof =>
          if |c.state.buffer| != MAX_MESSAGE {
            Remove(fd);
            return None;
          }
          action := Some(Reject(TooLong));
        case Blocked =>
          action := None;
        case ReadFailed =>
          Remove(fd);
          return None;
      }
      if io.after >= c.deadline {
        Remove(fd);
        return None;
      }
      if action.None? {
        pending := pending[fd := c];
        return None;
      }
      if io.unwatchFails {
        Remove(fd);
        return None;
      }
      pending := pending[fd := c.(state := Awaiting)];
      served := served + [Served(c.id, c.received, action.value)];
    }

    method HandlePendingWritable(fd: nat, io: WriteIo, armed: bool)
      modifies this
      ensures View() == AdvanceWrite(old(View()), fd, io, armed)
    {
      if fd !in pending {
        return;
      }
      var c := pending[fd];
      if io.before >= c.deadline {
        Remove(fd);
        return;
      }
      if !c.state.Writing? {
        return;
      }
      var n := Taken(c, io.result);
      if io.result.WriteFailed? || c.state.offset + n > |c.state.response| {
        Remove(fd);
        return;
      }
      var d := AfterWrite(c, n);
      if io.after >= c.deadline || (io.result.Wrote? && n == 0) {
        Remove(fd);
      } else if d.state.offset < |d.state.response| || io.result.WriteBlocked? {
        if !armed && io.watchFails {
          Remove(fd);
        } else {
          pending := pending[fd := d];
        }
      } else if !d.state.promote || io.watchFails {
        Remove(fd);
      } else {
        Promote(fd, d);
      }
    }

    method Promote(fd: nat, c: Connection)
      requires c.state.Writing?
      modifies this
      ensures View() == PromoteTo(old(View()), fd, c)
    {
      Remove(fd);
      promoted := promoted + [Promotion(c.id, c.sent, c.state.response)];
      if |subscribers| < MAX_SUBSCRIBERS {
        subscribers := subscribers + [Subscriber(fd, c.id)];
      }
    }

    method Respond(fd: nat, body: seq<byte>, promote: bool, io: WriteIo)
      modifies this
      ensures View() == QueueResponse(old(View()), fd, body, promote, io)
    {
      hide AdvanceWrite;
      var encoded := Encode(body);
      if encoded.None? {
        Remove(fd);
        return;
      }
      if fd !in pending {
        return;
      }
      var c := pending[fd];
      if io.before >= c.deadline || !c.state.Awaiting? {
        Remove(fd);
        return;
      }
      pending := pending[fd := c.(state := Writing(encoded.value, 0, promote))];
      HandlePendingWritable(fd, io, false);
    }

    method AcceptConnections(arrivals: seq<Accept>)
      modifies this
      ensures View() == AcceptAll(old(View()), arrivals, 0)
    {
      hide Register;
      var i := 0;
      assert arrivals[0..] == arrivals;
      while i < |arrivals| && |pending| < MAX_PENDING && i < MAX_PENDING
        invariant 0 <= i <= |arrivals|
        invariant AcceptAll(View(), arrivals[i..], i) == AcceptAll(old(View()), arrivals, 0)
      {
        if !arrivals[i].Arrived? {
          break;
        }
        assert arrivals[i..][1..] == arrivals[i + 1..];
        RegisterAccepted(arrivals[i]);
        i := i + 1;
      }
    }

    method RegisterAccepted(a: Accept)
      requires a.Arrived?
      modifies this
      ensures View() == Register(old(View()), a)
    {
      var id := accepted;
      var open := FdOpen(Table(pending, subscribers, enabled, accepted, [], []), a.fd);
      accepted := accepted + 1;
      if !a.refused && !open {
        pending := pending[a.fd := Connection(id, a.at + HANDSHAKE_TIMEOUT, Reading([]), [], [])];
      }
    }

    method MaintainTable(now: nat, ready: bool, arrivals: seq<Accept>, switchFails: bool) returns (ok: bool)
      modifies this
      ensures (View(), ok) == Maintain(old(View()), now, ready, arrivals, switchFails)
    {
      hide AcceptAll;
      pending := map fd | fd in pending && pending[fd].deadline > now :: pending[fd];
      if ready && enabled && |pending| < MAX_PENDING {
        AcceptConnections(arrivals);
      }
      if |pending| >= MAX_PENDING && enabled {
        if switchFails {
          return false;
        }
        enabled := false;
      } else if |pending| < MAX_PENDING && !enabled {
        if switchFails {
          return false;
        }
        enabled := true;
      }
      ok := true;
    }

    method Broadcast(whole: seq<bool>)
      requires |whole| == |subscribers|
      modifies `subscribers
      ensures View() == old(View()).(subscribers := KeepWritten(old(subscribers), whole))
    {
      subscribers := RetainWritten(subscribers, whole);
    }

    method HandleSubscriberReadable(fd: nat, quiet: bool)
      modifies `subscribers
      ensures View() == old(View()).(subscribers := KeepQuiet(old(subscribers), fd, quiet))
    {
      subscribers := RetainQuiet(subscribers, fd, quiet);
    }

    /** The batch loop of the agent: a listener event is only a note to accept afterwards. */
    method DispatchBatch(batch: seq<Event>) returns (listenerReady: bool)
      modifies this
      ensures View() == HandleBatch(decode, old(View()), batch) && listenerReady == (Listener in batch)
    {
      hide HandleReadable;
      hide QueueResponse;
      hide AdvanceWrite;
      hide KeepQuiet;
      listenerReady := false;
      var i := 0;
      assert batch[0..] == batch;
      while i < |batch|
        invariant 0 <= i <= |batch|
        invariant HandleBatch(decode, View(), batch[i..]) == HandleBatch(decode, old(View()), batch)
        invariant listenerReady == (Listener in batch[..i])
      {
        assert batch[i..][1..] == batch[i + 1..] && batch[..i + 1] == batch[..i] + [batch[i]];
        match batch[i] {
          case Listener => listenerReady := true;
          case PendingReadable(fd, read, body, write) =>
            var action := HandlePendingReadable(fd, read);
            if action.Some? {
              Respond(fd, body, action.value.Subscribe?, write);
            }
          case StreamWritable(fd, io) => HandlePendingWritable(fd, io, true);
          case Stream(fd, quiet) => HandleSubscriberReadable(fd, quiet);
          case Elsewhere =>
        }
        i := i + 1;
      }
      assert batch[..i] == batch;
    }
  }
}
