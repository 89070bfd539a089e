/** What becomes of a request (ipc.rs, bin/agent.rs): which reads hand one out, which responses
    turn a connection into a subscription, and that nothing else does. */
module IpcSubscriptions {
  import opened Records
  import opened IpcFraming
  import opened IpcConnections

  // ---------------------------------------------------------------- the invariant

  /** The connection asked to subscribe, or for something else. */
  predicate Asked(served: seq<Served>, id: nat, subscribe: bool) {
    exists i | 0 <= i < |served| :: served[i].id == id && served[i].action.Subscribe? == subscribe
  }

  predicate WasPromoted(promoted: seq<Promotion>, id: nat) {
    exists i | 0 <= i < |promoted| :: promoted[i].id == id
  }

  /** Between two events no request is left without its response, and a response that is under
      way leads to a subscription exactly if its request was for one. */
  predicate AnswerOk(c: Connection, served: seq<Served>) {
    match c.state
    case Reading(_) => true
    case Awaiting => false
    case Writing(response, offset, promote) => offset < |response| && Asked(served, c.id, promote)
  }

  predicate SubscribedOk(t: Table) {
    && (forall fd | fd in t.pending :: AnswerOk(t.pending[fd], t.served))
    && (forall p | p in t.promoted :: Asked(t.served, p.id, true))
    && (forall s | s in t.subscribers :: WasPromoted(t.promoted, s.id))
  }

  ghost predicate Sound(decode: Codec, t: Table) {
    Valid(decode, t) && SubscribedOk(t)
  }

  // ---------------------------------------------------------------- what an event does

  /** This read completes the request `action` of the connection on `fd`. */
  predicate Completes(decode: Codec, t: Table, fd: nat, read: ReadIo, action: Action) {
    && fd in t.pending && t.pending[fd].state.Reading?
    && read.before < t.pending[fd].deadline && read.after < t.pending[fd].deadline && !read.unwatchFails
    && read.result.Got? && Readable(t.pending[fd].received, read.result.chunk)
    && Parse(decode, t.pending[fd].received + read.result.chunk) == Some(action)
  }

  /** This write takes all that is left of a response, in time, and the watch for the next use
      of the descriptor succeeds. */
  predicate TakesAll(io: WriteIo, left: int, deadline: nat) {
    && io.before < deadline && io.after < deadline && !io.watchFails
    && io.result.Wrote? && io.result.count >= left && left <= WRITE_BUDGET
  }

  /** The event completes the subscription of the connection on `fd`: it hands out its request
      and sends the whole response, or it sends the rest of the response. */
  predicate Subscribes(decode: Codec, t: Table, e: Event, fd: nat, response: seq<byte>) {
    match e
    case PendingReadable(at, read, body, write) =>
      && at == fd && Completes(decode, t, fd, read, Subscribe)
      && Encode(body) == Some(response) && TakesAll(write, |response|, t.pending[fd].deadline)
    case StreamWritable(at, io) =>
      && at == fd && fd in t.pending && t.pending[fd].state.Writing? && t.pending[fd].state.response == response
      && Asked(t.served, t.pending[fd].id, true)
      && TakesAll(io, |response| - t.pending[fd].state.offset, t.pending[fd].deadline)
    case _ => false
  }

  /** No other connection is touched. */
  predicate Others(t: Table, u: Table, fd: nat) {
    u.accepted == t.accepted && u.pending - {fd} == t.pending - {fd}
  }

  lemma OtherPending(t: Table, u: Table, fd: nat, other: nat)
    requires Others(t, u, fd) && other != fd
    ensures other in u.pending <==> other in t.pending
    ensures other in t.pending ==> u.pending[other] == t.pending[other]
  {
    assert other in u.pending <==> other in u.pending - {fd};
    assert other in t.pending <==> other in t.pending - {fd};
    if other in t.pending { assert (u.pending - {fd})[other] == (t.pending - {fd})[other]; }
  }

  /** A read hands out exactly the request that its bytes complete, and marks it as served. */
  lemma ReadHandsOut(decode: Codec, t: Table, fd: nat, read: ReadIo, action: Action)
    requires Valid(decode, t)
    ensures var (u, out) := HandleReadable(decode, t, fd, read);
            && (out == Some(action) <==> Completes(decode, t, fd, read, action))
            && u.promoted == t.promoted && u.subscribers == t.subscribers && Others(t, u, fd)
            && (out.None? ==> u.served == t.served)
            && (out.None? && fd in u.pending ==> fd in t.pending && (u.pending[fd].state.Reading? || u.pending[fd] == t.pending[fd]))
            && (out.Some? ==>
                  && fd in u.pending && fd in t.pending && u.pending[fd].state.Awaiting? && read.result.Got?
                  && u.pending[fd].id == t.pending[fd].id && u.pending[fd].deadline == t.pending[fd].deadline
                  && u.served == t.served + [Served(t.pending[fd].id, t.pending[fd].received + read.result.chunk, out.value)])
  {
    hide Parse;
    hide Receive;
    if fd in t.pending && t.pending[fd].state.Reading? {
      var c := t.pending[fd];
      ReadingBuffer(decode, t, fd);
      hide Valid;
      if read.result.Got? && Readable(c.received, read.result.chunk) {
        ReceiveIsParse(decode, c.received, read.result.chunk);
      }
    }
  }

  lemma ReadingBuffer(decode: Codec, t: Table, fd: nat)
    requires Valid(decode, t) && fd in t.pending && t.pending[fd].state.Reading?
    ensures t.pending[fd].state.buffer == t.pending[fd].received && |t.pending[fd].received| < MAX_MESSAGE
  {
    assert ConnectionOk(decode, t.pending[fd]);
    DecidedAtLimit(decode, t.pending[fd].state.buffer);
  }

  /** The connection on `fd` became, or did not become, a subscription. */
  predicate Promotes(t: Table, u: Table, fd: nat, id: nat, response: seq<byte>, promoted: bool) {
    if promoted then
      && |u.promoted| == |t.promoted| + 1 && u.promoted[..|t.promoted|] == t.promoted
      && u.promoted[|t.promoted|].id == id && u.promoted[|t.promoted|].response == response
      && u.subscribers == (if |t.subscribers| < MAX_SUBSCRIBERS then t.subscribers + [Subscriber(fd, id)] else t.subscribers)
    else u.promoted == t.promoted && u.subscribers == t.subscribers
  }

  /** What one write leaves of a connection, given what it was asked for. */
  lemma WriteAdvances(t: Table, fd: nat, io: WriteIo, armed: bool)
    requires fd in t.pending && t.pending[fd].state.Writing? && t.pending[fd].state.offset < |t.pending[fd].state.response|
    ensures var c := t.pending[fd];
            var u := AdvanceWrite(t, fd, io, armed);
            var all := TakesAll(io, |c.state.response| - c.state.offset, c.deadline);
            && u.served == t.served && Others(t, u, fd)
            && (all ==> fd !in u.pending)
            && (fd in u.pending ==>
                  && u.pending[fd].id == c.id && u.pending[fd].state.Writing?
                  && u.pending[fd].state.promote == c.state.promote && u.pending[fd].state.offset < |u.pending[fd].state.response|)
            && Promotes(t, u, fd, c.id, c.state.response, all && c.state.promote)
  {
  }

  /** What a response leaves of a connection that waits for it. */
  lemma ResponseAdvances(t: Table, fd: nat, body: seq<byte>, promote: bool, io: WriteIo)
    requires fd in t.pending && t.pending[fd].state.Awaiting?
    ensures var c := t.pending[fd];
            var u := QueueResponse(t, fd, body, promote, io);
            var all := Encode(body).Some? && TakesAll(io, |body| + 1, c.deadline);
            && u.served == t.served && Others(t, u, fd)
            && (all ==> fd !in u.pending)
            && (fd in u.pending ==>
                  && u.pending[fd].id == c.id && u.pending[fd].state.Writing?
                  && u.pending[fd].state.promote == promote && u.pending[fd].state.offset < |u.pending[fd].state.response|)
            && Promotes(t, u, fd, c.id, body + [LF], all && promote)
  {
    hide AdvanceWrite;
    hide TakesAll;
    var c := t.pending[fd];
    if Encode(body).Some? && io.before < c.deadline {
      var v := With(t, fd, c.(state := Writing(body + [LF], 0, promote)));
      WriteAdvances(v, fd, io, false);
      assert v.pending - {fd} == t.pending - {fd};
    }
    assert io.before >= c.deadline ==> !TakesAll(io, |body| + 1, c.deadline) by { LateTakesNothing(io, |body| + 1, c.deadline); }
  }

  lemma LateTakesNothing(io: WriteIo, left: int, deadline: nat)
    ensures io.before >= deadline ==> !TakesAll(io, left, deadline)
  {
  }

  // ---------------------------------------------------------------- what every event keeps

  lemma AskedMore(served: seq<Served>, s: Served)
    ensures Asked(served + [s], s.id, s.action.Subscribe?)
    ensures forall id, subscribe | Asked(served, id, subscribe) :: Asked(served + [s], id, subscribe)
  {
    assert (served + [s])[|served|] == s;
    forall id, subscribe | Asked(served, id, subscribe) ensures Asked(served + [s], id, subscribe) {
      var i :| 0 <= i < |served| && served[i].id == id && served[i].action.Subscribe? == subscribe;
      assert (served + [s])[i] == served[i];
    }
  }

  lemma PromotedMore(t: Table, u: Table, fd: nat, id: nat, response: seq<byte>, promoted: bool)
    requires Promotes(t, u, fd, id, response, promoted)
    ensures promoted ==> WasPromoted(u.promoted, id)
    ensures forall other | WasPromoted(t.promoted, other) :: WasPromoted(u.promoted, other)
    ensures forall p | p in u.promoted :: p in t.promoted || (promoted && p.id == id)
  {
    if promoted {
      assert u.promoted[|t.promoted|].id == id;
      forall other | WasPromoted(t.promoted, other) ensures WasPromoted(u.promoted, other) {
        var i :| 0 <= i < |t.promoted| && t.promoted[i].id == other;
        assert u.promoted[i] == u.promoted[..|t.promoted|][i];
      }
      forall p | p in u.promoted ensures p in t.promoted || p.id == id {
        var i :| 0 <= i < |u.promoted| && u.promoted[i] == p;
        if i < |t.promoted| { assert u.promoted[..|t.promoted|][i] == p; }
      }
    }
  }

  /** One connection moved on, or became a subscription that was asked for. */
  lemma OneMoved(t: Table, u: Table, fd: nat, id: nat, response: seq<byte>, promoted: bool)
    requires SubscribedOk(t) && Others(t, u, fd) && Promotes(t, u, fd, id, response, promoted)
    requires forall i, subscribe | Asked(t.served, i, subscribe) :: Asked(u.served, i, subscribe)
    requires fd in u.pending ==> AnswerOk(u.pending[fd], u.served)
    requires promoted ==> Asked(u.served, id, true)
    ensures SubscribedOk(u)
  {
    PromotedMore(t, u, fd, id, response, promoted);
    hide WasPromoted;
    hide Asked;
    forall other | other in u.pending ensures AnswerOk(u.pending[other], u.served) {
      if other != fd { OtherPending(t, u, fd, other); }
    }
    assert forall s | s in u.subscribers :: s in t.subscribers || (promoted && s.id == id);
  }

  /** The subscriptions an event leaves: one more where it completes one, and one less where a
      subscriber sent something or closed. */
  ghost predicate Changes(decode: Codec, t: Table, e: Event, u: Table) {
    && (forall fd, response | Subscribes(decode, t, e, fd, response) ::
          && u.promoted == t.promoted + [Promotion(t.pending[fd].id, response, response)]
          && u.subscribers == (if |t.subscribers| < MAX_SUBSCRIBERS then t.subscribers + [Subscriber(fd, t.pending[fd].id)] else t.subscribers)
          && fd !in u.pending)
    && (u.promoted != t.promoted ==> exists fd, response :: Subscribes(decode, t, e, fd, response))
    && (u.subscribers != t.subscribers && !e.Stream? ==> u.promoted != t.promoted)
  }

  lemma PromotesExactly(decode: Codec, t: Table, u: Table, fd: nat, id: nat, response: seq<byte>)
    requires Promotes(t, u, fd, id, response, true) && Valid(decode, u)
    ensures u.promoted == t.promoted + [Promotion(id, response, response)]
  {
    var last := u.promoted[|t.promoted|];
    assert last.sent == last.response;
    assert u.promoted == u.promoted[..|t.promoted|] + [last];
  }

  lemma ReadableOk(decode: Codec, t: Table, e: Event)
    requires Sound(decode, t) && e.PendingReadable?
    ensures SubscribedOk(HandleEvent(decode, t, e)) && Changes(decode, t, e, HandleEvent(decode, t, e))
  {
    hide HandleReadable;
    hide QueueResponse;
    hide Valid;
    hide Parse;
    hide Asked;
    hide AnswerOk;
    var fd := e.fd;
    var (v, out) := HandleReadable(decode, t, fd, e.read);
    ReadHandsOut(decode, t, fd, e.read, if out.Some? then out.value else Subscribe);
    if out.None? {
      QuietRead(decode, t, v, fd);
      NothingHandedOut(decode, t, e);
    } else {
      var subscribe := out.value.Subscribe?;
      ServedAnswer(decode, t, v, e, out.value);
      HandleEventValid(decode, t, e);
      ReadHandsOut(decode, t, fd, e.read, Subscribe);
    }
  }

  lemma QuietRead(decode: Codec, t: Table, v: Table, fd: nat)
    requires SubscribedOk(t) && Others(t, v, fd)
    requires v.promoted == t.promoted && v.subscribers == t.subscribers && v.served == t.served
    requires fd in v.pending ==> fd in t.pending && (v.pending[fd].state.Reading? || v.pending[fd] == t.pending[fd])
    ensures SubscribedOk(v)
  {
    forall other | other in v.pending ensures AnswerOk(v.pending[other], v.served) {
      if other != fd { OtherPending(t, v, fd, other); }
    }
  }

  lemma NothingHandedOut(decode: Codec, t: Table, e: Event)
    requires Valid(decode, t) && e.PendingReadable? && HandleReadable(decode, t, e.fd, e.read).1.None?
    ensures forall fd, response :: !Subscribes(decode, t, e, fd, response)
  {
    ReadHandsOut(decode, t, e.fd, e.read, Subscribe);
  }

  /** The request that was handed out gets its response. */
  lemma ServedAnswer(decode: Codec, t: Table, v: Table, e: Event, action: Action)
    requires Sound(decode, t) && e.PendingReadable? && HandleReadable(decode, t, e.fd, e.read) == (v, Some(action))
    ensures var u := QueueResponse(v, e.fd, e.body, action.Subscribe?, e.write);
            SubscribedOk(u) && Changes(decode, t, e, u)
  {
    hide HandleReadable;
    hide QueueResponse;
    hide Parse;
    hide AnswerOk;
    var fd := e.fd;
    ReadHandsOut(decode, t, fd, e.read, action);
    ReadHandsOut(decode, t, fd, e.read, Subscribe);
    var id, deadline := t.pending[fd].id, t.pending[fd].deadline;
    var s := Served(id, t.pending[fd].received + e.read.result.chunk, action);
    AskedMore(t.served, s);
    ResponseAdvances(v, fd, e.body, action.Subscribe?, e.write);
    var u := QueueResponse(v, fd, e.body, action.Subscribe?, e.write);
    var promoted := Encode(e.body).Some? && TakesAll(e.write, |e.body| + 1, deadline) && action.Subscribe?;
    OthersTransitive(t, v, u, fd);
    assert Promotes(t, u, fd, id, e.body + [LF], promoted);
    NewAnswerOk(u, fd, id, action.Subscribe?);
    OneMoved(t, u, fd, id, e.body + [LF], promoted);
    HandleEventValid(decode, t, e);
    if promoted {
      PromotesExactly(decode, t, u, fd, id, e.body + [LF]);
      assert Subscribes(decode, t, e, fd, e.body + [LF]);
    }
  }

  lemma OthersTransitive(t: Table, v: Table, u: Table, fd: nat)
    requires Others(t, v, fd) && Others(v, u, fd)
    ensures Others(t, u, fd)
  {
  }

  lemma NewAnswerOk(u: Table, fd: nat, id: nat, subscribe: bool)
    requires fd in u.pending ==>
               && u.pending[fd].id == id && u.pending[fd].state.Writing? && u.pending[fd].state.promote == subscribe
               && u.pending[fd].state.offset < |u.pending[fd].state.response|
    requires Asked(u.served, id, subscribe)
    ensures fd in u.pending ==> AnswerOk(u.pending[fd], u.served)
  {
  }

  lemma WritableOk(decode: Codec, t: Table, e: Event)
    requires Sound(decode, t) && e.StreamWritable?
    ensures SubscribedOk(HandleEvent(decode, t, e)) && Changes(decode, t, e, HandleEvent(decode, t, e))
  {
    hide AdvanceWrite;
    hide Asked;
    var fd := e.fd;
    var u := AdvanceWrite(t, fd, e.io, true);
    if fd in t.pending && t.pending[fd].state.Writing? {
      var c := t.pending[fd];
      assert AnswerOk(c, t.served);
      WriteAdvances(t, fd, e.io, true);
      AskedEither(decode, t, c.id);
      var promoted := TakesAll(e.io, |c.state.response| - c.state.offset, c.deadline) && c.state.promote;
      NewAnswerOk(u, fd, c.id, c.state.promote);
      OneMoved(t, u, fd, c.id, c.state.response, promoted);
      HandleEventValid(decode, t, e);
      if promoted {
        PromotesExactly(decode, t, u, fd, c.id, c.state.response);
        assert Subscribes(decode, t, e, fd, c.state.response);
      }
    } else {
      NotWriting(t, fd, e.io);
      OneMoved(t, u, fd, 0, [], false);
    }
  }

  /** No connection is served twice, so none asked for both. */
  lemma AskedEither(decode: Codec, t: Table, id: nat)
    requires Valid(decode, t)
    ensures !(Asked(t.served, id, true) && Asked(t.served, id, false))
  {
    hide Parse;
    hide PendingOk;
  }

  lemma NotWriting(t: Table, fd: nat, io: WriteIo)
    requires fd !in t.pending || !t.pending[fd].state.Writing?
    ensures var u := AdvanceWrite(t, fd, io, true);
            && Others(t, u, fd) && u.served == t.served && Promotes(t, u, fd, 0, [], false)
            && (fd in u.pending ==> fd in t.pending && u.pending[fd] == t.pending[fd])
  {
  }

  /** Each event leaves exactly the subscriptions its request and its writes account for. */
  lemma EventOk(decode: Codec, t: Table, e: Event)
    requires Sound(decode, t)
    ensures Sound(decode, HandleEvent(decode, t, e)) && Changes(decode, t, e, HandleEvent(decode, t, e))
  {
    hide Valid;
    hide AnswerOk;
    HandleEventValid(decode, t, e);
    match e
    case PendingReadable(_, _, _, _) => ReadableOk(decode, t, e);
    case StreamWritable(_, _) => WritableOk(decode, t, e);
    case Stream(fd, quiet) => QuietKept(t.subscribers, fd, quiet);
    case _ =>
  }

  lemma {:induction false} BatchOk(decode: Codec, t: Table, batch: seq<Event>)
    requires Sound(decode, t)
    ensures Sound(decode, HandleBatch(decode, t, batch))
    decreases |batch|
  {
    hide Sound;
    hide HandleEvent;
    if batch == [] {
    } else {
      EventOk(decode, t, batch[0]);
      BatchOk(decode, HandleEvent(decode, t, batch[0]), batch[1..]);
    }
  }

  // ---------------------------------------------------------------- the loop

  /** Maintenance makes no subscription and ends none; it drops handshakes and accepts new ones. */
  predicate Maintains(t: Table, u: Table) {
    && u.promoted == t.promoted && u.subscribers == t.subscribers && u.served == t.served
    && (forall fd | fd in u.pending :: (fd in t.pending && u.pending[fd] == t.pending[fd]) || u.pending[fd].state.Reading?)
  }

  lemma MaintainsOk(t: Table, u: Table)
    requires SubscribedOk(t) && Maintains(t, u)
    ensures SubscribedOk(u)
  {
  }

  lemma {:induction false} AcceptMaintains(t: Table, arrivals: seq<Accept>, attempts: nat)
    ensures Maintains(t, AcceptAll(t, arrivals, attempts))
    decreases |arrivals|
  {
    if arrivals == [] || |t.pending| >= MAX_PENDING || attempts >= MAX_PENDING || !arrivals[0].Arrived? {
    } else {
      AcceptMaintains(Register(t, arrivals[0]), arrivals[1..], attempts + 1);
    }
  }

  lemma MaintainMaintains(t: Table, now: nat, ready: bool, arrivals: seq<Accept>, switchFails: bool)
    ensures Maintains(t, Maintain(t, now, ready, arrivals, switchFails).0)
  {
    hide AcceptAll;
    AcceptMaintains(Expire(t, now), arrivals, 0);
  }

  /** The table after the broadcast that opens a turn. */
  function Broadcasted(t: Table, turn: Turn): Table {
    if |turn.whole| == |t.subscribers| then t.(subscribers := KeepWritten(t.subscribers, turn.whole)) else t
  }

  lemma BroadcastOk(decode: Codec, t: Table, turn: Turn)
    requires Sound(decode, t)
    ensures Sound(decode, Broadcasted(t, turn))
  {
    hide Valid;
    if |turn.whole| == |t.subscribers| {
      WrittenKept(t.subscribers, turn.whole);
      FewerSubscribers(decode, t, KeepWritten(t.subscribers, turn.whole));
    }
  }

  /** The table that the batch of a turn finds. */
  function Waited(t: Table, turn: Turn): (r: (Table, bool)) {
    Maintain(Broadcasted(t, turn), turn.before, false, [], turn.switchFails.0)
  }

  lemma WaitedOk(decode: Codec, t: Table, turn: Turn)
    requires Sound(decode, t)
    ensures Sound(decode, Waited(t, turn).0) && Maintains(Broadcasted(t, turn), Waited(t, turn).0)
  {
    hide Valid;
    hide Maintain;
    BroadcastOk(decode, t, turn);
    var b := Broadcasted(t, turn);
    MaintainValid(decode, b, turn.before, false, [], turn.switchFails.0);
    MaintainMaintains(b, turn.before, false, [], turn.switchFails.0);
    MaintainsOk(b, Waited(t, turn).0);
  }

  lemma TurnOk(decode: Codec, t: Table, turn: Turn)
    requires Sound(decode, t)
    ensures Sound(decode, RunTurn(decode, t, turn).0)
  {
    hide Valid;
    hide Maintain;
    hide HandleBatch;
    WaitedOk(decode, t, turn);
    var p := Waited(t, turn).0;
    BatchOk(decode, p, turn.batch);
    var q := HandleBatch(decode, p, turn.batch);
    MaintainValid(decode, q, turn.after, Listener in turn.batch, turn.arrivals, turn.switchFails.1);
    MaintainMaintains(q, turn.after, Listener in turn.batch, turn.arrivals, turn.switchFails.1);
    MaintainsOk(q, Maintain(q, turn.after, Listener in turn.batch, turn.arrivals, turn.switchFails.1).0);
  }

  lemma {:induction false} LoopOk(decode: Codec, t: Table, turns: seq<Turn>)
    requires Sound(decode, t)
    ensures Sound(decode, RunLoop(decode, t, turns).0)
    decreases |turns|
  {
    hide Sound;
    hide RunTurn;
    if turns == [] {
    } else {
      TurnOk(decode, t, turns[0]);
      if RunTurn(decode, t, turns[0]).1 { LoopOk(decode, RunTurn(decode, t, turns[0]).0, turns[1..]); }
    }
  }

  // ---------------------------------------------------------------- the theorems

  /** Over every run of the event loop: a connection that became a subscription asked to
      subscribe and for nothing else, and its whole response was sent before; every subscriber
      became one that way; and no request is ever left without its response. */
  lemma SubscriptionsWereAsked(decode: Codec, turns: seq<Turn>, i: nat, j: nat)
    requires var t := RunLoop(decode, EMPTY, turns).0; i < |t.promoted| && j < |t.served|
    ensures var t := RunLoop(decode, EMPTY, turns).0;
            && Asked(t.served, t.promoted[i].id, true)
            && (t.served[j].id == t.promoted[i].id ==> t.served[j].action.Subscribe?)
            && t.promoted[i].sent == t.promoted[i].response
            && (forall s | s in t.subscribers :: WasPromoted(t.promoted, s.id))
            && (forall fd | fd in t.pending :: !t.pending[fd].state.Awaiting?)
  {
    hide RunLoop;
    hide Parse;
    LoopOk(decode, EMPTY, turns);
    var t := RunLoop(decode, EMPTY, turns).0;
    assert t.promoted[i] in t.promoted;
    AskedEither(decode, t, t.promoted[i].id);
  }

  /** At every point of every run, inside a batch too: an event adds exactly the subscription it
      completes, with the whole response sent, and among the subscribers exactly if there is
      room; any other event adds none. */
  lemma EventSubscribesExactly(decode: Codec, turns: seq<Turn>, turn: Turn, before: seq<Event>, e: Event)
    ensures var t := HandleBatch(decode, Waited(RunLoop(decode, EMPTY, turns).0, turn).0, before);
            Changes(decode, t, e, HandleBatch(decode, t, [e]))
  {
    hide RunLoop;
    hide Sound;
    hide Changes;
    hide HandleEvent;
    hide Waited;
    EmptySound(decode);
    LoopOk(decode, EMPTY, turns);
    WaitedOk(decode, RunLoop(decode, EMPTY, turns).0, turn);
    var p := Waited(RunLoop(decode, EMPTY, turns).0, turn).0;
    BatchOk(decode, p, before);
    var t := HandleBatch(decode, p, before);
    EventOk(decode, t, e);
    assert HandleBatch(decode, t, [e]) == HandleEvent(decode, t, e) by {
      assert [e][1..] == [];
      assert HandleBatch(decode, t, [e]) == HandleBatch(decode, HandleEvent(decode, t, e), []);
    }
  }

  lemma EmptySound(decode: Codec)
    ensures Sound(decode, EMPTY)
  {
  }

  /** The events of a run that complete a subscription. */
  ghost predicate Completing(decode: Codec, t: Table, e: Event) {
    exists fd, response :: Subscribes(decode, t, e, fd, response)
  }

  ghost function CompletedIn(decode: Codec, t: Table, batch: seq<Event>): nat
    decreases |batch|
  {
    if batch == [] then 0
    else (if Completing(decode, t, batch[0]) then 1 else 0) + CompletedIn(decode, HandleEvent(decode, t, batch[0]), batch[1..])
  }

  ghost function Completed(decode: Codec, t: Table, turns: seq<Turn>): nat
    decreases |turns|
  {
    if turns == [] then 0
    else
      var (p, ok) := Waited(t, turns[0]);
      var (u, goes) := RunTurn(decode, t, turns[0]);
      (if ok then CompletedIn(decode, p, turns[0].batch) else 0) + (if goes then Completed(decode, u, turns[1..]) else 0)
  }

  lemma EventCounts(decode: Codec, t: Table, e: Event)
    requires Sound(decode, t)
    ensures var u := HandleEvent(decode, t, e);
            Sound(decode, u) && |u.promoted| == |t.promoted| + (if Completing(decode, t, e) then 1 else 0)
  {
    hide Sound;
    hide Subscribes;
    hide HandleEvent;
    EventOk(decode, t, e);
  }

  lemma {:induction false} BatchCounts(decode: Codec, t: Table, batch: seq<Event>)
    requires Sound(decode, t)
    ensures var u := HandleBatch(decode, t, batch);
            Sound(decode, u) && |u.promoted| == |t.promoted| + CompletedIn(decode, t, batch)
    decreases |batch|
  {
    hide Sound;
    hide Completing;
    hide HandleEvent;
    if batch == [] {
    } else {
      EventCounts(decode, t, batch[0]);
      BatchCounts(decode, HandleEvent(decode, t, batch[0]), batch[1..]);
    }
  }

  lemma TurnCounts(decode: Codec, t: Table, turn: Turn)
    requires Sound(decode, t)
    ensures var (p, ok) := Waited(t, turn);
            var u := RunTurn(decode, t, turn).0;
            Sound(decode, u) && |u.promoted| == |t.promoted| + (if ok then CompletedIn(decode, p, turn.batch) else 0)
  {
    hide Sound;
    hide Maintain;
    hide HandleBatch;
    hide CompletedIn;
    TurnOk(decode, t, turn);
    WaitedOk(decode, t, turn);
    var p := Waited(t, turn).0;
    BatchCounts(decode, p, turn.batch);
    var q := HandleBatch(decode, p, turn.batch);
    MaintainMaintains(q, turn.after, Listener in turn.batch, turn.arrivals, turn.switchFails.1);
  }

  /** And conversely, over every run: as many connections became subscriptions as there were
      events that completed one, a whole response to a request to subscribe, taken in time and
      with both watches set. */
  lemma {:induction false} EveryCompletionSubscribes(decode: Codec, t: Table, turns: seq<Turn>)
    requires Sound(decode, t)
    ensures |RunLoop(decode, t, turns).0.promoted| == |t.promoted| + Completed(decode, t, turns)
    decreases |turns|
  {
    hide Sound;
    hide RunTurn;
    hide Waited;
    hide CompletedIn;
    if turns == [] {
    } else {
      TurnCounts(decode, t, turns[0]);
      if RunTurn(decode, t, turns[0]).1 { EveryCompletionSubscribes(decode, RunTurn(decode, t, turns[0]).0, turns[1..]); }
    }
  }

  // ---------------------------------------------------------------- maintenance

  /** The connections that still have time. */
  predicate InTime(t: Table, u: Table, now: nat) {
    forall fd | fd in t.pending :: if t.pending[fd].deadline > now then fd in u.pending && u.pending[fd] == t.pending[fd]
                                   else fd !in u.pending
  }

  lemma Expires(t: Table, now: nat)
    ensures InTime(t, Expire(t, now), now) && Expire(t, now).pending.Keys <= t.pending.Keys
    ensures Expire(t, now) == t.(pending := Expire(t, now).pending)
  {
  }

  /** Maintenance closes exactly the connections whose time is over. With no new one at the door
      that is all it does, but for switching the listener. */
  lemma MaintainExpires(t: Table, now: nat, arrivals: seq<Accept>, switchFails: bool)
    ensures var (u, ok) := Maintain(t, now, false, arrivals, switchFails);
            && InTime(t, u, now) && u.pending.Keys <= t.pending.Keys
            && u == t.(pending := u.pending, enabled := u.enabled)
            && (ok ==> (u.enabled <==> |u.pending| < MAX_PENDING)) && (!ok ==> u.enabled == t.enabled)
  {
    Expires(t, now);
    hide Expire;
  }

  /** The descriptors that the kernel hands out are not open, and each one once. */
  predicate Distinct(t: Table, arrivals: seq<Accept>) {
    && (forall a | a in arrivals :: a.Arrived? && !a.refused && !FdOpen(t, a.fd))
    && (forall i, j | 0 <= i < j < |arrivals| :: arrivals[i].fd != arrivals[j].fd)
  }

  /** The connection of the `n`th accepted descriptor. */
  function Fresh(t: Table, arrivals: seq<Accept>, n: nat): Connection
    requires n < |arrivals| && arrivals[n].Arrived?
  {
    Connection(t.accepted + n, arrivals[n].at + HANDSHAKE_TIMEOUT, Reading([]), [], [])
  }

  lemma TakesOne(t: Table, arrivals: seq<Accept>)
    requires Distinct(t, arrivals) && arrivals != []
    ensures arrivals[0].Arrived?
    ensures var v := Register(t, arrivals[0]);
            && v.pending == t.pending[arrivals[0].fd := Fresh(t, arrivals, 0)] && |v.pending| == |t.pending| + 1
            && v.accepted == t.accepted + 1 && arrivals[0].fd !in t.pending && Distinct(v, arrivals[1..])
    ensures forall i | 0 <= i < |arrivals| :: arrivals[i].Arrived?
  {
    assert arrivals[0] in arrivals;
    var v := Register(t, arrivals[0]);
    assert v.pending == t.pending[arrivals[0].fd := Fresh(t, arrivals, 0)];
    forall a | a in arrivals[1..] ensures a.Arrived? && !a.refused && !FdOpen(v, a.fd) {
      assert a in arrivals;
    }
  }

  /** The first `n` arrivals have become connections, and the old connections are what they were. */
  predicate Took(t: Table, u: Table, arrivals: seq<Accept>, n: nat)
    requires n <= |arrivals| && (forall i | 0 <= i < |arrivals| :: arrivals[i].Arrived?)
  {
    && |u.pending| == |t.pending| + n && u.accepted == t.accepted + n
    && (forall i | 0 <= i < n :: arrivals[i].fd in u.pending && u.pending[arrivals[i].fd] == Fresh(t, arrivals, i))
    && (forall fd | fd in t.pending :: fd in u.pending && u.pending[fd] == t.pending[fd])
  }

  lemma TookMore(t: Table, u: Table, arrivals: seq<Accept>, n: nat)
    requires Distinct(t, arrivals) && n < |arrivals| && (forall i | 0 <= i < |arrivals| :: arrivals[i].Arrived?)
    requires Took(Register(t, arrivals[0]), u, arrivals[1..], n)
    ensures Took(t, u, arrivals, n + 1)
  {
    TakesOne(t, arrivals);
    hide Register;
    hide Distinct;
    forall i | 0 <= i < n + 1 ensures arrivals[i].fd in u.pending && u.pending[arrivals[i].fd] == Fresh(t, arrivals, i) {
      if i > 0 { assert arrivals[1..][i - 1] == arrivals[i]; }
    }
  }

  /** How many arrivals there is room for. */
  function Room(t: Table, arrivals: seq<Accept>): nat
    requires |t.pending| <= MAX_PENDING
  {
    if |arrivals| < MAX_PENDING - |t.pending| then |arrivals| else MAX_PENDING - |t.pending|
  }

  /** As many arrivals are taken as there is room for, in their order; the others wait. */
  lemma {:induction false} ArrivalsAreTaken(t: Table, arrivals: seq<Accept>, attempts: nat)
    requires Distinct(t, arrivals) && attempts <= |t.pending| <= MAX_PENDING
    ensures forall i | 0 <= i < |arrivals| :: arrivals[i].Arrived?
    ensures Took(t, AcceptAll(t, arrivals, attempts), arrivals, Room(t, arrivals))
    decreases |arrivals|
  {
    if arrivals == [] || |t.pending| >= MAX_PENDING {
      forall i | 0 <= i < |arrivals| ensures arrivals[i].Arrived? {
        assert arrivals[i] in arrivals;
      }
    } else {
      TakesOne(t, arrivals);
      hide Took;
      hide Register;
      hide Distinct;
      var v := Register(t, arrivals[0]);
      ArrivalsAreTaken(v, arrivals[1..], attempts + 1);
      TookMore(t, AcceptAll(v, arrivals[1..], attempts + 1), arrivals, Room(v, arrivals[1..]));
    }
  }

  // ---------------------------------------------------------------- one subscription from beginning to end

  /** A new connection on `fd`, alone in the table. */
  function Connected(fd: nat): Table {
    Table(map[fd := Connection(0, HANDSHAKE_TIMEOUT, Reading([]), [], [])], [], true, 1, [], [])
  }

  /** Its whole conversation in one event. */
  function Conversation(fd: nat, request: seq<byte>, body: seq<byte>): Event {
    PendingReadable(fd, ReadIo(0, Got(request), 0, false), body, WriteIo(0, Wrote(|body| + 1), 0, false))
  }

  /** A client connects, sends its request and reads its response in time: it ends as the
      subscriber, and its handshake is over. */
  function Welcome(fd: nat, request: seq<byte>, body: seq<byte>): seq<Turn> {
    [Turn([], 0, [Listener], 0, [Arrived(fd, 0, false), NoneWaiting], (false, false)),
     Turn([], 0, [Conversation(fd, request, body)], 0, [], (false, false))]
  }

  lemma Welcomed(decode: Codec, fd: nat, request: seq<byte>, body: seq<byte>)
    requires Readable([], request) && Parse(decode, request).Some? && |body| + 1 <= WRITE_BUDGET
    ensures var (t, ok) := RunLoop(decode, EMPTY, Welcome(fd, request, body));
            && ok && t.enabled && t.pending == map[]
            && t.served == [Served(0, request, Parse(decode, request).value)]
            && t.subscribers == (if Parse(decode, request) == Some(Subscribe) then [Subscriber(fd, 0)] else [])
  {
    hide Parse;
    var turns := Welcome(fd, request, body);
    Connects(decode, turns[0], fd);
    assert turns[1..] == [turns[1]] && turns[1..][1..] == [];
    Answers(decode, turns[1], fd, request, body);
    assert RunLoop(decode, EMPTY, turns) == RunLoop(decode, Connected(fd), [turns[1]]);
  }

  lemma Connects(decode: Codec, turn: Turn, fd: nat)
    requires turn == Turn([], 0, [Listener], 0, [Arrived(fd, 0, false), NoneWaiting], (false, false))
    ensures RunTurn(decode, EMPTY, turn) == (Connected(fd), true)
  {
    assert Expire(EMPTY, 0) == EMPTY;
    assert HandleBatch(decode, EMPTY, [Listener]) == EMPTY;
    var arrivals := [Arrived(fd, 0, false), NoneWaiting];
    var t := Connected(fd);
    assert Register(EMPTY, arrivals[0]) == t;
    assert arrivals[1..] == [NoneWaiting];
    assert AcceptAll(EMPTY, arrivals, 0) == AcceptAll(t, arrivals[1..], 1) == t;
    assert t.pending.Keys == {fd};
    assert |t.pending| == |t.pending.Keys| == 1;
  }

  lemma RequestRead(decode: Codec, fd: nat, request: seq<byte>)
    requires Readable([], request) && Parse(decode, request).Some?
    ensures var (v, out) := HandleReadable(decode, Connected(fd), fd, ReadIo(0, Got(request), 0, false));
            && out == Parse(decode, request) && v.enabled && v.subscribers == []
            && v.pending == map[fd := Connection(0, HANDSHAKE_TIMEOUT, Awaiting, request, [])]
            && v.served == [Served(0, request, out.value)]
  {
    hide Parse;
    ReceiveIsParse(decode, [], request);
    assert [] + request == request;
  }

  lemma ResponseKeepsListener(t: Table, fd: nat, body: seq<byte>, promote: bool, io: WriteIo)
    ensures QueueResponse(t, fd, body, promote, io).enabled == t.enabled
  {
  }

  lemma ConversationEnds(decode: Codec, fd: nat, request: seq<byte>, body: seq<byte>)
    requires Readable([], request) && Parse(decode, request).Some? && |body| + 1 <= WRITE_BUDGET
    ensures var u := HandleEvent(decode, Connected(fd), Conversation(fd, request, body));
            && u.enabled && u.pending == map[]
            && u.served == [Served(0, request, Parse(decode, request).value)]
            && u.subscribers == (if Parse(decode, request) == Some(Subscribe) then [Subscriber(fd, 0)] else [])
  {
    hide Parse;
    hide HandleReadable;
    hide QueueResponse;
    RequestRead(decode, fd, request);
    var e := Conversation(fd, request, body);
    var (v, out) := HandleReadable(decode, Connected(fd), fd, e.read);
    ResponseAdvances(v, fd, body, out.value.Subscribe?, e.write);
    ResponseKeepsListener(v, fd, body, out.value.Subscribe?, e.write);
    var u := HandleEvent(decode, Connected(fd), e);
    assert v.pending - {fd} == map[];
    assert u.pending == u.pending - {fd};
  }

  lemma Answers(decode: Codec, turn: Turn, fd: nat, request: seq<byte>, body: seq<byte>)
    requires turn == Turn([], 0, [Conversation(fd, request, body)], 0, [], (false, false))
    requires Readable([], request) && Parse(decode, request).Some? && |body| + 1 <= WRITE_BUDGET
    ensures var (u, ok) := RunTurn(decode, Connected(fd), turn);
            && ok && u.enabled && u.pending == map[]
            && u.served == [Served(0, request, Parse(decode, request).value)]
            && u.subscribers == (if Parse(decode, request) == Some(Subscribe) then [Subscriber(fd, 0)] else [])
  {
    hide Parse;
    hide HandleEvent;
    var t := Connected(fd);
    assert Expire(t, 0) == t;
    assert t.pending.Keys == {fd};
    assert |t.pending| == |t.pending.Keys| == 1;
    ConversationEnds(decode, fd, request, body);
    var q := HandleEvent(decode, t, turn.batch[0]);
    assert turn.batch[1..] == [];
    assert HandleBatch(decode, t, turn.batch) == HandleBatch(decode, q, []) == q;
    assert Expire(q, 0) == q;
  }
}
