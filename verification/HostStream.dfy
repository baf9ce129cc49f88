/** The Pi host's event stream: numbered events, peers that load a session while events
    keep coming, and the buffer that bridges the gap. */
module HostStream {
  import opened Base

  const MAX_BUFFER := 32 * 1024 * 1024
  const MAX_CHUNK := 8 * 1024 * 1024

  type Session = string
  type Message = string

  /** What a peer is sent. `Loaded` is the response to a successful session.load and
      `Failed` the response to one that failed. */
  datatype Frame =
    | Event(session: Session, sequence: nat, content: Message)
    | History(session: Session, messages: seq<Message>)
    | Loaded(session: Session, sequence: nat, messages: seq<Message>)
    | Failed(session: Session)
    | Busy(session: Session)

  // ------------------------------------------------------------------
  // What a peer has seen
  // ------------------------------------------------------------------

  /** The event number of a peer's last successful load, and the event numbers sent to
      it for that session since. */
  datatype View = View(loaded: nat, events: seq<nat>)

  function Received(sent: seq<Frame>, session: Session): Option<View> {
    if sent == [] then None
    else
      var before, last := Received(sent[..|sent| - 1], session), sent[|sent| - 1];
      if last.Loaded? && last.session == session then Some(View(last.sequence, []))
      else if last.Event? && last.session == session && before.Some? then
        Some(before.value.(events := before.value.events + [last.sequence]))
      else before
  }

  lemma ReceivedNext(sent: seq<Frame>, frame: Frame, session: Session)
    ensures frame.session != session || frame.History? || frame.Failed? || frame.Busy? ==>
              Received(sent + [frame], session) == Received(sent, session)
    ensures frame.Loaded? && frame.session == session ==> Received(sent + [frame], session) == Some(View(frame.sequence, []))
    ensures frame.Event? && frame.session == session ==>
              Received(sent + [frame], session) ==
              match Received(sent, session)
              case None => None
              case Some(view) => Some(View(view.loaded, view.events + [frame.sequence]))
  {
    assert (sent + [frame])[..|sent|] == sent;
  }

  /** The numbers after `first` up to `last`. */
  function Run(first: nat, last: nat): (r: seq<nat>)
    requires first <= last
    ensures |r| == last - first
  {
    seq(last - first, i requires 0 <= i => first + 1 + i)
  }

  /** Frames that are the events of one session after `first`, in order. */
  predicate Consecutive(frames: seq<Frame>, session: Session, first: nat) {
    forall i :: 0 <= i < |frames| ==> frames[i].Event? && frames[i].session == session && frames[i].sequence == first + 1 + i
  }

  lemma {:induction false} ReceivedRun(sent: seq<Frame>, frames: seq<Frame>, session: Session, first: nat)
    requires Consecutive(frames, session, first)
    ensures forall other | other != session :: Received(sent + frames, other) == Received(sent, other)
    ensures Received(sent + frames, session) ==
            match Received(sent, session)
            case None => None
            case Some(view) => Some(View(view.loaded, view.events + Run(first, first + |frames|)))
  {
    if frames == [] {
      assert sent + frames == sent;
      var before := Received(sent, session);
      assert before.Some? ==> before.value.events + Run(first, first) == before.value.events;
    } else {
      var init, last := frames[..|frames| - 1], frames[|frames| - 1];
      ReceivedRun(sent, init, session, first);
      assert sent + frames == (sent + init) + [last];
      forall other ensures other != session ==> Received(sent + frames, other) == Received(sent + init, other) {
        ReceivedNext(sent + init, last, other);
      }
      ReceivedNext(sent + init, last, session);
      assert Run(first, first + |init|) + [last.sequence] == Run(first, first + |frames|);
      var before := Received(sent, session);
      assert before.Some? ==>
        before.value.events + Run(first, first + |init|) + [last.sequence] == before.value.events + Run(first, first + |frames|);
    }
  }

  lemma {:induction false} HistoryIsNotSeen(sent: seq<Frame>, frames: seq<Frame>, session: Session)
    requires forall frame <- frames :: frame.History? || frame.Failed? || frame.Busy?
    ensures Received(sent + frames, session) == Received(sent, session)
  {
    if frames == [] {
      assert sent + frames == sent;
    } else {
      var init, last := frames[..|frames| - 1], frames[|frames| - 1];
      HistoryIsNotSeen(sent, init, session);
      assert sent + frames == (sent + init) + [last];
      ReceivedNext(sent + init, last, session);
    }
  }

  /** The buffered frames a flush sends: those numbered above the snapshot. */
  function Later(frames: seq<Frame>, sequence: int): seq<Frame> {
    if frames == [] then []
    else
      var last := frames[|frames| - 1];
      Later(frames[..|frames| - 1], sequence) + (if last.Event? && last.sequence > sequence then [last] else [])
  }

  lemma {:induction false} LaterIsTheTail(frames: seq<Frame>, session: Session, first: nat, sequence: int)
    requires Consecutive(frames, session, first) && sequence <= first + |frames|
    ensures Later(frames, sequence) == if sequence <= first then frames else frames[sequence - first..]
  {
    if frames != [] {
      var init := frames[..|frames| - 1];
      assert frames == init + [frames[|frames| - 1]];
      if sequence <= first + |init| {
        LaterIsTheTail(init, session, first, sequence);
        assert sequence > first ==> frames[sequence - first..] == init[sequence - first..] + [frames[|frames| - 1]];
      } else {
        NothingLater(init, session, first, sequence);
      }
    }
  }

  lemma {:induction false} NothingLater(frames: seq<Frame>, session: Session, first: nat, sequence: int)
    requires Consecutive(frames, session, first) && sequence >= first + |frames|
    ensures Later(frames, sequence) == []
  {
    if frames != [] {
      NothingLater(frames[..|frames| - 1], session, first, sequence);
    }
  }

  // ------------------------------------------------------------------
  // Splitting a long history
  // ------------------------------------------------------------------

  function Total(messages: seq<Message>, size: Message -> nat): nat {
    if messages == [] then 0 else Total(messages[..|messages| - 1], size) + size(messages[|messages| - 1])
  }

  function Concat(chunks: seq<seq<Message>>): seq<Message> {
    if chunks == [] then [] else Concat(chunks[..|chunks| - 1]) + chunks[|chunks| - 1]
  }

  predicate FitsChunk(chunk: seq<Message>, size: Message -> nat) {
    chunk != [] && (Total(chunk, size) <= MAX_CHUNK || |chunk| == 1)
  }

  /** The chunk could not have taken the next one's first message. */
  predicate Full(chunk: seq<Message>, next: seq<Message>, size: Message -> nat) {
    next != [] && Total(chunk, size) + size(next[0]) > MAX_CHUNK
  }

  /** Every chunk fits, and none but the last had room for one more message. */
  predicate Cut(chunks: seq<seq<Message>>, size: Message -> nat) {
    && (forall chunk <- chunks :: FitsChunk(chunk, size))
    && (forall i :: 0 < i < |chunks| ==> Full(chunks[i - 1], chunks[i], size))
  }

  lemma NothingCut(size: Message -> nat)
    ensures Total([], size) == 0 && Cut([], size)
  {
  }

  lemma CutExtends(chunks: seq<seq<Message>>, chunk: seq<Message>, size: Message -> nat)
    requires Cut(chunks, size) && FitsChunk(chunk, size)
    requires chunks != [] ==> Full(chunks[|chunks| - 1], chunk, size)
    ensures Cut(chunks + [chunk], size) && Concat(chunks + [chunk]) == Concat(chunks) + chunk
  {
    ConcatExtends(chunks, chunk);
    hide Full, FitsChunk, Concat;
    var all := chunks + [chunk];
    forall i | 0 < i < |all| ensures Full(all[i - 1], all[i], size) {
      if i < |chunks| {
        assert Full(chunks[i - 1], chunks[i], size);
      }
    }
  }

  lemma ConcatExtends(chunks: seq<seq<Message>>, chunk: seq<Message>)
    ensures Concat(chunks + [chunk]) == Concat(chunks) + chunk
  {
    assert (chunks + [chunk])[..|chunks|] == chunks;
  }

  lemma ChunkExtends(chunk: seq<Message>, message: Message, size: Message -> nat)
    ensures Total(chunk + [message], size) == Total(chunk, size) + size(message)
    ensures chunk == [] || Total(chunk, size) + size(message) <= MAX_CHUNK ==> FitsChunk(chunk + [message], size)
  {
    assert (chunk + [message])[..|chunk|] == chunk;
  }

  /** Cuts the messages into chunks of at most the limit, or of one message, so that
      nothing is lost, doubled or moved. */
  method SplitHistory(messages: seq<Message>, size: Message -> nat) returns (chunks: seq<seq<Message>>)
    ensures Concat(chunks) == messages && Cut(chunks, size)
  {
    hide Total, FitsChunk, Cut;
    chunks := [];
    var chunk, bytes := [], 0;
    NothingCut(size);
    for i := 0 to |messages|
      invariant bytes == Total(chunk, size)
      invariant Concat(chunks) + chunk == messages[..i]
      invariant chunk == [] ==> i == 0 && chunks == []
      invariant chunk != [] ==> FitsChunk(chunk, size)
      invariant Cut(chunks, size)
      invariant chunks != [] && chunk != [] ==> Full(chunks[|chunks| - 1], chunk, size)
    {
      var bytesOfMessage := size(messages[i]);
      assert messages[..i + 1] == messages[..i] + [messages[i]];
      if chunk != [] && bytes + bytesOfMessage > MAX_CHUNK {
        CutExtends(chunks, chunk, size);
        chunks := chunks + [chunk];
        chunk, bytes := [], 0;
        NothingCut(size);
      }
      ChunkExtends(chunk, messages[i], size);
      chunk := chunk + [messages[i]];
      bytes := bytes + bytesOfMessage;
    }
    assert messages[..|messages|] == messages;
    if chunk != [] {
      CutExtends(chunks, chunk, size);
      chunks := chunks + [chunk];
    }
  }

  // ------------------------------------------------------------------
  // One peer
  // ------------------------------------------------------------------

  function HistoryFrames(session: Session, chunks: seq<seq<Message>>): seq<Frame> {
    if chunks == [] then [] else HistoryFrames(session, chunks[..|chunks| - 1]) + [History(session, chunks[|chunks| - 1])]
  }

  lemma {:induction false} OnlyHistory(session: Session, chunks: seq<seq<Message>>)
    ensures forall frame <- HistoryFrames(session, chunks) :: frame.History?
  {
    if chunks != [] {
      OnlyHistory(session, chunks[..|chunks| - 1]);
    }
  }

  /** One frame for each chunk, in their order. */
  lemma {:induction false} HistoryInOrder(session: Session, chunks: seq<seq<Message>>)
    ensures |HistoryFrames(session, chunks)| == |chunks|
    ensures forall i :: 0 <= i < |chunks| ==> HistoryFrames(session, chunks)[i] == History(session, chunks[i])
  {
    if chunks != [] {
      HistoryInOrder(session, chunks[..|chunks| - 1]);
    }
  }

  datatype Buffer = Buffer(messages: seq<Frame>, bytes: nat)

  class Peer {
    var sessions: set<Session>
    var loading: map<Session, Buffer>
    // Loads whose snapshot was taken and whose response is still to be sent.
    var taken: map<Session, nat>
    var open: bool
    var sent: seq<Frame>
    // The encoded size of a frame, and whether the consumer has fallen too far behind
    // once these frames were sent.
    const size: Frame -> nat
    const slow: seq<Frame> -> bool

    constructor (size: Frame -> nat, slow: seq<Frame> -> bool)
      ensures open && sent == [] && fresh(this) && sessions == {} && loading == map[] && taken == map[]
      ensures this.size == size && this.slow == slow
    {
      this.size, this.slow := size, slow;
      sessions, loading, taken, open, sent := {}, map[], map[], true, [];
    }

    /** A consumer that keeps up and is sent nothing too large. */
    ghost predicate Patient()
      reads {}
    {
      (forall frames :: !slow(frames)) && (forall frame :: size(frame) <= MAX_BUFFER)
    }

    /** Where this peer stands with a session whose last event had the number `last`.
        While it loads, the buffer holds the newest events without a gap, and what the peer
        saw since its last load ends where the buffer begins; otherwise it saw them all. */
    ghost predicate Tracks(session: Session, last: nat)
      reads this
    {
      var view := Received(sent, session);
      && (view.Some? ==> session in sessions)
      && if session in loading then
           var buffered := loading[session].messages;
           && |buffered| <= last
           && Consecutive(buffered, session, last - |buffered|)
           && (session in taken ==> last - |buffered| <= taken[session] <= last && session in sessions)
           && (view.Some? ==> view.value.loaded <= last - |buffered| && view.value.events == Run(view.value.loaded, last - |buffered|))
         else
           session !in taken && (view.Some? ==> view.value.loaded <= last && view.value.events == Run(view.value.loaded, last))
    }

    twostate predicate Untouched()
      reads this
    {
      open == old(open) && sent == old(sent) && sessions == old(sessions) && loading == old(loading) && taken == old(taken)
    }

    /** An open peer gets an event: into the buffer of a load, which must not overflow,
        or sent, when it is attached. It stays open unless it overflows or falls behind. */
    twostate predicate Took(event: Frame)
      reads this
    {
      && sessions == old(sessions) && taken == old(taken)
      && if event.session in old(loading) then
           var buffer := old(loading)[event.session];
           && sent == old(sent)
           && (open <==> buffer.bytes + size(event) <= MAX_BUFFER)
           && loading == (if open then old(loading)[event.session := Buffer(buffer.messages + [event], buffer.bytes + size(event))]
                          else old(loading) - {event.session})
         else if event.session in old(sessions) then
           && loading == old(loading)
           && sent == (if size(event) <= MAX_BUFFER then old(sent) + [event] else old(sent))
           && (open <==> size(event) <= MAX_BUFFER && !slow(sent))
         else open && loading == old(loading) && sent == old(sent)
    }

    method Send(frame: Frame)
      modifies this`sent, this`open
      ensures sent == if old(open) && size(frame) <= MAX_BUFFER then old(sent) + [frame] else old(sent)
      ensures open <==> old(open) && size(frame) <= MAX_BUFFER && !slow(sent)
    {
      if !open {
        return;
      }
      if size(frame) > MAX_BUFFER {
        open := false;
        return;
      }
      sent := sent + [frame];
      open := !slow(sent);
    }

    /** Answers a load request: a second one for the same session is turned away, the
        first one starts a buffer. */
    method BeginLoad(session: Session, ghost last: nat)
      requires Tracks(session, last)
      modifies this
      ensures open ==> Tracks(session, last) && session in loading
      ensures sessions == old(sessions) && taken == old(taken)
      ensures session in old(loading) ==> loading == old(loading) && (open ==> sent == old(sent) + [Busy(session)])
      ensures session !in old(loading) ==> loading == old(loading)[session := Buffer([], 0)] && sent == old(sent) && open == old(open)
      ensures old(open) && Patient() ==> open
      ensures forall other, n: nat | other != session && old(Tracks(other, n)) :: open ==> Tracks(other, n)
    {
      hide Received;
      forall other ensures Received(sent + [Busy(session)], other) == Received(sent, other) {
        ReceivedNext(sent, Busy(session), other);
      }
      if session in loading {
        Send(Busy(session));
        return;
      }
      loading := loading[session := Buffer([], 0)];
    }

    /** The load succeeded in the host: from here on the peer is attached, and the
        response will carry the number of the newest event. */
    method TakeSnapshot(session: Session, last: nat)
      requires Tracks(session, last) && session in loading
      modifies this`sessions, this`taken
      ensures Tracks(session, last) && taken == old(taken)[session := last] && sessions == old(sessions) + {session}
      ensures forall other, n: nat | other != session && old(Tracks(other, n)) :: Tracks(other, n)
    {
      sessions := sessions + {session};
      taken := taken[session := last];
    }

    /** A published event reaches the buffer of a peer that is loading, an attached peer
        directly, and nobody else. A buffer over its limit closes the peer. */
    method Deliver(session: Session, sequence: nat, content: Message)
      requires sequence > 0 && Tracks(session, sequence - 1)
      modifies this`loading, this`open, this`sent
      ensures open ==> Tracks(session, sequence)
      ensures forall other, n: nat | other != session && old(Tracks(other, n)) :: open ==> Tracks(other, n)
      ensures old(open) ==> Took(Event(session, sequence, content))
      ensures open ==> old(open)
    {
      hide Received;
      var message := Event(session, sequence, content);
      if session in loading {
        var buffer := loading[session];
        var bytes := buffer.bytes + size(message);
        if bytes > MAX_BUFFER {
          loading := loading - {session};
          open := false;
        } else {
          loading := loading[session := Buffer(buffer.messages + [message], bytes)];
        }
      } else if session in sessions {
        forall other ensures other != session ==> Received(sent + [message], other) == Received(sent, other) {
          ReceivedNext(sent, message, other);
        }
        ReceivedNext(sent, message, session);
        ghost var view := Received(sent, session);
        assert view.Some? ==> Run(view.value.loaded, sequence - 1) + [sequence] == Run(view.value.loaded, sequence);
        Send(message);
      }
    }
  
    /** Sends what was buffered and numbered above `sequence`, and stops buffering. */
    method Flush(session: Session, sequence: int)
      modifies this`loading, this`sent, this`open
      ensures loading == old(loading) - {session}
      ensures open ==> old(open)
      ensures open && session in old(loading) ==> sent == old(sent) + Later(old(loading)[session].messages, sequence)
      ensures open && session !in old(loading) ==> sent == old(sent)
      ensures old(open) && Patient() ==> open
    {
      var buffered := if session in loading then loading[session].messages else [];
      loading := loading - {session};
      for i := 0 to |buffered|
        invariant loading == old(loading) - {session}
        invariant open ==> old(open) && sent == old(sent) + Later(buffered[..i], sequence)
        invariant old(open) && Patient() ==> open
      {
        assert buffered[..i + 1][..i] == buffered[..i];
        if buffered[i].Event? && buffered[i].sequence > sequence {
          Send(buffered[i]);
        }
      }
      assert buffered[..|buffered|] == buffered;
    }

    /** Sends a history that is too long for the response in chunks of its own. */
    method SendHistory(session: Session, messages: seq<Message>,
            messageSize: Message -> nat) returns (ghost chunks: seq<seq<Message>>)
      modifies this`sent, this`open
      ensures Concat(chunks) == messages && Cut(chunks, messageSize)
      ensures open ==> old(open) && sent == old(sent) + HistoryFrames(session, chunks)
      ensures old(open) && Patient() ==> open
    {
      hide Concat, Cut;
      var parts := SplitHistory(messages, messageSize);
      chunks := parts;
      for i := 0 to |parts|
        invariant open ==> old(open) && sent == old(sent) + HistoryFrames(session, parts[..i])
        invariant old(open) && Patient() ==> open
      {
        assert parts[..i + 1][..i] == parts[..i];
        Send(History(session, parts[i]));
      }
      assert parts[..|parts|] == parts;
    }

    /** The response to a successful load, behind the chunks of a long history. What is
        long is measured on the messages encoded as one array, what fits a chunk on each
        message by itself. */
    method Respond(session: Session, sequence: nat, messages: seq<Message>, messageSize: Message -> nat,
            arraySize: seq<Message> -> nat)
        returns (ghost chunks: seq<seq<Message>>)
      modifies this`sent, this`open
      ensures chunks != [] ==> Concat(chunks) == messages && Cut(chunks, messageSize)
      ensures arraySize(messages) <= MAX_CHUNK ==> chunks == []
      ensures arraySize(messages) > MAX_CHUNK && messages != [] ==> chunks != []
      ensures open ==> old(open)
      ensures var response := Loaded(session, sequence, if chunks == [] then messages else []);
              open ==> sent == old(sent) + HistoryFrames(session, chunks) + [response]
      ensures old(open) && Patient() ==> open
      ensures open ==> Received(sent, session) == Some(View(sequence, []))
      ensures forall other | other != session && open :: Received(sent, other) == Received(old(sent), other)
    {
      chunks := [];
      var long := arraySize(messages) > MAX_CHUNK;
      if long {
        chunks := SendHistory(session, messages, messageSize);
        assert Concat([]) == [];
      }
      ghost var ahead := sent;
      OnlyHistory(session, chunks);
      forall other ensures open ==> Received(ahead, other) == Received(old(sent), other) {
        HistoryIsNotSeen(old(sent), HistoryFrames(session, chunks), other);
      }
      var response := Loaded(session, sequence, if long then [] else messages);
      Send(response);
      forall other ensures open && other != session ==> Received(sent, other) == Received(ahead, other) {
        ReceivedNext(ahead, response, other);
      }
      ReceivedNext(ahead, response, session);
    }

    /** Answers a load, then sends the buffered events its snapshot does not cover. The
        peer gets the snapshot's messages in order, and from its number on exactly the
        events published so far. */
    method FinishLoad(session: Session, messages: seq<Message>, messageSize: Message -> nat,
            arraySize: seq<Message> -> nat, ghost last: nat)
        returns (ghost chunks: seq<seq<Message>>)
      requires open && session in taken && session in loading && Tracks(session, last)
      modifies this
      ensures Patient() ==> open
      ensures open ==> Tracks(session, last) && session !in loading && session in sessions
      ensures open ==> Received(sent, session) == Some(View(old(taken)[session], Run(old(taken)[session], last)))
      ensures forall other, n: nat | other != session && old(Tracks(other, n)) :: open ==> Tracks(other, n)
      ensures chunks != [] ==> Concat(chunks) == messages && Cut(chunks, messageSize)
      ensures arraySize(messages) <= MAX_CHUNK ==> chunks == []
      ensures arraySize(messages) > MAX_CHUNK && messages != [] ==> chunks != []
      ensures taken == old(taken) - {session} && loading == old(loading) - {session} && sessions == old(sessions)
      ensures var buffered := old(loading)[session].messages;
              && last - |buffered| <= old(taken)[session] <= last
              && (open ==>
                    sent == old(sent) + HistoryFrames(session, chunks)
                            + [Loaded(session, old(taken)[session], if chunks == [] then messages else [])]
                            + buffered[|buffered| - (last - old(taken)[session])..])
    {
      hide Concat, Cut, HistoryFrames, Received, Later;
      var sequence := taken[session];
      taken := taken - {session};
      ghost var buffered := loading[session].messages;
      ghost var first := last - |buffered|;
      chunks := Respond(session, sequence, messages, messageSize, arraySize);
      ghost var answered := sent;
      LaterIsTheTail(buffered, session, first, sequence);
      ghost var rest := Later(buffered, sequence);
      ReceivedRun(answered, rest, session, sequence);
      Flush(session, sequence);
      assert rest == buffered[|buffered| - (last - sequence)..];
      assert open ==> sent == answered + rest && Consecutive(rest, session, sequence);
      assert [] + Run(sequence, last) == Run(sequence, last);
    }

    /** A failed load still sends everything that was buffered, so an attached peer misses
        nothing. */
    method FailLoad(session: Session, ghost last: nat)
      requires open && session in loading && Tracks(session, last)
      modifies this
      ensures Patient() ==> open
      ensures open ==> Tracks(session, last) && session !in loading
      ensures open ==> sent == old(sent) + [Failed(session)] + old(loading)[session].messages
      ensures taken == old(taken) - {session} && loading == old(loading) - {session} && sessions == old(sessions)
      ensures open && old(Received(sent, session)).Some? ==>
              Received(sent, session) == Some(View(old(Received(sent, session)).value.loaded, Run(old(Received(sent, session)).value.loaded, last)))
      ensures forall other, n: nat | other != session && old(Tracks(other, n)) :: open ==> Tracks(other, n)
    {
      hide Received, Later;
      taken := taken - {session};
      ghost var before := sent;
      forall other ensures Received(before + [Failed(session)], other) == Received(before, other) {
        ReceivedNext(before, Failed(session), other);
      }
      Send(Failed(session));
      ghost var buffered := loading[session].messages;
      ghost var first := last - |buffered|;
      LaterIsTheTail(buffered, session, first, -1);
      ReceivedRun(before + [Failed(session)], buffered, session, first);
      ghost var view := Received(before, session);
      assert view.Some? ==> Run(view.value.loaded, first) + Run(first, last) == Run(view.value.loaded, last);
      Flush(session, -1);
    }
  }

  // ------------------------------------------------------------------
  // The host
  // ------------------------------------------------------------------

  class Host {
    var sequences: map<Session, nat>
    var peers: set<Peer>

    function Last(session: Session): nat
      reads this
    {
      if session in sequences then sequences[session] else 0
    }

    /** The last number of `s` before the newest event of `session`. */
    function Previous(session: Session, s: Session): nat
      reads this
    {
      if s == session && Last(s) > 0 then Last(s) - 1 else Last(s)
    }

    /** Every open peer is gap-free for every session. */
    ghost predicate Valid()
      reads this, peers
    {
      forall p: Peer, s: Session | p in peers && p.open :: p.Tracks(s, Last(s))
    }

    constructor ()
      ensures Valid() && peers == {} && sequences == map[]
    {
      sequences, peers := map[], {};
    }

    method Connect(size: Frame -> nat, slow: seq<Frame> -> bool) returns (peer: Peer)
      requires Valid()
      modifies this
      ensures Valid() && fresh(peer) && peers == old(peers) + {peer} && sequences == old(sequences)
      ensures peer.open && peer.sent == [] && peer.sessions == {} && peer.loading == map[] && peer.size == size && peer.slow == slow
    {
      peer := new Peer(size, slow);
      forall s: Session ensures peer.Tracks(s, Last(s)) {
        assert Received(peer.sent, s) == None;
      }
      peers := peers + {peer};
      assert forall p: Peer, s: Session | p in old(peers) && p.open :: old(p.Tracks(s, Last(s))) ==> p.Tracks(s, Last(s));
    }

    /** Numbers an event and hands it to every peer. */
    method Publish(session: Session, content: Message)
      requires Valid()
      modifies this, peers
      ensures Valid() && peers == old(peers)
      ensures sequences == old(sequences)[session := if session in old(sequences) then old(sequences)[session] + 1 else 1]
      ensures forall p <- peers :: if old(p.open) then p.Took(Event(session, Last(session), content)) else p.Untouched()
    {
      var sequence := Last(session) + 1;
      sequences := sequences[session := sequence];
      var rest := peers;
      forall p: Peer, s: Session | p in peers && p.open ensures p.Tracks(s, Previous(session, s)) {
        assert old(p.Tracks(s, Last(s)));
      }
      hide Received, Consecutive, Run;
      while rest != {}
        invariant rest <= peers == old(peers) && sequences == old(sequences)[session := sequence]
        invariant forall p: Peer, s: Session | p in peers - rest && p.open :: p.Tracks(s, Last(s))
        invariant forall p: Peer, s: Session | p in rest && p.open :: p.Tracks(s, Previous(session, s))
        invariant forall p <- rest :: p.Untouched()
        invariant forall p <- peers - rest :: if old(p.open) then p.Took(Event(session, sequence, content)) else p.Untouched()
      {
        var peer: Peer :| peer in rest;
        if peer.open {
          DeliverTo(peer, session, sequence, content);
        }
        rest := rest - {peer};
      }
    }

    /** One delivery, seen by all sessions of that peer. */
    method DeliverTo(peer: Peer, session: Session, sequence: nat, content: Message)
      requires sequence == Last(session) && sequence > 0 && peer.open
      requires forall s: Session :: peer.Tracks(s, Previous(session, s))
      modifies peer
      ensures peer.open ==> forall s: Session :: peer.Tracks(s, Last(s))
      ensures peer.Took(Event(session, sequence, content))
    {
      hide Peer.Tracks;
      forall s: Session | s != session ensures peer.Tracks(s, Last(s)) {
        assert peer.Tracks(s, Previous(session, s));
      }
      assert peer.Tracks(session, Previous(session, session));
      peer.Deliver(session, sequence, content);
    }

    /** Answers a load request: the first starts a buffer, a second one is told that the
        session is busy. */
    method BeginLoad(peer: Peer, session: Session)
      requires Valid() && peer in peers
      modifies peer
      ensures Valid() && peer.sessions == old(peer.sessions) && peer.taken == old(peer.taken)
      ensures !old(peer.open) ==> peer.Untouched()
      ensures old(peer.open) && session in old(peer.loading) ==>
                && peer.loading == old(peer.loading) && (peer.open ==> peer.sent == old(peer.sent) + [Busy(session)])
                && (peer.Patient() ==> peer.open)
      ensures old(peer.open) && session !in old(peer.loading) ==>
                peer.loading == old(peer.loading)[session := Buffer([], 0)] && peer.sent == old(peer.sent) && peer.open
    {
      hide Peer.Tracks;
      if peer.open {
        peer.BeginLoad(session, Last(session));
      }
    }

    /** The load has succeeded in the host: the peer is attached from the newest event on. */
    method Snapshot(peer: Peer, session: Session)
      requires Valid() && peer in peers
      modifies peer
      ensures Valid() && peer.open == old(peer.open) && peer.sent == old(peer.sent) && peer.loading == old(peer.loading)
      ensures var mine := old(peer.open) && session in old(peer.loading);
              && peer.sessions == (if mine then old(peer.sessions) + {session} else old(peer.sessions))
              && peer.taken == (if mine then old(peer.taken)[session := Last(session)] else old(peer.taken))
    {
      hide Peer.Tracks;
      if peer.open && session in peer.loading {
        peer.TakeSnapshot(session, Last(session));
      }
    }

    /** After a successful load the peer has exactly the events behind the snapshot. */
    method Loads(peer: Peer, session: Session, messages: seq<Message>, messageSize: Message -> nat,
            arraySize: seq<Message> -> nat) returns (ghost chunks: seq<seq<Message>>)
      requires Valid() && peer in peers
      modifies peer
      ensures Valid()
      ensures peer.open && session in old(peer.taken) && session in old(peer.loading) ==>
              && old(peer.taken)[session] <= Last(session)
              && Received(peer.sent, session) == Some(View(old(peer.taken)[session], Run(old(peer.taken)[session], Last(session))))
              && var buffered := old(peer.loading)[session].messages;
                 var missed := Last(session) - old(peer.taken)[session];
                 && missed <= |buffered|
                 && peer.sent == old(peer.sent) + HistoryFrames(session, chunks)
                    + [Loaded(session, old(peer.taken)[session], if chunks == [] then messages else [])] + buffered[|buffered| - missed..]
      ensures chunks != [] ==> Concat(chunks) == messages && Cut(chunks, messageSize)
      ensures arraySize(messages) <= MAX_CHUNK ==> chunks == []
      ensures old(peer.open) && session in old(peer.taken) && session in old(peer.loading) ==>
                && peer.taken == old(peer.taken) - {session} && peer.loading == old(peer.loading) - {session}
                && peer.sessions == old(peer.sessions)
                && (peer.Patient() ==> peer.open) && (arraySize(messages) > MAX_CHUNK && messages != [] ==> chunks != [])
      ensures !(old(peer.open) && session in old(peer.taken) && session in old(peer.loading)) ==> peer.Untouched()
    {
      chunks := [];
      if peer.open && session in peer.taken && session in peer.loading {
        assert peer.Tracks(session, Last(session));
        hide Received, Concat, Cut, HistoryFrames;
        chunks := peer.FinishLoad(session, messages, messageSize, arraySize, Last(session));
      }
    }

    method LoadFails(peer: Peer, session: Session)
      requires Valid() && peer in peers
      modifies peer
      ensures Valid()
      ensures peer.open && session in old(peer.loading) ==>
              peer.sent == old(peer.sent) + [Failed(session)] + old(peer.loading)[session].messages
      ensures old(peer.open) && session in old(peer.loading) ==>
                && peer.taken == old(peer.taken) - {session} && peer.loading == old(peer.loading) - {session}
                && peer.sessions == old(peer.sessions) && (peer.Patient() ==> peer.open)
      ensures !(old(peer.open) && session in old(peer.loading)) ==> peer.Untouched()
    {
      hide Peer.Tracks;
      if peer.open && session in peer.loading {
        peer.FailLoad(session, Last(session));
      }
    }
  }
}
