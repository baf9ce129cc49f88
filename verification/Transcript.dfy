/** The streamed transcript: deltas folded into messages, and the echo of a submitted
    prompt, which must not show up as a message of its own. */
module Transcript {
  import opened Base

  const MAX_RESOURCES := 4
  const MAX_RESOURCE_BYTES := 2 * 1024 * 1024

  datatype Role = User | Assistant

  datatype Image = Image(data: string, mimeType: string)
  datatype Marker = Marker(name: string, mimeType: string)

  datatype Block =
    | TextBlock(text: string)
    | ThinkingBlock(text: string)
    | ImageBlock(image: Image)
    | ResourceBlock(marker: Marker)

  datatype Message = Message(role: Role, id: string, content: seq<Block>)

  datatype Log = Log(messages: seq<Message>, userResourceBytes: nat)

  // ------------------------------------------------------------------
  // Folding deltas
  // ------------------------------------------------------------------

  predicate Mergeable(a: Block, b: Block) {
    (a.TextBlock? && b.TextBlock?) || (a.ThinkingBlock? && b.ThinkingBlock?)
  }

  /** A block joins the newest message if that has the same role and, when the block
      names a message, the same identifier; a delta joins a last block of its kind. */
  function Append(log: Log, role: Role, block: Block, id: string): Log {
    var n := |log.messages|;
    if n == 0 || (id != "" && log.messages[n - 1].id != id) || log.messages[n - 1].role != role then
      Log(log.messages + [Message(role, id, [block])], if role == User then 0 else log.userResourceBytes)
    else
      log.(messages := log.messages[n - 1 := Join(log.messages[n - 1], block)])
  }

  function Join(message: Message, block: Block): Message {
    var k := |message.content|;
    if k > 0 && Mergeable(message.content[k - 1], block) then
      message.(content := message.content[k - 1 := message.content[k - 1].(text := message.content[k - 1].text + block.text)])
    else message.(content := message.content + [block])
  }

  /** A block joins only a last block of its own kind: text goes behind text and thinking
      behind thinking; anything else is a block of its own. */
  lemma KindsStayApart(message: Message, block: Block)
    ensures var k, next := |message.content|, Join(message, block);
            && next.role == message.role && next.id == message.id
            && if k > 0 && message.content[k - 1].TextBlock? && block.TextBlock? then
                 next.content == message.content[..k - 1] + [TextBlock(message.content[k - 1].text + block.text)]
               else if k > 0 && message.content[k - 1].ThinkingBlock? && block.ThinkingBlock? then
                 next.content == message.content[..k - 1] + [ThinkingBlock(message.content[k - 1].text + block.text)]
               else next.content == message.content + [block]
  {
  }

  function Resources(content: seq<Block>): nat {
    if content == [] then 0
    else Resources(content[..|content| - 1]) + (if content[|content| - 1].ResourceBlock? then 1 else 0)
  }

  /** One more resource of that size fits the user message it would join. */
  predicate HasRoom(log: Log, byteLength: nat) {
    var n := |log.messages|;
    var open := n > 0 && log.messages[n - 1].role.User?;
    && (if open then log.userResourceBytes else 0) + byteLength <= MAX_RESOURCE_BYTES
    && (open ==> Resources(log.messages[n - 1].content) < MAX_RESOURCES)
  }

  function Delta(thinking: bool, text: string): Block {
    if thinking then ThinkingBlock(text) else TextBlock(text)
  }

  /** Two deltas of one message are one. */
  lemma TwoDeltas(log: Log, role: Role, thinking: bool, a: string, b: string, id: string)
    ensures Append(Append(log, role, Delta(thinking, a), id), role, Delta(thinking, b), id)
            == Append(log, role, Delta(thinking, a + b), id)
  {
    var n := |log.messages|;
    var once := Append(log, role, Delta(thinking, a), id);
    if n == 0 || (id != "" && log.messages[n - 1].id != id) || log.messages[n - 1].role != role {
      assert once.messages[n] == Message(role, id, [Delta(thinking, a)]);
      assert Join(once.messages[n], Delta(thinking, b)) == Message(role, id, [Delta(thinking, a + b)]);
      assert once.messages[n := Message(role, id, [Delta(thinking, a + b)])] == log.messages + [Message(role, id, [Delta(thinking, a + b)])];
    } else {
      var message := log.messages[n - 1];
      JoinTwice(message, thinking, a, b);
      assert log.messages[n - 1 := Join(message, Delta(thinking, a))][n - 1 := Join(message, Delta(thinking, a + b))]
          == log.messages[n - 1 := Join(message, Delta(thinking, a + b))];
    }
  }

  lemma JoinTwice(message: Message, thinking: bool, a: string, b: string)
    ensures Join(Join(message, Delta(thinking, a)), Delta(thinking, b)) == Join(message, Delta(thinking, a + b))
  {
    var k := |message.content|;
    if k > 0 && Mergeable(message.content[k - 1], Delta(thinking, a)) {
      var text := message.content[k - 1].text;
      assert (text + a) + b == text + (a + b);
      assert message.content[k - 1 := Delta(thinking, text + a)][k - 1 := Delta(thinking, text + (a + b))]
          == message.content[k - 1 := Delta(thinking, text + (a + b))];
    } else {
      assert (message.content + [Delta(thinking, a)])[k := Delta(thinking, a + b)] == message.content + [Delta(thinking, a + b)];
    }
  }

  function Concat(chunks: seq<string>): string {
    if chunks == [] then "" else Concat(chunks[..|chunks| - 1]) + chunks[|chunks| - 1]
  }

  /** The deltas as they arrive. */
  function Streamed(log: Log, role: Role, thinking: bool, chunks: seq<string>, id: string): Log {
    if chunks == [] then log
    else Append(Streamed(log, role, thinking, chunks[..|chunks| - 1], id), role, Delta(thinking, chunks[|chunks| - 1]), id)
  }

  /** However a text is cut into chunks, the transcript is the same. */
  lemma {:induction false} ChunksDoNotMatter(log: Log, role: Role, thinking: bool, chunks: seq<string>, id: string)
    requires chunks != []
    ensures Streamed(log, role, thinking, chunks, id) == Append(log, role, Delta(thinking, Concat(chunks)), id)
  {
    var init, last := chunks[..|chunks| - 1], chunks[|chunks| - 1];
    if init == [] {
      assert Concat(chunks) == "" + last == last;
    } else {
      ChunksDoNotMatter(log, role, thinking, init, id);
      TwoDeltas(log, role, thinking, Concat(init), last, id);
    }
  }

  // ------------------------------------------------------------------
  // The echo of a prompt
  // ------------------------------------------------------------------

  datatype Echo = Echo(
    text: string, images: seq<Image>, resources: seq<Marker>,
    offset: nat, matched: seq<bool>, resourceMatched: seq<bool>)

  predicate WellFormed(echo: Echo) {
    echo.offset <= |echo.text| && |echo.matched| == |echo.images| && |echo.resourceMatched| == |echo.resources|
  }

  /** What of the prompt was not echoed yet. */
  datatype Remaining = Remaining(text: string, images: multiset<Image>, resources: multiset<Marker>)

  function Unmatched<T>(items: seq<T>, matched: seq<bool>): multiset<T>
    requires |items| == |matched|
  {
    if items == [] then multiset{}
    else
      Unmatched(items[..|items| - 1], matched[..|items| - 1])
      + (if matched[|items| - 1] then multiset{} else multiset{items[|items| - 1]})
  }

  function Left(echo: Echo): Remaining
    requires WellFormed(echo)
  {
    Remaining(echo.text[echo.offset..], Unmatched(echo.images, echo.matched), Unmatched(echo.resources, echo.resourceMatched))
  }

  predicate Done(left: Remaining) {
    left.text == "" && left.images == multiset{} && left.resources == multiset{}
  }

  datatype Piece = TextPiece(text: string) | ImagePiece(image: Image) | ResourcePiece(marker: Marker)

  /** What is left after one more piece, if the piece belongs to the echo. */
  function Take(left: Remaining, piece: Piece): Option<Remaining> {
    match piece
    case TextPiece(text) => if text <= left.text then Some(left.(text := left.text[|text|..])) else None
    case ImagePiece(image) => if image in left.images then Some(left.(images := left.images - multiset{image})) else None
    case ResourcePiece(marker) => if marker in left.resources then Some(left.(resources := left.resources - multiset{marker})) else None
  }

  /** Every piece is taken for the echo, and the prompt is acknowledged at the last one
      and not before. */
  predicate Acknowledges(left: Remaining, pieces: seq<Piece>)
    decreases |pieces|
  {
    pieces != []
    && Take(left, pieces[0]).Some?
    && var rest := Take(left, pieces[0]).value;
       if Done(rest) then |pieces| == 1 else Acknowledges(rest, pieces[1..])
  }

  function TextOf(pieces: seq<Piece>): string {
    if pieces == [] then "" else (if pieces[0].TextPiece? then pieces[0].text else "") + TextOf(pieces[1..])
  }

  function ImagesOf(pieces: seq<Piece>): multiset<Image> {
    if pieces == [] then multiset{}
    else (if pieces[0].ImagePiece? then multiset{pieces[0].image} else multiset{}) + ImagesOf(pieces[1..])
  }

  function ResourcesOf(pieces: seq<Piece>): multiset<Marker> {
    if pieces == [] then multiset{}
    else (if pieces[0].ResourcePiece? then multiset{pieces[0].marker} else multiset{}) + ResourcesOf(pieces[1..])
  }

  /** The pieces together: the text in order, the attachments in any order. */
  function Whole(pieces: seq<Piece>): Remaining {
    Remaining(TextOf(pieces), ImagesOf(pieces), ResourcesOf(pieces))
  }

  /** One more piece in front. */
  function With(piece: Piece, rest: Remaining): Remaining {
    match piece
    case TextPiece(text) => rest.(text := text + rest.text)
    case ImagePiece(image) => rest.(images := multiset{image} + rest.images)
    case ResourcePiece(marker) => rest.(resources := multiset{marker} + rest.resources)
  }

  lemma WholeIsWith(pieces: seq<Piece>)
    requires pieces != []
    ensures Whole(pieces) == With(pieces[0], Whole(pieces[1..]))
  {
    hide TextOf, ImagesOf, ResourcesOf;
    PartsInFront(pieces);
  }

  lemma PartsInFront(pieces: seq<Piece>)
    requires pieces != []
    ensures var first, rest := pieces[0], pieces[1..];
            && TextOf(pieces) == (if first.TextPiece? then first.text + TextOf(rest) else TextOf(rest))
            && ImagesOf(pieces) == (if first.ImagePiece? then multiset{first.image} + ImagesOf(rest) else ImagesOf(rest))
            && ResourcesOf(pieces) ==
                 (if first.ResourcePiece? then multiset{first.marker} + ResourcesOf(rest) else ResourcesOf(rest))
  {
  }

  /** An echo is recognised exactly when its pieces make up the prompt: the text in any
      chunks, with the attachments in any order and anywhere between them. */
  lemma {:induction false} EchoIsRecognised(left: Remaining, pieces: seq<Piece>)
    requires forall piece <- pieces :: piece != TextPiece("")
    ensures Acknowledges(left, pieces) <==> pieces != [] && Whole(pieces) == left
    decreases |pieces|
  {
    if pieces != [] {
      hide Take, With, Done, Whole;
      var first, rest := pieces[0], pieces[1..];
      assert pieces == [first] + rest;
      assert forall piece <- rest :: piece in pieces;
      WholeIsWith(pieces);
      TakingThePiece(left, first, Whole(rest));
      if Take(left, first).Some? {
        EchoIsRecognised(Take(left, first).value, rest);
        if rest == [] {
          NothingIsLeft(Take(left, first).value);
        } else {
          SomethingIsLeft(rest);
        }
      }
    }
  }

  lemma NothingIsLeft(left: Remaining)
    ensures Done(left) <==> Whole([]) == left
  {
  }

  lemma TakingThePiece(left: Remaining, piece: Piece, rest: Remaining)
    ensures Take(left, piece) == Some(rest) <==> left == With(piece, rest)
  {
    match piece {
      case TextPiece(text) => TextInFront(text, left.text, rest.text);
      case ImagePiece(image) => OneOfMany(image, left.images, rest.images);
      case ResourcePiece(marker) => OneOfMany(marker, left.resources, rest.resources);
    }
  }

  lemma TextInFront(text: string, whole: string, rest: string)
    ensures text <= whole && whole[|text|..] == rest <==> whole == text + rest
  {
    if text <= whole {
      assert whole == text + whole[|text|..];
    }
    assert (text + rest)[|text|..] == rest;
  }

  lemma OneOfMany<T>(item: T, all: multiset<T>, rest: multiset<T>)
    ensures item in all && all - multiset{item} == rest <==> all == multiset{item} + rest
  {
    assert item in all ==> all == multiset{item} + (all - multiset{item});
    assert (multiset{item} + rest) - multiset{item} == rest;
  }

  lemma SomethingIsLeft(pieces: seq<Piece>)
    requires pieces != [] && forall piece <- pieces :: piece != TextPiece("")
    ensures !Done(Whole(pieces))
  {
    assert pieces[0] in pieces;
    match pieces[0] {
      case TextPiece(text) =>
      case ImagePiece(image) => assert image in ImagesOf(pieces);
      case ResourcePiece(marker) => assert marker in ResourcesOf(pieces);
    }
  }

  lemma OneMorePiece(left: Remaining, pieces: seq<Piece>)
    requires pieces != []
    ensures Acknowledges(left, pieces) <==>
              && Take(left, pieces[0]).Some?
              && var rest := Take(left, pieces[0]).value;
                 if Done(rest) then |pieces| == 1 else Acknowledges(rest, pieces[1..])
  {
  }

  lemma NothingAcknowledges(left: Remaining, pieces: seq<Piece>)
    requires pieces == []
    ensures !Acknowledges(left, pieces)
  {
  }

  lemma {:induction false} UnmatchedAt<T>(items: seq<T>, matched: seq<bool>, i: nat)
    requires |items| == |matched| && i < |items| && !matched[i]
    ensures items[i] in Unmatched(items, matched)
    ensures Unmatched(items, matched[i := true]) == Unmatched(items, matched) - multiset{items[i]}
  {
    var n := |items| - 1;
    if i < n {
      UnmatchedAt(items[..n], matched[..n], i);
      assert matched[i := true][..n] == matched[..n][i := true];
      var before, last := Unmatched(items[..n], matched[..n]), if matched[n] then multiset{} else multiset{items[n]};
      assert (before + last) - multiset{items[i]} == (before - multiset{items[i]}) + last;
    } else {
      assert matched[i := true][..n] == matched[..n];
    }
  }

  lemma {:induction false} UnmatchedHas<T>(items: seq<T>, matched: seq<bool>, item: T)
    requires |items| == |matched|
    ensures item in Unmatched(items, matched) <==> exists i :: 0 <= i < |items| && items[i] == item && !matched[i]
  {
    if items != [] {
      var n := |items| - 1;
      UnmatchedHas(items[..n], matched[..n], item);
      if i :| 0 <= i < |items| && items[i] == item && !matched[i] {
        if i < n {
          assert items[..n][i] == item && !matched[..n][i];
        }
      }
    }
  }

  lemma {:induction false} AllMatched<T>(items: seq<T>, matched: seq<bool>)
    requires |items| == |matched|
    ensures Unmatched(items, matched) == multiset{} <==> forall i :: 0 <= i < |matched| ==> matched[i]
  {
    if items != [] {
      var n := |items| - 1;
      AllMatched(items[..n], matched[..n]);
      if forall i :: 0 <= i < n ==> matched[i] {
        assert forall i :: 0 <= i < n ==> matched[..n][i];
      } else {
        var i :| 0 <= i < n && !matched[i];
        assert !matched[..n][i];
      }
      if !matched[n] {
        assert items[n] in Unmatched(items, matched);
      }
    }
  }

  lemma ImageTaken(echo: Echo, i: nat)
    requires WellFormed(echo) && i < |echo.images| && !echo.matched[i]
    ensures var next := echo.(matched := echo.matched[i := true]);
            WellFormed(next) && Take(Left(echo), ImagePiece(echo.images[i])) == Some(Left(next))
  {
    UnmatchedAt(echo.images, echo.matched, i);
  }

  lemma ImageUnknown(echo: Echo, image: Image)
    requires WellFormed(echo) && forall k :: 0 <= k < |echo.images| ==> echo.matched[k] || echo.images[k] != image
    ensures Take(Left(echo), ImagePiece(image)) == None
  {
    UnmatchedHas(echo.images, echo.matched, image);
  }

  lemma ResourceTaken(echo: Echo, i: nat)
    requires WellFormed(echo) && i < |echo.resources| && !echo.resourceMatched[i]
    ensures var next := echo.(resourceMatched := echo.resourceMatched[i := true]);
            WellFormed(next) && Take(Left(echo), ResourcePiece(echo.resources[i])) == Some(Left(next))
  {
    UnmatchedAt(echo.resources, echo.resourceMatched, i);
  }

  lemma ResourceUnknown(echo: Echo, marker: Marker)
    requires WellFormed(echo) && forall k :: 0 <= k < |echo.resources| ==> echo.resourceMatched[k] || echo.resources[k] != marker
    ensures Take(Left(echo), ResourcePiece(marker)) == None
  {
    UnmatchedHas(echo.resources, echo.resourceMatched, marker);
  }

  /** What was recorded after each piece: whether it was taken, and whether the prompt
      was acknowledged by then. All are taken, and the last acknowledges. */
  predicate Recognised(taken: seq<bool>, acknowledged: seq<bool>) {
    && taken != [] && |acknowledged| == |taken| && false !in taken
    && acknowledged[|acknowledged| - 1] && true !in acknowledged[..|acknowledged| - 1]
  }

  lemma NotRecognised(taken: seq<bool>, acknowledged: seq<bool>)
    ensures true !in acknowledged ==> !Recognised(taken, acknowledged)
  {
  }

  lemma RecognisedLast(taken: seq<bool>, acknowledged: seq<bool>, consumed: bool, done: bool)
    requires |taken| == |acknowledged|
    ensures Recognised(taken + [consumed], acknowledged + [done]) <==> false !in taken && consumed && true !in acknowledged && done
    ensures false !in taken + [consumed] <==> false !in taken && consumed
    ensures true !in acknowledged + [done] <==> true !in acknowledged && !done
  {
    assert (acknowledged + [done])[..|acknowledged|] == acknowledged;
  }

  // ------------------------------------------------------------------
  // The session's transcript
  // ------------------------------------------------------------------

  class SessionTranscript {
    var messages: seq<Message>
    var userResourceBytes: nat
    var pendingEcho: Option<Echo>
    var promptAcknowledged: bool
    var streaming: bool
    var totalMessages: nat

    ghost predicate Valid()
      reads this
    {
      pendingEcho.Some? ==> WellFormed(pendingEcho.value)
    }

    constructor ()
      ensures Valid() && messages == [] && pendingEcho.None? && !promptAcknowledged
    {
      messages, userResourceBytes, pendingEcho := [], 0, None;
      promptAcknowledged, streaming, totalMessages := false, false, 0;
    }

    function History(): Log
      reads this
    {
      Log(messages, userResourceBytes)
    }

    /** A prompt is submitted: it is shown at once, and its echo is awaited. */
    method BeginPrompt(content: seq<Block>, resourceBytes: nat, text: string, images: seq<Image>, resources: seq<Marker>)
      modifies this
      ensures Valid() && !promptAcknowledged && messages == old(messages) + [Message(User, "", content)]
      ensures pendingEcho.Some? && Left(pendingEcho.value) == Remaining(text, multiset(images), multiset(resources))
      ensures streaming && totalMessages == |messages| && userResourceBytes == resourceBytes
    {
      messages := messages + [Message(User, "", content)];
      userResourceBytes := resourceBytes;
      var matched := seq(|images|, _ => false);
      var resourceMatched := seq(|resources|, _ => false);
      pendingEcho := Some(Echo(text, images, resources, 0, matched, resourceMatched));
      promptAcknowledged, streaming, totalMessages := false, true, |messages|;
      NothingMatched(images, matched);
      NothingMatched(resources, resourceMatched);
      assert text[0..] == text;
    }

    method AppendMessageBlock(role: Role, block: Block, id: string)
      modifies this`messages, this`userResourceBytes
      ensures History() == Append(old(History()), role, block, id)
      ensures var n := |old(messages)|;
              var joins := n > 0 && old(messages)[n - 1].role == role && (id == "" || old(messages)[n - 1].id == id);
              && messages == (if joins then old(messages)[n - 1 := Join(old(messages)[n - 1], block)]
                              else old(messages) + [Message(role, id, [block])])
              && userResourceBytes == (if joins || role != User then old(userResourceBytes) else 0)
    {
      var n := |messages|;
      var differentMessage := n > 0 && id != "" && messages[n - 1].id != id;
      if n == 0 || differentMessage || messages[n - 1].role != role {
        if role == User {
          userResourceBytes := 0;
        }
        messages := messages + [Message(role, id, [block])];
        return;
      }
      var message := messages[n - 1];
      var k := |message.content|;
      if k > 0 {
        var last := message.content[k - 1];
        if Mergeable(last, block) {
          messages := messages[n - 1 := message.(content := message.content[k - 1 := last.(text := last.text + block.text)])];
          return;
        }
      }
      messages := messages[n - 1 := message.(content := message.content + [block])];
    }

    method EchoComplete(echo: Echo) returns (complete: bool)
      requires WellFormed(echo)
      ensures complete <==> Done(Left(echo))
    {
      AllMatched(echo.images, echo.matched);
      AllMatched(echo.resources, echo.resourceMatched);
      if echo.offset < |echo.text| {
        return false;
      }
      for i := 0 to |echo.matched|
        invariant forall k :: 0 <= k < i ==> echo.matched[k]
      {
        if !echo.matched[i] {
          return false;
        }
      }
      for i := 0 to |echo.resourceMatched|
        invariant forall k :: 0 <= k < i ==> echo.resourceMatched[k]
      {
        if !echo.resourceMatched[i] {
          return false;
        }
      }
      return true;
    }

    /** The piece was taken: the prompt is acknowledged when nothing is left. */
    method Advance(echo: Echo)
      requires WellFormed(echo)
      modifies this`pendingEcho, this`promptAcknowledged
      ensures Valid()
      ensures Done(Left(echo)) ==> pendingEcho.None? && promptAcknowledged
      ensures !Done(Left(echo)) ==> pendingEcho == Some(echo) && promptAcknowledged == old(promptAcknowledged)
    {
      pendingEcho := Some(echo);
      var complete := EchoComplete(echo);
      if complete {
        promptAcknowledged := true;
        pendingEcho := None;
      }
    }

    /** How one piece moves the echo: taken, taken and acknowledged, or not of the echo. */
    twostate predicate Moved(piece: Piece, consumed: bool)
      requires old(Valid()) && Valid()
      reads this
    {
      match old(pendingEcho)
      case None => !consumed && pendingEcho.None? && promptAcknowledged == old(promptAcknowledged)
      case Some(echo) =>
        match Take(Left(echo), piece)
        case None => !consumed && pendingEcho.None? && promptAcknowledged == old(promptAcknowledged)
        case Some(rest) =>
          consumed &&
          if Done(rest) then pendingEcho.None? && promptAcknowledged
          else pendingEcho.Some? && Left(pendingEcho.value) == rest && promptAcknowledged == old(promptAcknowledged)
    }

    method ConsumeEchoText(text: string) returns (consumed: bool)
      requires Valid()
      modifies this`pendingEcho, this`promptAcknowledged
      ensures Valid() && Moved(TextPiece(text), consumed)
    {
      if pendingEcho.None? || !(text <= pendingEcho.value.text[pendingEcho.value.offset..]) {
        pendingEcho := None;
        return false;
      }
      var echo := pendingEcho.value.(offset := pendingEcho.value.offset + |text|);
      assert echo.text[echo.offset..] == pendingEcho.value.text[pendingEcho.value.offset..][|text|..];
      Advance(echo);
      return true;
    }

    method ConsumeEchoImage(image: Image) returns (consumed: bool)
      requires Valid()
      modifies this`pendingEcho, this`promptAcknowledged
      ensures Valid() && Moved(ImagePiece(image), consumed)
    {
      if pendingEcho.None? {
        return false;
      }
      var echo := pendingEcho.value;
      hide Take, Left, Done;
      for index := 0 to |echo.images|
        invariant pendingEcho == old(pendingEcho) && promptAcknowledged == old(promptAcknowledged)
        invariant forall k :: 0 <= k < index ==> echo.matched[k] || echo.images[k] != image
      {
        if !echo.matched[index] && echo.images[index] == image {
          ImageTaken(echo, index);
          Advance(echo.(matched := echo.matched[index := true]));
          return true;
        }
      }
      ImageUnknown(echo, image);
      pendingEcho := None;
      return false;
    }

    method ConsumeEchoResource(marker: Marker) returns (consumed: bool)
      requires Valid()
      modifies this`pendingEcho, this`promptAcknowledged
      ensures Valid() && Moved(ResourcePiece(marker), consumed)
    {
      if pendingEcho.None? {
        return false;
      }
      var echo := pendingEcho.value;
      hide Take, Left, Done;
      for index := 0 to |echo.resources|
        invariant pendingEcho == old(pendingEcho) && promptAcknowledged == old(promptAcknowledged)
        invariant forall k :: 0 <= k < index ==> echo.resourceMatched[k] || echo.resources[k] != marker
      {
        if !echo.resourceMatched[index] && echo.resources[index] == marker {
          ResourceTaken(echo, index);
          Advance(echo.(resourceMatched := echo.resourceMatched[index := true]));
          return true;
        }
      }
      ResourceUnknown(echo, marker);
      pendingEcho := None;
      return false;
    }

    /** A user chunk from Pi: a piece of the echo adds no message, anything else is
        appended. A resource over the limits of one message is dropped. */
    method UserChunk(piece: Piece, byteLength: nat, id: string) returns (consumed: bool)
      requires Valid()
      modifies this
      ensures Valid() && Moved(piece, consumed)
      ensures consumed ==> messages == old(messages) && userResourceBytes == old(userResourceBytes)
      ensures !consumed && !piece.ResourcePiece? ==>
              History() == Append(old(History()), User, if piece.TextPiece? then TextBlock(piece.text) else ImageBlock(piece.image), id)
      ensures !consumed && piece.ResourcePiece? ==>
              messages == if HasRoom(old(History()), byteLength) then Append(old(History()), User, ResourceBlock(piece.marker), "").messages
                          else old(messages)
      ensures consumed ==> streaming == old(streaming) && totalMessages == old(totalMessages)
      ensures !consumed ==>
              && streaming == (old(streaming) || piece.TextPiece?)
              && totalMessages == if piece.ResourcePiece? && !HasRoom(old(History()), byteLength) then old(totalMessages) else |messages|
    {
      match piece {
        case TextPiece(text) =>
          consumed := ConsumeEchoText(text);
          if !consumed {
            AppendMessageBlock(User, TextBlock(text), id);
            streaming, totalMessages := true, |messages|;
          }
        case ImagePiece(image) =>
          consumed := ConsumeEchoImage(image);
          if !consumed {
            AppendMessageBlock(User, ImageBlock(image), id);
            totalMessages := |messages|;
          }
        case ResourcePiece(marker) =>
          consumed := ConsumeEchoResource(marker);
          if !consumed {
            var added := AppendUserResourceMarker(marker, byteLength);
            if added {
              totalMessages := |messages|;
            }
          }
      }
    }

    /** The chunks of a whole echo, one after the other. They are all taken, and the prompt
        is acknowledged at the last one and not before, exactly when they make up what was
        awaited; then no message is added. */
    method UserChunks(pieces: seq<Piece>, byteLengths: seq<nat>, id: string)
        returns (taken: seq<bool>, acknowledged: seq<bool>)
      requires Valid() && pendingEcho.Some? && !promptAcknowledged && |byteLengths| == |pieces|
      modifies this
      ensures Valid() && |taken| == |acknowledged| == |pieces|
      ensures Recognised(taken, acknowledged) <==> Acknowledges(old(Left(pendingEcho.value)), pieces)
      ensures (forall piece <- pieces :: piece != TextPiece("")) ==>
                (Recognised(taken, acknowledged) <==> pieces != [] && Whole(pieces) == old(Left(pendingEcho.value)))
      ensures false !in taken ==> messages == old(messages)
    {
      hide Left, Done, Take, Whole, Acknowledges, Recognised;
      taken, acknowledged := [], [];
      ghost var left := Left(pendingEcho.value);
      for i := 0 to |pieces|
        invariant Valid() && |taken| == |acknowledged| == i
        invariant false !in taken ==> messages == old(messages)
        invariant pendingEcho.Some? ==>
                    && !promptAcknowledged && false !in taken && true !in acknowledged
                    && (Acknowledges(left, pieces) <==> Acknowledges(Left(pendingEcho.value), pieces[i..]))
        invariant pendingEcho.None? ==> (Acknowledges(left, pieces) <==> i == |pieces| && Recognised(taken, acknowledged))
      {
        if pendingEcho.Some? {
          OneMorePiece(Left(pendingEcho.value), pieces[i..]);
        }
        var consumed := UserChunk(pieces[i], byteLengths[i], id);
        RecognisedLast(taken, acknowledged, consumed, promptAcknowledged);
        taken, acknowledged := taken + [consumed], acknowledged + [promptAcknowledged];
      }
      NotRecognised(taken, acknowledged);
      if pendingEcho.Some? {
        NothingAcknowledges(Left(pendingEcho.value), pieces[|pieces|..]);
      }
      if forall piece <- pieces :: piece != TextPiece("") {
        EchoIsRecognised(left, pieces);
      }
    }

    method AppendUserResourceMarker(marker: Marker, byteLength: nat) returns (added: bool)
      modifies this`messages, this`userResourceBytes
      ensures added == HasRoom(old(History()), byteLength)
      ensures var open := |old(messages)| > 0 && old(messages)[|old(messages)| - 1].role.User?;
              var before := if open then old(userResourceBytes) else 0;
              && (added <==> before + byteLength <= MAX_RESOURCE_BYTES
                             && (open ==> Resources(old(messages)[|old(messages)| - 1].content) < MAX_RESOURCES))
              && userResourceBytes == (if added then before + byteLength else before)
      ensures messages == if added then Append(old(History()), User, ResourceBlock(marker), "").messages else old(messages)
    {
      var n := |messages|;
      if n == 0 || messages[n - 1].role != User {
        userResourceBytes := 0;
      }
      if userResourceBytes + byteLength > MAX_RESOURCE_BYTES {
        return false;
      }
      if n > 0 && messages[n - 1].role == User {
        var count := 0;
        for i := 0 to |messages[n - 1].content|
          invariant messages == old(messages) && userResourceBytes == old(userResourceBytes)
          invariant count == Resources(messages[n - 1].content[..i])
        {
          assert messages[n - 1].content[..i + 1][..i] == messages[n - 1].content[..i];
          if messages[n - 1].content[i].ResourceBlock? {
            count := count + 1;
          }
        }
        assert messages[n - 1].content[..|messages[n - 1].content|] == messages[n - 1].content;
        if count >= MAX_RESOURCES {
          return false;
        }
      }
      AppendMessageBlock(User, ResourceBlock(marker), "");
      userResourceBytes := userResourceBytes + byteLength;
      return true;
    }

    /** An assistant delta, text or thinking. */
    method AssistantDelta(thinking: bool, text: string, id: string)
      requires Valid()
      modifies this
      ensures Valid() && pendingEcho == old(pendingEcho) && promptAcknowledged == old(promptAcknowledged)
      ensures History() == Append(old(History()), Assistant, if thinking then ThinkingBlock(text) else TextBlock(text), id)
      ensures streaming && totalMessages == if thinking then old(totalMessages) else |messages|
    {
      AppendMessageBlock(Assistant, Delta(thinking, text), id);
      streaming := true;
      if !thinking {
        totalMessages := |messages|;
      }
    }
  }

  lemma {:induction false} NothingMatched<T>(items: seq<T>, matched: seq<bool>)
    requires |items| == |matched| && forall i :: 0 <= i < |matched| ==> !matched[i]
    ensures Unmatched(items, matched) == multiset(items)
  {
    if items != [] {
      var n := |items| - 1;
      NothingMatched(items[..n], matched[..n]);
      assert items == items[..n] + [items[n]];
    }
  }
}
