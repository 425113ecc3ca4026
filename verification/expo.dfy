/** The push gateway as the routes consume it: a push-token predicate, a
    chunker, and a sender that answers each submitted chunk with a list of
    tickets. All three are opaque; only the chunker's concatenation contract
    and, where a lemma needs it, a one-ticket-per-message contract are
    assumed. */
module Expo {
  import opened Base
  import opened Store

  /** One push message as the routes build it. */
  datatype Message = Message(to: string, sound: string, title: string, body: string, data: Payload)

  /** A push ticket: a status (`"ok"` or `"error"`) and, for accepted
      messages, a receipt id. */
  datatype Ticket = Ticket(status: string, id: Option<string>)

  /** The gateway client. `send(i, chunk)` is the reply to the `i`-th
      submission of a request, so each submission may answer differently. */
  datatype Gateway = Gateway(
    isPushToken: string -> bool,
    chunk: seq<Message> -> seq<seq<Message>>,
    send: (nat, seq<Message>) -> seq<Ticket>)

  /** Every message the routes build plays the default sound. */
  const DefaultSound: string := "default"

  /** The chunker's contract: the chunks concatenate back to the input. */
  ghost predicate ChunkerSound(gw: Gateway)
  {
    forall ms :: Flatten(gw.chunk(ms)) == ms
  }

  /** The sender's contract: one ticket per submitted message. */
  ghost predicate OneTicketPerMessage(gw: Gateway)
  {
    forall i: nat, c :: |gw.send(i, c)| == |c|
  }

  /** A sender whose ticket for a message depends only on that message. */
  ghost predicate AnswersPerMessage(gw: Gateway, f: Message -> Ticket)
  {
    forall i: nat, c :: gw.send(i, c) == MapSeq(f, c)
  }

  /** The submission loop: chunks are sent one after another and each reply's
      tickets are pushed onto the list gathered so far. */
  function Submit(gw: Gateway, chunks: seq<seq<Message>>): (tickets: seq<Ticket>)
    decreases |chunks|
    ensures forall i :: 0 <= i < |chunks| ==> |gw.send(i, chunks[i])| <= |tickets|
    ensures tickets == [] <==> forall i :: 0 <= i < |chunks| ==> gw.send(i, chunks[i]) == []
  {
    if chunks == [] then []
    else Submit(gw, chunks[..|chunks| - 1]) + gw.send(|chunks| - 1, chunks[|chunks| - 1])
  }

  /** The reply to each chunk, by submission position. */
  function Replies(gw: Gateway, chunks: seq<seq<Message>>): (rs: seq<seq<Ticket>>)
    ensures |rs| == |chunks|
    ensures forall i :: 0 <= i < |chunks| ==> rs[i] == gw.send(i, chunks[i])
  {
    seq(|chunks|, i requires 0 <= i < |chunks| => gw.send(i, chunks[i]))
  }

  /** The gathered ticket list is the in-order concatenation of the replies. */
  lemma {:induction false} SubmitFlattensReplies(gw: Gateway, chunks: seq<seq<Message>>)
    ensures Submit(gw, chunks) == Flatten(Replies(gw, chunks))
    decreases |chunks|
  {
    if chunks != [] {
      var n := |chunks| - 1;
      SubmitFlattensReplies(gw, chunks[..n]);
      assert Replies(gw, chunks) == Replies(gw, chunks[..n]) + [gw.send(n, chunks[n])];
      FlattenSnoc(Replies(gw, chunks[..n]), gw.send(n, chunks[n]));
    }
  }

  /** With a sound chunker and one ticket per message, a request gets back
      exactly as many tickets as it built messages. */
  lemma TicketCountMatches(gw: Gateway, ms: seq<Message>)
    requires ChunkerSound(gw)
    requires OneTicketPerMessage(gw)
    ensures |Submit(gw, gw.chunk(ms))| == |ms|
  {
    var chunks := gw.chunk(ms);
    SubmitFlattensReplies(gw, chunks);
    FlattenSameLength(Replies(gw, chunks), chunks);
  }

  /** Positional alignment: when the sender answers message by message,
      ticket `i` of the request is the answer to message `i`, however the
      chunker split the list. */
  lemma TicketsAlignWithMessages(gw: Gateway, f: Message -> Ticket, ms: seq<Message>)
    requires ChunkerSound(gw)
    requires AnswersPerMessage(gw, f)
    ensures Submit(gw, gw.chunk(ms)) == MapSeq(f, ms)
  {
    var chunks := gw.chunk(ms);
    SubmitFlattensReplies(gw, chunks);
    assert Replies(gw, chunks) == MapSeq((xs: seq<Message>) => MapSeq(f, xs), chunks);
    FlattenMapSeq(f, chunks);
  }

  /** `tickets[i]?.status || 'error'`. */
  function StatusAt(tickets: seq<Ticket>, i: nat): (s: string)
    ensures s != ""
    ensures i < |tickets| && tickets[i].status != "" ==> s == tickets[i].status
    ensures (i >= |tickets| || tickets[i].status == "") ==> s == "error"
  {
    if i < |tickets| && tickets[i].status != "" then tickets[i].status else "error"
  }

  /** `tickets[i]?.id || null`. */
  function TicketIdAt(tickets: seq<Ticket>, i: nat): (id: Option<string>)
    ensures id.Some? <==> i < |tickets| && Present(tickets[i].id)
    ensures id.Some? ==> id == tickets[i].id
  {
    if i < |tickets| && Present(tickets[i].id) then tickets[i].id else None
  }

  /** `data || {}`: an absent payload becomes the empty object. */
  function PayloadOrEmpty(data: Option<Payload>): (p: Payload)
    ensures data.Some? ==> p == data.value
    ensures data.None? ==> p == map[]
  {
    if data.Some? then data.value else map[]
  }

  /** `{ ...data, userId: id }`: the caller's payload with `userId` set to the
      recipient's id, overriding any `userId` the caller sent. */
  function WithUserId(data: Option<Payload>, id: int): (p: Payload)
    ensures p.Keys == PayloadOrEmpty(data).Keys + {"userId"}
    ensures p["userId"] == Num(id)
    ensures forall k :: k in PayloadOrEmpty(data) && k != "userId" ==> p[k] == PayloadOrEmpty(data)[k]
  {
    PayloadOrEmpty(data)["userId" := Num(id)]
  }
}
