/**
 * The chat page's turn state machine (frontend/app/page.tsx, ChatPage).
 *
 * The page keeps its transcript `messages`, the text box `input` and the
 * `loading` flag as React state; `handleSend` captures, per turn, the
 * accumulated `response` and the turn-start snapshot `newMessages`, and
 * registers three handlers on the turn's EventSource. Handlers run one at
 * a time, in arrival order, so the model applies them sequentially. In
 * that setting the functional update `prev` (line 21) and the captured
 * `messages` (line 23) are the same transcript, and the model uses one.
 *
 * The pure functions below are the specification; the class `Page` holds
 * the same state in fields and its methods are proved to follow them.
 */
module ChatPage {
  import opened Strings

  /** Prefix of a user line in the transcript. */
  const UserPrefix: string := "\U{1F9E0} You: "
  /** Prefix of an assistant line in the transcript. */
  const AssistantPrefix: string := "\U{1F916} Assistant: "

  function UserLine(text: string): string { UserPrefix + text }
  function AssistantLine(text: string): string { AssistantPrefix + text }

  /** `arr.slice(0, -1)`: everything but the last entry; empty stays empty. */
  function DropLast<T>(s: seq<T>): (r: seq<T>)
    ensures s != [] ==> s == r + [s[|s| - 1]]
    ensures s == [] ==> r == []
  {
    if s == [] then [] else s[..|s| - 1]
  }

  /**
   * The page's state. `response` and `newMessages` are the current turn's
   * closure variables; `streamOpen` says whether the current turn's
   * EventSource exists and has not been closed.
   */
  datatype Chat = Chat(
    messages: seq<string>,
    input: string,
    loading: bool,
    response: string,
    newMessages: seq<string>,
    streamOpen: bool)

  /** What the browser delivers to the turn's EventSource handlers. */
  datatype StreamEvent = MessageEvent(data: string) | OpenEvent | ErrorEvent

  /** The state the page mounts with (lines 13-15). */
  function Initial(): Chat
  {
    Chat([], "", false, "", [], false)
  }

  /** The text box's onChange handler (line 73). */
  function ChangeInput(c: Chat, text: string): Chat
  {
    c.(input := text)
  }

  /**
   * handleSend (lines 18-33): a blank input is ignored; otherwise the user
   * line and an empty assistant placeholder are appended, the text box is
   * cleared, loading is set and a fresh stream with an empty response opens.
   */
  function HandleSend(c: Chat): Chat
  {
    if IsBlank(c.input) then c
    else
      var turn := c.messages + [UserLine(c.input), AssistantLine("")];
      Chat(turn, "", true, "", turn, true)
  }

  /** onmessage (lines 35-40): the chunk is appended to the response and the last entry of the snapshot is replaced. */
  function Fragment(c: Chat, chunk: string): Chat
  {
    var response := c.response + chunk;
    c.(response := response, messages := DropLast(c.newMessages) + [AssistantLine(response)])
  }

  /**
   * One event reaching the page. A closed EventSource (line 43) dispatches
   * nothing, so an event after the close leaves the state as it is.
   */
  function Deliver(c: Chat, e: StreamEvent): Chat
  {
    if !c.streamOpen then c
    else match e
      case MessageEvent(data) => Fragment(c, data)
      case OpenEvent => c.(loading := false)
      case ErrorEvent => c.(loading := false, streamOpen := false)
  }

  /** A sequence of events delivered in arrival order. */
  function Run(c: Chat, es: seq<StreamEvent>): Chat
    decreases |es|
  {
    if es == [] then c else Run(Deliver(c, es[0]), es[1..])
  }

  /** The fragments the page receives: the message payloads before the first error closes the stream. */
  function Delivered(es: seq<StreamEvent>): seq<string>
    decreases |es|
  {
    if es == [] then []
    else match es[0]
      case MessageEvent(data) => [data] + Delivered(es[1..])
      case OpenEvent => Delivered(es[1..])
      case ErrorEvent => []
  }

  /** True when no event of `es` is an open or error event. */
  predicate OnlyMessages(es: seq<StreamEvent>)
  {
    forall i :: 0 <= i < |es| ==> es[i].MessageEvent?
  }

  /** Once the stream is closed, no sequence of events changes anything. */
  lemma {:induction false} RunClosed(c: Chat, es: seq<StreamEvent>)
    requires !c.streamOpen
    ensures Run(c, es) == c
    decreases |es|
  {
    if es != [] {
      RunClosed(Deliver(c, es[0]), es[1..]);
    }
  }

  /**
   * A send changes the state exactly when the input is not blank; an
   * accepted send grows the transcript by two and keeps the old entries.
   */
  lemma SendChangesIffNotBlank(c: Chat)
    ensures IsBlank(c.input) <==> HandleSend(c) == c
    ensures !IsBlank(c.input) ==>
      |HandleSend(c).messages| == |c.messages| + 2 && HandleSend(c).messages[..|c.messages|] == c.messages
  {
    if !IsBlank(c.input) {
      assert |HandleSend(c).messages| != |c.messages|;
    }
  }

  /** Running `xs + ys` is running `xs` and then `ys`. */
  lemma {:induction false} RunAppend(c: Chat, xs: seq<StreamEvent>, ys: seq<StreamEvent>)
    ensures Run(c, xs + ys) == Run(Run(c, xs), ys)
    decreases |xs|
  {
    if xs == [] {
      assert xs + ys == ys;
    } else {
      assert (xs + ys)[1..] == xs[1..] + ys;
      RunAppend(Deliver(c, xs[0]), xs[1..], ys);
    }
  }

  /**
   * The turn invariant: the transcript is the snapshot with its last entry
   * (the placeholder) replaced by the assistant line of the response so far.
   */
  predicate TurnShape(c: Chat, prefix: seq<string>)
  {
    c.newMessages == prefix + [AssistantLine("")] &&
    c.messages == prefix + [AssistantLine(c.response)]
  }

  /**
   * From any state that has the turn shape, events keep the shape, the
   * response grows by exactly the delivered fragments, loading stays only
   * while nothing but messages arrived, and the stream closes exactly on
   * an error. The text box is not touched.
   */
  lemma {:induction false} RunInTurn(c: Chat, prefix: seq<string>, es: seq<StreamEvent>)
    requires TurnShape(c, prefix) && c.streamOpen
    ensures var r := Run(c, es);
      TurnShape(r, prefix) &&
      r.response == c.response + Concat(Delivered(es)) &&
      r.loading == (c.loading && OnlyMessages(es)) &&
      r.streamOpen == (ErrorEvent !in es) &&
      r.input == c.input
    decreases |es|
  {
    if es == [] {
      assert c.response + Concat([]) == c.response;
    } else {
      var d := Deliver(c, es[0]);
      var rest := es[1..];
      assert es == [es[0]] + rest;
      match es[0]
      case MessageEvent(data) =>
        assert DropLast(c.newMessages) == prefix;
        RunInTurn(d, prefix, rest);
        assert Delivered(es) == [data] + Delivered(rest);
        assert (c.response + data) + Concat(Delivered(rest)) == c.response + (data + Concat(Delivered(rest)));
        assert OnlyMessages(es) == OnlyMessages(rest) by {
          assert forall i :: 0 <= i < |rest| ==> rest[i] == es[i + 1];
        }
      case OpenEvent =>
        RunInTurn(d, prefix, rest);
        assert !OnlyMessages(es) by { assert !es[0].MessageEvent?; }
      case ErrorEvent =>
        RunClosed(d, rest);
        assert Delivered(es) == [];
        assert !OnlyMessages(es) by { assert !es[0].MessageEvent?; }
        assert c.response + Concat([]) == c.response;
    }
  }

  /**
   * One whole turn: after an accepted send and any events, the transcript
   * is the old one plus the user line and ONE assistant line whose text is
   * the delivered fragments concatenated in arrival order. An error or an
   * open only clears loading, so partial content stays.
   */
  lemma TurnTranscript(c: Chat, es: seq<StreamEvent>)
    requires !IsBlank(c.input)
    ensures var r := Run(HandleSend(c), es);
      r.messages == c.messages + [UserLine(c.input), AssistantLine(Concat(Delivered(es)))] &&
      r.response == Concat(Delivered(es)) &&
      r.input == "" &&
      r.loading == OnlyMessages(es) &&
      r.streamOpen == (ErrorEvent !in es)
  {
    var prefix := c.messages + [UserLine(c.input)];
    assert TurnShape(HandleSend(c), prefix);
    RunInTurn(HandleSend(c), prefix, es);
    var r := Run(HandleSend(c), es);
    assert "" + Concat(Delivered(es)) == Concat(Delivered(es));
    assert r.messages == prefix + [AssistantLine(Concat(Delivered(es)))];
  }

  /**
   * Content never shrinks and the earlier part of the transcript never
   * changes: at the point after the first `k` events and at the end, the
   * transcript has the same length (old transcript plus two) and the same
   * entries up to and including the user line, and the later assistant
   * line extends the earlier one.
   */
  lemma AssistantLineGrows(c: Chat, es: seq<StreamEvent>, k: nat)
    requires !IsBlank(c.input) && k <= |es|
    ensures var before := Run(HandleSend(c), es[..k]);
      var after := Run(HandleSend(c), es);
      var n := |c.messages| + 1;
      |before.messages| == |after.messages| == n + 1 &&
      before.messages[..n] == after.messages[..n] == c.messages + [UserLine(c.input)] &&
      before.messages[n] <= after.messages[n]
  {
    TurnTranscript(c, es[..k]);
    TurnTranscript(c, es);
    DeliveredPrefix(es, k);
    SameTurnLonger(c.messages + [UserLine(c.input)], Concat(Delivered(es[..k])), Concat(Delivered(es)));
  }

  /** Two transcripts of one turn differ at most in the assistant line, and a longer response gives a longer line. */
  lemma SameTurnLonger(prefix: seq<string>, early: string, late: string)
    requires early <= late
    ensures var m1, m2 := prefix + [AssistantLine(early)], prefix + [AssistantLine(late)];
      |m1| == |m2| == |prefix| + 1 && m1[..|prefix|] == m2[..|prefix|] == prefix &&
      m1[|prefix|] <= m2[|prefix|]
  {
    assert AssistantLine(late) == AssistantLine(early) + late[|early|..];
  }

  /**
   * A turn can be observed at any point: from any state, the state after
   * all events is the state after the first `k` with the remaining events
   * delivered to it.
   */
  lemma TurnResumes(c: Chat, es: seq<StreamEvent>, k: nat)
    requires k <= |es|
    ensures Run(c, es) == Run(Run(c, es[..k]), es[k..])
  {
    assert es == es[..k] + es[k..];
    RunAppend(c, es[..k], es[k..]);
  }

  /** The fragments delivered by a prefix of the events, concatenated, are a prefix of all the fragments concatenated. */
  lemma DeliveredPrefix(es: seq<StreamEvent>, k: nat)
    requires k <= |es|
    ensures Concat(Delivered(es[..k])) <= Concat(Delivered(es))
  {
    var xs, ys := Delivered(es[..k]), Delivered(es[k..]);
    assert es == es[..k] + es[k..];
    DeliveredAppend(es[..k], es[k..]);
    if ErrorEvent in es[..k] {
      assert Delivered(es) == xs;
    } else {
      ConcatAppend(xs, ys);
    }
  }

  /** The fragments of `xs + ys`: those of `xs`, then those of `ys` unless `xs` already closed the stream. */
  lemma {:induction false} DeliveredAppend(xs: seq<StreamEvent>, ys: seq<StreamEvent>)
    ensures Delivered(xs + ys) == if ErrorEvent in xs then Delivered(xs) else Delivered(xs) + Delivered(ys)
    decreases |xs|
  {
    if xs == [] {
      assert xs + ys == ys;
    } else {
      assert (xs + ys)[1..] == xs[1..] + ys;
      assert xs == [xs[0]] + xs[1..];
      DeliveredAppend(xs[1..], ys);
    }
  }

  /** A blank input is rejected without any effect, whatever the stream later does. */
  lemma BlankSendIgnored(c: Chat, es: seq<StreamEvent>)
    requires IsBlank(c.input) && !c.streamOpen
    ensures Run(HandleSend(c), es) == c
  {
    RunClosed(c, es);
  }

  /**
   * The page's state as mutable fields, with one method per handler. The
   * two preconditions on Send are the caller's side of the design: the
   * text box and button are disabled while loading (lines 74, 79), and
   * one turn runs at a time.
   */
  class Page {
    var messages: seq<string>
    var input: string
    var loading: bool
    var response: string
    var newMessages: seq<string>
    var streamOpen: bool

    /** The fields as a value of the specification datatype. */
    function State(): Chat
      reads this
    {
      Chat(messages, input, loading, response, newMessages, streamOpen)
    }

    constructor ()
      ensures State() == Initial()
    {
      messages, input, loading := [], "", false;
      response, newMessages, streamOpen := "", [], false;
    }

    /** The text box's onChange; the box is disabled while loading. */
    method Edit(text: string)
      requires !loading
      modifies this
      ensures input == text
      ensures messages == old(messages) && loading == old(loading) && response == old(response)
      ensures newMessages == old(newMessages) && streamOpen == old(streamOpen)
      ensures State() == ChangeInput(old(State()), text)
    {
      input := text;
    }

    /** handleSend. */
    method Send()
      requires !loading && !streamOpen
      modifies this
      ensures IsBlank(old(input)) ==> State() == old(State())
      ensures !IsBlank(old(input)) ==>
        messages == old(messages) + [UserLine(old(input)), AssistantLine("")] &&
        newMessages == messages && input == "" && loading && response == "" && streamOpen
      ensures State() == HandleSend(old(State()))
    {
      if !IsBlank(input) {
        var turn := messages + [UserLine(input), AssistantLine("")];
        messages, input, loading := turn, "", true;
        response, newMessages, streamOpen := "", turn, true;
      }
    }

    /** onmessage: the browser dispatches only to an open EventSource. */
    method OnMessage(chunk: string)
      requires streamOpen
      modifies this
      ensures response == old(response) + chunk
      ensures messages == DropLast(old(newMessages)) + [AssistantLine(response)]
      ensures input == old(input) && loading == old(loading) && newMessages == old(newMessages) && streamOpen
      ensures State() == Deliver(old(State()), MessageEvent(chunk))
    {
      response := response + chunk;
      messages := DropLast(newMessages) + [AssistantLine(response)];
    }

    /** onerror: the source is closed and loading cleared; the transcript is kept. */
    method OnError()
      requires streamOpen
      modifies this
      ensures !loading && !streamOpen
      ensures messages == old(messages) && input == old(input) && response == old(response)
      ensures newMessages == old(newMessages)
      ensures State() == Deliver(old(State()), ErrorEvent)
    {
      streamOpen := false;
      loading := false;
    }

    /** onopen: loading is cleared; nothing else changes. */
    method OnOpen()
      requires streamOpen
      modifies this
      ensures !loading
      ensures messages == old(messages) && input == old(input) && response == old(response)
      ensures newMessages == old(newMessages) && streamOpen
      ensures State() == Deliver(old(State()), OpenEvent)
    {
      loading := false;
    }
  }
}
