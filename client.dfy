/**
 * `HalClient` and `SimpleClient` of src/client.rs as classes whose methods
 * update their fields in place, each proved to perform the transition that
 * module `ClientSpec` defines for it.
 *
 * A `Sender<Response>` is a `Channel` object: delivering a response appends it
 * to the channel's inbox, and the facade's `recv` reads that inbox.
 */
module Client {
  import opened Messages
  import opened ClientSpec

  /** The one-shot channel behind a listener */
  class Channel {
    var inbox: seq<Response>

    constructor ()
      ensures inbox == []
    {
      inbox := [];
    }

    /** `listener.send(response)` */
    method Deliver(response: Response)
      modifies this
      ensures inbox == old(inbox) + [response]
    {
      inbox := inbox + [response];
    }
  }

  /** Every channel in `chans` received exactly what `delivery` hands it since the old state */
  twostate predicate InboxesAfter(chans: set<Channel>, new delivery: Option<(Channel, Response)>)
    reads chans
  {
    forall ch :: ch in chans ==> ch.inbox == old(ch.inbox) + DeliveredTo(delivery, ch)
  }

  /** What connecting to the daemon's socket yields: the frames the stream will carry, or a refusal */
  datatype ConnectAttempt = Accepted(incoming: seq<Frame>) | Refused

  class HalClient {
    var reqId: nat
    var listeners: map<nat, Channel>
    var incoming: seq<Frame>
    var outgoing: seq<ToDaemon>

    function State(): ClientState<Channel>
      reads this
    {
      ClientState(reqId, listeners, incoming, outgoing)
    }

    ghost predicate Valid()
      reads this
    {
      Inv(State())
    }

    constructor Open(incoming: seq<Frame>)
      ensures Valid() && State() == Connected(incoming)
    {
      reqId := 0;
      listeners := map[];
      this.incoming := incoming;
      outgoing := [];
    }

    /** `connect`: a client around the new stream, or the connection error */
    static method Connect(attempt: ConnectAttempt) returns (r: Result<HalClient, IoError>)
      ensures r.Ok? <==> attempt.Accepted?
      ensures r.Err? ==> r.error == ConnectionRefused
      ensures r.Ok? ==> fresh(r.value) && r.value.Valid() && r.value.State() == Connected(attempt.incoming)
    {
      if attempt.Accepted? {
        var client := new HalClient.Open(attempt.incoming);
        r := Ok(client);
      } else {
        r := Err(ConnectionRefused);
      }
    }

    /** `send`: its outcome and the new state are those of `ClientSpec.Send` */
    method Send(request: Request, sender: Channel, write: WriteOutcome) returns (r: Outcome<IoError>)
      requires Valid()
      modifies this
      ensures Valid()
      ensures var step := ClientSpec.Send(old(State()), request, sender, write);
              State() == step.state && r == step.outcome
    {
      var id := reqId;
      reqId := reqId + 1;
      var message := ToDaemon(id, request);
      listeners := listeners[id := sender];
      if write == WriteFailed {
        return Fail(SerializeFailed);
      }
      outgoing := outgoing + [message];
      return Pass;
    }

    /**
     * `get_next_message`: its outcome and the new state are those of
     * `ClientSpec.GetNextMessage`, and the response reaches exactly the
     * listener it names.
     */
    method GetNextMessage() returns (r: Outcome<HalError>)
      requires Valid()
      modifies this, listeners.Values
      ensures Valid()
      ensures var step := ClientSpec.GetNextMessage(old(State()));
              State() == step.state && r == step.outcome &&
              InboxesAfter(old(listeners.Values), step.delivery)
    {
      if incoming == [] {
        return Fail(StreamError);
      }
      var frame := incoming[0];
      incoming := incoming[1..];
      if frame == DecodeFailure {
        return Fail(StreamError);
      }
      var message := frame.message;
      if message.id !in listeners {
        return Fail(NoListener);
      }
      var listener := listeners[message.id];
      listeners := listeners - {message.id};
      listener.Deliver(message.response);
      return Pass;
    }
  }

  /** The blocking client: one send and one pump per call, every failure absorbed */
  class SimpleClient {
    var client: HalClient

    ghost predicate Valid()
      reads this, client
    {
      client.Valid()
    }

    constructor Wrap(client: HalClient)
      requires client.Valid()
      ensures this.client == client && Valid()
    {
      this.client := client;
    }

    /** `new`: a blocking client over a connected `HalClient`, or none */
    static method New(attempt: ConnectAttempt) returns (r: Option<SimpleClient>)
      ensures r.Some? <==> attempt.Accepted?
      ensures r.Some? ==> fresh(r.value) && fresh(r.value.client) && r.value.Valid() &&
                          r.value.client.State() == Connected(attempt.incoming)
    {
      var connected := HalClient.Connect(attempt);
      if connected.Ok? {
        var simple := new SimpleClient.Wrap(connected.value);
        r := Some(simple);
      } else {
        r := None;
      }
    }

    /** `receiver.recv()` on the caller's channel */
    function Receive(own: Channel): (r: RecvOutcome)
      reads this, client, own
      ensures r.Received? <==> own.inbox != []
      ensures r.Received? ==> r.response == own.inbox[0]
      ensures r.Blocked? <==> own.inbox == [] && own in client.listeners.Values
    {
      if own.inbox != [] then Received(own.inbox[0])
      else if own in client.listeners.Values then Blocked
      else Disconnected
    }

    /**
     * The round trip every facade call makes: a fresh channel, `send` with its
     * error discarded, one pump, and `recv` only if the pump succeeded. It
     * performs `ClientSpec.Call` with the fresh channel as the caller's sink.
     */
    method Exchange(request: Request, write: WriteOutcome) returns (received: Option<RecvOutcome>, ghost own: Channel)
      requires Valid()
      modifies client, client.listeners.Values
      ensures Valid() && fresh(own)
      ensures var call := Call(old(client.State()), request, own, write);
              && client.State() == call.state
              && received == call.received
              && InboxesAfter(old(client.listeners.Values), call.delivery)
              && own.inbox == DeliveredTo(call.delivery, own)
              && Receive(own) == Recv(own, call.delivery, call.state.listeners)
    {
      var channel := new Channel();
      own := channel;
      ghost var before := client.State();
      ghost var sent := ClientSpec.Send(before, request, channel, write);
      var sendResult := client.Send(request, channel, write);
      assert channel !in before.listeners.Values;
      var pumped := client.GetNextMessage();
      ghost var step := ClientSpec.GetNextMessage(sent.state);
      assert channel.inbox == DeliveredTo(step.delivery, channel);
      if pumped.Pass? {
        received := Some(Receive(channel));
      } else {
        received := None;
      }
    }

    /** `set_screen_brightness` */
    method SetScreenBrightness(level: uint8, write: WriteOutcome) returns (r: Reply<()>, ghost own: Channel)
      requires Valid()
      modifies client, client.listeners.Values
      ensures Valid() && fresh(own)
      ensures var call := Call(old(client.State()), SetBrightness(level), own, write);
              && client.State() == call.state
              && r == UnitReply(call.received)
              && InboxesAfter(old(client.listeners.Values), call.delivery)
    {
      var received;
      received, own := Exchange(SetBrightness(level), write);
      r := UnitReply(received);
    }

    /** `get_screen_brightness` */
    method GetScreenBrightness(write: WriteOutcome) returns (r: Reply<uint8>, ghost own: Channel)
      requires Valid()
      modifies client, client.listeners.Values
      ensures Valid() && fresh(own)
      ensures var call := Call(old(client.State()), GetBrightness, own, write);
              && client.State() == call.state
              && r == Brightness(call.received)
              && InboxesAfter(old(client.listeners.Values), call.delivery)
    {
      var received;
      received, own := Exchange(GetBrightness, write);
      r := Brightness(received);
    }

    /** `enable_screen` */
    method EnableScreen(screen: uint8, write: WriteOutcome) returns (r: Reply<()>, ghost own: Channel)
      requires Valid()
      modifies client, client.listeners.Values
      ensures Valid() && fresh(own)
      ensures var call := Call(old(client.State()), Request.EnableScreen(screen), own, write);
              && client.State() == call.state
              && r == UnitReply(call.received)
              && InboxesAfter(old(client.listeners.Values), call.delivery)
    {
      var received;
      received, own := Exchange(Request.EnableScreen(screen), write);
      r := UnitReply(received);
    }

    /** `disable_screen` */
    method DisableScreen(screen: uint8, write: WriteOutcome) returns (r: Reply<()>, ghost own: Channel)
      requires Valid()
      modifies client, client.listeners.Values
      ensures Valid() && fresh(own)
      ensures var call := Call(old(client.State()), Request.DisableScreen(screen), own, write);
              && client.State() == call.state
              && r == UnitReply(call.received)
              && InboxesAfter(old(client.listeners.Values), call.delivery)
    {
      var received;
      received, own := Exchange(Request.DisableScreen(screen), write);
      r := UnitReply(received);
    }

    /** `reboot` */
    method Reboot(write: WriteOutcome) returns (r: Reply<()>, ghost own: Channel)
      requires Valid()
      modifies client, client.listeners.Values
      ensures Valid() && fresh(own)
      ensures var call := Call(old(client.State()), Request.Reboot, own, write);
              && client.State() == call.state
              && r == UnitReply(call.received)
              && InboxesAfter(old(client.listeners.Values), call.delivery)
    {
      var received;
      received, own := Exchange(Request.Reboot, write);
      r := UnitReply(received);
    }

    /** `poweroff` */
    method PowerOff(write: WriteOutcome) returns (r: Reply<()>, ghost own: Channel)
      requires Valid()
      modifies client, client.listeners.Values
      ensures Valid() && fresh(own)
      ensures var call := Call(old(client.State()), Request.PowerOff, own, write);
              && client.State() == call.state
              && r == UnitReply(call.received)
              && InboxesAfter(old(client.listeners.Values), call.delivery)
    {
      var received;
      received, own := Exchange(Request.PowerOff, write);
      r := UnitReply(received);
    }
  }

  /** A connected client whose daemon answers the first request, id 0, with brightness 77 */
  method BrightnessRoundTrip() returns (r: Reply<uint8>)
    ensures r == Returns(77)
  {
    var attempt := Accepted([Decoded(FromDaemon(0, GetBrightnessSuccess(77)))]);
    var maybe := SimpleClient.New(attempt);
    if maybe.Some? {
      var simple := maybe.value;
      ghost var own: Channel;
      r, own := simple.GetScreenBrightness(Written);
    } else {
      assert false;
    }
  }
}
