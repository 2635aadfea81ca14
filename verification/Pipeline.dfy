/**
 The two views of a message put together: `Broadcast` weighs a message by its truth value and
 the octets of its two serialisations, and `MessageSize` says what these are for a JSON value.
 */
module Pipeline {
  import opened Basics
  import opened Delivery
  import opened Broadcast
  import J = JsonText
  import S = MessageSize

  function EnvelopeText(u: User, m: J.Json, source: string): J.Text {
    J.Dumps(S.Envelope(J.Codes(u), m, J.Codes(source)), true)
  }

  // What the sender checks and what the receivers send.
  function MessageOf(u: User, m: J.Json, source: string): Message {
    Message(S.Truthy(m), J.Utf8Size(EnvelopeText(u, m, source)), J.Utf8Size(J.Dumps(J.Joined(m), false)))
  }

  // A message whose envelope the sender accepts is within every receiver's limit, and a
  // receiver sends its text if it is not empty and no text in it holds a lone surrogate.
  lemma AcceptedIsDeliverable(u: User, m: J.Json, source: string)
    requires J.ValidJson(m) && u != "" && MessageOf(u, m, source).envelopeBytes <= MESSAGE_MAX_BYTES
    ensures Deliverable(MessageOf(u, m, source)) <==> S.Truthy(m)
    ensures S.Truthy(m) && S.PairedValue(m) ==>
              S.Receive(EnvelopeText(u, m, source)) == Some(S.Rendered(J.Dumps(J.Joined(m), false)))
  {
    var v := S.Envelope(J.Codes(u), m, J.Codes(source));
    assert S.DumpsDeliveryLimited(v).Rendered? by { S.SenderAgreement(J.Codes(u), m, J.Codes(source)); }
    S.SizeAgreement(J.Codes(u), m, J.Codes(source));
    S.EnvelopeIsValid(J.Codes(u), m, J.Codes(source));
    J.DumpsSizes(v);
    J.AsciiSize(J.Dumps(v, true));
    S.MessageFitsInEnvelope(J.Codes(u), m, J.Codes(source));
  }

  // So for every message the sender accepts and receivers can encode, sent with routes in
  // sync, the size checks drop nothing: each working socket of the user gets it exactly once.
  lemma AcceptedExactlyOnce(
    managers: Managers, before: map<Instance, Before>, members: set<Instance>, live: set<(Instance, User)>,
    hub: set<Instance>, healthy: set<Socket>, u: User, m: J.Json, source: string, sender: Instance)
    requires J.ValidJson(m) && S.Truthy(m) && S.PairedValue(m)
    requires u != "" && MessageOf(u, m, source).envelopeBytes <= MESSAGE_MAX_BYTES
    requires before.Keys == managers.Keys && InSync(before, members, live, hub, u) && |members| <= ROUTE_SCAN_LIMIT
    requires Handled(managers, before, Receivers(Reached(members, live, hub, u), sender), u, MessageOf(u, m, source), healthy)
    ensures forall i :: i in managers ==>
              managers[i].sent == before[i].sent + multiset(Received(before[i].connections, u, healthy))
  {
    AcceptedIsDeliverable(u, m, source);
    ExactlyOnceWhenInSync(managers, before, members, live, hub, healthy, u, MessageOf(u, m, source), sender);
  }
}
