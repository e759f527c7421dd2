/** Push notifications through Firebase Cloud Messaging: one message to one
    device, or the same message to many devices with the per-device
    outcome. How the messaging service answers is an input. */
module Fcm {
  import opened Js

  datatype Notification = Notification(title: string, body: string)

  /** A single-device message. */
  datatype Message = Message(notification: Notification, token: string)

  /** A message for several devices. */
  datatype MulticastMessage = MulticastMessage(notification: Notification, tokens: seq<string>)

  /** What `sendFcmNotification` did: the message it handed to the service,
      if any, and the boolean it resolved to. */
  datatype SingleSend = SingleSend(sent: Option<Message>, success: bool)

  /** `sendFcmNotification(fcmToken, title, body)`; `sendCompletes` is whether
      the service's `send` resolved rather than threw. */
  function SendFcmNotification(fcmToken: string, title: string, body: string, sendCompletes: bool): (r: SingleSend)
    ensures fcmToken == "" ==> r == SingleSend(None, false)
    ensures fcmToken != "" ==> r.sent == Some(Message(Notification(title, body), fcmToken))
    ensures r.success <==> fcmToken != "" && sendCompletes
  {
    if fcmToken == "" then SingleSend(None, false)
    else
      var message := Message(Notification(title, body), fcmToken);
      SingleSend(Some(message), sendCompletes)
  }

  /** The service's answer to a multicast: one success flag per token, in
      token order. */
  datatype BatchResponse = BatchResponse(responses: seq<bool>)

  function FailureCount(responses: seq<bool>): (n: nat)
    ensures n <= |responses|
  {
    if responses == [] then 0
    else FailureCount(responses[..|responses| - 1]) + (if responses[|responses| - 1] then 0 else 1)
  }

  /** The tokens whose response failed, in token order. */
  function FailedTokens(tokens: seq<string>, responses: seq<bool>): seq<string>
    requires |responses| == |tokens|
  {
    if tokens == [] then []
    else
      var n := |tokens| - 1;
      FailedTokens(tokens[..n], responses[..n]) + (if responses[n] then [] else [tokens[n]])
  }

  /** The failed tokens are exactly the tokens at failed positions, as many
      as there are failures, and none when every send succeeded. */
  lemma {:induction false} FailedTokensExact(tokens: seq<string>, responses: seq<bool>)
    requires |responses| == |tokens|
    ensures |FailedTokens(tokens, responses)| == FailureCount(responses)
    ensures forall t :: t in FailedTokens(tokens, responses) <==>
      exists i :: 0 <= i < |tokens| && !responses[i] && tokens[i] == t
  {
    if tokens != [] {
      var n := |tokens| - 1;
      FailedTokensExact(tokens[..n], responses[..n]);
      assert forall i :: 0 <= i < n ==> responses[..n][i] == responses[i] && tokens[..n][i] == tokens[i];
    }
  }

  /** What `sendMulticastFcmNotification` did: the message it handed to the
      service, if any, the response it resolved to (None for `null`) and
      the failed tokens it reported. */
  datatype MulticastSend = MulticastSend(sent: Option<MulticastMessage>, response: Option<BatchResponse>,
                                         failedTokens: seq<string>)

  /** `sendMulticastFcmNotification(fcmTokens, title, body)`; `answer` is the
      service's response, or None when the call threw. The service answers
      with one response per token. */
  method SendMulticastFcmNotification(fcmTokens: Option<seq<string>>, title: string, body: string,
                                      answer: Option<BatchResponse>)
    returns (r: MulticastSend)
    requires fcmTokens.Some? && answer.Some? ==> |answer.value.responses| == |fcmTokens.value|
    ensures fcmTokens.None? || fcmTokens.value == [] ==> r == MulticastSend(None, None, [])
    ensures fcmTokens.Some? && fcmTokens.value != [] ==>
      r.sent == Some(MulticastMessage(Notification(title, body), fcmTokens.value)) && r.response == answer
    ensures r.response.Some? ==> r.failedTokens == FailedTokens(fcmTokens.value, r.response.value.responses)
    ensures r.response.None? ==> r.failedTokens == []
  {
    if fcmTokens.None? || |fcmTokens.value| == 0 {
      return MulticastSend(None, None, []);
    }
    var tokens := fcmTokens.value;
    var message := MulticastMessage(Notification(title, body), tokens);
    if answer.None? {
      return MulticastSend(Some(message), None, []);
    }
    var responses := answer.value.responses;
    var failedTokens: seq<string> := [];
    if FailureCount(responses) > 0 {
      var idx := 0;
      while idx < |responses|
        invariant idx <= |responses|
        invariant failedTokens == FailedTokens(tokens[..idx], responses[..idx])
      {
        assert tokens[..idx + 1][..idx] == tokens[..idx];
        assert responses[..idx + 1][..idx] == responses[..idx];
        if !responses[idx] {
          failedTokens := failedTokens + [tokens[idx]];
        }
        idx := idx + 1;
      }
      assert tokens[..idx] == tokens && responses[..idx] == responses;
    } else {
      FailedTokensExact(tokens, responses);
    }
    r := MulticastSend(Some(message), answer, failedTokens);
  }
}
