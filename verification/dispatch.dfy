/** Fan-out and aggregation: `send_message` and `send_post_message` post one
    webhook request per resolved channel, in order, never stopping early, and
    report success only when no request errored. On failure they write the
    connectivity notice option once (`display_send_error`).

    `wp_remote_post` is not modelled: whether the request of attempt `i`
    errors is an input, the oracle `isError(i, request)`. The option store is
    modelled by the sequence of writes a call makes. */
module Dispatch {
  import opened Wrappers
  import opened SlackBot

  /** The fixed `wp_remote_post` arguments every request carries. */
  datatype HttpArgs = HttpArgs(
    httpMethod: string,
    timeout: nat,
    httpVersion: string,
    blocking: bool,
    headers: seq<(string, string)>
  )

  const PostArgs: HttpArgs := HttpArgs("POST", 30, "1.0", true, [])

  /** The form field of the request body that carries the encoded payload. */
  const PayloadField: string := "payload"

  /** One webhook request: endpoint, fixed arguments, and the payload under
      its form field. */
  datatype Request = Request(endpoint: string, args: HttpArgs, field: string, payload: Payload)

  /** One `update_option(name, value)` call. */
  datatype OptionWrite = OptionWrite(name: string, value: int)

  /** The option that makes the plugin show its connectivity notice. */
  const ConnectivityNotice: string := "slack_notice_connectivity"

  /** The one option write `display_send_error` makes. */
  const SendErrorWrite: OptionWrite := OptionWrite(ConnectivityNotice, 1)

  /** The option store after the writes, applied in order. */
  function ApplyWrites(store: map<string, int>, writes: seq<OptionWrite>): map<string, int>
    decreases |writes|
  {
    if |writes| == 0 then store
    else ApplyWrites(store[writes[0].name := writes[0].value], writes[1..])
  }

  /** The request for channel `channel`. */
  function RequestFor(bot: Bot, site: SiteInfo, msg: Message, channel: string): Request
  {
    Request(bot.apiEndpoint, PostArgs, PayloadField, BuildPayload(bot, site, msg, channel))
  }

  /** Reference definition of a call's sends: one request per channel, in
      channel order. */
  function ExpectedSends(bot: Bot, site: SiteInfo, msg: Message, channels: seq<string>): seq<Request>
  {
    if |channels| == 0 then []
    else [RequestFor(bot, site, msg, channels[0])] + ExpectedSends(bot, site, msg, channels[1..])
  }

  /** Reference definition of the verdict: no request from attempt `from` on
      errored. */
  predicate AllDelivered(sent: seq<Request>, isError: (nat, Request) -> bool, from: nat)
    decreases |sent|
  {
    |sent| == 0 || (!isError(from, sent[0]) && AllDelivered(sent[1..], isError, from + 1))
  }

  /** The sends of one call, element by element. */
  lemma {:induction false} ExpectedSendsAt(bot: Bot, site: SiteInfo, msg: Message, channels: seq<string>)
    ensures |ExpectedSends(bot, site, msg, channels)| == |channels|
    ensures forall i :: 0 <= i < |channels| ==>
      ExpectedSends(bot, site, msg, channels)[i] == RequestFor(bot, site, msg, channels[i])
    decreases |channels|
  {
    if |channels| > 0 {
      ExpectedSendsAt(bot, site, msg, channels[1..]);
    }
  }

  /** The verdict is the absence of any errored attempt. */
  lemma {:induction false} AllDeliveredAt(sent: seq<Request>, isError: (nat, Request) -> bool, from: nat)
    ensures AllDelivered(sent, isError, from) <==>
      forall i :: 0 <= i < |sent| ==> !isError(from + i, sent[i])
    decreases |sent|
  {
    if |sent| > 0 {
      AllDeliveredAt(sent[1..], isError, from + 1);
      if forall i :: 0 <= i < |sent| ==> !isError(from + i, sent[i]) {
        forall i | 0 <= i < |sent[1..]|
          ensures !isError(from + 1 + i, sent[1..][i])
        {
          assert sent[1..][i] == sent[i + 1];
        }
      }
      if AllDelivered(sent, isError, from) {
        forall i | 0 <= i < |sent|
          ensures !isError(from + i, sent[i])
        {
          if i > 0 {
            assert sent[i] == sent[1..][i - 1];
          }
        }
      }
    }
  }

  /** The loop shared by `send_message` and `send_post_message`. */
  method Fanout(bot: Bot, site: SiteInfo, msg: Message, isError: (nat, Request) -> bool)
    returns (ok: bool, sent: seq<Request>, writes: seq<OptionWrite>)
    ensures |sent| == |bot.channels|
    ensures forall i :: 0 <= i < |sent| ==> sent[i] == RequestFor(bot, site, msg, bot.channels[i])
    ensures ok <==> forall i :: 0 <= i < |sent| ==> !isError(i, sent[i])
    ensures ok ==> writes == []
    ensures !ok ==> writes == [SendErrorWrite]
  {
    var sendValid := true;
    sent := [];
    var i := 0;
    while i < |bot.channels|
      invariant 0 <= i <= |bot.channels|
      invariant |sent| == i
      invariant forall j :: 0 <= j < i ==> sent[j] == RequestFor(bot, site, msg, bot.channels[j])
      invariant sendValid <==> forall j :: 0 <= j < i ==> !isError(j, sent[j])
    {
      var request := RequestFor(bot, site, msg, bot.channels[i]);
      if isError(i, request) {
        sendValid := false;
      }
      sent := sent + [request];
      i := i + 1;
    }
    if !sendValid {
      writes := [SendErrorWrite];
      ok := false;
      return;
    }
    writes := [];
    ok := true;
  }

  /** The fan-out agrees with the reference definitions: its sends are the
      expected ones and its verdict is `AllDelivered`. */
  method FanoutMatchesReference(bot: Bot, site: SiteInfo, msg: Message, isError: (nat, Request) -> bool)
    returns (ok: bool, sent: seq<Request>, writes: seq<OptionWrite>)
    ensures sent == ExpectedSends(bot, site, msg, bot.channels)
    ensures ok == AllDelivered(sent, isError, 0)
    ensures |writes| == (if ok then 0 else 1)
  {
    ok, sent, writes := Fanout(bot, site, msg, isError);
    ExpectedSendsAt(bot, site, msg, bot.channels);
    AllDeliveredAt(sent, isError, 0);
  }

  /** `send_message`: a plain message to every channel. */
  method SendMessage(bot: Bot, site: SiteInfo, theMessage: string, isError: (nat, Request) -> bool)
    returns (ok: bool, sent: seq<Request>, writes: seq<OptionWrite>)
    ensures |sent| == |bot.channels|
    ensures forall i :: 0 <= i < |sent| ==>
      && sent[i].endpoint == bot.apiEndpoint && sent[i].args == PostArgs && sent[i].field == PayloadField
      && sent[i].payload.channel == bot.channels[i]
      && sent[i].payload.username == bot.botName && sent[i].payload.iconUrl == bot.botIcon
      && sent[i].payload.text == theMessage + SiteSuffix(site)
      && sent[i].payload.attachments.None?
    ensures ok <==> forall i :: 0 <= i < |sent| ==> !isError(i, sent[i])
    ensures ok ==> writes == []
    ensures !ok ==> writes == [OptionWrite(ConnectivityNotice, 1)]
  {
    ok, sent, writes := Fanout(bot, site, Plain(theMessage), isError);
  }

  /** `send_post_message`: a post announcement to every channel. */
  method SendPostMessage(bot: Bot, site: SiteInfo, action: string, title: string, url: string,
                         author: string, summary: string, isError: (nat, Request) -> bool)
    returns (ok: bool, sent: seq<Request>, writes: seq<OptionWrite>)
    ensures |sent| == |bot.channels|
    ensures forall i :: 0 <= i < |sent| ==>
      && sent[i].endpoint == bot.apiEndpoint && sent[i].args == PostArgs && sent[i].field == PayloadField
      && sent[i].payload.channel == bot.channels[i]
      && sent[i].payload.username == bot.botName && sent[i].payload.iconUrl == bot.botIcon
      && sent[i].payload.text == action
      && sent[i].payload.attachments == Some([Attachment(title + " - " + author, author, title, url, summary)])
    ensures ok <==> forall i :: 0 <= i < |sent| ==> !isError(i, sent[i])
    ensures ok ==> writes == []
    ensures !ok ==> writes == [OptionWrite(ConnectivityNotice, 1)]
  {
    ok, sent, writes := Fanout(bot, site, Post(action, title, url, author, summary), isError);
  }

  /** A failure does not cut the fan-out short: when the first attempt errors,
      every later channel still gets its request, and the call fails. */
  method EarlyFailureStillFansOut(bot: Bot, site: SiteInfo, msg: Message, isError: (nat, Request) -> bool)
    returns (ok: bool, sent: seq<Request>, writes: seq<OptionWrite>)
    requires |bot.channels| >= 1
    requires isError(0, RequestFor(bot, site, msg, bot.channels[0]))
    ensures !ok && writes == [SendErrorWrite]
    ensures |sent| == |bot.channels|
    ensures forall i :: 0 <= i < |sent| ==> sent[i].payload.channel == bot.channels[i]
  {
    ok, sent, writes := Fanout(bot, site, msg, isError);
  }

  /** A call's effect on the option store (`display_send_error`): on failure
      `slack_notice_connectivity` becomes 1 and no other option changes; on
      success the store is left exactly as it was. */
  method SendAndRecord(bot: Bot, site: SiteInfo, msg: Message, isError: (nat, Request) -> bool,
                       store: map<string, int>)
    returns (ok: bool, sent: seq<Request>, store': map<string, int>)
    ensures |sent| == |bot.channels|
    ensures ok <==> forall i :: 0 <= i < |sent| ==> !isError(i, sent[i])
    ensures ok ==> store' == store
    ensures !ok ==> ConnectivityNotice in store' && store'[ConnectivityNotice] == 1
    ensures !ok ==> store'.Keys == store.Keys + {ConnectivityNotice}
    ensures !ok ==> forall k :: k in store && k != ConnectivityNotice ==> store'[k] == store[k]
  {
    var writes;
    ok, sent, writes := Fanout(bot, site, msg, isError);
    store' := ApplyWrites(store, writes);
    if !ok {
      var flagged := store[ConnectivityNotice := 1];
      assert writes[0] == OptionWrite(ConnectivityNotice, 1);
      assert writes[1..] == [];
      assert ApplyWrites(flagged, []) == flagged;
      assert store' == flagged;
    }
  }
}
