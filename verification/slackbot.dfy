/** The Slack bot's configuration and the webhook payloads it builds.

    The WordPress options the constructor reads, the site URL and name from
    `get_bloginfo` and the plugin's root URL are all passed in as strings.
    Payloads are structured values; their JSON encoding is not modelled. */
module SlackBot {
  import opened Wrappers
  import ChannelNames

  /** The bot name used when the `slack_bot_username` option is empty. */
  const DefaultBotName: string := "Slack Bot"

  /** The bundled icon, relative to the plugin's root URL, used when the
      `slack_bot_image` option is empty. */
  const DefaultIconPath: string := "assets/images/default-bot-icon.png"

  /** The raw option strings the constructor reads. */
  datatype Options = Options(
    webhookEndpoint: string,  // slack_webhook_endpoint
    channelName: string,      // slack_channel_name
    botUsername: string,      // slack_bot_username
    botImage: string          // slack_bot_image
  )

  /** The state of a constructed `SlackBot`. */
  datatype Bot = Bot(
    apiEndpoint: string,
    channels: seq<string>,
    botName: string,
    botIcon: string
  )

  /** The site URL and name that close every plain message. */
  datatype SiteInfo = SiteInfo(url: string, name: string)

  /** One attachment of a post announcement. */
  datatype Attachment = Attachment(
    fallback: string,
    authorName: string,
    title: string,
    titleLink: string,
    text: string
  )

  /** The webhook payload; `attachments` is None when the key is absent. */
  datatype Payload = Payload(
    channel: string,
    username: string,
    iconUrl: string,
    text: string,
    attachments: Option<seq<Attachment>>
  )

  /** The two kinds of notification: `send_message` and `send_post_message`. */
  datatype Message =
    | Plain(text: string)
    | Post(action: string, title: string, url: string, author: string, summary: string)

  /** The option value, or the default when the option is exactly "". */
  function OrDefault(value: string, default: string): string
  {
    if value == "" then default else value
  }

  /** `__construct`: reads the options once and resolves the defaults. */
  function NewBot(opts: Options, pluginRootUrl: string): (b: Bot)
    ensures b.apiEndpoint == opts.webhookEndpoint
    ensures b.channels == ChannelNames.ParseChannelNames(opts.channelName)
    ensures |b.channels| >= 1 && ChannelNames.Join(b.channels) == opts.channelName
    ensures opts.botUsername == "" ==> b.botName == DefaultBotName
    ensures opts.botUsername != "" ==> b.botName == opts.botUsername
    ensures opts.botImage == "" ==> b.botIcon == pluginRootUrl + DefaultIconPath
    ensures opts.botImage != "" ==> b.botIcon == opts.botImage
    ensures b.botName != "" && b.botIcon != ""
  {
    Bot(
      opts.webhookEndpoint,
      ChannelNames.ParseChannelNames(opts.channelName),
      OrDefault(opts.botUsername, DefaultBotName),
      OrDefault(opts.botImage, pluginRootUrl + DefaultIconPath)
    )
  }

  /** The bot's resolved settings are fixed points of the defaulting: reading
      them back as options and constructing again changes nothing, so the
      defaults are applied once and never stack. */
  lemma NewBotIdempotent(opts: Options, pluginRootUrl: string)
    ensures var b := NewBot(opts, pluginRootUrl);
      NewBot(Options(b.apiEndpoint, opts.channelName, b.botName, b.botIcon), pluginRootUrl) == b
  {
  }

  /** The suffix `send_message` appends: " @ *<url|name>*". */
  function SiteSuffix(site: SiteInfo): string
  {
    " @ *<" + site.url + "|" + site.name + ">*"
  }

  /** The attachment of a post announcement. */
  function PostAttachment(title: string, url: string, author: string, summary: string): Attachment
  {
    Attachment(title + " - " + author, author, title, url, summary)
  }

  /** The payload sent to one channel. */
  function BuildPayload(bot: Bot, site: SiteInfo, msg: Message, channel: string): (p: Payload)
    ensures p.channel == channel && p.username == bot.botName && p.iconUrl == bot.botIcon
    ensures msg.Plain? <==> p.attachments.None?
    ensures msg.Plain? ==> |msg.text| <= |p.text| && p.text[..|msg.text|] == msg.text && p.text[|msg.text|..] == SiteSuffix(site)
    ensures msg.Post? ==> p.text == msg.action && p.attachments.Some? && |p.attachments.value| == 1
    ensures msg.Post? ==> var a := p.attachments.value[0];
      a.fallback == a.title + " - " + a.authorName && a.title == msg.title && a.authorName == msg.author
      && a.titleLink == msg.url && a.text == msg.summary
  {
    match msg
    case Plain(text) =>
      var t := text + SiteSuffix(site);
      assert t[..|text|] == text && t[|text|..] == SiteSuffix(site);
      Payload(channel, bot.botName, bot.botIcon, t, None)
    case Post(action, title, url, author, summary) =>
      Payload(channel, bot.botName, bot.botIcon, action, Some([PostAttachment(title, url, author, summary)]))
  }

  /** Reads the message back out of a payload: strips the site suffix from a
      plain payload, or collects the fields of a post announcement's single
      attachment. None when the payload has neither shape. */
  function MessageOf(p: Payload, site: SiteInfo): (m: Option<Message>)
    ensures m.Some? && m.value.Plain? ==> p.text == m.value.text + SiteSuffix(site)
    ensures m.Some? && m.value.Post? ==> p.text == m.value.action
  {
    var suffix := SiteSuffix(site);
    match p.attachments
    case None =>
      if |suffix| <= |p.text| && p.text[|p.text| - |suffix|..] == suffix then
        var text := p.text[..|p.text| - |suffix|];
        assert p.text == text + suffix;
        Some(Plain(text))
      else None
    case Some(atts) =>
      if |atts| == 1 then
        var a := atts[0];
        Some(Post(p.text, a.title, a.titleLink, a.authorName, a.text))
      else None
  }

  /** The payload carries the whole message: reading it back gives the message
      that was built into it, for either kind. */
  lemma PayloadRoundTrip(bot: Bot, site: SiteInfo, msg: Message, channel: string)
    ensures MessageOf(BuildPayload(bot, site, msg, channel), site) == Some(msg)
  {
    var p := BuildPayload(bot, site, msg, channel);
    if msg.Plain? {
      var suffix := SiteSuffix(site);
      assert p.text == msg.text + suffix;
      assert p.text[|p.text| - |suffix|..] == suffix;
      assert p.text[..|p.text| - |suffix|] == msg.text;
    }
  }

  /** Two payloads for the same channel and bot are equal exactly when they
      carry the same message: building a payload loses nothing and confuses
      no two messages. */
  lemma BuildPayloadInjective(bot: Bot, site: SiteInfo, m1: Message, m2: Message, channel: string)
    ensures BuildPayload(bot, site, m1, channel) == BuildPayload(bot, site, m2, channel) <==> m1 == m2
  {
    if BuildPayload(bot, site, m1, channel) == BuildPayload(bot, site, m2, channel) {
      PayloadRoundTrip(bot, site, m1, channel);
      PayloadRoundTrip(bot, site, m2, channel);
    }
  }

  /** A post announcement to #news from a bot named "Bot" with icon
      "icon.png": "Published" about "Hello World" by Alice. */
  lemma PostPayloadExample(site: SiteInfo)
    ensures BuildPayload(Bot("https://hooks", ["#news"], "Bot", "icon.png"), site,
                         Post("Published", "Hello World", "https://x/1", "Alice", "A summary"), "#news")
         == Payload("#news", "Bot", "icon.png", "Published",
                    Some([Attachment("Hello World - Alice", "Alice", "Hello World", "https://x/1", "A summary")]))
  {
    assert "Hello World" + " - " + "Alice" == "Hello World - Alice";
  }
}
