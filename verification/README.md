# Slack Notifications — SlackBot dispatch core in Dafny

This project models the `SlackBot` class of the Slack Notifications WordPress plugin
(`classes/slack-bot.php`). The class sends a notification to one or more Slack channels
through an incoming webhook. It has three parts:

- **Channel resolution** (`parse_channel_names`). The raw `slack_channel_name` option
  becomes the ordered list of destination channels. Module `ChannelNames`, file `channels.dfy`.
- **Configuration and payloads** (`__construct`, and the payload arrays built in
  `send_message` / `send_post_message`). The bot name and icon get their defaults. Each
  payload is a structured `Payload` value with an optional attachment list. Module
  `SlackBot`, file `slackbot.dfy`.
- **Fan-out and aggregation** (the `foreach` loops with `$sendValid`, and
  `display_send_error`). Each resolved channel gets one request. The call succeeds only if
  no request errored, and on failure it writes `slack_notice_connectivity = 1` once. Module
  `Dispatch`, file `dispatch.dfy`.

`wrappers.dfy` holds the `Option` datatype the other modules share.

Inputs from outside the class are parameters:
- the four option strings (`Options`);
- `PLUGIN_ROOT_URL` (`pluginRootUrl`);
- `get_bloginfo('url')` and `get_bloginfo('name')` (`SiteInfo`);
- the outcome of each `wp_remote_post`. This is the oracle `isError(i, request)`: does the
  request of attempt `i` come back as a `WP_Error`?

A call returns the sequence of `update_option` writes it makes. `Dispatch.SendAndRecord` applies them to a map that stands for the option store.

Channel resolution follows the code as written. The guard `strpos(',', $channels_string)`
has its haystack and needle swapped, so it only holds when the channel string occurs inside
`","`. That means the string is `""` or `","` (`ChannelNames.StrPosInComma`). Every other
string is split on commas. Tokens are not trimmed. Empty tokens and duplicates are kept.
A single-token split returns the string itself.

Two consequences of the code are worth stating on their own:
- The swapped `strpos` guard is not dead code. `","` takes it and resolves to the single
  channel `","`, not to `["", ""]`.
- Duplicate channels are kept. The result is a list, not a set.

`strpos` is modelled with PHP 8 semantics: an empty needle is found at index 0. Under PHP 7
`strpos(',', '')` returns `false`, but `explode` then yields one token. So `""` resolves to
`[""]` under either version.

## Model

| member | source | states |
|---|---|---|
| ChannelNames.StrPos | classes/slack-bot.php:198 | the result is an index where the needle occurs, and no earlier index has an occurrence; None exactly when the needle occurs nowhere |
| ChannelNames.StrPosInComma | classes/slack-bot.php:198-200 | the swapped guard `strpos(',', s) !== false` holds exactly when s is "" or "," |
| ChannelNames.ParseChannelNames | classes/slack-bot.php:196-210 | never returns an empty list; joining the result with "," gives back the raw string; a string with no comma, or exactly ",", gives [s]; any other string gives its comma-split pieces, one more than its commas |
| ChannelNames.Explode | classes/slack-bot.php:202 | `explode(',', s)`: joining the pieces with "," gives back s exactly (order, spaces and empty pieces kept); no piece contains a comma; there is one piece more than s has commas |
| ChannelNames.PushCharPieces | classes/slack-bot.php:202 | one character step of `explode`: a comma adds a new empty piece and any other character extends the front piece; either way the pieces stay comma-free and join back to the string with that character in front |
| ChannelNames.ExplodeFreeSingleton | classes/slack-bot.php:202-205 | the split gives the single token [s] exactly when s has no comma |
| ChannelNames.JoinExplode | classes/slack-bot.php:202 | splitting the comma-join of a non-empty list of comma-free tokens gives the list back |
| ChannelNames.ParseJoin | classes/slack-bot.php:196-210 | resolving the comma-join of comma-free channel names gives the names back, for every non-empty list of comma-free names except ["", ""] |
| ChannelNames.ParseJoinCommaOnly | classes/slack-bot.php:198-199 | the exception: ["", ""] joins to ",", which resolves to the single channel "," |
| ChannelNames.ParseChannelNamesExamples | classes/slack-bot.php:196-210 | "" resolves to [""]; "#a,#b, c" resolves to ["#a", "#b", " c"], untrimmed; "#a,,#a" keeps the empty and the duplicate channel |
| SlackBot.NewBot | classes/slack-bot.php:60-67 | the endpoint is taken verbatim; the channels are exactly the resolved list of the channel option, which is non-empty and joins back to the option; bot name is "Slack Bot" and bot icon is root URL + "assets/images/default-bot-icon.png" exactly when the option is "", otherwise the option verbatim; both are never empty |
| SlackBot.NewBotIdempotent | classes/slack-bot.php:64-65 | constructing again from the resolved name and icon changes nothing: the defaults never stack |
| SlackBot.BuildPayload | classes/slack-bot.php:91-96 | channel, username and icon_url come from the channel and the bot; a plain message has no attachments and its text is the message followed by " @ *<url\|name>*"; a post message has the action as its text and exactly one attachment with fallback "title - author" and the post's author, title, link and summary |
| SlackBot.PayloadRoundTrip | classes/slack-bot.php:143-157 | reading the message back out of a built payload gives the original plain or post message |
| SlackBot.BuildPayloadInjective | classes/slack-bot.php:91-96 | two payloads for the same channel are equal exactly when their messages are equal |
| SlackBot.PostPayloadExample | classes/slack-bot.php:143-157 | the post "Published" about "Hello World" by Alice, to #news from bot "Bot" with icon "icon.png", yields the expected payload and attachment |
| Dispatch.Fanout | classes/slack-bot.php:80-115 | exactly one request per channel, in channel order, even after an earlier failure; the result is true exactly when no attempt errored; on success no option is written; on failure the connectivity flag is written exactly once |
| Dispatch.ExpectedSendsAt | classes/slack-bot.php:82-104 | the reference list of sends has one request per channel, the i-th for the i-th channel |
| Dispatch.AllDeliveredAt | classes/slack-bot.php:100-102 | the recursive reference verdict holds exactly when no attempt errored |
| Dispatch.FanoutMatchesReference | classes/slack-bot.php:80-115 | the loop's sends equal the reference list and its verdict equals the reference verdict; it writes one option exactly on failure |
| Dispatch.SendMessage | classes/slack-bot.php:78-117 | every channel gets a plain payload, under the form field `payload`, to the bot's endpoint with the fixed POST arguments and text msg + " @ *<url\|name>*"; true exactly when no attempt errored; the flag is written once on failure and not otherwise |
| Dispatch.SendPostMessage | classes/slack-bot.php:131-174 | every channel gets a payload, under the form field `payload`, whose text is the action verbatim and whose one attachment is ("title - author", author, title, url, summary); true exactly when no attempt errored; the flag is written once on failure and not otherwise |
| Dispatch.EarlyFailureStillFansOut | classes/slack-bot.php:82-104 | when the first attempt errors, the call still sends to every channel in order, returns false and writes the flag once |
| Dispatch.SendAndRecord | classes/slack-bot.php:181-185 | after a call, the option store is unchanged when every send succeeded; when one failed, `slack_notice_connectivity` is 1, no other option changes and no other option is added |

## Left out

- `wp_remote_post` and the HTTP exchange are network I/O. The outcome of each request is an input oracle. The fixed arguments (POST, timeout 30, HTTP/1.0, blocking, an empty header list) are kept only as the constant `PostArgs`, and the form field name as `PayloadField`.
- `wp_json_encode` is a foreign serialiser. Payloads are datatypes, and the JSON bytes are not modelled.
- `get_option` and `update_option` are WordPress persistence. Options come in as strings, and the flag write is returned as a list of writes, applied to a map standing for the option store.
- Non-string option values are not modelled. For example, `false` from an unset option passes the `=== ''` check and becomes the bot name. All options are modelled as strings.
- `get_bloginfo` and `PLUGIN_ROOT_URL` are outside context. They are opaque string parameters.
- The `! is_array($channels)` test is not modelled. `explode` with a non-empty delimiter always returns an array, so that test can never hold.
- The `class_exists` guard around the class declaration is not modelled. It only prevents the class from being declared twice.
- PHP strings are byte strings; the model uses Dafny strings of characters. Because `,` is a single ASCII byte, `strpos` and `explode` on a comma give the same result for every valid UTF-8 value, but byte sequences that are not valid UTF-8 cannot be represented.
