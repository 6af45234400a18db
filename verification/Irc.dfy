/**
 Chat lines: the parser of core/irc.py and the printer of scripts/simulate_stream.py, in the message
 format of section 2.3.1 of RFC 1459 with Twitch's tags in front. Times are milliseconds.
 */
module Irc {
  import opened Wrappers
  import opened Text

  type Dict = map<string, string>

  // The time a message is given: the one in its tags, or the clock's when the tag is not a number.
  datatype SentAt = At(ms: nat) | Now

  datatype ParsedChat = ParsedChat(
    messageId: Option<string>,
    authorId: string,
    authorLogin: string,
    badges: Dict,
    emotes: map<string, seq<string>>,
    text: string,
    sentAt: SentAt)

  function Lookup(d: Dict, k: string): string {
    if k in d then d[k] else ""
  }

  // ----- what the parsers compute --------------------------------------------------------

  // A dict filled from `key sep value` items, later keys overriding earlier ones.
  function Pairs(items: seq<string>, sep: string): Dict
    requires sep != ""
  {
    if items == [] then map[]
    else
      var (k, v) := Partition(items[|items| - 1], sep);
      Pairs(items[..|items| - 1], sep)[k := v]
  }

  function Positions(raw: string): seq<string> {
    if raw == "" then [] else Split(raw, ',')
  }

  function EmotePairs(items: seq<string>): map<string, seq<string>> {
    if items == [] then map[]
    else
      var (id, positions) := Partition(items[|items| - 1], ":");
      EmotePairs(items[..|items| - 1])[id := Positions(positions)]
  }

  function TagsOf(raw: string): Dict {
    Pairs(Split(raw, ';'), "=")
  }

  function BadgesOf(raw: string): Dict {
    if raw == "" then map[] else Pairs(Split(raw, ','), "/")
  }

  function EmotesOf(raw: string): map<string, seq<string>> {
    if raw == "" then map[] else EmotePairs(Split(raw, '/'))
  }

  function TimeOf(raw: string): SentAt {
    if AreDigits(raw) then At(ParseNat(raw)) else Now
  }

  // The line after its tags: prefix, command, parameters.
  function Message(rest: string, tags: Dict): Option<ParsedChat> {
    if !Contains(rest, " PRIVMSG #") || !(":" <= rest) then None
    else
      var (prefix, remainder) := Partition(rest[1..], " PRIVMSG #");
      Some(ParsedChat(
             if "id" in tags then Some(tags["id"]) else None,
             Lookup(tags, "user-id"),
             Partition(prefix, "!").0,
             BadgesOf(Lookup(tags, "badges")),
             EmotesOf(Lookup(tags, "emotes")),
             Partition(remainder, " :").1,
             TimeOf(Lookup(tags, "tmi-sent-ts"))))
  }

  function Parsed(line: string): Option<ParsedChat> {
    var stripped := Strip(line);
    if "@" <= stripped then
      var (rawTags, rest) := Partition(stripped[1..], " ");
      Message(rest, TagsOf(rawTags))
    else Message(stripped, map[])
  }

  // ----- the parsers -------------------------------------------------------------------

  method ParseTags(raw: string) returns (tags: Dict)
    ensures tags == TagsOf(raw)
  {
    tags := map[];
    var pairs := Split(raw, ';');
    for i := 0 to |pairs|
      invariant tags == Pairs(pairs[..i], "=")
    {
      assert pairs[..i + 1][..i] == pairs[..i];
      var (key, value) := Partition(pairs[i], "=");
      tags := tags[key := value];
    }
    assert pairs[..|pairs|] == pairs;
  }

  method ParseBadges(raw: string) returns (badges: Dict)
    ensures badges == BadgesOf(raw)
  {
    if raw == "" { return map[]; }
    badges := map[];
    var items := Split(raw, ',');
    for i := 0 to |items|
      invariant badges == Pairs(items[..i], "/")
    {
      assert items[..i + 1][..i] == items[..i];
      var (name, version) := Partition(items[i], "/");
      badges := badges[name := version];
    }
    assert items[..|items|] == items;
  }

  method ParseEmotes(raw: string) returns (emotes: map<string, seq<string>>)
    ensures emotes == EmotesOf(raw)
  {
    if raw == "" { return map[]; }
    emotes := map[];
    var items := Split(raw, '/');
    for i := 0 to |items|
      invariant emotes == EmotePairs(items[..i])
    {
      assert items[..i + 1][..i] == items[..i];
      var (id, positions) := Partition(items[i], ":");
      emotes := emotes[id := if positions == "" then [] else Split(positions, ',')];
    }
    assert items[..|items|] == items;
  }

  method ParsePrivmsg(line: string) returns (chat: Option<ParsedChat>)
    ensures chat == Parsed(line)
  {
    var tags: Dict := map[];
    var rest := Strip(line);
    if "@" <= rest {
      var (rawTags, after) := Partition(rest[1..], " ");
      rest := after;
      tags := ParseTags(rawTags);
    }
    if !Contains(rest, " PRIVMSG #") || !(":" <= rest) { return None; }
    var (prefix, remainder) := Partition(rest[1..], " PRIVMSG #");
    var login := Partition(prefix, "!").0;
    var text := Partition(remainder, " :").1;
    var sentAt := Now;
    var rawTs := Lookup(tags, "tmi-sent-ts");
    if AreDigits(rawTs) { sentAt := At(ParseNat(rawTs)); }
    var badges := ParseBadges(Lookup(tags, "badges"));
    var emotes := ParseEmotes(Lookup(tags, "emotes"));
    chat := Some(ParsedChat(if "id" in tags then Some(tags["id"]) else None,
                            Lookup(tags, "user-id"), login, badges, emotes, text, sentAt));
  }

  // ----- the simulator's printer -----------------------------------------------------------

  // viewer_00 .. viewer_39
  function ChatUser(i: nat): string
    requires i < 40
  {
    "viewer_" + [DigitOf(i / 10), DigitOf(i % 10)]
  }

  function UserIndex(author: string, from: nat): Option<nat>
    requires from <= 40
    decreases 40 - from
  {
    if from == 40 then None
    else if ChatUser(from) == author then Some(from)
    else UserIndex(author, from + 1)
  }

  function UserId(author: string): nat {
    match UserIndex(author, 0)
    case Some(i) => 100000 + i
    case None => 999999
  }

  function Tag(key: string, value: string): string {
    key + "=" + value
  }

  function LineTags(author: string, id: string, tsMs: int): string {
    Tag("badges", "") + ";" + Tag("display-name", author) + ";" + Tag("emotes", "") + ";" + Tag("id", id)
    + ";" + Tag("tmi-sent-ts", PrintInt(tsMs)) + ";" + Tag("user-id", PrintInt(UserId(author)))
  }

  function LinePrefix(author: string): string {
    author + "!" + (author + "@" + author + ".tmi.twitch.tv")
  }

  function LineBody(prefix: string): string {
    ":" + prefix + " PRIVMSG #" + "sim_streamer" + " :"
  }

  function FormatLine(tags: string, prefix: string, text: string): string {
    "@" + tags + " " + LineBody(prefix) + text
  }

  // `id` is the random uuid of the message; `tsMs` its time.
  function IrcLine(author: string, text: string, id: string, tsMs: int): string {
    FormatLine(LineTags(author, id, tsMs), LinePrefix(author), text)
  }
}
