/** The parser undoes the simulator's printer, and the dict parsers are homomorphisms. */
module IrcTheorems {
  import opened Wrappers
  import opened Text
  import opened Irc

  // ----- dicts -------------------------------------------------------------------------

  lemma MergeUpdate<K, V>(m: map<K, V>, n: map<K, V>, k: K, v: V)
    ensures (m + n)[k := v] == m + n[k := v]
  {
  }

  lemma {:induction false} PairsJoin(a: seq<string>, b: seq<string>, sep: string)
    requires sep != ""
    ensures Pairs(a + b, sep) == Pairs(a, sep) + Pairs(b, sep)
  {
    if b == [] {
      assert a + b == a;
    } else {
      var front, last := b[..|b| - 1], b[|b| - 1];
      var (k, v) := Partition(last, sep);
      PairsJoin(a, front, sep);
      SnocAssoc(a, b);
      PairsSnoc(a + front, last, sep);
      MergeUpdate(Pairs(a, sep), Pairs(front, sep), k, v);
    }
  }

  lemma PairsSnoc(items: seq<string>, last: string, sep: string)
    requires sep != ""
    ensures Pairs(items + [last], sep) == Pairs(items, sep)[Partition(last, sep).0 := Partition(last, sep).1]
  {
    assert (items + [last])[..|items|] == items;
  }

  /** Parsing two tag lists joined by ";" is parsing each and letting the second override the first. */
  lemma TagsJoin(a: string, b: string)
    ensures TagsOf(a + ";" + b) == TagsOf(a) + TagsOf(b)
  {
    SplitJoins(a, ';', b);
    PairsJoin(Split(a, ';'), Split(b, ';'), "=");
    assert a + ";" + b == a + [';'] + b;
  }

  /** The same for badges joined by ",", as long as neither side is empty. */
  lemma BadgesJoin(a: string, b: string)
    requires a != "" && b != ""
    ensures BadgesOf(a + "," + b) == BadgesOf(a) + BadgesOf(b)
  {
    SplitJoins(a, ',', b);
    PairsJoin(Split(a, ','), Split(b, ','), "/");
    assert a + "," + b == a + [','] + b;
  }

  lemma {:induction false} EmotePairsJoin(a: seq<string>, b: seq<string>)
    ensures EmotePairs(a + b) == EmotePairs(a) + EmotePairs(b)
  {
    if b == [] {
      assert a + b == a;
    } else {
      var front, last := b[..|b| - 1], b[|b| - 1];
      var (id, positions) := Partition(last, ":");
      EmotePairsJoin(a, front);
      SnocAssoc(a, b);
      EmotePairsSnoc(a + front, last);
      EmotePairsSnoc(front, last);
      MergeUpdate(EmotePairs(a), EmotePairs(front), id, Positions(positions));
    }
  }

  lemma EmotePairsSnoc(items: seq<string>, last: string)
    ensures EmotePairs(items + [last]) == EmotePairs(items)[Partition(last, ":").0 := Positions(Partition(last, ":").1)]
  {
    assert (items + [last])[..|items|] == items;
  }

  lemma EmotesJoin(a: string, b: string)
    requires a != "" && b != ""
    ensures EmotesOf(a + "/" + b) == EmotesOf(a) + EmotesOf(b)
  {
    SplitJoins(a, '/', b);
    EmotePairsJoin(Split(a, '/'), Split(b, '/'));
    assert a + "/" + b == a + ['/'] + b;
  }

  /** A key and a value printed as one tag or one badge come back, whatever the value contains but the
      list separator. */
  lemma OneTag(key: string, value: string)
    requires ';' !in key && '=' !in key && ';' !in value
    ensures TagsOf(Tag(key, value)) == map[key := value]
  {
    SplitOne(Tag(key, value), ';');
    PartitionAt(key, "=", value);
    PairsSnoc([], Tag(key, value), "=");
    assert [] + [Tag(key, value)] == [Tag(key, value)];
  }

  lemma OneBadge(name: string, version: string)
    requires ',' !in name && '/' !in name && ',' !in version
    ensures BadgesOf(name + "/" + version) == map[name := version]
  {
    SplitOne(name + "/" + version, ',');
    PartitionAt(name, "/", version);
    PairsSnoc([], name + "/" + version, "/");
    assert [] + [name + "/" + version] == [name + "/" + version];
  }

  /** A tag without a value is read with an empty one. */
  lemma BareTag(key: string)
    requires ';' !in key && '=' !in key
    ensures TagsOf(key) == map[key := ""]
  {
    SplitOne(key, ';');
    NoFind(key, '=');
    PairsSnoc([], key, "=");
    assert [] + [key] == [key];
  }

  /** So is a badge without a version, and an emote without positions. */
  lemma BareBadgeAndEmote(name: string)
    requires name != "" && ',' !in name && '/' !in name && ':' !in name
    ensures BadgesOf(name) == map[name := ""] && EmotesOf(name) == map[name := []]
  {
    SplitOne(name, ',');
    SplitOne(name, '/');
    NoFind(name, '/');
    NoFind(name, ':');
    PairsSnoc([], name, "/");
    EmotePairsSnoc([], name);
    assert [] + [name] == [name];
  }

  lemma {:induction false} NoFind(s: string, c: char)
    requires c !in s
    ensures Find(s, [c]) == |s|
  {
    if s != "" {
      assert s[0] != c;
      NoFind(s[1..], c);
    }
  }

  lemma {:induction false} JoinedKeepsOut(parts: seq<string>, sep: char, c: char)
    requires c != sep && forall part :: part in parts ==> c !in part
    ensures c !in Joined(parts, sep)
  {
    if |parts| > 1 { JoinedKeepsOut(parts[1..], sep, c); }
  }

  lemma {:induction false} JoinedIsEmptyIff(parts: seq<string>, sep: char)
    ensures Joined(parts, sep) == "" <==> parts == [] || parts == [""]
  {
  }

  /** An emote and its comma-separated positions come back, however many there are; a single empty position is
      the one list that comes back as none. */
  lemma OneEmote(id: string, positions: seq<string>)
    requires '/' !in id && ':' !in id
    requires forall p :: p in positions ==> '/' !in p && ',' !in p
    ensures EmotesOf(id + ":" + Joined(positions, ',')) == map[id := if positions == [""] then [] else positions]
  {
    var raw := Joined(positions, ',');
    JoinedKeepsOut(positions, ',', '/');
    SplitOne(id + ":" + raw, '/');
    PartitionAt(id, ":", raw);
    JoinedIsEmptyIff(positions, ',');
    if positions != [] { SplitJoined(positions, ','); }
    EmotePairsSnoc([], id + ":" + raw);
    assert [] + [id + ":" + raw] == [id + ":" + raw];
  }

  // ----- the printed line ---------------------------------------------------------------

  lemma DigitsArePlain(n: nat)
    ensures forall c :: c in PrintNat(n) ==> IsDigit(c)
  {
    ParsePrint(n);
  }

  lemma NumbersArePlain(n: int)
    ensures ' ' !in PrintInt(n) && ';' !in PrintInt(n)
  {
    DigitsArePlain(if n < 0 then -n else n);
  }

  lemma AddTag(tags: string, key: string, value: string)
    requires ';' !in key && '=' !in key && ';' !in value
    ensures TagsOf(tags + ";" + Tag(key, value)) == TagsOf(tags) + map[key := value]
  {
    TagsJoin(tags, Tag(key, value));
    OneTag(key, value);
  }

  lemma FourTags(first: string, id: string, ts: string, uid: string)
    requires ';' !in id && ';' !in ts && ';' !in uid
    ensures TagsOf(first + ";" + Tag("emotes", "") + ";" + Tag("id", id)
                   + ";" + Tag("tmi-sent-ts", ts) + ";" + Tag("user-id", uid))
      == TagsOf(first) + map["emotes" := ""] + map["id" := id] + map["tmi-sent-ts" := ts] + map["user-id" := uid]
  {
    var t3 := first + ";" + Tag("emotes", "");
    AddTag(first, "emotes", "");
    var t4 := t3 + ";" + Tag("id", id);
    AddTag(t3, "id", id);
    var t5 := t4 + ";" + Tag("tmi-sent-ts", ts);
    AddTag(t4, "tmi-sent-ts", ts);
    AddTag(t5, "user-id", uid);
  }

  // The tags of a printed line; an author is free to contain ";".
  lemma LineTagsOf(author: string, id: string, tsMs: int)
    requires ';' !in id
    ensures TagsOf(LineTags(author, id, tsMs)) ==
      map["badges" := ""] + TagsOf(Tag("display-name", author)) + map["emotes" := ""] + map["id" := id]
      + map["tmi-sent-ts" := PrintInt(tsMs)] + map["user-id" := PrintInt(UserId(author))]
  {
    NumbersArePlain(tsMs);
    NumbersArePlain(UserId(author));
    OneTag("badges", "");
    TagsJoin(Tag("badges", ""), Tag("display-name", author));
    FourTags(Tag("badges", "") + ";" + Tag("display-name", author), id, PrintInt(tsMs), PrintInt(UserId(author)));
  }

  lemma NoSpaceJoin(a: string, key: string, value: string)
    requires ' ' !in a && ' ' !in key && ' ' !in value
    ensures ' ' !in a + ";" + Tag(key, value)
  {
  }

  lemma LineTagsHaveNoSpace(author: string, id: string, tsMs: int)
    requires ' ' !in author && ' ' !in id
    ensures ' ' !in LineTags(author, id, tsMs)
  {
    NumbersArePlain(tsMs);
    NumbersArePlain(UserId(author));
    var t1 := Tag("badges", "");
    NoSpaceJoin(t1, "display-name", author);
    var t2 := t1 + ";" + Tag("display-name", author);
    NoSpaceJoin(t2, "emotes", "");
    var t3 := t2 + ";" + Tag("emotes", "");
    NoSpaceJoin(t3, "id", id);
    var t4 := t3 + ";" + Tag("id", id);
    NoSpaceJoin(t4, "tmi-sent-ts", PrintInt(tsMs));
    var t5 := t4 + ";" + Tag("tmi-sent-ts", PrintInt(tsMs));
    NoSpaceJoin(t5, "user-id", PrintInt(UserId(author)));
  }

  // Stripping a printed line strips the end of its text and nothing else.
  lemma StripLine(tags: string, prefix: string, text: string)
    ensures Strip(FormatLine(tags, prefix, text)) == FormatLine(tags, prefix, RStrip(text))
  {
    StripHead("@" + tags + " " + LineBody(prefix), text);
  }

  lemma StripHead(head: string, text: string)
    requires head != "" && !IsSpace(head[0]) && !IsSpace(head[|head| - 1])
    ensures Strip(head + text) == head + RStrip(text)
  {
    assert (head + text)[0] == head[0];
    RStripAfter(head, text);
  }

  lemma SplitTags(tags: string, body: string, text: string)
    requires ' ' !in tags
    ensures var line := "@" + tags + " " + body + text;
            "@" <= line && Partition(line[1..], " ") == (tags, body + text)
  {
    var line := "@" + tags + " " + body + text;
    assert line[1..] == tags + " " + (body + text);
    PartitionAt(tags, " ", body + text);
  }

  lemma ParsedLine(tags: string, prefix: string, text: string)
    requires ' ' !in tags
    ensures Parsed(FormatLine(tags, prefix, text)) == Message(LineBody(prefix) + RStrip(text), TagsOf(tags))
  {
    StripLine(tags, prefix, text);
    SplitTags(tags, LineBody(prefix), RStrip(text));
  }

  lemma SplitMessage(prefix: string, command: string, channel: string, sep: string, text: string)
    requires command != "" && sep != "" && command[0] == ' ' && sep[0] == ' ' && ' ' !in prefix && ' ' !in channel
    ensures var rest := ":" + prefix + command + channel + sep + text;
            && ":" <= rest && Contains(rest, command)
            && Partition(rest[1..], command) == (prefix, channel + sep + text)
            && Partition(channel + sep + text, sep) == (channel, text)
  {
    var rest := ":" + prefix + command + channel + sep + text;
    var remainder := channel + sep + text;
    assert rest == (":" + prefix) + command + remainder;
    PartitionAt(":" + prefix, command, remainder);
    assert rest[1..] == prefix + command + remainder;
    PartitionAt(prefix, command, remainder);
    PartitionAt(channel, sep, text);
  }

  lemma MessageOf(prefix: string, text: string, tags: Dict)
    requires ' ' !in prefix
    ensures Message(LineBody(prefix) + text, tags) ==
      Some(ParsedChat(
             if "id" in tags then Some(tags["id"]) else None,
             Lookup(tags, "user-id"),
             Partition(prefix, "!").0,
             BadgesOf(Lookup(tags, "badges")),
             EmotesOf(Lookup(tags, "emotes")),
             text,
             TimeOf(Lookup(tags, "tmi-sent-ts"))))
  {
    SplitMessage(prefix, " PRIVMSG #", "sim_streamer", " :", text);
  }

  lemma LineIs(tags: string, prefix: string, text: string)
    requires ' ' !in tags && ' ' !in prefix
    ensures var d := TagsOf(tags);
            Parsed(FormatLine(tags, prefix, text)) ==
            Some(ParsedChat(
                   if "id" in d then Some(d["id"]) else None,
                   Lookup(d, "user-id"),
                   Partition(prefix, "!").0,
                   BadgesOf(Lookup(d, "badges")),
                   EmotesOf(Lookup(d, "emotes")),
                   RStrip(text),
                   TimeOf(Lookup(d, "tmi-sent-ts"))))
  {
    ParsedLine(tags, prefix, text);
    MessageOf(prefix, RStrip(text), TagsOf(tags));
  }

  lemma LoginOf(author: string)
    ensures Partition(LinePrefix(author), "!").0 == author <==> '!' !in author
  {
    var rest := author + "@" + author + ".tmi.twitch.tv";
    if '!' !in author {
      PartitionAt(author, "!", rest);
    } else {
      LoginStopsAtBang(author, rest);
    }
  }

  lemma {:induction false} LoginStopsAtBang(author: string, rest: string)
    requires '!' in author
    ensures Find(author + "!" + rest, "!") < |author|
  {
    var s := author + "!" + rest;
    if author[0] != '!' {
      assert s[1..] == author[1..] + "!" + rest;
      LoginStopsAtBang(author[1..], rest);
    }
  }

  lemma TimeRoundTrip(tsMs: int)
    ensures TimeOf(PrintInt(tsMs)) == if tsMs >= 0 then At(tsMs) else Now
  {
    if tsMs >= 0 {
      ParsePrint(tsMs);
    } else {
      assert PrintInt(tsMs)[0] == '-' && !IsDigit('-');
    }
  }

  // ----- any line -------------------------------------------------------------------------

  // `s` is the line without the whitespace at its ends.
  ghost predicate StrippedOf(line: string, s: string) {
    exists a: string, b: string ::
      && line == a + s + b
      && (forall c :: c in a ==> IsSpace(c)) && (forall c :: c in b ==> IsSpace(c))
      && (s != "" ==> !IsSpace(s[0]) && !IsSpace(s[|s| - 1]))
  }

  // `rest` is what follows the tags, if the line starts with any.
  ghost predicate AfterTags(s: string, rest: string) {
    if s == "" || s[0] != '@' then rest == s
    else if ' ' !in s then rest == ""
    else exists tags: string :: ' ' !in tags && s == tags + " " + rest
  }

  ghost predicate SaysPrivmsg(rest: string) {
    exists a: string, b: string :: rest == a + " PRIVMSG #" + b
  }

  lemma StripIs(line: string)
    ensures StrippedOf(line, Strip(line))
  {
    var l := LStrip(line);
    var a := LStripIs(line);
    var b := RStripIs(l);
    StripParts(line, a, RStrip(l), b);
  }

  lemma RStripIs(l: string) returns (off: string)
    ensures l == RStrip(l) + off && forall c :: c in off ==> IsSpace(c)
    ensures RStrip(l) != "" ==> RStrip(l)[0] == l[0] && !IsSpace(RStrip(l)[|RStrip(l)| - 1])
  {
    off := l[|RStrip(l)|..];
  }

  lemma StripParts(line: string, a: string, s: string, b: string)
    requires line == a + (s + b)
    requires (forall c :: c in a ==> IsSpace(c)) && (forall c :: c in b ==> IsSpace(c))
    requires s != "" ==> !IsSpace(s[0]) && !IsSpace(s[|s| - 1])
    ensures StrippedOf(line, s)
  {
    assert line == a + s + b;
  }

  // Up to the first space and from there.
  lemma FirstSpace(t: string)
    ensures var (tags, rest) := Partition(t, " ");
            && ' ' !in tags && (' ' !in t ==> rest == "") && (' ' in t ==> t == tags + " " + rest)
  {
    var i := Find(t, " ");
    forall k | 0 <= k < |t| && t[k] == ' ' ensures i <= k {
      assert " " <= t[k..];
      FindIsFirst(t, " ", k);
    }
    if i < |t| {
      assert t[i..][0] == ' ';
      assert t == t[..i] + " " + t[i + 1..];
    }
  }

  // What the parser goes on with.
  function Rest(s: string): string {
    if "@" <= s then Partition(s[1..], " ").1 else s
  }

  lemma RestIs(s: string)
    ensures AfterTags(s, Rest(s))
  {
    if s != "" && s[0] == '@' {
      var t := s[1..];
      assert s == "@" + t;
      FirstSpace(t);
      var (tags, rest) := Partition(t, " ");
      if ' ' in t { TagsThenRest(s, tags, rest); }
    }
  }

  lemma TagsThenRest(s: string, tags: string, rest: string)
    requires s == "@" + (tags + " " + rest) && ' ' !in tags
    ensures AfterTags(s, rest)
  {
    var all := "@" + tags;
    assert s == all + " " + rest && ' ' !in all;
    assert s[|all|] == ' ';
  }

  lemma ContainsIs(s: string)
    ensures Contains(s, " PRIVMSG #") <==> SaysPrivmsg(s)
  {
    var sep := " PRIVMSG #";
    var i := Find(s, sep);
    if i < |s| { SaysAt(s, sep, i); }
    if a: string, b: string :| s == a + sep + b { OccursAt(s, a, sep, b); }
  }

  lemma SaysAt(s: string, sep: string, i: nat)
    requires i < |s| && sep <= s[i..]
    ensures s == s[..i] + sep + s[i + |sep|..]
  {
    assert s[i..] == sep + s[i..][|sep|..];
    assert s == s[..i] + s[i..];
  }

  lemma OccursAt(s: string, a: string, sep: string, b: string)
    requires s == a + sep + b && sep != ""
    ensures Contains(s, sep)
  {
    assert s[|a|..] == sep + b;
    FindIsFirst(s, sep, |a|);
  }

  lemma SomeIff(line: string)
    ensures Parsed(line).Some? <==> Contains(Rest(Strip(line)), " PRIVMSG #") && ":" <= Rest(Strip(line))
  {
  }

  /** Which lines are chat messages at all: those that, stripped and without their tags, start with ":" and say
      " PRIVMSG #" somewhere. Everything else Twitch sends is none. */
  lemma IsChatIff(line: string) returns (s: string, rest: string)
    ensures StrippedOf(line, s) && AfterTags(s, rest)
    ensures Parsed(line).Some? <==> rest != "" && rest[0] == ':' && SaysPrivmsg(rest)
  {
    s := Strip(line);
    rest := Rest(s);
    StripIs(line);
    RestIs(s);
    ContainsIs(rest);
    SomeIff(line);
  }

  // A message as Twitch sends it: tags or none, a nick and what follows it, a channel and the text.
  function ChatLine(tags: string, nick: string, host: string, channel: string, text: string): string {
    (if tags == "" then "" else "@" + tags + " ")
    + (":" + (nick + "!" + host) + " PRIVMSG #" + channel + " :" + text)
  }

  /** What is read from any chat line: every field from its own place, the badges, emotes, ids and time from the
      tags and the text up to its trailing whitespace. */
  lemma ChatLineIs(tags: string, nick: string, host: string, channel: string, text: string)
    requires ' ' !in tags && ' ' !in nick && '!' !in nick && ' ' !in host && ' ' !in channel
    ensures var d: Dict := if tags == "" then map[] else TagsOf(tags);
            var m := Parsed(ChatLine(tags, nick, host, channel, text));
            && m.Some?
            && m.value.authorLogin == nick && m.value.text == RStrip(text)
            && m.value.messageId == (if "id" in d then Some(d["id"]) else None)
            && m.value.authorId == (if "user-id" in d then d["user-id"] else "")
            && m.value.badges == BadgesOf(if "badges" in d then d["badges"] else "")
            && m.value.emotes == EmotesOf(if "emotes" in d then d["emotes"] else "")
            && (var ts := if "tmi-sent-ts" in d then d["tmi-sent-ts"] else "";
                m.value.sentAt == if AreDigits(ts) then At(ParseNat(ts)) else Now)
  {
    var prefix := nick + "!" + host;
    var body := ":" + prefix + " PRIVMSG #" + channel + " :";
    var d: Dict := if tags == "" then map[] else TagsOf(tags);
    ChatLineRest(tags, body, text);
    SplitMessage(prefix, " PRIVMSG #", channel, " :", RStrip(text));
    PartitionAt(nick, "!", host);
  }

  lemma ChatLineRest(tags: string, body: string, text: string)
    requires ' ' !in tags && body != "" && body[0] == ':' && body[|body| - 1] == ':'
    ensures Parsed((if tags == "" then "" else "@" + tags + " ") + (body + text)) ==
      Message(body + RStrip(text), if tags == "" then map[] else TagsOf(tags))
  {
    if tags == "" {
      assert "" + (body + text) == body + text;
      PlainRest(body, text);
    } else {
      assert "@" + tags + " " + (body + text) == "@" + tags + " " + body + text;
      TaggedRest(tags, body, text);
    }
  }

  lemma PlainRest(body: string, text: string)
    requires body != "" && body[0] == ':' && body[|body| - 1] == ':'
    ensures Parsed(body + text) == Message(body + RStrip(text), map[])
  {
    StripHead(body, text);
    assert (body + RStrip(text))[0] == ':';
  }

  lemma TaggedRest(tags: string, body: string, text: string)
    requires ' ' !in tags && body != "" && body[|body| - 1] == ':'
    ensures Parsed("@" + tags + " " + body + text) == Message(body + RStrip(text), TagsOf(tags))
  {
    StripHead("@" + tags + " " + body, text);
    SplitTags(tags, body, RStrip(text));
  }

  // ----- the theorems ---------------------------------------------------------------------

  lemma LookupMerge(d: Dict, k: string, v: string, q: string)
    ensures Lookup(d + map[k := v], q) == if q == k then v else Lookup(d, q)
    ensures q in d + map[k := v] <==> q == k || q in d
  {
  }

  // The values the parser looks up in the tags of a printed line.
  lemma LineTagsLookup(author: string, id: string, tsMs: int)
    requires ';' !in id
    ensures var tags := TagsOf(LineTags(author, id, tsMs));
            && "id" in tags && Lookup(tags, "id") == id
            && Lookup(tags, "user-id") == PrintNat(UserId(author))
            && Lookup(tags, "emotes") == ""
            && Lookup(tags, "tmi-sent-ts") == PrintInt(tsMs)
            && Lookup(tags, "badges") == Lookup(TagsOf(Tag("display-name", author)), "badges")
  {
    LineTagsOf(author, id, tsMs);
    KeysDiffer();
    DictLookup(TagsOf(Tag("display-name", author)), id, PrintInt(tsMs), PrintInt(UserId(author)));
  }

  lemma DictLookup(own: Dict, id: string, ts: string, uid: string)
    ensures var tags := map["badges" := ""] + own + map["emotes" := ""] + map["id" := id]
                        + map["tmi-sent-ts" := ts] + map["user-id" := uid];
            && "id" in tags && Lookup(tags, "id") == id
            && Lookup(tags, "user-id") == uid
            && Lookup(tags, "emotes") == ""
            && Lookup(tags, "tmi-sent-ts") == ts
            && Lookup(tags, "badges") == Lookup(own, "badges")
  {
    KeysDiffer();
    var t2: Dict := map["badges" := ""] + own;
    var t3 := t2 + map["emotes" := ""];
    var t4 := t3 + map["id" := id];
    var t5 := t4 + map["tmi-sent-ts" := ts];
    LookupMerge(t5, "user-id", uid, "user-id");
    LookupMerge(t4, "tmi-sent-ts", ts, "tmi-sent-ts");
    LookupMerge(t5, "user-id", uid, "tmi-sent-ts");
    LookupMerge(t3, "id", id, "id");
    LookupMerge(t4, "tmi-sent-ts", ts, "id");
    LookupMerge(t5, "user-id", uid, "id");
    LookupMerge(t2, "emotes", "", "emotes");
    LookupMerge(t3, "id", id, "emotes");
    LookupMerge(t4, "tmi-sent-ts", ts, "emotes");
    LookupMerge(t5, "user-id", uid, "emotes");
    assert Lookup(t2, "badges") == Lookup(own, "badges");
    LookupMerge(t2, "emotes", "", "badges");
    LookupMerge(t3, "id", id, "badges");
    LookupMerge(t4, "tmi-sent-ts", ts, "badges");
    LookupMerge(t5, "user-id", uid, "badges");
  }

  lemma KeysDiffer()
    ensures "id" != "user-id" && "id" != "tmi-sent-ts" && "id" != "emotes" && "id" != "badges"
    ensures "user-id" != "tmi-sent-ts" && "user-id" != "emotes" && "user-id" != "badges"
    ensures "tmi-sent-ts" != "emotes" && "tmi-sent-ts" != "badges" && "emotes" != "badges"
  {
    assert |"id"| == 2 && |"user-id"| == 7 && |"tmi-sent-ts"| == 11 && |"emotes"| == 6 && |"badges"| == 6;
    assert "emotes"[0] == 'e' && "badges"[0] == 'b';
  }

  // What the parser takes for the badges: the last "badges" tag among the ";" pieces of the author.
  function BadgesOfAuthor(author: string): string {
    Lookup(Pairs(Split(author, ';')[1..], "="), "badges")
  }

  lemma OwnBadges(author: string)
    ensures Lookup(TagsOf(Tag("display-name", author)), "badges") == BadgesOfAuthor(author)
  {
    var parts := Split(author, ';');
    var first := "display-name" + "=" + parts[0];
    assert Tag("display-name", author) == "display-name=" + author;
    SplitAfter("display-name=", author, ';');
    assert "display-name=" + parts[0] == first;
    PartitionAt("display-name", "=", parts[0]);
    PairsJoin([first], parts[1..], "=");
    PairsSnoc([], first, "=");
    assert [] + [first] == [first];
    assert |"display-name"| == 12 && |"badges"| == 6;
  }

  /** For every author without a space and every text, the printed line parses; its message id, user id and
      text come back, the text less its trailing whitespace only (it may contain " :" or " PRIVMSG #"), with
      no emotes. The login comes back exactly when the author has no "!", and the time exactly when it is
      not before 1970. */
  lemma ParsingUndoesPrinting(author: string, text: string, id: string, tsMs: int)
    requires ' ' !in author && ' ' !in id && ';' !in id
    ensures var m := Parsed(IrcLine(author, text, id, tsMs));
            && m.Some?
            && m.value.messageId == Some(id)
            && m.value.authorId == PrintNat(UserId(author))
            && m.value.text == RStrip(text)
            && m.value.emotes == map[]
            && (m.value.authorLogin == author <==> '!' !in author)
            && m.value.sentAt == (if tsMs >= 0 then At(tsMs) else Now)
            && m.value.badges == BadgesOf(BadgesOfAuthor(author))
  {
    OwnBadges(author);
    var tags, prefix := LineTags(author, id, tsMs), LinePrefix(author);
    LineTagsHaveNoSpace(author, id, tsMs);
    assert ' ' !in prefix;
    LineIs(tags, prefix, text);
    LineTagsLookup(author, id, tsMs);
    LoginOf(author);
    TimeRoundTrip(tsMs);
  }

  /** In full: for every author without a space, ";" or "!" and every text without trailing whitespace, the
      parser returns exactly what was printed, with empty badges and emotes. */
  lemma RoundTrip(author: string, text: string, id: string, tsMs: nat)
    requires forall c :: c in author ==> c != ' ' && c != ';' && c != '!'
    requires ' ' !in id && ';' !in id
    requires text == "" || !IsSpace(text[|text| - 1])
    ensures Parsed(IrcLine(author, text, id, tsMs)) ==
      Some(ParsedChat(Some(id), PrintNat(UserId(author)), author, map[], map[], text, At(tsMs)))
  {
    ParsingUndoesPrinting(author, text, id, tsMs);
    PlainAuthor(author);
  }

  lemma PlainAuthor(author: string)
    requires ';' !in author
    ensures BadgesOfAuthor(author) == ""
  {
    SplitOne(author, ';');
  }

  lemma DigitsAreChars(d: nat)
    requires d < 10
    ensures DigitOf(d) as int == '0' as int + d
  {
  }

  lemma ChatUsersDiffer(i: nat, j: nat)
    requires i < 40 && j < 40 && ChatUser(i) == ChatUser(j)
    ensures i == j
  {
    assert ChatUser(i)[7] == DigitOf(i / 10) && ChatUser(i)[8] == DigitOf(i % 10);
    assert ChatUser(j)[7] == DigitOf(j / 10) && ChatUser(j)[8] == DigitOf(j % 10);
    DigitsAreChars(i / 10);
    DigitsAreChars(j / 10);
    DigitsAreChars(i % 10);
    DigitsAreChars(j % 10);
  }

  lemma {:induction false} IndexOfUser(i: nat, from: nat)
    requires from <= i < 40
    ensures UserIndex(ChatUser(i), from) == Some(i)
    decreases i - from
  {
    if ChatUser(from) == ChatUser(i) {
      ChatUsersDiffer(from, i);
    } else {
      IndexOfUser(i, from + 1);
    }
  }

  lemma UserIsPlain(i: nat)
    requires i < 40
    ensures forall c :: c in ChatUser(i) ==> c != ' ' && c != ';' && c != '!'
  {
    DigitsAreChars(i / 10);
    DigitsAreChars(i % 10);
    assert forall c :: c in "viewer_" ==> c != ' ' && c != ';' && c != '!';
  }

  /** Every line the simulator prints comes back: each of its forty users, any text, any moment after 1970. */
  lemma SimulatedLineComesBack(i: nat, text: string, id: string, tsMs: nat)
    requires i < 40 && ' ' !in id && ';' !in id
    ensures Parsed(IrcLine(ChatUser(i), text, id, tsMs)) ==
      Some(ParsedChat(Some(id), PrintNat(100000 + i), ChatUser(i), map[], map[], RStrip(text), At(tsMs)))
  {
    UserIsPlain(i);
    IndexOfUser(i, 0);
    ParsingUndoesPrinting(ChatUser(i), text, id, tsMs);
    PlainAuthor(ChatUser(i));
  }

  /** Badges come back empty, as printed, exactly for the authors whose ";" pieces end up with no badges of
      their own. */
  lemma NoBadgesIff(author: string, text: string, id: string, tsMs: int)
    requires ' ' !in author && ' ' !in id && ';' !in id
    ensures var m := Parsed(IrcLine(author, text, id, tsMs));
            m.Some? && (m.value.badges == map[] <==> BadgesOfAuthor(author) == "")
  {
    ParsingUndoesPrinting(author, text, id, tsMs);
    var raw := BadgesOfAuthor(author);
    if raw != "" {
      var items := Split(raw, ',');
      assert Partition(items[|items| - 1], "/").0 in Pairs(items, "/");
    }
  }

  /** An author of this shape has such badges: any badge of its own choice. */
  lemma SemicolonForgesABadge(name: string, badge: string, version: string, text: string, id: string, tsMs: int)
    requires ' ' !in name && ' ' !in badge && ' ' !in version && ' ' !in id && ';' !in id
    requires ';' !in name && ';' !in badge && ';' !in version
    requires ',' !in badge && '/' !in badge && ',' !in version
    ensures var m := Parsed(IrcLine(name + ";" + Tag("badges", badge + "/" + version), text, id, tsMs));
            m.Some? && m.value.badges == map[badge := version]
  {
    var author := name + ";" + Tag("badges", badge + "/" + version);
    assert ' ' !in author;
    ParsingUndoesPrinting(author, text, id, tsMs);
    ForgedBadges(name, badge, version);
  }

  lemma ForgedBadges(name: string, badge: string, version: string)
    requires ';' !in name && ';' !in badge && ';' !in version
    requires ',' !in badge && '/' !in badge && ',' !in version
    ensures BadgesOf(BadgesOfAuthor(name + ";" + Tag("badges", badge + "/" + version))) == map[badge := version]
  {
    var own := Tag("badges", badge + "/" + version);
    SplitOne(name, ';');
    SplitJoins(name, ';', own);
    assert name + ";" + own == name + [';'] + own;
    assert Split(name + ";" + own, ';')[1..] == Split(own, ';');
    OneTag("badges", badge + "/" + version);
    OneBadge(badge, version);
  }

  /** The simulator's forty users have forty user ids, none of them the id of any other author. */
  lemma UserIdsIdentify(a: string, b: string)
    requires UserIndex(a, 0).Some?
    ensures 100000 <= UserId(a) < 100040
    ensures UserId(a) == UserId(b) <==> a == b
  {
    IndexIs(a, 0);
    IndexIs(b, 0);
  }

  lemma {:induction false} IndexIs(author: string, from: nat)
    requires from <= 40
    ensures var r := UserIndex(author, from);
            r.Some? ==> from <= r.value < 40 && ChatUser(r.value) == author
    decreases 40 - from
  {
    if from < 40 { IndexIs(author, from + 1); }
  }
}
