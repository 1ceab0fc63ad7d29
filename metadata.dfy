/**
 * The modal's `private_metadata`: the record that correlates the message
 * action with the later view submission, and its text encoding
 * (`JSON.stringify` when the view is built, `JSON.parse` on submit).
 *
 * The encoding is the JSON text of the record, keys in declaration order, no
 * whitespace, strings quoted with `"` and `\` escaped. The decoder accepts
 * exactly the texts the encoder produces and reports everything else as a
 * decode error (`None`).
 */
module Metadata {
  import opened Wrappers
  import opened Js

  /** `MessageAction['channel']`: the channel the action was triggered in. */
  datatype Channel = Channel(id: string, name: string)

  /** `CreateGithubIssuePrivateMetadata`. */
  datatype PrivateMetadata = PrivateMetadata(channel: Channel, threadTs: string, messagePermalink: string)

  /**
   * `payload.message`: the message the action was invoked on. `threadTs` is
   * undefined for a message that is not in a thread; `text` may be undefined.
   */
  datatype Message = Message(ts: string, threadTs: Option<string>, text: Option<string>)

  /** The parts of a message-action payload the handlers use. */
  datatype MessageAction = MessageAction(channel: Channel, message: Message)

  /**
   * `message.thread_ts || message.ts`: the timestamp the reply is threaded
   * under. An empty `thread_ts` counts as absent.
   */
  function ThreadAnchor(m: Message): string {
    Or(m.threadTs, m.ts)
  }

  /** The record both action handlers put into the view, once the permalink is known. */
  function MetadataFor(action: MessageAction, permalink: string): PrivateMetadata {
    PrivateMetadata(action.channel, ThreadAnchor(action.message), permalink)
  }

  /** A message in a thread is anchored at the thread's root; any other message at itself. */
  lemma ThreadAnchorChoice(m: Message)
    ensures m.threadTs.Some? && m.threadTs.value != "" ==> ThreadAnchor(m) == m.threadTs.value
    ensures m.threadTs.None? || m.threadTs.value == "" ==> ThreadAnchor(m) == m.ts
  {
  }

  /**
   * Every reply in a thread shares the anchor of the message the thread hangs
   * from, so acting on the root or on any reply answers in the same thread.
   * A root that already has replies carries its own `ts` as `thread_ts`.
   */
  lemma ThreadAnchorShared(root: Message, reply: Message)
    requires root.threadTs.None? || root.threadTs == Some(root.ts)
    requires root.ts != ""
    requires reply.threadTs == Some(root.ts)
    ensures ThreadAnchor(reply) == ThreadAnchor(root) == root.ts
  {
  }

  /** A root message posted at 100 and a reply at 105 in its thread are both answered at 100. */
  lemma ThreadAnchorExample()
    ensures ThreadAnchor(Message("100", None, Some("Bug: X"))) == "100"
    ensures ThreadAnchor(Message("105", Some("100"), Some("same here"))) == "100"
  {
  }

  // ---------------------------------------------------------------------------
  // Strings

  /** The JSON escape of one character. */
  function EscapeChar(c: char): (r: string)
    ensures |r| == 1 <==> Plain(c)
    ensures |r| == 1 ==> r[0] == c
    ensures |r| == 2 ==> r[0] == '\\' && Unescape(r[1]) == Some(c)
    ensures |r| == 1 || |r| == 2
  {
    match c
    case '"' => "\\\""
    case '\\' => "\\\\"
    case '\n' => "\\n"
    case '\r' => "\\r"
    case '\t' => "\\t"
    case _ => [c]
  }

  /** A character the encoder writes as itself. */
  predicate Plain(c: char) {
    c != '"' && c != '\\' && c != '\n' && c != '\r' && c != '\t'
  }

  /** The character an escape sequence `\e` stands for, if `e` is one the encoder writes. */
  function Unescape(e: char): Option<char> {
    match e
    case '"' => Some('"')
    case '\\' => Some('\\')
    case 'n' => Some('\n')
    case 'r' => Some('\r')
    case 't' => Some('\t')
    case _ => None
  }

  /** The body of a JSON string literal for `s`. */
  function Escape(s: string): string {
    if s == [] then [] else EscapeChar(s[0]) + Escape(s[1..])
  }

  /** `JSON.stringify(s)` for a string. */
  function Quote(s: string): string {
    "\"" + Escape(s) + "\""
  }

  /**
   * Reads the body of a string literal, up to and including its closing
   * quote: the decoded string and the text after the quote.
   */
  function UnescapeUntilQuote(t: string): (r: Option<(string, string)>)
    ensures r.Some? ==> |r.value.1| < |t|
    decreases |t|
  {
    if t == [] then None
    else if t[0] == '"' then Some(([], t[1..]))
    else if t[0] == '\\' then
      if |t| < 2 then None
      else
        var c :- Unescape(t[1]);
        var tail :- UnescapeUntilQuote(t[2..]);
        Some(([c] + tail.0, tail.1))
    else if !Plain(t[0]) then None
    else
      var tail :- UnescapeUntilQuote(t[1..]);
      Some(([t[0]] + tail.0, tail.1))
  }

  /** Consumes the literal `lit` at the start of `t`. */
  function Expect(lit: string, t: string): (r: Option<string>)
    ensures r.Some? <==> StartsWith(t, lit)
    ensures r.Some? ==> t == lit + r.value
  {
    if StartsWith(t, lit) then Some(t[|lit|..]) else None
  }

  /** Reads one quoted string at the start of `t`. */
  function DecodeString(t: string): Option<(string, string)> {
    var body :- Expect("\"", t);
    UnescapeUntilQuote(body)
  }

  // ---------------------------------------------------------------------------
  // The record

  const ChannelIdKey: string := "{\"channel\":{\"id\":"
  const ChannelNameKey: string := ",\"name\":"
  const ThreadTsKey: string := "},\"thread_ts\":"
  const PermalinkKey: string := ",\"messagePermalink\":"
  const Close: string := "}"

  /** One `"key":value` member of the encoding, with the punctuation before it. */
  function Field(key: string, value: string): string {
    key + Quote(value)
  }

  /** Reads one member written by `Field`: its value and the text after it. */
  function DecodeField(key: string, t: string): Option<(string, string)> {
    var r :- Expect(key, t);
    DecodeString(r)
  }

  /** `JSON.stringify(privateMetadata)`. */
  function Encode(m: PrivateMetadata): string {
    Field(ChannelIdKey, m.channel.id)
    + (Field(ChannelNameKey, m.channel.name)
    + (Field(ThreadTsKey, m.threadTs)
    + (Field(PermalinkKey, m.messagePermalink) + Close)))
  }

  /** `JSON.parse(view.private_metadata)`; `None` is a decode error. */
  function Decode(text: string): Option<PrivateMetadata> {
    var id :- DecodeField(ChannelIdKey, text);
    var name :- DecodeField(ChannelNameKey, id.1);
    var ts :- DecodeField(ThreadTsKey, name.1);
    var link :- DecodeField(PermalinkKey, ts.1);
    if link.1 == Close then Some(PrivateMetadata(Channel(id.0, name.0), ts.0, link.0)) else None
  }

  // ---------------------------------------------------------------------------
  // Round trip

  lemma ExpectLiteral(lit: string, rest: string)
    ensures Expect(lit, lit + rest) == Some(rest)
  {
  }

  /** Reading the escaped body of `s` followed by a quote gives back `s` and what follows. */
  lemma {:induction false} UnescapeEscape(s: string, rest: string)
    ensures UnescapeUntilQuote(Escape(s) + "\"" + rest) == Some((s, rest))
  {
    var t := Escape(s) + "\"" + rest;
    if s == [] {
      assert t == "\"" + rest;
      assert t[1..] == rest;
    } else {
      var e := EscapeChar(s[0]);
      var t' := Escape(s[1..]) + "\"" + rest;
      assert t == e + t';
      UnescapeEscape(s[1..], rest);
      if |e| == 1 {
        assert t[0] == s[0] && t[1..] == t';
      } else {
        assert t[0] == '\\' && t[1] == e[1] && t[2..] == t';
      }
      assert [s[0]] + s[1..] == s;
    }
  }

  /** Conversely, whatever the string reader accepts is the escaped form of what it returns. */
  lemma {:induction false} EscapeUnescape(t: string)
    requires UnescapeUntilQuote(t).Some?
    ensures var r := UnescapeUntilQuote(t).value; t == Escape(r.0) + "\"" + r.1
    decreases |t|
  {
    var r := UnescapeUntilQuote(t).value;
    if t[0] == '"' {
      assert r.0 == [];
    } else if t[0] == '\\' {
      var c := Unescape(t[1]).value;
      EscapeUnescape(t[2..]);
      var tail := UnescapeUntilQuote(t[2..]).value;
      assert r.0 == [c] + tail.0 && r.1 == tail.1;
      assert r.0[0] == c && r.0[1..] == tail.0;
      assert EscapeChar(c) == [t[0], t[1]];
      assert t == [t[0], t[1]] + t[2..];
    } else {
      EscapeUnescape(t[1..]);
      var tail := UnescapeUntilQuote(t[1..]).value;
      assert r.0 == [t[0]] + tail.0 && r.1 == tail.1;
      assert r.0[0] == t[0] && r.0[1..] == tail.0;
      assert EscapeChar(t[0]) == [t[0]];
      assert t == [t[0]] + t[1..];
    }
  }

  lemma DecodeQuote(s: string, rest: string)
    ensures DecodeString(Quote(s) + rest) == Some((s, rest))
  {
    assert Quote(s) + rest == "\"" + (Escape(s) + "\"" + rest);
    ExpectLiteral("\"", Escape(s) + "\"" + rest);
    UnescapeEscape(s, rest);
  }

  lemma QuoteDecode(t: string)
    requires DecodeString(t).Some?
    ensures var r := DecodeString(t).value; t == Quote(r.0) + r.1
  {
    var body := Expect("\"", t).value;
    EscapeUnescape(body);
  }

  lemma DecodeFieldOf(key: string, value: string, rest: string)
    ensures DecodeField(key, Field(key, value) + rest) == Some((value, rest))
  {
    assert Field(key, value) + rest == key + (Quote(value) + rest);
    ExpectLiteral(key, Quote(value) + rest);
    DecodeQuote(value, rest);
  }

  lemma FieldOfDecode(key: string, t: string)
    requires DecodeField(key, t).Some?
    ensures var r := DecodeField(key, t).value; t == Field(key, r.0) + r.1
  {
    var body := Expect(key, t).value;
    QuoteDecode(body);
  }

  /** What the submission handler decodes is the record the action handler encoded. */
  lemma DecodeEncode(m: PrivateMetadata)
    ensures Decode(Encode(m)) == Some(m)
  {
    var r4 := Close;
    var r3 := Field(PermalinkKey, m.messagePermalink) + r4;
    var r2 := Field(ThreadTsKey, m.threadTs) + r3;
    var r1 := Field(ChannelNameKey, m.channel.name) + r2;
    DecodeFieldOf(ChannelIdKey, m.channel.id, r1);
    DecodeFieldOf(ChannelNameKey, m.channel.name, r2);
    DecodeFieldOf(ThreadTsKey, m.threadTs, r3);
    DecodeFieldOf(PermalinkKey, m.messagePermalink, r4);
  }

  /** The decoder accepts nothing but encodings: a text that decodes is the encoding of its result. */
  lemma EncodeDecode(text: string)
    requires Decode(text).Some?
    ensures Encode(Decode(text).value) == text
  {
    var id := DecodeField(ChannelIdKey, text).value;
    var name := DecodeField(ChannelNameKey, id.1).value;
    var ts := DecodeField(ThreadTsKey, name.1).value;
    var link := DecodeField(PermalinkKey, ts.1).value;
    FieldOfDecode(ChannelIdKey, text);
    FieldOfDecode(ChannelNameKey, id.1);
    FieldOfDecode(ThreadTsKey, name.1);
    FieldOfDecode(PermalinkKey, ts.1);
  }

  /** Two different records never share an encoding. */
  lemma EncodeInjective(a: PrivateMetadata, b: PrivateMetadata)
    requires Encode(a) == Encode(b)
    ensures a == b
  {
    DecodeEncode(a);
    DecodeEncode(b);
  }
}
