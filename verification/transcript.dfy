/**
 The pure parts of the transcript renderer run when a ticket is closed: which
 messages it covers and in what order, the rule that renders a message either
 as a full block or as a compact continuation of the previous one, how each
 attachment is shown, and the name of the delivered file. The HTML template,
 display-name lookups, date formatting and the attachment download itself are
 not modelled; whether an image download succeeds is an input.
 */
module Transcript {
  import opened Database
  import opened Text

  /** At most this many of the most recent messages are fetched. */
  const FetchLimit: nat := 100

  /** Two messages of one author closer than this (strictly) are grouped. */
  const GroupWindowMs: int := 60000

  /** Content type assumed for an image attachment that declares none. */
  const DefaultImageMime: string := "image/png"

  /** File-name extensions (lower case, without the dot) rendered as images. */
  const ImageExtensions: seq<string> := ["jpg", "jpeg", "png", "gif", "webp"]

  datatype Attachment = Attachment(
    name: string,
    contentType: Option<string>,
    size: nat,
    fetchable: bool)              // whether downloading it would succeed

  datatype Message = Message(
    author: string,               // the author's username
    timestamp: Time,
    content: string,
    attachments: seq<Attachment>)

  /** How one attachment appears in the transcript. */
  datatype Item =
    | InlineImage(mime: string, name: string)
    | ImageUnavailable(name: string)
    | FileLink(name: string, size: nat)

  /** How one message appears: with avatar, author and timestamp, or as a
      continuation line under the previous message. */
  datatype Block =
    | Full(author: string, timestamp: Time, content: string, items: seq<Item>)
    | Compact(timestamp: Time, content: string, items: seq<Item>)

  // ---------------------------------------------------------------------------
  // Message order

  function Reverse<T>(s: seq<T>): (r: seq<T>)
    ensures |r| == |s|
    ensures forall i :: 0 <= i < |s| ==> r[i] == s[|s| - 1 - i]
  {
    if s == [] then [] else Reverse(s[1..]) + [s[0]]
  }

  function Min(a: nat, b: nat): nat { if a <= b then a else b }

  /** What the platform's history fetch returns for a channel whose whole
      history, oldest first, is `history`: the newest messages, newest first. */
  function Fetch(history: seq<Message>): (r: seq<Message>)
    ensures |r| == Min(|history|, FetchLimit)
  {
    Reverse(history[|history| - Min(|history|, FetchLimit)..])
  }

  /** The messages the transcript renders, in the order it renders them: the
      fetched messages reversed, which is the last (at most) hundred messages
      of the channel in chronological order. */
  function TranscriptMessages(history: seq<Message>): (r: seq<Message>)
    ensures |r| <= FetchLimit
    ensures r == history[|history| - Min(|history|, FetchLimit)..]
    ensures |history| <= FetchLimit ==> r == history
  {
    ReverseInvolution(history[|history| - Min(|history|, FetchLimit)..]);
    Reverse(Fetch(history))
  }

  lemma ReverseInvolution<T>(s: seq<T>)
    ensures Reverse(Reverse(s)) == s
  {
  }

  // ---------------------------------------------------------------------------
  // Grouping

  function Abs(x: int): nat { if x < 0 then -x else x }

  /** `m` continues the block of the message `prev` rendered just before it:
      same author username, and less than a minute apart in either direction. */
  predicate Continues(prev: Message, m: Message) {
    prev.author == m.author && Abs(prev.timestamp - m.timestamp) < GroupWindowMs
  }

  /** Renders `m`, given the message rendered immediately before it, if any. */
  function RenderMessage(prev: Option<Message>, m: Message): (b: Block)
    ensures b.Compact? <==> prev.Some? && Continues(prev.value, m)
    ensures b.timestamp == m.timestamp && b.content == m.content
    ensures b.items == Items(m.attachments)
    ensures b.Full? ==> b.author == m.author
  {
    if prev.Some? && Continues(prev.value, m) then
      Compact(m.timestamp, m.content, Items(m.attachments))
    else
      Full(m.author, m.timestamp, m.content, Items(m.attachments))
  }

  /** Reference rendering: walk the messages in order, carrying the one
      rendered last. */
  function RenderFrom(prev: Option<Message>, ms: seq<Message>): (r: seq<Block>)
    ensures |r| == |ms|
    decreases |ms|
  {
    if ms == [] then [] else [RenderMessage(prev, ms[0])] + RenderFrom(Some(ms[0]), ms[1..])
  }

  /** The message rendered just before position `i`, if any. */
  function PrevOf(ms: seq<Message>, i: nat): Option<Message>
    requires i < |ms|
  {
    if i == 0 then None else Some(ms[i - 1])
  }

  /** The reference rendering, position by position: block `i` depends on
      message `i` and on message `i - 1` only, never on where its block began. */
  lemma {:induction false} RenderFromAt(prev: Option<Message>, ms: seq<Message>, i: nat)
    requires i < |ms|
    ensures RenderFrom(prev, ms)[i] == RenderMessage(if i == 0 then prev else Some(ms[i - 1]), ms[i])
    decreases i
  {
    if i > 0 {
      RenderFromAt(Some(ms[0]), ms[1..], i - 1);
      assert ms[1..][i - 1] == ms[i];
      if i - 1 > 0 {
        assert ms[1..][i - 2] == ms[i - 1];
      }
    }
  }

  /** The rendering loop over the chronologically ordered messages. */
  method Render(ms: seq<Message>) returns (blocks: seq<Block>)
    ensures |blocks| == |ms|
    ensures |ms| > 0 ==> blocks[0].Full?
    ensures forall i :: 0 < i < |ms| ==> (blocks[i].Compact? <==> Continues(ms[i - 1], ms[i]))
    ensures forall i :: 0 <= i < |ms| ==>
      blocks[i].content == ms[i].content && blocks[i].timestamp == ms[i].timestamp &&
      blocks[i].items == Items(ms[i].attachments)
    ensures forall i :: 0 <= i < |ms| && blocks[i].Full? ==> blocks[i].author == ms[i].author
    ensures blocks == RenderFrom(None, ms)
  {
    blocks := [];
    var i := 0;
    while i < |ms|
      invariant 0 <= i <= |ms|
      invariant |blocks| == i
      invariant forall j :: 0 <= j < i ==> blocks[j] == RenderMessage(PrevOf(ms, j), ms[j])
    {
      var prev := if i > 0 then Some(ms[i - 1]) else None;
      blocks := blocks + [RenderMessage(prev, ms[i])];
      i := i + 1;
    }
    forall j | 0 <= j < |ms|
      ensures blocks[j] == RenderFrom(None, ms)[j]
    {
      RenderFromAt(None, ms, j);
    }
  }

  /** Grouping compares with the immediate predecessor, so one compact run can
      span more than the window: three messages 50 s apart render as one full
      block and two continuations although the last is 100 s after the first. */
  lemma GroupingDrifts()
    ensures var ms := [Message("a", 0, "", []), Message("a", 50000, "", []), Message("a", 100000, "", [])];
      && RenderFrom(None, ms) == [RenderMessage(None, ms[0]), RenderMessage(Some(ms[0]), ms[1]), RenderMessage(Some(ms[1]), ms[2])]
      && RenderFrom(None, ms)[0].Full?
      && RenderFrom(None, ms)[1].Compact?
      && RenderFrom(None, ms)[2].Compact?
      && ms[2].timestamp - ms[0].timestamp >= GroupWindowMs
  {
    var ms := [Message("a", 0, "", []), Message("a", 50000, "", []), Message("a", 100000, "", [])];
    assert ms[1..] == [ms[1], ms[2]];
    assert ms[1..][1..] == [ms[2]];
  }

  /** Two messages of one author: 30 s apart they form one group, 90 s apart two. */
  lemma TwoMessagesOfOneAuthor(author: string, t: Time)
    ensures var ms := [Message(author, t, "", []), Message(author, t + 30000, "", [])];
      RenderFrom(None, ms)[0].Full? && RenderFrom(None, ms)[1].Compact?
    ensures var ms := [Message(author, t, "", []), Message(author, t + 90000, "", [])];
      RenderFrom(None, ms)[0].Full? && RenderFrom(None, ms)[1].Full?
  {
    var ms1 := [Message(author, t, "", []), Message(author, t + 30000, "", [])];
    var ms2 := [Message(author, t, "", []), Message(author, t + 90000, "", [])];
    RenderFromAt(None, ms1, 0);
    RenderFromAt(None, ms1, 1);
    RenderFromAt(None, ms2, 0);
    RenderFromAt(None, ms2, 1);
  }

  // ---------------------------------------------------------------------------
  // Attachments

  /** The extension test: the lower-cased name ends in a dot followed by one
      of the image extensions. */
  predicate IsImageName(name: string) {
    exists k :: 0 <= k < |ImageExtensions| && EndsWith(Lower(name), "." + ImageExtensions[k])
  }

  /** The same test read off the pattern: some dot in the name is followed,
      up to the end of the name, by an image extension in any letter case. */
  predicate MatchesImagePattern(name: string) {
    exists p :: 0 <= p < |name| && name[p] == '.' && Lower(name[p + 1..]) in ImageExtensions
  }

  lemma LowerDot(c: char)
    ensures LowerChar(c) == '.' <==> c == '.'
  {
  }

  lemma ImageNameHasPattern(name: string)
    requires IsImageName(name)
    ensures MatchesImagePattern(name)
  {
    var k :| 0 <= k < |ImageExtensions| && EndsWith(Lower(name), "." + ImageExtensions[k]);
    var e := ImageExtensions[k];
    var p := |name| - |e| - 1;
    assert Lower(name)[p..] == "." + e;
    assert Lower(name)[p] == '.';
    LowerDot(name[p]);
    LowerSuffix(name, p + 1);
    assert Lower(name[p + 1..]) == e;
  }

  /** A dot followed by `e` up to the end, once lower-cased, is a suffix `.e`. */
  lemma DotSuffix(name: string, p: nat, e: string)
    requires p < |name| && name[p] == '.' && Lower(name[p + 1..]) == e
    ensures EndsWith(Lower(name), "." + e)
  {
    LowerSuffix(name, p);
    LowerSuffix(name, p + 1);
    assert Lower(name)[p..] == [Lower(name)[p]] + Lower(name)[p + 1..];
  }

  lemma PatternHasImageName(name: string)
    requires MatchesImagePattern(name)
    ensures IsImageName(name)
  {
    var p :| 0 <= p < |name| && name[p] == '.' && Lower(name[p + 1..]) in ImageExtensions;
    var e := Lower(name[p + 1..]);
    var k :| 0 <= k < |ImageExtensions| && ImageExtensions[k] == e;
    DotSuffix(name, p, e);
  }

  /** The suffix test and the pattern accept exactly the same names. */
  lemma ImageNameMatchesPattern(name: string)
    ensures IsImageName(name) <==> MatchesImagePattern(name)
  {
    if IsImageName(name) {
      ImageNameHasPattern(name);
    }
    if MatchesImagePattern(name) {
      PatternHasImageName(name);
    }
  }

  /** The content type of an inlined image: the declared one, or the default
      when it is missing or empty. */
  function ImageMime(contentType: Option<string>): (r: string)
    ensures r != ""
    ensures contentType.Some? && contentType.value != "" ==> r == contentType.value
    ensures contentType.None? || contentType.value == "" ==> r == DefaultImageMime
  {
    if contentType.Some? && contentType.value != "" then contentType.value else DefaultImageMime
  }

  function AttachmentItem(a: Attachment): (it: Item)
    ensures it.FileLink? <==> !MatchesImagePattern(a.name)
    ensures it.InlineImage? <==> MatchesImagePattern(a.name) && a.fetchable
    ensures it.name == a.name
    ensures it.InlineImage? ==> it.mime == ImageMime(a.contentType)
    ensures it.FileLink? ==> it.size == a.size
  {
    ImageNameMatchesPattern(a.name);
    if IsImageName(a.name) then
      if a.fetchable then InlineImage(ImageMime(a.contentType), a.name) else ImageUnavailable(a.name)
    else
      FileLink(a.name, a.size)
  }

  function Items(atts: seq<Attachment>): (r: seq<Item>)
    ensures |r| == |atts|
    ensures forall i :: 0 <= i < |atts| ==> r[i] == AttachmentItem(atts[i])
  {
    seq(|atts|, i requires 0 <= i < |atts| => AttachmentItem(atts[i]))
  }

  // ---------------------------------------------------------------------------
  // Delivery

  const FilePrefix: string := "transcript-"
  const FileSuffix: string := ".html"

  /** The name of the delivered file; the channel name can be read back from it. */
  function TranscriptFileName(channelName: string): (r: string)
    ensures FilePrefix <= r && EndsWith(r, FileSuffix)
    ensures |r| == |FilePrefix| + |channelName| + |FileSuffix|
    ensures r[|FilePrefix|..|r| - |FileSuffix|] == channelName
  {
    FilePrefix + channelName + FileSuffix
  }

  lemma TranscriptFileNameInjective(a: string, b: string)
    ensures TranscriptFileName(a) == TranscriptFileName(b) ==> a == b
  {
  }

  /** The document delivered to the archive channel. */
  datatype Document = Document(channel: Snowflake, fileName: string, blocks: seq<Block>)

  /** Renders the transcript of a closed ticket's channel for the guild whose
      configuration is `config`. */
  method Archive(ticket: Ticket, config: Config, history: seq<Message>) returns (doc: Document)
    ensures doc.channel == config.transcriptChannelId
    ensures doc.fileName == TranscriptFileName(ticket.channelName)
    ensures |doc.blocks| == Min(|history|, FetchLimit)
    ensures doc.blocks == RenderFrom(None, history[|history| - Min(|history|, FetchLimit)..])
  {
    var ms := TranscriptMessages(history);
    var blocks := Render(ms);
    doc := Document(config.transcriptChannelId, TranscriptFileName(ticket.channelName), blocks);
  }
}
