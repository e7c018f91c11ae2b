/** The request and response shaping that every provider repeats: turning messages into
    role/content records, the token budget, and joining the text blocks of a reply. */
module Wire {
  import opened Wrappers
  import opened Base

  /** The normalized answer of every provider: `{"content": ...}` plus an optional `"image_url"`. */
  datatype Reply = Reply(content: string, imageUrl: Option<string>)

  /** A `{"role": ..., "content": ...}` record as sent to a vendor. */
  datatype WireMessage = WireMessage(role: string, content: string)

  /** The record carrying a system prompt. */
  function SystemMessage(prompt: string): WireMessage {
    WireMessage("system", prompt)
  }

  /** The record a message becomes. */
  function ToWire(m: Message): WireMessage {
    WireMessage(m.role, m.content)
  }

  /** Every message converted, in order. */
  function Wired(ms: seq<Message>): (ws: seq<WireMessage>)
    ensures |ws| == |ms|
    ensures forall i :: 0 <= i < |ms| ==> ws[i].role == ms[i].role && ws[i].content == ms[i].content
  {
    seq(|ms|, i requires 0 <= i < |ms| => ToWire(ms[i]))
  }

  /** The messages a list of records describes. */
  function Unwired(ws: seq<WireMessage>): (ms: seq<Message>)
    ensures |ms| == |ws|
  {
    seq(|ws|, i requires 0 <= i < |ws| => Message(ws[i].role, ws[i].content))
  }

  /** Conversion loses nothing: the records give back exactly the messages. */
  lemma UnwiredWired(ms: seq<Message>)
    ensures Unwired(Wired(ms)) == ms
  {
  }

  /** The source's `for msg in messages: out.append({"role": ..., "content": ...})`, starting
      from the records already in `init`. */
  method AppendWired(init: seq<WireMessage>, ms: seq<Message>) returns (out: seq<WireMessage>)
    ensures out == init + Wired(ms)
  {
    out := init;
    var i := 0;
    while i < |ms|
      invariant 0 <= i <= |ms|
      invariant out == init + Wired(ms[..i])
    {
      out := out + [ToWire(ms[i])];
      i := i + 1;
    }
    assert ms[..i] == ms;
  }

  /** The token budget: 1000 for summarization, 2000 for every other task type. */
  function MaxTokens(t: ModelType): (n: nat)
    ensures n == 1000 <==> t == Summarization
    ensures n != 1000 ==> n == 2000
  {
    if t == Summarization then 1000 else 2000
  }

  /** One block of a reply's `content` list; a missing key is None. */
  datatype ContentBlock = ContentBlock(blockType: Option<string>, text: Option<string>)

  /** A block of type "text" carrying `text`. */
  function TextBlock(text: string): ContentBlock {
    ContentBlock(Some("text"), Some(text))
  }

  /** What one block contributes: its text when its type is "text" (a missing text is ""),
      nothing otherwise. */
  function BlockText(b: ContentBlock): string {
    if b.blockType == Some("text") then b.text.GetOr("") else ""
  }

  /** The contributions of all blocks, concatenated in order. */
  function JoinedText(bs: seq<ContentBlock>): string
    decreases |bs|
  {
    if bs == [] then "" else BlockText(bs[0]) + JoinedText(bs[1..])
  }

  /** Joining distributes over concatenation of block lists. */
  lemma {:induction false} JoinedTextAppend(a: seq<ContentBlock>, b: seq<ContentBlock>)
    ensures JoinedText(a + b) == JoinedText(a) + JoinedText(b)
    decreases |a|
  {
    if a == [] {
      assert a + b == b;
    } else {
      assert (a + b)[1..] == a[1..] + b;
      JoinedTextAppend(a[1..], b);
    }
  }

  /** Blocks of any other type contribute nothing. */
  lemma {:induction false} JoinedTextSkipsNonText(bs: seq<ContentBlock>)
    requires forall i :: 0 <= i < |bs| ==> bs[i].blockType != Some("text")
    ensures JoinedText(bs) == ""
    decreases |bs|
  {
    if bs != [] {
      JoinedTextSkipsNonText(bs[1..]);
    }
  }

  /** A reply made of text blocks only is the concatenation of their texts. */
  lemma {:induction false} JoinedTextOfTextBlocks(texts: seq<string>)
    ensures JoinedText(seq(|texts|, i requires 0 <= i < |texts| => TextBlock(texts[i]))) == Concat(texts)
    decreases |texts|
  {
    var bs := seq(|texts|, i requires 0 <= i < |texts| => TextBlock(texts[i]));
    if texts != [] {
      var rest := seq(|texts[1..]|, i requires 0 <= i < |texts[1..]| => TextBlock(texts[1..][i]));
      assert bs[1..] == rest;
      JoinedTextOfTextBlocks(texts[1..]);
    }
  }

  /** Strings concatenated in order. */
  function Concat(ss: seq<string>): string
    decreases |ss|
  {
    if ss == [] then "" else ss[0] + Concat(ss[1..])
  }

  /** The source's `content = ""; for block in blocks: if text block: content += text`. */
  method JoinTextBlocks(bs: seq<ContentBlock>) returns (content: string)
    ensures content == JoinedText(bs)
  {
    content := "";
    var i := 0;
    while i < |bs|
      invariant 0 <= i <= |bs|
      invariant content == JoinedText(bs[..i])
    {
      if bs[i].blockType == Some("text") {
        content := content + bs[i].text.GetOr("");
      }
      JoinedTextAppend(bs[..i], [bs[i]]);
      assert bs[..i + 1] == bs[..i] + [bs[i]];
      i := i + 1;
    }
    assert bs[..i] == bs;
  }
}
