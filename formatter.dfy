/** The transcript handed to the text generator: one line per message, in the order the
    message collection yields them. */
module Formatter {
  import opened Discord

  /** `<content type>; <url>`: one attachment as the inner loop appends it. */
  function AttachmentText(attachment: Attachment): string
  {
    attachment.contentType + "; " + attachment.url
  }

  /** The attachments one after another, with no separator between them. */
  function AttachmentsText(attachments: seq<Attachment>): string
  {
    if attachments == [] then ""
    else AttachmentsText(attachments[..|attachments| - 1]) + AttachmentText(attachments[|attachments| - 1])
  }

  /** `<iso>; <id>; <author tag>; <content> `, the part of a line every message has. */
  function Header(message: Message, iso: int -> string): string
  {
    iso(message.createdTimestamp) + "; " + message.id + "; " + message.authorTag + "; " + message.content + " "
  }

  /** The marker and the attachments, only when there is at least one attachment. */
  function AttachmentsSection(attachments: seq<Attachment>): string
  {
    if |attachments| > 0 then "Attachment/s: " + AttachmentsText(attachments) else ""
  }

  /** One message's line: the header, the attachments section and a newline. */
  function Line(message: Message, iso: int -> string): string
  {
    Header(message, iso) + AttachmentsSection(message.attachments) + "\n"
  }

  /** The lines of all messages, in order. */
  function Transcript(messages: seq<Message>, iso: int -> string): string
  {
    if messages == [] then ""
    else Transcript(messages[..|messages| - 1], iso) + Line(messages[|messages| - 1], iso)
  }

  lemma Associate3(a: string, b: string, c: string)
    ensures a + b + c == a + (b + c)
  {
  }

  lemma Associate4(a: string, b: string, c: string, d: string)
    ensures a + b + c + d == a + (b + (c + d))
  {
  }

  /** The string builder of the source: an outer loop over the messages and an inner
      loop over each message's attachments. `iso` renders a millisecond instant as an
      ISO-8601 string. */
  method FormatThreadMessages(messages: seq<Message>, iso: int -> string) returns (threadMessages: string)
    ensures threadMessages == Transcript(messages, iso)
    ensures messages == [] ==> threadMessages == ""
  {
    threadMessages := "";
    for i := 0 to |messages|
      invariant threadMessages == Transcript(messages[..i], iso)
    {
      var message := messages[i];
      ghost var before := threadMessages;
      threadMessages := threadMessages + Header(message, iso);
      if |message.attachments| > 0 {
        threadMessages := threadMessages + "Attachment/s: ";
        ghost var prefix := threadMessages;
        for j := 0 to |message.attachments|
          invariant threadMessages == prefix + AttachmentsText(message.attachments[..j])
        {
          assert message.attachments[..j + 1][..j] == message.attachments[..j];
          Associate3(prefix, AttachmentsText(message.attachments[..j]), AttachmentText(message.attachments[j]));
          threadMessages := threadMessages + AttachmentText(message.attachments[j]);
        }
        assert message.attachments[..|message.attachments|] == message.attachments;
        Associate4(before, Header(message, iso), "Attachment/s: ", AttachmentsText(message.attachments));
      }
      Associate3(before, Header(message, iso) + AttachmentsSection(message.attachments), "\n");
      threadMessages := threadMessages + "\n";
      assert messages[..i + 1][..i] == messages[..i];
    }
    assert messages[..|messages|] == messages;
  }

  // ---------------------------------------------------------------------------
  // What the transcript is made of
  // ---------------------------------------------------------------------------

  /** The transcript of two batches is the first batch's transcript followed by the
      second's: each message contributes its own line and nothing else. */
  lemma {:induction false} TranscriptAppend(a: seq<Message>, b: seq<Message>, iso: int -> string)
    ensures Transcript(a + b, iso) == Transcript(a, iso) + Transcript(b, iso)
  {
    if b != [] {
      var ab := a + b;
      var init := b[..|b| - 1];
      var last := Line(b[|b| - 1], iso);
      assert Transcript(ab, iso) == Transcript(a + init, iso) + last by {
        assert ab[..|ab| - 1] == a + init;
        assert ab[|ab| - 1] == b[|b| - 1];
      }
      TranscriptAppend(a, init, iso);
      assert Transcript(b, iso) == Transcript(init, iso) + last;
      Associate3(Transcript(a, iso), Transcript(init, iso), last);
    } else {
      assert a + b == a;
      assert Transcript(a, iso) + Transcript(b, iso) == Transcript(a, iso);
    }
  }

  /** The number of newline characters in a string. */
  function Newlines(s: string): nat
  {
    if s == [] then 0 else (if s[0] == '\n' then 1 else 0) + Newlines(s[1..])
  }

  lemma {:induction false} NewlinesAppend(a: string, b: string)
    ensures Newlines(a + b) == Newlines(a) + Newlines(b)
  {
    if a != [] {
      assert (a + b)[1..] == a[1..] + b;
      NewlinesAppend(a[1..], b);
    } else {
      assert a + b == b;
    }
  }

  lemma {:induction false} NoNewlines(s: string)
    requires '\n' !in s
    ensures Newlines(s) == 0
  {
    if s != [] {
      NoNewlines(s[1..]);
    }
  }

  /** The newline-free parts of a message: its rendered instant, id, author tag,
      content and every attachment's content type and url. */
  predicate SingleLine(message: Message, iso: int -> string)
  {
    '\n' !in iso(message.createdTimestamp) && '\n' !in message.id && '\n' !in message.authorTag &&
    '\n' !in message.content &&
    forall k :: 0 <= k < |message.attachments| ==>
      '\n' !in message.attachments[k].contentType && '\n' !in message.attachments[k].url
  }

  lemma {:induction false} AttachmentsTextSingleLine(attachments: seq<Attachment>)
    requires forall k :: 0 <= k < |attachments| ==>
      '\n' !in attachments[k].contentType && '\n' !in attachments[k].url
    ensures Newlines(AttachmentsText(attachments)) == 0
  {
    if attachments != [] {
      var init := attachments[..|attachments| - 1];
      var last := attachments[|attachments| - 1];
      AttachmentsTextSingleLine(init);
      NoNewlines(last.contentType);
      NoNewlines(last.url);
      NoNewlines("; ");
      NewlinesAppend(last.contentType, "; ");
      NewlinesAppend(last.contentType + "; ", last.url);
      NewlinesAppend(AttachmentsText(init), AttachmentText(last));
    }
  }

  lemma {:induction false} HeaderSingleLine(message: Message, iso: int -> string)
    requires SingleLine(message, iso)
    ensures Newlines(Header(message, iso)) == 0
  {
    var h0 := iso(message.createdTimestamp);
    NoNewlines(h0);
    NoNewlines(message.id);
    NoNewlines(message.authorTag);
    NoNewlines(message.content);
    NoNewlines("; ");
    NoNewlines(" ");
    NewlinesAppend(h0, "; ");
    NewlinesAppend(h0 + "; ", message.id);
    NewlinesAppend(h0 + "; " + message.id, "; ");
    NewlinesAppend(h0 + "; " + message.id + "; ", message.authorTag);
    NewlinesAppend(h0 + "; " + message.id + "; " + message.authorTag, "; ");
    NewlinesAppend(h0 + "; " + message.id + "; " + message.authorTag + "; ", message.content);
    NewlinesAppend(h0 + "; " + message.id + "; " + message.authorTag + "; " + message.content, " ");
  }

  /** A message whose parts hold no newline renders as exactly one line. */
  lemma {:induction false} LineIsOneLine(message: Message, iso: int -> string)
    requires SingleLine(message, iso)
    ensures Newlines(Line(message, iso)) == 1
  {
    var header := Header(message, iso);
    var section := AttachmentsSection(message.attachments);
    assert Newlines(header) == 0 by {
      HeaderSingleLine(message, iso);
    }
    assert Newlines(section) == 0 by {
      if |message.attachments| > 0 {
        AttachmentsTextSingleLine(message.attachments);
        NoNewlines("Attachment/s: ");
        NewlinesAppend("Attachment/s: ", AttachmentsText(message.attachments));
      }
    }
    assert Newlines("\n") == 1 by {
      assert "\n"[1..] == [];
    }
    NewlinesAppend(header, section);
    NewlinesAppend(header + section, "\n");
  }

  /** A transcript of messages whose parts hold no newline has exactly one line per
      message; in particular the empty collection gives the empty string. */
  lemma {:induction false} OneLinePerMessage(messages: seq<Message>, iso: int -> string)
    requires forall k :: 0 <= k < |messages| ==> SingleLine(messages[k], iso)
    ensures Newlines(Transcript(messages, iso)) == |messages|
  {
    if messages != [] {
      var init := messages[..|messages| - 1];
      OneLinePerMessage(init, iso);
      LineIsOneLine(messages[|messages| - 1], iso);
      NewlinesAppend(Transcript(init, iso), Line(messages[|messages| - 1], iso));
    }
  }
}
